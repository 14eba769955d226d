/** The platform settings routes (`/api/admin/settings`): GET returns the
    singleton, creating it with the schema defaults when there is none;
    PATCH copies the defined whitelisted fields onto it, or creates it from
    them.  The commission rate is stored as given, with no range check, and
    the next payout and checkout use it. */
module AdminSettings {
  import opened Base
  import opened Model
  import opened Commission
  import opened Whitelist

  const SettingsFields := {"commissionRate", "supportEmail", "supportPhone", "lowStockThreshold"}

  datatype SettingsResponse =
    | NoValidFields400
    | SaveFailed500
    | Saved200(settings: Settings)
    | Shown200(settings: Settings)

  datatype SettingsResult = SettingsResult(settings: Option<Settings>, response: SettingsResponse)

  /** The save succeeds when every given field casts to its schema type and
      the required rate is not cast to `null`. */
  predicate Saves(upd: Body)
  {
    && ("commissionRate" in upd ==> CastNumber(upd["commissionRate"]).Cast? && CastNumber(upd["commissionRate"]).stored.Some?)
    && ("lowStockThreshold" in upd ==> CastNumber(upd["lowStockThreshold"]).Cast?)
    && ("supportEmail" in upd ==> CastString(upd["supportEmail"]).Cast?)
    && ("supportPhone" in upd ==> CastString(upd["supportPhone"]).Cast?)
  }

  /** `Object.assign(settings, update)` followed by the schema casts: each
      given field holds its cast value, the others keep theirs. */
  function Assign(s: Settings, upd: Body): (r: Settings)
    requires Saves(upd)
    ensures "commissionRate" in upd ==> r.commissionRate == CastNumber(upd["commissionRate"]).stored.value
    ensures "commissionRate" !in upd ==> r.commissionRate == s.commissionRate
    ensures "lowStockThreshold" in upd ==> r.lowStockThreshold == CastNumber(upd["lowStockThreshold"]).stored
    ensures "lowStockThreshold" !in upd ==> r.lowStockThreshold == s.lowStockThreshold
    ensures "supportEmail" in upd ==> r.supportEmail == CastString(upd["supportEmail"]).stored
    ensures "supportEmail" !in upd ==> r.supportEmail == s.supportEmail
    ensures "supportPhone" in upd ==> r.supportPhone == CastString(upd["supportPhone"]).stored
    ensures "supportPhone" !in upd ==> r.supportPhone == s.supportPhone
  {
    Settings(
      if "commissionRate" in upd then CastNumber(upd["commissionRate"]).stored.value else s.commissionRate,
      if "supportEmail" in upd then CastString(upd["supportEmail"]).stored else s.supportEmail,
      if "supportPhone" in upd then CastString(upd["supportPhone"]).stored else s.supportPhone,
      if "lowStockThreshold" in upd then CastNumber(upd["lowStockThreshold"]).stored else s.lowStockThreshold)
  }

  /** GET: the stored document, or a new one with the defaults. */
  function GetSettings(current: Option<Settings>): (r: SettingsResult)
    ensures r.settings.Some? && r.response == Shown200(r.settings.value)
    ensures current.Some? ==> r.settings == current
    ensures current.None? ==> r.settings == Some(DefaultSettings) && r.settings.value.commissionRate == DefaultRate
  {
    match current
    case Some(s) => SettingsResult(current, Shown200(s))
    case None => SettingsResult(Some(DefaultSettings), Shown200(DefaultSettings))
  }

  /** PATCH: 400 with nothing saved when no whitelisted field is defined;
      otherwise the update applied to the stored document, or to the
      defaults when there is none. */
  function PatchSettings(current: Option<Settings>, body: Body): (r: SettingsResult)
    ensures |Pick(body, SettingsFields)| == 0 ==> r == SettingsResult(current, NoValidFields400)
    ensures |Pick(body, SettingsFields)| > 0 && !Saves(Pick(body, SettingsFields)) ==>
      r == SettingsResult(current, SaveFailed500)
    ensures r.response.Saved200? <==> |Pick(body, SettingsFields)| > 0 && Saves(Pick(body, SettingsFields))
    ensures r.response.Saved200? ==>
      var base := if current.Some? then current.value else DefaultSettings;
      && r.settings == Some(r.response.settings)
      && r.response.settings == Assign(base, Pick(body, SettingsFields))
  {
    var upd := Pick(body, SettingsFields);
    if |upd| == 0 then SettingsResult(current, NoValidFields400)
    else if !Saves(upd) then SettingsResult(current, SaveFailed500)
    else
      var s := Assign(if current.Some? then current.value else DefaultSettings, upd);
      SettingsResult(Some(s), Saved200(s))
  }

  /** Repeating a PATCH changes nothing more. */
  lemma {:induction false} PatchIsIdempotent(current: Option<Settings>, body: Body)
    ensures var r1 := PatchSettings(current, body);
            PatchSettings(r1.settings, body).settings == r1.settings
  {
    var upd := Pick(body, SettingsFields);
    if |upd| > 0 && Saves(upd) {
      var s := PatchSettings(current, body).settings.value;
      assert Assign(s, upd) == s;
    }
  }

  /** Any rate is accepted, negative or above a hundred percent, and becomes
      the rate the payout engine and checkout read. */
  lemma AnyRateIsStored(current: Option<Settings>, rate: int)
    ensures var r := PatchSettings(current, map["commissionRate" := Num(rate)]);
            r.response.Saved200? && CurrentRate(Some(r.settings.value.commissionRate)) == rate
  {
    var body := map["commissionRate" := Num(rate)];
    assert "commissionRate" in Pick(body, SettingsFields);
  }

  /** A rate sent as a numeric string is stored as that number. */
  lemma NumericStringRateIsStored(current: Option<Settings>, rate: int)
    ensures var r := PatchSettings(current, map["commissionRate" := Text(IntToString(rate))]);
            r.response.Saved200? && r.settings.value.commissionRate == rate
  {
    NumberStringRoundTrip(rate);
    assert "commissionRate" in Pick(map["commissionRate" := Text(IntToString(rate))], SettingsFields);
  }

  /** A phone number sent as a number is stored as its digits. */
  lemma NumericPhoneIsText(current: Option<Settings>, phone: nat)
    ensures var r := PatchSettings(current, map["supportPhone" := Num(phone)]);
            r.response.Saved200? && r.settings.value.supportPhone == Some(NatToString(phone))
  {
    assert "supportPhone" in Pick(map["supportPhone" := Num(phone)], SettingsFields);
  }

  /** A `null` threshold is stored as `null`; a `null` or empty rate fails
      the required check and nothing is saved. */
  lemma NullsInPatch(current: Option<Settings>)
    ensures var r := PatchSettings(current, map["lowStockThreshold" := Null]);
            r.response.Saved200? && r.settings.value.lowStockThreshold.None?
    ensures PatchSettings(current, map["commissionRate" := Null]) == SettingsResult(current, SaveFailed500)
    ensures PatchSettings(current, map["commissionRate" := Text("")]) == SettingsResult(current, SaveFailed500)
  {
    assert "lowStockThreshold" in Pick(map["lowStockThreshold" := Null], SettingsFields);
    assert "commissionRate" in Pick(map["commissionRate" := Null], SettingsFields);
    assert "commissionRate" in Pick(map["commissionRate" := Text("")], SettingsFields);
  }
}
