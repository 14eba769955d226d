/** A vendor's store settings update (`POST /api/vendor/store`): the
    defined values of ten whitelisted keys are `$set` on the vendor's
    document.  Status, verification flag, linked account and owner are not
    among them, so a vendor cannot change them; in particular new bank
    details keep the old verification flag and linked account. */
module VendorStore {
  import opened Base
  import opened Model
  import opened BankCheck
  import opened Whitelist

  const StoreFields := {
    "businessName", "businessEmail", "businessPhone", "businessAddress", "description",
    "payoutDetails", "openingHours", "returnPolicy", "shippingOptions", "taxInfo"}

  /** The keys that are neither the business name nor the bank details; the
      model keeps their values as they came. */
  const ProfileFields := StoreFields - {"businessName", "payoutDetails"}

  /** A vendor document: the fields the payout engine reads, and the rest
      of the store profile. */
  datatype VendorDoc = VendorDoc(vendor: Vendor, profile: map<string, Value>)

  datatype StoreResponse = VendorNotFound404 | NoValidFields400 | UpdateFailed500 | Updated200

  datatype StoreResult = StoreResult(doc: Option<VendorDoc>, response: StoreResponse)

  /** The business name is cast to a string and must not be `null` here;
      the bank details take an object with the bank fields, or `null`. */
  predicate WellTyped(upd: Body)
  {
    && ("businessName" in upd ==> CastString(upd["businessName"]).Cast? && CastString(upd["businessName"]).stored.Some?)
    && ("payoutDetails" in upd ==> upd["payoutDetails"].Details? || upd["payoutDetails"].Null?)
  }

  /** The bank details a `$set` stores: the object, or none for `null`. */
  function StoredDetails(v: Value): (r: Option<PayoutDetails>)
    requires v.Details? || v.Null?
    ensures r.Some? <==> v.Details?
    ensures r.Some? ==> r.value == v.d
  {
    if v.Details? then Some(v.d) else None
  }

  /** `$set` of an update whose values cast. */
  function SetFields(doc: VendorDoc, upd: Body): (r: VendorDoc)
    requires WellTyped(upd)
    requires upd.Keys <= StoreFields
    ensures r.vendor.businessName ==
      (if "businessName" in upd then CastString(upd["businessName"]).stored.value else doc.vendor.businessName)
    ensures r.vendor.payoutDetails ==
      (if "payoutDetails" in upd then StoredDetails(upd["payoutDetails"]) else doc.vendor.payoutDetails)
    ensures r.vendor.id == doc.vendor.id && r.vendor.status == doc.vendor.status
    ensures r.vendor.isBankVerified == doc.vendor.isBankVerified
    ensures r.vendor.razorpayAccountId == doc.vendor.razorpayAccountId
    ensures forall k :: k in r.profile <==> k in doc.profile || (k in upd && k in ProfileFields)
    ensures forall k :: k in upd && k in ProfileFields ==> r.profile[k] == upd[k]
    ensures forall k :: k in doc.profile && k !in upd ==> r.profile[k] == doc.profile[k]
  {
    var v := doc.vendor;
    var v1 := v.(businessName := if "businessName" in upd then CastString(upd["businessName"]).stored.value else v.businessName,
                 payoutDetails := if "payoutDetails" in upd then StoredDetails(upd["payoutDetails"]) else v.payoutDetails);
    var extra := map k | k in upd && k in ProfileFields :: upd[k];
    VendorDoc(v1, doc.profile + extra)
  }

  /** The route for the signed-in vendor's document (None when the user has
      no vendor profile). */
  function UpdateStore(doc: Option<VendorDoc>, body: Body): (r: StoreResult)
    ensures doc.None? ==> r == StoreResult(doc, VendorNotFound404)
    ensures doc.Some? && |Pick(body, StoreFields)| == 0 ==> r == StoreResult(doc, NoValidFields400)
    ensures r.response == Updated200 <==>
      doc.Some? && |Pick(body, StoreFields)| > 0 && WellTyped(Pick(body, StoreFields))
    ensures r.response != Updated200 ==> r.doc == doc
    ensures r.response == Updated200 ==> r.doc == Some(SetFields(doc.value, Pick(body, StoreFields)))
  {
    match doc
    case None => StoreResult(doc, VendorNotFound404)
    case Some(d) =>
      var upd := Pick(body, StoreFields);
      if |upd| == 0 then StoreResult(doc, NoValidFields400)
      else if !WellTyped(upd) then StoreResult(doc, UpdateFailed500)
      else StoreResult(Some(SetFields(d, upd)), Updated200)
  }

  /** Whatever the body, the fields outside the whitelist keep their values. */
  lemma ProtectedFieldsUnchanged(doc: VendorDoc, body: Body)
    ensures var r := UpdateStore(Some(doc), body);
            && r.doc.Some?
            && r.doc.value.vendor.id == doc.vendor.id
            && r.doc.value.vendor.status == doc.vendor.status
            && r.doc.value.vendor.isBankVerified == doc.vendor.isBankVerified
            && r.doc.value.vendor.razorpayAccountId == doc.vendor.razorpayAccountId
  {
  }

  /** New bank details do not reset verification: a verified vendor that
      saves other well-formed details still passes the bank check, and the
      linked account created for the old details is kept. */
  lemma NewDetailsStayVerified(doc: VendorDoc, d: PayoutDetails)
    requires doc.vendor.isBankVerified
    requires d.accountNumber != "" && d.ifscCode != "" && d.accountHolder != "" && IsIfsc(d.ifscCode)
    ensures var r := UpdateStore(Some(doc), map["payoutDetails" := Details(d)]);
            && r.response == Updated200
            && r.doc.value.vendor.payoutDetails == Some(d)
            && ValidateBankDetails(r.doc.value.vendor) == Valid
            && r.doc.value.vendor.razorpayAccountId == doc.vendor.razorpayAccountId
  {
    var body := map["payoutDetails" := Details(d)];
    assert "payoutDetails" in Pick(body, StoreFields);
  }

  /** A number sent as the business name is stored as its decimal text. */
  lemma NumericNameIsText(doc: VendorDoc, n: int)
    ensures var r := UpdateStore(Some(doc), map["businessName" := Num(n)]);
            r.response == Updated200 && r.doc.value.vendor.businessName == IntToString(n)
  {
    var upd := Pick(map["businessName" := Num(n)], StoreFields);
    assert "businessName" in upd && upd["businessName"] == Num(n);
    assert CastString(Num(n)) == Cast(Some(IntToString(n)));
  }

  /** A boolean sent as the business name is stored as "true" or "false". */
  lemma BooleanNameIsText(doc: VendorDoc, b: bool)
    ensures var r := UpdateStore(Some(doc), map["businessName" := Bool(b)]);
            r.response == Updated200 && r.doc.value.vendor.businessName == (if b then "true" else "false")
  {
    var upd := Pick(map["businessName" := Bool(b)], StoreFields);
    assert "businessName" in upd && upd["businessName"] == Bool(b);
  }

  /** `null` bank details clear them, which the next payout run turns into
      a block. */
  lemma NullDetailsBlockPayouts(doc: VendorDoc)
    ensures var r := UpdateStore(Some(doc), map["payoutDetails" := Null]);
            && r.response == Updated200 && r.doc.value.vendor.payoutDetails.None?
            && ValidateBankDetails(r.doc.value.vendor) == Invalid(BankDetailsMissing)
  {
    assert "payoutDetails" in Pick(map["payoutDetails" := Null], StoreFields);
  }
}
