/** Email OTP verification (`POST /api/otp/verify`): five wrong codes lock
    the code out, an expired code is refused without counting an attempt,
    and a right code verifies the email.  The clock is a parameter. */
module Otp {
  import opened Base

  const MaxAttempts := 5

  /** The OTP fields of a user record; `attempts` is None when never set. */
  datatype OtpUser = OtpUser(otp: Option<string>, otpExpires: Option<int>, attempts: Option<int>, isEmailVerified: bool)

  datatype OtpResponse =
    | Unauthorized401
    | NoOtpRequest400
    | TooManyAttempts429
    | Expired400
    | Invalid400(remaining: int)
    | Verified200

  datatype OtpResult = OtpResult(user: Option<OtpUser>, response: OtpResponse)

  /** `otpAttempts || 0`. */
  function AttemptsSoFar(u: OtpUser): (n: int)
    ensures u.attempts.Some? && u.attempts.value != 0 ==> n == u.attempts.value
    ensures u.attempts.None? || u.attempts.value == 0 ==> n == 0
  {
    match u.attempts
    case None => 0
    case Some(a) => a
  }

  /** The route for the signed-in email (None without a session email) and
      its user record (None when there is none); `submitted` is the code in
      the body, None when absent. */
  function VerifyOtp(email: Option<string>, user: Option<OtpUser>, submitted: Option<string>, now: int): (r: OtpResult)
    ensures !Truthy(email) ==> r == OtpResult(user, Unauthorized401)
    ensures Truthy(email) && (user.None? || !Truthy(user.value.otp) || user.value.otpExpires.None?) ==>
      r == OtpResult(user, NoOtpRequest400)
    ensures r.response == TooManyAttempts429 <==>
      Truthy(email) && user.Some? && Truthy(user.value.otp) && user.value.otpExpires.Some?
      && AttemptsSoFar(user.value) >= MaxAttempts
    ensures r.response == TooManyAttempts429 ==> r.user == Some(user.value.(otp := None, otpExpires := None))
    ensures r.response == Expired400 ==> r.user == user && now > user.value.otpExpires.value
    ensures r.response.Invalid400? ==>
      && submitted != user.value.otp
      && r.user == Some(user.value.(attempts := Some(AttemptsSoFar(user.value) + 1)))
      && r.response.remaining == MaxAttempts - AttemptsSoFar(user.value) - 1
    ensures r.response == Verified200 <==>
      && Truthy(email) && user.Some? && Truthy(user.value.otp) && user.value.otpExpires.Some?
      && AttemptsSoFar(user.value) < MaxAttempts
      && now <= user.value.otpExpires.value
      && submitted == user.value.otp
    ensures r.response == Verified200 ==>
      r.user == Some(user.value.(otp := None, otpExpires := None, isEmailVerified := true))
  {
    if !Truthy(email) then OtpResult(user, Unauthorized401)
    else if user.None? || !Truthy(user.value.otp) || user.value.otpExpires.None? then OtpResult(user, NoOtpRequest400)
    else
      var u := user.value;
      var tried := AttemptsSoFar(u);
      if tried >= MaxAttempts then OtpResult(Some(u.(otp := None, otpExpires := None)), TooManyAttempts429)
      else if now > u.otpExpires.value then OtpResult(user, Expired400)
      else if submitted != u.otp then
        OtpResult(Some(u.(attempts := Some(tried + 1))), Invalid400(MaxAttempts - tried - 1))
      else OtpResult(Some(u.(otp := None, otpExpires := None, isEmailVerified := true)), Verified200)
  }

  /** Submits the codes in turn on the record. */
  function Attempts(email: Option<string>, user: Option<OtpUser>, codes: seq<Option<string>>, now: int): Option<OtpUser>
    decreases |codes|
  {
    if |codes| == 0 then user
    else Attempts(email, VerifyOtp(email, user, codes[0], now).user, codes[1..], now)
  }

  /** Five wrong codes in a row on a fresh, unexpired code lock it out: the
      sixth submission gets 429 even with the right code, and the code is
      gone. */
  lemma FiveMissesLockOut(email: Option<string>, u: OtpUser, wrong: Option<string>, now: int)
    requires Truthy(email) && Truthy(u.otp) && u.otpExpires.Some? && now <= u.otpExpires.value
    requires u.attempts.None? && wrong != u.otp
    ensures var after := Attempts(email, Some(u), [wrong, wrong, wrong, wrong, wrong], now);
            && after == Some(u.(attempts := Some(5)))
            && VerifyOtp(email, after, u.otp, now) == OtpResult(Some(u.(attempts := Some(5), otp := None, otpExpires := None)), TooManyAttempts429)
  {
    var w := [wrong, wrong, wrong, wrong, wrong];
    var u1 := u.(attempts := Some(1));
    var u2 := u.(attempts := Some(2));
    var u3 := u.(attempts := Some(3));
    var u4 := u.(attempts := Some(4));
    var u5 := u.(attempts := Some(5));
    assert VerifyOtp(email, Some(u), wrong, now).user == Some(u1);
    assert VerifyOtp(email, Some(u1), wrong, now).user == Some(u2);
    assert VerifyOtp(email, Some(u2), wrong, now).user == Some(u3);
    assert VerifyOtp(email, Some(u3), wrong, now).user == Some(u4);
    assert VerifyOtp(email, Some(u4), wrong, now).user == Some(u5);
    assert Attempts(email, Some(u5), w[5..], now) == Some(u5);
    assert Attempts(email, Some(u4), w[4..], now) == Some(u5);
    assert Attempts(email, Some(u3), w[3..], now) == Some(u5);
    assert Attempts(email, Some(u2), w[2..], now) == Some(u5);
    assert Attempts(email, Some(u1), w[1..], now) == Some(u5);
  }

  /** The attempt counter survives a success: after a correct code, the
      record still carries the earlier misses. */
  lemma SuccessKeepsAttempts(email: Option<string>, u: OtpUser, now: int)
    requires Truthy(email) && Truthy(u.otp) && u.otpExpires.Some? && now <= u.otpExpires.value
    requires AttemptsSoFar(u) < MaxAttempts
    ensures var r := VerifyOtp(email, Some(u), u.otp, now);
            r.response == Verified200 && r.user.value.attempts == u.attempts
  {
  }

  /** Expiry does not count as a miss: the record is unchanged. */
  lemma ExpiredCodeCountsNothing(email: Option<string>, u: OtpUser, submitted: Option<string>, now: int)
    requires Truthy(email) && Truthy(u.otp) && u.otpExpires.Some? && now > u.otpExpires.value
    requires AttemptsSoFar(u) < MaxAttempts
    ensures VerifyOtp(email, Some(u), submitted, now) == OtpResult(Some(u), Expired400)
  {
  }
}
