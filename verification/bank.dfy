/** The bank-detail checks that gate every automatic transfer: presence of
    the three fields, the IFSC shape `^[A-Z]{4}0[A-Z0-9]{6}$`, then the
    admin's verification flag, in that order. */
module BankCheck {
  import opened Base
  import opened Model

  const BankDetailsMissing := "BANK_DETAILS_MISSING"
  const InvalidIfscCode := "INVALID_IFSC_CODE"
  const BankDetailsUnverified := "BANK_DETAILS_UNVERIFIED"

  datatype Validation = Valid | Invalid(reason: string)

  predicate IsUpperLetter(c: char)
  {
    'A' <= c <= 'Z'
  }

  /** The character class the IFSC pattern allows at position i. */
  predicate IfscCharOk(i: nat, c: char)
  {
    if i < 4 then IsUpperLetter(c)
    else if i == 4 then c == '0'
    else IsUpperLetter(c) || IsDigit(c)
  }

  /** The language of `^[A-Z]{4}0[A-Z0-9]{6}$`: eleven characters, four
      capitals, a literal zero, six capitals or digits. */
  predicate IsIfsc(s: string)
  {
    |s| == 11 && forall i :: 0 <= i < 11 ==> IfscCharOk(i, s[i])
  }

  /** Scans the code once, left to right, the way the anchored pattern is
      matched, and accepts exactly the strings of the pattern's language. */
  method MatchIfsc(s: string) returns (ok: bool)
    ensures ok <==> IsIfsc(s)
  {
    if |s| != 11 {
      return false;
    }
    var i := 0;
    ok := true;
    while i < 11
      invariant 0 <= i <= 11
      invariant ok <==> forall k :: 0 <= k < i ==> IfscCharOk(k, s[k])
    {
      if !IfscCharOk(i, s[i]) {
        ok := false;
      }
      i := i + 1;
    }
  }

  /** `validateBankDetails`: the first failing check names the reason. */
  function ValidateBankDetails(v: Vendor): (r: Validation)
    ensures r == Valid <==>
      && v.payoutDetails.Some?
      && v.payoutDetails.value.accountNumber != ""
      && v.payoutDetails.value.ifscCode != ""
      && v.payoutDetails.value.accountHolder != ""
      && IsIfsc(v.payoutDetails.value.ifscCode)
      && v.isBankVerified
    ensures r == Invalid(BankDetailsMissing) <==>
      (v.payoutDetails.None?
       || v.payoutDetails.value.accountNumber == ""
       || v.payoutDetails.value.ifscCode == ""
       || v.payoutDetails.value.accountHolder == "")
    ensures r == Invalid(InvalidIfscCode) <==>
      (r != Invalid(BankDetailsMissing) && !IsIfsc(v.payoutDetails.value.ifscCode))
    ensures r == Invalid(BankDetailsUnverified) <==>
      (r != Invalid(BankDetailsMissing) && IsIfsc(v.payoutDetails.value.ifscCode) && !v.isBankVerified)
  {
    match v.payoutDetails
    case None => Invalid(BankDetailsMissing)
    case Some(d) =>
      if d.accountNumber == "" || d.ifscCode == "" || d.accountHolder == "" then Invalid(BankDetailsMissing)
      else if !IsIfsc(d.ifscCode) then Invalid(InvalidIfscCode)
      else if !v.isBankVerified then Invalid(BankDetailsUnverified)
      else Valid
  }

  /** The verification flag decides alone once the details are well formed:
      flipping it moves the result between BANK_DETAILS_UNVERIFIED and Valid. */
  lemma VerificationUnblocks(v: Vendor)
    requires ValidateBankDetails(v) == Invalid(BankDetailsUnverified)
    ensures ValidateBankDetails(v.(isBankVerified := true)) == Valid
    ensures !v.isBankVerified
  {
  }
}
