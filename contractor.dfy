/**
  The field rules of a contractor's profile: the formats of the tax and bank
  identifiers (each checked after the uppercase setter has run), the tender
  eligibility test, the masking of the account number in JSON output and the
  bid success rate.
 */
module Contractors {
  import opened Wrappers
  import opened Js
  import opened Patterns

  // ---------------------------------------------------------------------------
  // Identifier formats
  // ---------------------------------------------------------------------------

  /** `[A-Z]{5}[0-9]{4}[A-Z]{1}`: a Permanent Account Number. */
  const PanPattern: seq<CharClass> :=
    Repeat(IsUpperLetter, 5) + Repeat(IsDigit, 4) + Repeat(IsUpperLetter, 1)

  /** `[0-9]{2}[A-Z]{5}[0-9]{4}[A-Z]{1}[1-9A-Z]{1}Z[0-9A-Z]{1}`: a GST number. */
  const GstPattern: seq<CharClass> :=
    Repeat(IsDigit, 2) + PanPattern
    + Repeat(c => IsNonZeroDigit(c) || IsUpperLetter(c), 1) + [c => c == 'Z'] + Repeat(IsUpperAlnum, 1)

  /** `[1-9][0-9]{5}`: an Indian postal code. */
  const PincodePattern: seq<CharClass> := Repeat(IsNonZeroDigit, 1) + Repeat(IsDigit, 5)

  /** `[A-Z]{4}0[A-Z0-9]{6}`: a bank branch code. */
  const IfscPattern: seq<CharClass> := Repeat(IsUpperLetter, 4) + [c => c == '0'] + Repeat(IsUpperAlnum, 6)

  predicate IsPan(s: string) { Fits(s, PanPattern) }
  predicate IsGst(s: string) { Fits(s, GstPattern) }
  predicate IsPincode(s: string) { Fits(s, PincodePattern) }
  predicate IsIfsc(s: string) { Fits(s, IfscPattern) }

  /** A PAN as typed is accepted exactly when it is five letters of either case,
      four digits and one letter. */
  lemma PanAccepted(raw: string)
    ensures IsPan(Upper(raw)) <==>
      |raw| == 10
      && (forall i | 0 <= i < 5 :: IsLetter(raw[i]))
      && (forall i | 5 <= i < 9 :: IsDigit(raw[i]))
      && IsLetter(raw[9])
  {
    var u := Upper(raw);
    forall i | 0 <= i < |raw| {
      UpperCharClasses(raw[i]);
    }
    if IsPan(u) {
      forall i | 0 <= i < 5 ensures IsLetter(raw[i]) {
        assert PanPattern[i] == IsUpperLetter;
      }
      forall i | 5 <= i < 9 ensures IsDigit(raw[i]) {
        assert PanPattern[i] == IsDigit;
      }
      assert PanPattern[9] == IsUpperLetter;
    }
    if |raw| == 10 && (forall i | 0 <= i < 5 :: IsLetter(raw[i]))
      && (forall i | 5 <= i < 9 :: IsDigit(raw[i])) && IsLetter(raw[9])
    {
      forall i | 0 <= i < 10 ensures PanPattern[i](u[i]) {
        if i < 5 {
          assert PanPattern[i] == IsUpperLetter;
        } else if i < 9 {
          assert PanPattern[i] == IsDigit;
        } else {
          assert PanPattern[i] == IsUpperLetter;
        }
      }
    }
  }

  /** An accepted GST number is fifteen characters long, embeds an accepted PAN
      at its 3rd to 12th characters and has `Z` as its 14th. */
  lemma GstEmbedsPan(s: string)
    requires IsGst(s)
    ensures |s| == 15 && IsPan(s[2..12]) && s[13] == 'Z'
  {
    var tail := Repeat(c => IsNonZeroDigit(c) || IsUpperLetter(c), 1) + [c => c == 'Z'] + Repeat(IsUpperAlnum, 1);
    assert GstPattern == Repeat(IsDigit, 2) + (PanPattern + tail);
    FitsConcat(s, Repeat(IsDigit, 2), PanPattern + tail);
    FitsConcat(s[2..], PanPattern, tail);
    assert s[2..][..10] == s[2..12];
    assert s[2..][10..] == s[12..];
    assert tail[1](s[12..][1]);
  }

  /** A pincode is accepted exactly when it is six digits and does not start
      with `0`. */
  lemma PincodeAccepted(s: string)
    ensures IsPincode(s) <==> |s| == 6 && (forall i | 0 <= i < 6 :: IsDigit(s[i])) && s[0] != '0'
  {
    if IsPincode(s) {
      assert PincodePattern[0] == IsNonZeroDigit;
      forall i | 1 <= i < 6 ensures IsDigit(s[i]) {
        assert PincodePattern[i] == IsDigit;
      }
    }
    if |s| == 6 && (forall i | 0 <= i < 6 :: IsDigit(s[i])) && s[0] != '0' {
      forall i | 0 <= i < 6 ensures PincodePattern[i](s[i]) {
        if i == 0 {
          assert PincodePattern[i] == IsNonZeroDigit;
        } else {
          assert PincodePattern[i] == IsDigit;
        }
      }
    }
  }

  /** A branch code as typed is accepted exactly when it is four letters of either
      case, the digit `0` and six letters or digits. */
  lemma IfscAccepted(raw: string)
    ensures IsIfsc(Upper(raw)) <==>
      |raw| == 11
      && (forall i | 0 <= i < 4 :: IsLetter(raw[i]))
      && raw[4] == '0'
      && (forall i | 5 <= i < 11 :: IsLetter(raw[i]) || IsDigit(raw[i]))
  {
    var u := Upper(raw);
    forall i | 0 <= i < |raw| {
      UpperCharClasses(raw[i]);
    }
    if IsIfsc(u) {
      forall i | 0 <= i < 4 ensures IsLetter(raw[i]) {
        assert IfscPattern[i] == IsUpperLetter;
      }
      assert IfscPattern[4](u[4]);
      forall i | 5 <= i < 11 ensures IsLetter(raw[i]) || IsDigit(raw[i]) {
        assert IfscPattern[i] == IsUpperAlnum;
      }
    }
    if |raw| == 11 && (forall i | 0 <= i < 4 :: IsLetter(raw[i])) && raw[4] == '0'
      && (forall i | 5 <= i < 11 :: IsLetter(raw[i]) || IsDigit(raw[i]))
    {
      forall i | 0 <= i < 11 ensures IfscPattern[i](u[i]) {
        if i < 4 {
          assert IfscPattern[i] == IsUpperLetter;
        } else if i == 4 {
          assert u[4] == '0';
        } else {
          assert IfscPattern[i] == IsUpperAlnum;
        }
      }
    }
  }

  /** The identifier fields of a contractor document. The PAN, GST and IFSC
      fields have an uppercase setter, which rewrites the value as it is
      assigned; the pincode field is stored as given. */
  class ContractorDocument {
    var panNumber: string
    var gstNumber: string
    var ifscCode: string
    var pincode: string

    constructor(pan: string, gst: string, ifsc: string, pin: string)
      ensures panNumber == Upper(pan) && gstNumber == Upper(gst)
      ensures ifscCode == Upper(ifsc) && pincode == pin
    {
      panNumber := Upper(pan);
      gstNumber := Upper(gst);
      ifscCode := Upper(ifsc);
      pincode := pin;
    }

    /** The format validators that run on save. */
    predicate FormatsValid()
      reads this
    {
      IsPan(panNumber) && IsGst(gstNumber) && IsPincode(pincode) && IsIfsc(ifscCode)
    }

    method SetPanNumber(v: string)
      modifies this
      ensures panNumber == Upper(v)
      ensures gstNumber == old(gstNumber) && ifscCode == old(ifscCode) && pincode == old(pincode)
    {
      panNumber := Upper(v);
    }

    method SetGstNumber(v: string)
      modifies this
      ensures gstNumber == Upper(v)
      ensures panNumber == old(panNumber) && ifscCode == old(ifscCode) && pincode == old(pincode)
    {
      gstNumber := Upper(v);
    }

    method SetIfscCode(v: string)
      modifies this
      ensures ifscCode == Upper(v)
      ensures panNumber == old(panNumber) && gstNumber == old(gstNumber) && pincode == old(pincode)
    {
      ifscCode := Upper(v);
    }
  }

  // ---------------------------------------------------------------------------
  // Tender eligibility
  // ---------------------------------------------------------------------------

  /** What eligibility reads of a contractor. Turnover and years in business are
      validated non-negative by the schema. */
  datatype Profile = Profile(
    blacklisted: bool,
    annualTurnover: nat,
    yearsInBusiness: nat,
    certifications: seq<string>)

  /** A tender's criteria; an absent key is `None`. */
  datatype TenderCriteria = TenderCriteria(
    minTurnover: Option<int>,
    minExperience: Option<int>,
    requiredCertifications: Option<seq<string>>)

  /** A numeric criterion is applied only when it is truthy: present and non-zero. */
  predicate Truthy(n: Option<int>) {
    n.Some? && n.value != 0
  }

  function IsEligibleForTender(p: Profile, c: TenderCriteria): bool {
    if p.blacklisted then false
    else if Truthy(c.minTurnover) && p.annualTurnover < c.minTurnover.value then false
    else if Truthy(c.minExperience) && p.yearsInBusiness < c.minExperience.value then false
    else if c.requiredCertifications.Some?
      && !(forall cert | cert in c.requiredCertifications.value :: cert in p.certifications)
    then false
    else true
  }

  /** Eligible means: not blacklisted, at or above each minimum that is given,
      and holding every required certification. */
  lemma EligibleIff(p: Profile, c: TenderCriteria)
    ensures IsEligibleForTender(p, c) <==>
      !p.blacklisted
      && (c.minTurnover.Some? ==> p.annualTurnover >= c.minTurnover.value)
      && (c.minExperience.Some? ==> p.yearsInBusiness >= c.minExperience.value)
      && (c.requiredCertifications.Some? ==>
            forall cert | cert in c.requiredCertifications.value :: cert in p.certifications)
  {
  }

  /** A contractor who is eligible stays eligible with more turnover, more years
      and more certifications. */
  lemma EligibilityMonotone(p: Profile, q: Profile, c: TenderCriteria)
    requires IsEligibleForTender(p, c)
    requires q.blacklisted == p.blacklisted
    requires q.annualTurnover >= p.annualTurnover && q.yearsInBusiness >= p.yearsInBusiness
    requires forall cert | cert in p.certifications :: cert in q.certifications
    ensures IsEligibleForTender(q, c)
  {
  }

  // ---------------------------------------------------------------------------
  // JSON output of the bank details
  // ---------------------------------------------------------------------------

  /** The bank details; an unset field is `None` or `""`. */
  datatype BankDetails = BankDetails(
    accountNumber: Option<string>,
    ifscCode: string,
    bankName: string,
    accountHolderName: string,
    branchName: Option<string>)

  /** The account number of the JSON output: `****` and the last four characters,
      or nothing when the number is unset or empty. */
  function MaskAccount(accountNumber: Option<string>): Option<string> {
    if accountNumber.Some? && accountNumber.value != "" then
      Some("****" + Slice(accountNumber.value, -4, |accountNumber.value|))
    else None
  }

  /** The `toJSON` transform of the bank details. */
  function BankDetailsJson(b: Option<BankDetails>): Option<BankDetails> {
    if b.None? then None
    else Some(b.value.(accountNumber := MaskAccount(b.value.accountNumber)))
  }

  /** The transform keeps the other bank fields, and shows at most the last four
      characters of the account number (all of it when shorter) behind `****`. */
  lemma BankDetailsJsonMasks(b: Option<BankDetails>)
    ensures BankDetailsJson(b).Some? <==> b.Some?
    ensures b.Some? ==>
      var j := BankDetailsJson(b).value;
      j.ifscCode == b.value.ifscCode && j.bankName == b.value.bankName
      && j.accountHolderName == b.value.accountHolderName && j.branchName == b.value.branchName
      && (j.accountNumber.Some? <==> b.value.accountNumber.Some? && b.value.accountNumber.value != "")
      && (j.accountNumber.Some? ==>
            var a := b.value.accountNumber.value;
            var n := if |a| < 4 then |a| else 4;
            j.accountNumber.value == "****" + a[|a| - n..])
  {
  }

  // ---------------------------------------------------------------------------
  // Success rate
  // ---------------------------------------------------------------------------

  /** The `successRate` virtual: won bids as a percentage of submitted bids,
      and 0 before any bid is submitted. */
  function SuccessRate(submitted: int, won: int): real {
    if submitted == 0 then 0.0 else (won as real / submitted as real) * 100.0
  }

  /** The rate is 0 with no bids, and a percentage when at most every submitted
      bid was won. */
  lemma SuccessRateBounds(submitted: int, won: int)
    ensures submitted == 0 ==> SuccessRate(submitted, won) == 0.0
    ensures 0 <= won <= submitted ==> 0.0 <= SuccessRate(submitted, won) <= 100.0
  {
    if 0 <= won <= submitted && submitted != 0 {
      var q := won as real / submitted as real;
      assert q * submitted as real == won as real;
      assert 0.0 <= q <= 1.0;
    }
  }
}
