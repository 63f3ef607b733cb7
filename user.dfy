/**
  The field rules of a user account: the formats of the wallet address, phone
  number, e-mail address and full name (each after its setter has run), and
  the profile-completeness score that is recomputed before every save.
 */
module Users {
  import opened Js
  import opened Patterns

  // ---------------------------------------------------------------------------
  // Wallet address and phone number
  // ---------------------------------------------------------------------------

  /** `0x[a-fA-F0-9]{40}`: an Ethereum address. */
  const WalletPattern: seq<CharClass> := [c => c == '0', c => c == 'x'] + Repeat(IsHexDigit, 40)

  /** `[6-9]\d{9}`: an Indian mobile number. */
  const PhonePattern: seq<CharClass> := Repeat(c => '6' <= c <= '9', 1) + Repeat(IsDigit, 9)

  predicate IsWallet(s: string) { Fits(s, WalletPattern) }
  predicate IsPhone(s: string) { Fits(s, PhonePattern) }

  /** A wallet address as typed is accepted exactly when it is `0x` or `0X`
      followed by forty hex digits of either case. */
  lemma WalletAccepted(raw: string)
    ensures IsWallet(Lower(raw)) <==>
      |raw| == 42 && raw[0] == '0' && (raw[1] == 'x' || raw[1] == 'X')
      && forall i | 2 <= i < 42 :: IsHexDigit(raw[i])
  {
    var l := Lower(raw);
    forall i | 0 <= i < |raw| {
      LowerCharClasses(raw[i]);
    }
    if IsWallet(l) {
      assert WalletPattern[0](l[0]) && WalletPattern[1](l[1]);
      forall i | 2 <= i < 42 ensures IsHexDigit(raw[i]) {
        assert WalletPattern[i] == IsHexDigit;
      }
    }
    if |raw| == 42 && raw[0] == '0' && (raw[1] == 'x' || raw[1] == 'X')
      && forall i | 2 <= i < 42 :: IsHexDigit(raw[i])
    {
      forall i | 0 <= i < 42 ensures WalletPattern[i](l[i]) {
        if i >= 2 {
          assert WalletPattern[i] == IsHexDigit;
        }
      }
    }
  }

  /** A phone number is accepted exactly when it is ten digits starting with 6
      to 9. */
  lemma PhoneAccepted(s: string)
    ensures IsPhone(s) <==> |s| == 10 && (forall i | 0 <= i < 10 :: IsDigit(s[i])) && '6' <= s[0] <= '9'
  {
    if IsPhone(s) {
      assert PhonePattern[0](s[0]);
      forall i | 1 <= i < 10 ensures IsDigit(s[i]) {
        assert PhonePattern[i] == IsDigit;
      }
    }
    if |s| == 10 && (forall i | 0 <= i < 10 :: IsDigit(s[i])) && '6' <= s[0] <= '9' {
      forall i | 0 <= i < 10 ensures PhonePattern[i](s[i]) {
        if i >= 1 {
          assert PhonePattern[i] == IsDigit;
        }
      }
    }
  }

  // ---------------------------------------------------------------------------
  // E-mail address: `^\w+([.-]?\w+)*@\w+([.-]?\w+)*(\.\w{2,3})+$`
  // ---------------------------------------------------------------------------

  predicate IsSep(c: char) { c == '.' || c == '-' }

  /** `\w+`. */
  predicate WordRun(s: string) {
    |s| > 0 && forall i | 0 <= i < |s| :: IsWordChar(s[i])
  }

  /** `[.-]?\w+`. */
  predicate Group(g: string) {
    WordRun(g) || (|g| >= 2 && IsSep(g[0]) && WordRun(g[1..]))
  }

  /** `\w{2,3}` after a dot: `\.\w{2,3}`. */
  predicate TldGroup(g: string) {
    (|g| == 3 || |g| == 4) && g[0] == '.' && WordRun(g[1..])
  }

  /** `\w+([.-]?\w+)*`, read with its last group split off. */
  predicate DottedWords(s: string)
    decreases |s|
  {
    WordRun(s) || exists k | 0 < k < |s| :: DottedWords(s[..k]) && Group(s[k..])
  }

  /** `\w+([.-]?\w+)*(\.\w{2,3})+`, read with its last group split off. */
  predicate Domain(r: string)
    decreases |r|
  {
    exists k | 0 < k < |r| :: (DottedWords(r[..k]) || Domain(r[..k])) && TldGroup(r[k..])
  }

  /** The whole pattern: a local part, `@`, and a domain. */
  predicate IsEmail(s: string) {
    exists i | 0 <= i < |s| :: s[i] == '@' && DottedWords(s[..i]) && Domain(s[i + 1..])
  }

  /** A direct description of `\w+([.-]?\w+)*`: word characters, dots and
      dashes, starting and ending with a word character, and no separator
      directly after another. */
  predicate DottedShape(s: string) {
    && |s| > 0
    && IsWordChar(s[0])
    && IsWordChar(s[|s| - 1])
    && (forall i | 0 <= i < |s| :: IsWordChar(s[i]) || IsSep(s[i]))
    && (forall i | 0 <= i < |s| - 1 :: IsSep(s[i]) ==> IsWordChar(s[i + 1]))
  }

  lemma GroupShape(a: string, g: string)
    requires DottedShape(a) && Group(g)
    ensures DottedShape(a + g)
  {
    var s := a + g;
    forall i | 0 <= i < |s| - 1 && IsSep(s[i]) ensures IsWordChar(s[i + 1]) {
      if i >= |a| {
        assert s[i] == g[i - |a|] && s[i + 1] == g[i - |a| + 1];
        if !WordRun(g) {
          assert s[i + 1] == g[1..][i - |a|];
        }
      }
    }
    if !WordRun(g) {
      assert s[|s| - 1] == g[1..][|g| - 2];
      forall i | |a| < i < |s| ensures IsWordChar(s[i]) {
        assert s[i] == g[1..][i - |a| - 1];
      }
    }
  }

  /** The pattern `\w+([.-]?\w+)*` matches exactly the strings of that shape. */
  lemma {:induction false} DottedWordsShape(s: string)
    ensures DottedWords(s) <==> DottedShape(s)
    decreases |s|
  {
    if DottedWords(s) && !WordRun(s) {
      var k :| 0 < k < |s| && DottedWords(s[..k]) && Group(s[k..]);
      DottedWordsShape(s[..k]);
      GroupShape(s[..k], s[k..]);
      assert s[..k] + s[k..] == s;
    }
    if DottedShape(s) && !WordRun(s) {
      var n := |s|;
      assert n >= 2;
      if IsWordChar(s[n - 2]) {
        DottedWordsShape(s[..n - 1]);
        assert DottedWords(s[..n - 1]) && Group(s[n - 1..]);
      } else {
        assert IsSep(s[n - 2]) && n >= 3;
        DottedWordsShape(s[..n - 2]);
        assert s[n - 2..][1..] == s[n - 1..];
        assert DottedWords(s[..n - 2]) && Group(s[n - 2..]);
      }
    }
  }

  /** A domain is a dotted name followed by one final `.xx` or `.xxx`. */
  lemma DomainShape(r: string)
    ensures Domain(r) <==> exists k | 0 < k < |r| :: DottedShape(r[..k]) && TldGroup(r[k..])
  {
    if Domain(r) {
      DomainSplits(r);
    }
    if exists k | 0 < k < |r| :: DottedShape(r[..k]) && TldGroup(r[k..]) {
      var k :| 0 < k < |r| && DottedShape(r[..k]) && TldGroup(r[k..]);
      DottedWordsShape(r[..k]);
    }
  }

  /** A domain splits before its last `.xx` or `.xxx` into a dotted name. */
  lemma {:induction false} DomainSplits(r: string)
    requires Domain(r)
    ensures exists k | 0 < k < |r| :: DottedShape(r[..k]) && TldGroup(r[k..])
    decreases |r|
  {
    var k :| 0 < k < |r| && (DottedWords(r[..k]) || Domain(r[..k])) && TldGroup(r[k..]);
    if DottedWords(r[..k]) {
      DottedWordsShape(r[..k]);
    } else {
      var d := r[..k];
      DomainSplits(d);
      var j :| 0 < j < |d| && DottedShape(d[..j]) && TldGroup(d[j..]);
      assert d[..j] + d[j..] == d;
      GroupShape(d[..j], d[j..]);
    }
  }

  /** A dotted name holds no `@`. */
  lemma DottedHasNoAt(s: string)
    requires DottedShape(s)
    ensures forall j | 0 <= j < |s| :: s[j] != '@'
  {
  }

  /** A domain holds no `@`, and ends with a dot and two or three word characters. */
  lemma DomainHasNoAt(r: string)
    requires Domain(r)
    ensures forall j | 0 <= j < |r| :: r[j] != '@'
    ensures exists k | 0 <= k < |r| :: TldGroup(r[k..])
  {
    DomainShape(r);
    var k :| 0 < k < |r| && DottedShape(r[..k]) && TldGroup(r[k..]);
    DottedHasNoAt(r[..k]);
    forall j | 0 <= j < |r| ensures r[j] != '@' {
      if j < k {
        assert r[..k][j] == r[j];
      } else if j > k {
        assert r[k..][1..][j - k - 1] == r[j];
      }
    }
  }

  /** An accepted e-mail address has exactly one `@`, and ends with a dot and
      two or three word characters. */
  lemma EmailShape(s: string)
    requires IsEmail(s)
    ensures exists i | 0 <= i < |s| :: s[i] == '@' && forall j | 0 <= j < |s| && s[j] == '@' :: j == i
    ensures exists k | 0 <= k < |s| :: TldGroup(s[k..])
  {
    var i :| 0 <= i < |s| && s[i] == '@' && DottedWords(s[..i]) && Domain(s[i + 1..]);
    var r := s[i + 1..];
    DottedWordsShape(s[..i]);
    DottedHasNoAt(s[..i]);
    DomainHasNoAt(r);
    forall j | 0 <= j < |s| && j != i ensures s[j] != '@' {
      if j < i {
        assert s[..i][j] == s[j];
      } else {
        assert r[j - i - 1] == s[j];
      }
    }
    var k :| 0 <= k < |r| && TldGroup(r[k..]);
    assert s[i + 1 + k..] == r[k..];
  }

  // ---------------------------------------------------------------------------
  // Full name
  // ---------------------------------------------------------------------------

  /** A full name as typed is accepted when its trimmed value, which is what is
      stored, is 2 to 100 characters long. */
  predicate FullNameAccepted(raw: string) {
    2 <= |Trim(raw)| <= 100
  }

  /** The stored name has no white space at either end, so trimming it again
      changes nothing and it stays accepted. */
  lemma FullNameStable(raw: string)
    requires FullNameAccepted(raw)
    ensures !IsSpace(Trim(raw)[0]) && !IsSpace(Trim(raw)[|Trim(raw)| - 1])
    ensures Trim(Trim(raw)) == Trim(raw) && FullNameAccepted(Trim(raw))
  {
    var t := Trim(raw);
    assert t != [] && !IsSpace(t[0]) && !IsSpace(t[|t| - 1]);
    TrimFixes(t);
  }

  // ---------------------------------------------------------------------------
  // The user document and its completeness score
  // ---------------------------------------------------------------------------

  datatype KycStatus = Pending | UnderReview | Approved | Rejected

  /** The number of fields that are set (non-empty). */
  function CountPresent(fields: seq<string>): (n: nat)
    ensures n <= |fields|
  {
    if fields == [] then 0
    else CountPresent(fields[..|fields| - 1]) + (if fields[|fields| - 1] != "" then 1 else 0)
  }

  /** The completeness score: 20 per set field and 20 for an approved KYC. */
  function Completeness(fields: seq<string>, kyc: KycStatus): int {
    20 * CountPresent(fields) + (if kyc == Approved then 20 else 0)
  }

  /** With the four scored fields, the score is a multiple of 20 between 0 and
      100; it is 100 exactly when all four are set and the KYC is approved. */
  lemma CompletenessBounds(fields: seq<string>, kyc: KycStatus)
    requires |fields| == 4
    ensures var c := Completeness(fields, kyc); 0 <= c <= 100 && c % 20 == 0
    ensures Completeness(fields, kyc) == 100 <==>
      kyc == Approved && forall i | 0 <= i < 4 :: fields[i] != ""
  {
    AllPresentCount(fields);
  }

  /** Every field is counted exactly when all of them are set. */
  lemma {:induction false} AllPresentCount(fields: seq<string>)
    ensures CountPresent(fields) == |fields| <==> forall i | 0 <= i < |fields| :: fields[i] != ""
  {
    if fields != [] {
      var init := fields[..|fields| - 1];
      AllPresentCount(init);
      if CountPresent(fields) == |fields| {
        forall i | 0 <= i < |fields| ensures fields[i] != "" {
          if i < |init| {
            assert init[i] == fields[i];
          }
        }
      }
    }
  }

  class UserDocument {
    var walletAddress: string
    var email: string
    var phoneNumber: string
    var fullName: string
    var kycStatus: KycStatus
    var profileCompleteness: int

    /** A new user; the setters lowercase the wallet and e-mail and trim the
        name, and the score starts at 0 with the KYC pending. */
    constructor(wallet: string, mail: string, phone: string, name: string)
      ensures walletAddress == Lower(wallet) && email == Lower(mail)
      ensures phoneNumber == phone && fullName == Trim(name)
      ensures kycStatus == Pending && profileCompleteness == 0
    {
      walletAddress := Lower(wallet);
      email := Lower(mail);
      phoneNumber := phone;
      fullName := Trim(name);
      kycStatus := Pending;
      profileCompleteness := 0;
    }

    /** The fields the score looks at, in the order it looks at them. */
    function ScoredFields(): seq<string>
      reads this
    {
      [walletAddress, email, phoneNumber, fullName]
    }

    /** The validators that run on save. */
    predicate FieldsValid()
      reads this
    {
      && IsWallet(walletAddress)
      && IsEmail(email)
      && IsPhone(phoneNumber)
      && 2 <= |fullName| <= 100
      && 0 <= profileCompleteness <= 100
    }

    method CalculateProfileCompleteness() returns (completeness: int)
      modifies this
      ensures completeness == Completeness(ScoredFields(), kycStatus)
      ensures profileCompleteness == completeness
      ensures walletAddress == old(walletAddress) && email == old(email)
      ensures phoneNumber == old(phoneNumber) && fullName == old(fullName)
      ensures kycStatus == old(kycStatus)
    {
      completeness := 0;
      var fields := [walletAddress, email, phoneNumber, fullName];
      for i := 0 to |fields|
        invariant completeness == 20 * CountPresent(fields[..i])
      {
        assert fields[..i + 1][..i] == fields[..i];
        if fields[i] != "" {
          completeness := completeness + 20;
        }
      }
      assert fields[..|fields|] == fields;
      if kycStatus == Approved {
        completeness := completeness + 20;
      }
      profileCompleteness := completeness;
    }

    /** `save`: the validators run first, on the fields as they are; when they
        pass, the pre-save hook recomputes the score. */
    method Save() returns (ok: bool)
      modifies this
      ensures ok == old(FieldsValid())
      ensures ok ==> profileCompleteness == Completeness(ScoredFields(), kycStatus)
      ensures walletAddress == old(walletAddress) && email == old(email)
      ensures phoneNumber == old(phoneNumber) && fullName == old(fullName)
      ensures kycStatus == old(kycStatus)
      ensures !ok ==> profileCompleteness == old(profileCompleteness)
    {
      ok := FieldsValid();
      if ok {
        var _ := CalculateProfileCompleteness();
      }
    }
  }

  /** After a successful save every validator still holds: the recomputed score
      is within its bounds. */
  lemma SavedScoreInBounds(fields: seq<string>, kyc: KycStatus)
    requires |fields| == 4
    ensures 0 <= Completeness(fields, kyc) <= 100
  {
    CompletenessBounds(fields, kyc);
  }
}
