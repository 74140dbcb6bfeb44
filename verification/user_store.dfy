/**
 * The user store: registration with sequential zero-padded ids, and lookup
 * by id. The JSON file the source reads and rewrites on every call is the
 * in-memory sequence `users`.
 */
module UserStore {
  import opened Wrappers
  import opened Text
  import opened Profiles

  // ---------------------------------------------------------------
  // Ids: "USER" + str(n).zfill(4)
  // ---------------------------------------------------------------

  function DigitChar(d: nat): char
    requires d < 10
  {
    ('0' as int + d) as char
  }

  function DigitValue(c: char): nat
    requires IsDigit(c)
  {
    c as int - '0' as int
  }

  predicate AllDigits(s: string) {
    forall i :: 0 <= i < |s| ==> IsDigit(s[i])
  }

  /** `str(n)` for a natural number. */
  function Decimal(n: nat): (s: string)
    ensures |s| >= 1 && AllDigits(s)
  {
    if n < 10 then [DigitChar(n)] else Decimal(n / 10) + [DigitChar(n % 10)]
  }

  /** The number a string of decimal digits denotes; leading zeros add nothing. */
  function Parse(s: string): nat
    requires AllDigits(s)
  {
    if s == [] then 0 else Parse(s[..|s| - 1]) * 10 + DigitValue(s[|s| - 1])
  }

  function Zeros(k: nat): (z: string)
    ensures |z| == k && AllDigits(z)
  {
    seq(k, _ => '0')
  }

  /** `s.zfill(width)` for a string without a sign. */
  function ZFill(s: string, width: nat): string {
    if |s| >= width then s else Zeros(width - |s|) + s
  }

  function UserId(n: nat): string {
    "USER" + ZFill(Decimal(n), 4)
  }

  lemma {:induction false} ParseDecimal(n: nat)
    ensures Parse(Decimal(n)) == n
  {
    if n >= 10 {
      ParseDecimal(n / 10);
      var d := Decimal(n / 10) + [DigitChar(n % 10)];
      assert d[..|d| - 1] == Decimal(n / 10);
    }
  }

  lemma {:induction false} ParseZeros(k: nat)
    ensures Parse(Zeros(k)) == 0
  {
    if k > 0 {
      ParseZeros(k - 1);
      assert Zeros(k)[..k - 1] == Zeros(k - 1);
    }
  }

  lemma {:induction false} ParseLeadingZeros(k: nat, s: string)
    requires AllDigits(s)
    ensures AllDigits(Zeros(k) + s)
    ensures Parse(Zeros(k) + s) == Parse(s)
  {
    var t := Zeros(k) + s;
    assert AllDigits(t) by {
      forall i | 0 <= i < |t| ensures IsDigit(t[i]) {
        if i >= k {
          assert t[i] == s[i - k];
        }
      }
    }
    if s == [] {
      assert t == Zeros(k);
      ParseZeros(k);
    } else {
      var init := s[..|s| - 1];
      ParseLeadingZeros(k, init);
      assert t[..|t| - 1] == Zeros(k) + init;
    }
  }

  /** The digits after the prefix spell the number back. */
  lemma UserIdParses(n: nat)
    ensures |UserId(n)| >= 8 && UserId(n)[..4] == "USER"
    ensures AllDigits(UserId(n)[4..]) && Parse(UserId(n)[4..]) == n
  {
    var d := Decimal(n);
    ParseDecimal(n);
    if |d| < 4 {
      ParseLeadingZeros(4 - |d|, d);
    }
    assert UserId(n)[4..] == ZFill(d, 4);
  }

  /** Different counts give different ids. */
  lemma UserIdInjective(n: nat, m: nat)
    ensures UserId(n) == UserId(m) ==> n == m
  {
    UserIdParses(n);
    UserIdParses(m);
  }

  function Pow10(k: nat): nat {
    if k == 0 then 1 else 10 * Pow10(k - 1)
  }

  lemma {:induction false} DecimalLength(n: nat, k: nat)
    requires n < Pow10(k)
    ensures |Decimal(n)| <= k || (n < 10 && |Decimal(n)| == 1)
  {
    if n >= 10 {
      assert k >= 1;
      DecimalLength(n / 10, k - 1);
    }
  }

  /** Ids are eight characters long up to USER9999. */
  lemma UserIdWidth(n: nat)
    requires n < 10000
    ensures |UserId(n)| == 8
  {
    assert Pow10(4) == 10000;
    DecimalLength(n, 4);
  }

  // ---------------------------------------------------------------
  // Records and the store
  // ---------------------------------------------------------------

  /** A stored user; the BMI figure itself is not kept in the model. */
  datatype UserRecord = UserRecord(
    userId: string,
    age: Value,
    heightCm: Value,
    weightKg: Value,
    ageGroup: AgeGroup,
    bmiGroup: BmiGroup,
    skillLevel: string,
    playingRole: string,
    weeklyDays: Value)

  function RecordOf(id: string, p: Profile): UserRecord {
    UserRecord(id, p.age, p.heightCm, p.weightKg, p.ageGroup, p.bmiGroup, p.skillLevel, p.playingRole, p.weeklyDays)
  }

  /** The i-th stored user (from 0) carries id number i + 1. */
  predicate IdsSequential(users: seq<UserRecord>) {
    forall i :: 0 <= i < |users| ==> users[i].userId == UserId(i + 1)
  }

  /** In a store filled only by registrations, no id occurs twice. */
  lemma SequentialIdsDistinct(users: seq<UserRecord>)
    requires IdsSequential(users)
    ensures forall i, j :: 0 <= i < j < |users| ==> users[i].userId != users[j].userId
  {
    forall i, j | 0 <= i < j < |users| ensures users[i].userId != users[j].userId {
      UserIdInjective(i + 1, j + 1);
    }
  }

  datatype Registration = Refused(message: string) | Registered(userId: string) | ConstructorRaised

  datatype Lookup = Found(user: UserRecord) | NotFound(message: string)

  const USER_NOT_FOUND := "User not found"

  class UserManager {
    var users: seq<UserRecord>

    constructor()
      ensures users == []
    {
      users := [];
    }

    /** register_user: validate, build the profile, append one record with
        the next id. A rejected form or a failing constructor stores nothing. */
    method RegisterUser(rules: seq<(string, Rule)>, data: map<string, Value>, bmiGroup: BmiGroup)
      returns (r: Registration)
      modifies this
      ensures ValidateInputs(rules, data).Rejected? ==>
                r == Refused(ValidateInputs(rules, data).message) && users == old(users)
      ensures ValidateInputs(rules, data).Accepted? && ProfileFromData(data, bmiGroup).None? ==>
                r == ConstructorRaised && users == old(users)
      ensures ValidateInputs(rules, data).Accepted? && ProfileFromData(data, bmiGroup).Some? ==>
                var id := UserId(|old(users)| + 1);
                r == Registered(id) && users == old(users) + [RecordOf(id, ProfileFromData(data, bmiGroup).value)]
      ensures IdsSequential(old(users)) ==> IdsSequential(users)
    {
      var verdict := ValidateInputs(rules, data);
      if verdict.Rejected? {
        return Refused(verdict.message);
      }
      var profile := ProfileFromData(data, bmiGroup);
      if profile.None? {
        return ConstructorRaised;
      }
      var newId := UserId(|users| + 1);
      users := users + [RecordOf(newId, profile.value)];
      r := Registered(newId);
    }

    /** get_user: the first record carrying the id. */
    method GetUser(id: string) returns (r: Lookup)
      ensures r.Found? <==> exists i :: 0 <= i < |users| && users[i].userId == id
      ensures r.Found? ==>
                exists i :: 0 <= i < |users| && users[i] == r.user && users[i].userId == id
                            && forall j :: 0 <= j < i ==> users[j].userId != id
      ensures r.NotFound? ==> r.message == USER_NOT_FOUND
    {
      var i := 0;
      while i < |users|
        invariant 0 <= i <= |users|
        invariant forall j :: 0 <= j < i ==> users[j].userId != id
      {
        if users[i].userId == id {
          return Found(users[i]);
        }
        i := i + 1;
      }
      return NotFound(USER_NOT_FOUND);
    }
  }
}
