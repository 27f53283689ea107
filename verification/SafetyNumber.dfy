/** Safety numbers. */
module SafetyNumber {
  // Sixty digits two people compare to know that no key was substituted between them.

  import opened Basics

  const ITERATIONS := 5200
  const VERSION: Bytes := [0, 0]
  const DIGITS_PER_PARTY := 30
  const TWO_40 := 0x100_0000_0000

  /** A hash function with 32-byte outputs, as SHA-256 is. */
  type Hash = Bytes -> Bytes

  ghost predicate IsHash(h: Hash) {
    forall x :: |h(x)| == 32
  }

  // ---- The digits of one group ---------------------------------------------

  /** The big-endian number a byte string writes. */
  function BigEndian(b: Bytes): nat {
    if b == [] then 0 else BigEndian(b[..|b| - 1]) * 256 + b[|b| - 1] as nat
  }

  predicate IsDigits(s: string) {
    forall i :: 0 <= i < |s| ==> '0' <= s[i] <= '9'
  }

  /** Decimal text, zero-padded to at least `width` digits: `{:0width}`. */
  function Padded(n: nat, width: nat): (s: string)
    ensures IsDigits(s) && |s| >= 1
    decreases n + width
  {
    var last := [(n % 10) as char + '0'];
    if n < 10 && width <= 1 then last else Padded(n / 10, if width > 0 then width - 1 else 0) + last
  }

  /** The number a string of decimal digits writes. */
  function Parsed(s: string): nat
    requires IsDigits(s)
  {
    if s == "" then 0 else Parsed(s[..|s| - 1]) * 10 + (s[|s| - 1] - '0') as nat
  }

  lemma {:induction false} PaddedParses(n: nat, width: nat)
    ensures Parsed(Padded(n, width)) == n
    decreases n + width
  {
    var s := Padded(n, width);
    if n < 10 && width <= 1 {
      assert s[..0] == "";
    } else {
      var rest := if width > 0 then width - 1 else 0;
      assert s[..|s| - 1] == Padded(n / 10, rest);
      PaddedParses(n / 10, rest);
    }
  }

  lemma {:induction false} FiveDigits(n: nat)
    requires n < 100_000
    ensures |Padded(n, 5)| == 5
  {
    assert |Padded(n / 10000, 1)| == 1;
    assert |Padded(n / 1000, 2)| == 2;
    assert |Padded(n / 100, 3)| == 3;
    assert |Padded(n / 10, 4)| == 4;
  }

  /** Five digits, the highest first, write this number. */
  predicate InDecimal(s: string, n: nat) {
    && |s| == 5 && IsDigits(s)
    && n == (s[0] - '0') as nat * 10000 + (s[1] - '0') as nat * 1000 + (s[2] - '0') as nat * 100
            + (s[3] - '0') as nat * 10 + (s[4] - '0') as nat
  }

  lemma {:induction false} ParsedInDecimal(s: string)
    requires |s| == 5 && IsDigits(s)
    ensures InDecimal(s, Parsed(s))
  {
    assert s[..4][..3] == s[..3] && s[..3][..2] == s[..2] && s[..2][..1] == s[..1] && s[..1][..0] == "";
    assert Parsed(s[..1]) == (s[0] - '0') as nat;
    assert Parsed(s[..2]) == Parsed(s[..1]) * 10 + (s[1] - '0') as nat;
    assert Parsed(s[..3]) == Parsed(s[..2]) * 10 + (s[2] - '0') as nat;
    assert Parsed(s[..4]) == Parsed(s[..3]) * 10 + (s[3] - '0') as nat;
  }

  /** The number five bytes write, the first one highest. */
  function FromFive(b: Bytes): nat
    requires |b| == 5
  {
    b[0] as nat * 0x1_0000_0000 + b[1] as nat * 0x100_0000 + b[2] as nat * 0x1_0000 + b[3] as nat * 0x100 + b[4] as nat
  }

  lemma {:induction false} BigEndianOfFive(b: Bytes)
    requires |b| == 5
    ensures BigEndian(b) == FromFive(b)
  {
    assert b[..4][..3] == b[..3] && b[..3][..2] == b[..2] && b[..2][..1] == b[..1] && b[..1][..0] == [];
    assert BigEndian(b[..1]) == b[0] as nat;
    assert BigEndian(b[..2]) == BigEndian(b[..1]) * 256 + b[1] as nat;
    assert BigEndian(b[..3]) == BigEndian(b[..2]) * 256 + b[2] as nat;
    assert BigEndian(b[..4]) == BigEndian(b[..3]) * 256 + b[3] as nat;
  }

  // ---- One party's digits --------------------------------------------------

  function Iterated(h: Hash, key: Bytes, n: nat): Bytes {
    if n == 0 then h(VERSION + key) else h(Iterated(h, key, n - 1) + key)
  }

  /** Every value the hash goes through: first over the version and the key, then over the last value and the key. */
  predicate Rounds(h: Hash, key: Bytes, s: seq<Bytes>) {
    && |s| > 0 && s[0] == h([0, 0] + key)
    && forall i :: 0 < i < |s| ==> s[i] == h(s[i - 1] + key)
  }

  lemma {:induction false} IteratedInRounds(h: Hash, key: Bytes, n: nat) returns (s: seq<Bytes>)
    ensures Rounds(h, key, s) && |s| == n + 1 && s[n] == Iterated(h, key, n)
  {
    if n == 0 {
      s := [h([0, 0] + key)];
    } else {
      var before := IteratedInRounds(h, key, n - 1);
      s := before + [h(before[n - 1] + key)];
    }
  }

  /** A party's digest is the last of 5201 values, 5200 of them over the one before. */
  lemma {:induction false} DigestIsTheLastRound(h: Hash, key: Bytes, s: seq<Bytes>)
    requires Rounds(h, key, s) && |s| == 5201
    ensures Iterated(h, key, ITERATIONS) == s[5200]
  {
    RoundsAreOne(h, key, s, 5200);
  }

  lemma {:induction false} RoundsAreOne(h: Hash, key: Bytes, s: seq<Bytes>, n: nat)
    requires Rounds(h, key, s) && n < |s|
    ensures Iterated(h, key, n) == s[n]
  {
    if n > 0 {
      RoundsAreOne(h, key, s, n - 1);
    }
  }

  /** The 5-byte block a group of digits is taken from. */
  function Block(digest: Bytes, i: nat): Bytes
    requires 5 * i + 5 <= |digest|
  {
    digest[5 * i..5 * i + 5]
  }

  function Group(digest: Bytes, i: nat): string
    requires 5 * i + 5 <= |digest|
  {
    Padded(BigEndian(Block(digest, i)) % 100_000, 5)
  }

  function Groups(digest: Bytes, n: nat): string
    requires 5 * n <= |digest|
  {
    if n == 0 then "" else Groups(digest, n - 1) + Group(digest, n - 1)
  }

  lemma {:induction false} GroupsAreDigits(digest: Bytes, n: nat)
    requires 5 * n <= |digest|
    ensures |Groups(digest, n)| == 5 * n && IsDigits(Groups(digest, n))
    decreases n
  {
    if n > 0 {
      FiveDigits(BigEndian(Block(digest, n - 1)) % 100_000);
      GroupsAreDigits(digest, n - 1);
    }
  }

  lemma {:induction false} GroupsSplit(digest: Bytes, n: nat, i: nat)
    requires 5 * n <= |digest| && i < n
    ensures |Groups(digest, n)| == 5 * n && IsDigits(Groups(digest, n))
    ensures Groups(digest, n)[5 * i..5 * i + 5] == Group(digest, i)
    decreases n
  {
    GroupsAreDigits(digest, n);
    GroupsAreDigits(digest, n - 1);
    if i < n - 1 {
      GroupsSplit(digest, n - 1, i);
      SliceOfFront(Groups(digest, n - 1), Group(digest, n - 1), 5 * i, 5 * i + 5);
    } else {
      BackSlice(Groups(digest, n - 1), Group(digest, n - 1));
    }
  }

  lemma {:induction false} BackSlice(front: string, back: string)
    ensures (front + back)[|front|..|front + back|] == back
  {
  }

  lemma {:induction false} SliceOfFront(front: string, back: string, lo: nat, hi: nat)
    requires lo <= hi <= |front|
    ensures (front + back)[lo..hi] == front[lo..hi]
  {
  }

  function FingerprintOf(h: Hash, key: Bytes): string
    requires IsHash(h)
  {
    Groups(Iterated(h, key, ITERATIONS), DIGITS_PER_PARTY / 5)
  }

  /** `value << 8 | byte` in 64 bits: exact, because a block has 40. */
  method BlockValue(chunk: Bytes) returns (value: u64)
    requires |chunk| == 5
    ensures value == BigEndian(chunk) == FromFive(chunk) && value < TWO_40
  {
    value := 0;
    var limit: nat := 1;
    assert chunk[..0] == [];
    for i := 0 to |chunk|
      invariant value == BigEndian(chunk[..i]) && value < limit <= TWO_40
      invariant limit == if i == 0 then 1 else if i == 1 then 0x100 else if i == 2 then 0x1_0000 else if i == 3
                then 0x100_0000 else if i == 4 then 0x1_0000_0000 else TWO_40
    {
      assert chunk[..i + 1][..i] == chunk[..i];
      value := (value * 0x100 + chunk[i] as int) % TWO_64;
      limit := limit * 0x100;
    }
    assert chunk[..5] == chunk;
    BigEndianOfFive(chunk);
  }

  method Fingerprint(h: Hash, key: Bytes) returns (out: string)
    requires IsHash(h)
    ensures out == FingerprintOf(h, key)
  {
    var hash := h(VERSION + key);
    for i := 0 to ITERATIONS
      invariant hash == Iterated(h, key, i) && |hash| == 32
    {
      hash := h(hash + key);
    }
    out := "";
    for i := 0 to DIGITS_PER_PARTY / 5
      invariant out == Groups(hash, i)
    {
      var value := BlockValue(hash[5 * i..5 * i + 5]);
      out := out + Padded(value % 100_000, 5);
    }
  }

  // ---- The pair ------------------------------------------------------------

  function Derived(h: Hash, own: Bytes, theirs: Bytes): string
    requires IsHash(h)
  {
    if Leq(own, theirs) then FingerprintOf(h, own) + FingerprintOf(h, theirs)
    else FingerprintOf(h, theirs) + FingerprintOf(h, own)
  }

  method Derive(h: Hash, own: Bytes, theirs: Bytes) returns (digits: string)
    requires IsHash(h)
    ensures digits == Derived(h, own, theirs) && digits == Derived(h, theirs, own)
    ensures |digits| == 60 && IsDigits(digits)
  {
    BothPartiesAgree(h, own, theirs);
    SixtyDigits(h, own, theirs);
    var first, second := own, theirs;
    if !Leq(own, theirs) {
      first, second := theirs, own;
    }
    var a := Fingerprint(h, first);
    var b := Fingerprint(h, second);
    digits := a + b;
  }

  /** Both screens show the same number, whoever is "first". */
  lemma {:induction false} BothPartiesAgree(h: Hash, a: Bytes, b: Bytes)
    requires IsHash(h)
    ensures Derived(h, a, b) == Derived(h, b, a)
  {
    LeqTotal(a, b);
    if Leq(a, b) && Leq(b, a) {
      LeqAntisymmetric(a, b);
    }
  }

  lemma {:induction false} DigestIsLong(h: Hash, key: Bytes, n: nat)
    requires IsHash(h)
    ensures |Iterated(h, key, n)| == 32
  {
  }

  lemma {:induction false} FingerprintDigits(h: Hash, key: Bytes, i: nat)
    requires IsHash(h) && i < 6
    ensures var f := FingerprintOf(h, key);
            && |f| == 30 && IsDigits(f)
            && Parsed(f[5 * i..5 * i + 5]) == BigEndian(Block(Iterated(h, key, ITERATIONS), i)) % 100_000
  {
    var digest := Iterated(h, key, ITERATIONS);
    DigestIsLong(h, key, ITERATIONS);
    GroupsSplit(digest, 6, i);
    PaddedParses(BigEndian(Block(digest, i)) % 100_000, 5);
  }

  lemma {:induction false} SixtyDigits(h: Hash, a: Bytes, b: Bytes)
    requires IsHash(h)
    ensures |Derived(h, a, b)| == 60 && IsDigits(Derived(h, a, b))
  {
    FingerprintDigits(h, a, 0);
    FingerprintDigits(h, b, 0);
  }

  /**
   Each group of five writes its five bytes of the digest modulo 100000: the smaller key's six, then the other's.
  */
  lemma {:induction false} EveryGroupReadsBack(h: Hash, a: Bytes, b: Bytes, i: nat)
    requires IsHash(h) && Leq(a, b) && i < 12
    ensures |Derived(h, a, b)| == 60 && IsDigits(Derived(h, a, b))
    ensures var key := if i < 6 then a else b;
            |Iterated(h, key, 5200)| == 32
            && InDecimal(Derived(h, a, b)[5 * i..5 * i + 5],
                         FromFive(Iterated(h, key, 5200)[5 * (i % 6)..5 * (i % 6) + 5]) % 100_000)
  {
    SixtyDigits(h, a, b);
    var f, g := FingerprintOf(h, a), FingerprintOf(h, b);
    DigestIsLong(h, a, ITERATIONS);
    DigestIsLong(h, b, ITERATIONS);
    FingerprintDigits(h, a, i % 6);
    FingerprintDigits(h, b, i % 6);
    HalfAt(f, g, i);
    ParsedInDecimal(Derived(h, a, b)[5 * i..5 * i + 5]);
    BigEndianOfFive(Block(Iterated(h, if i < 6 then a else b, ITERATIONS), i % 6));
  }

  lemma {:induction false} HalfAt(f: string, g: string, i: nat)
    requires |f| == 30 == |g| && i < 12
    ensures (f + g)[5 * i..5 * i + 5] == (if i < 6 then f else g)[5 * (i % 6)..5 * (i % 6) + 5]
  {
  }

  // ---- Showing -----------------------------------------------------------

  /** Blocks of five with a space between. */
  function GroupedOf(digits: string): string {
    if |digits| <= 5 then digits else digits[..5] + " " + GroupedOf(digits[5..])
  }

  /** Sixty digits are shown as twelve groups of five, a space after each but the last. */
  lemma {:induction false} GroupsOfFive(digits: string, n: nat, i: nat)
    requires n > 0 && |digits| == 5 * n && i < 6 * n - 1
    ensures |GroupedOf(digits)| == 6 * n - 1
    ensures GroupedOf(digits)[i] == if i % 6 == 5 then ' ' else digits[5 * (i / 6) + i % 6]
    decreases n
  {
    if n > 1 {
      var rest := GroupedOf(digits[5..]);
      GroupsOfFive(digits[5..], n - 1, if i < 6 then 0 else i - 6);
      assert GroupedOf(digits) == digits[..5] + " " + rest;
      if i >= 6 {
        assert GroupedOf(digits)[i] == rest[i - 6];
        assert (i - 6) / 6 == i / 6 - 1 && (i - 6) % 6 == i % 6;
      }
    }
  }

  function WithoutSpaces(s: string): string {
    if s == "" then "" else (if s[0] == ' ' then "" else [s[0]]) + WithoutSpaces(s[1..])
  }

  lemma {:induction false} WithoutSpacesConcat(a: string, b: string)
    ensures WithoutSpaces(a + b) == WithoutSpaces(a) + WithoutSpaces(b)
    decreases |a|
  {
    if a == "" {
      assert a + b == b;
    } else {
      assert (a + b)[0] == a[0] && (a + b)[1..] == a[1..] + b;
      WithoutSpacesConcat(a[1..], b);
    }
  }

  lemma {:induction false} DigitsHaveNoSpaces(s: string)
    requires IsDigits(s)
    ensures WithoutSpaces(s) == s
    decreases |s|
  {
    if s != "" {
      DigitsHaveNoSpaces(s[1..]);
      assert s == [s[0]] + s[1..];
    }
  }

  /** Grouping is for the eye only: taking the spaces out gives the digits back. */
  lemma {:induction false} GroupingLosesNothing(digits: string)
    requires IsDigits(digits)
    ensures WithoutSpaces(GroupedOf(digits)) == digits
    decreases |digits|
  {
    if |digits| <= 5 {
      DigitsHaveNoSpaces(digits);
    } else {
      GroupingLosesNothing(digits[5..]);
      SpaceDrops(digits[..5], GroupedOf(digits[5..]));
      assert digits == digits[..5] + digits[5..];
    }
  }

  lemma {:induction false} SpaceDrops(a: string, b: string)
    requires IsDigits(a)
    ensures WithoutSpaces(a + " " + b) == a + WithoutSpaces(b)
  {
    assert a + " " + b == a + (" " + b);
    DigitsHaveNoSpaces(a);
    WithoutSpacesConcat(a, " " + b);
    WithoutSpacesConcat(" ", b);
    assert " "[1..] == "";
    assert WithoutSpaces(" ") == WithoutSpaces("");
  }
}
