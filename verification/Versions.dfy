/** Release versions and the order the registry puts on them: three numbers, then the whole text. */
module Versions {
  type Version = string

  /** The largest value of the source's integer type. */
  const MAX_INT: nat := 0x7FFF_FFFF_FFFF_FFFF

  predicate IsDigit(c: char) {
    '0' <= c <= '9'
  }

  // ---- reading the three numbers ----

  /** Where the run of digits that starts at `k` ends. */
  function RunEnd(s: string, k: nat): (e: nat)
    requires k <= |s|
    ensures k <= e <= |s|
    ensures forall i :: k <= i < e ==> IsDigit(s[i])
    ensures e < |s| ==> !IsDigit(s[e])
    decreases |s| - k
  {
    if k < |s| && IsDigit(s[k]) then RunEnd(s, k + 1) else k
  }

  function DigitValue(c: char): nat
    requires IsDigit(c)
  {
    c as nat - '0' as nat
  }

  function Number(s: string, k: nat, e: nat): nat
    requires k <= e <= |s| && forall i :: k <= i < e ==> IsDigit(s[i])
  {
    if k == e then 0 else 10 * Number(s, k, e - 1) + DigitValue(s[e - 1])
  }

  function Zeros(n: nat): seq<nat> {
    seq(n, _ => 0)
  }

  /** The scan for `n` dot-separated numbers: it stops at the first one that is missing or does
      not fit, and what was not reached stays zero. */
  function Scan(s: string, k: nat, n: nat): (out: seq<nat>)
    requires k <= |s|
    ensures |out| == n
    decreases n
  {
    if n == 0 then []
    else
      var e := RunEnd(s, k);
      if e == k || Number(s, k, e) > MAX_INT then Zeros(n)
      else [Number(s, k, e)] + if e < |s| && s[e] == '.' then Scan(s, e + 1, n - 1) else Zeros(n - 1)
  }

  /** The text before the first dash. */
  function Head(v: Version, k: nat): string
    requires k <= |v|
    decreases |v| - k
  {
    if k < |v| && v[k] != '-' then Head(v, k + 1) else v[..k]
  }

  function Parse(v: Version): (numbers: seq<nat>)
    ensures |numbers| == 3
  {
    Scan(Head(v, 0), 0, 3)
  }

  // ---- the order ----

  predicate NumbersGreater(a: seq<nat>, b: seq<nat>, k: nat)
    requires |a| == |b| && k <= |a|
    decreases |a| - k
  {
    k < |a| && (a[k] > b[k] || (a[k] == b[k] && NumbersGreater(a, b, k + 1)))
  }

  /** Plain string comparison from position `k` on. */
  predicate TextGreater(a: string, b: string, k: nat)
    requires k <= |a| && k <= |b|
    decreases |a| - k
  {
    k < |a| && (k == |b| || a[k] > b[k] || (a[k] == b[k] && TextGreater(a, b, k + 1)))
  }

  predicate Greater(a: Version, b: Version) {
    if b == "" then true
    else
      var p, q := Parse(a), Parse(b);
      NumbersGreater(p, q, 0) || (p == q && TextGreater(a, b, 0))
  }

  /** Any version takes the place of none. */
  lemma AboveNone(a: Version)
    ensures Greater(a, "")
  {
  }

  lemma {:induction false} NumbersOrder(a: seq<nat>, b: seq<nat>, c: seq<nat>, k: nat)
    requires |a| == |b| == |c| && k <= |a|
    ensures !(NumbersGreater(a, b, k) && NumbersGreater(b, a, k))
    ensures NumbersGreater(a, b, k) || NumbersGreater(b, a, k) <==> exists i :: k <= i < |a| && a[i] != b[i]
    ensures NumbersGreater(a, b, k) && NumbersGreater(b, c, k) ==> NumbersGreater(a, c, k)
    decreases |a| - k
  {
    if k < |a| {
      NumbersOrder(a, b, c, k + 1);
    }
  }

  lemma {:induction false} TextOrder(a: string, b: string, c: string, k: nat)
    requires k <= |a| && k <= |b| && k <= |c|
    ensures !(TextGreater(a, b, k) && TextGreater(b, a, k))
    ensures TextGreater(a, b, k) || TextGreater(b, a, k) <==> a[k..] != b[k..]
    ensures TextGreater(a, b, k) && TextGreater(b, c, k) ==> TextGreater(a, c, k)
    decreases |a| - k
  {
    if k < |a| && k < |b| && a[k] == b[k] {
      assert a[k..] == [a[k]] + a[k + 1..] && b[k..] == [b[k]] + b[k + 1..];
      TextOrder(a, b, if k < |c| then c else a, k + 1);
    } else if k < |a| && k < |b| {
      assert a[k..][0] == a[k] && b[k..][0] == b[k];
    }
  }

  /** On versions the order is strict and total: for two different versions exactly one is
      greater, none is greater than itself, and it is transitive. */
  lemma GreaterIsTotalOrder(a: Version, b: Version, c: Version)
    requires a != "" && b != "" && c != ""
    ensures !Greater(a, a)
    ensures a != b ==> (Greater(a, b) <==> !Greater(b, a))
    ensures Greater(a, b) && Greater(b, c) ==> Greater(a, c)
  {
    hide Parse, NumbersGreater, TextGreater;
    var p, q, r := Parse(a), Parse(b), Parse(c);
    NumbersOrder(p, q, r, 0);
    NumbersOrder(p, p, r, 0);
    NumbersOrder(q, r, p, 0);
    TextOrder(a, b, c, 0);
    TextOrder(a, a, c, 0);
    assert a[0..] == a && b[0..] == b;
  }

  // ---- the numbers that were written are the numbers that are read ----

  function Digit(n: nat): char
    requires n < 10
  {
    ('0' as nat + n) as char
  }

  /** Decimal notation without leading zeros. */
  function Decimal(n: nat): (s: string)
    ensures |s| > 0 && forall i :: 0 <= i < |s| ==> IsDigit(s[i])
  {
    if n < 10 then [Digit(n)] else Decimal(n / 10) + [Digit(n % 10)]
  }

  lemma {:induction false} NumberOfDecimal(n: nat, before: string, after: string)
    ensures var s, k := before + Decimal(n) + after, |before|;
            Number(s, k, k + |Decimal(n)|) == n
  {
    var s, k := before + Decimal(n) + after, |before|;
    var e := k + |Decimal(n)|;
    assert forall i :: k <= i < e ==> s[i] == Decimal(n)[i - k];
    if n >= 10 {
      var d := Decimal(n / 10);
      assert s == before + d + ([Digit(n % 10)] + after);
      NumberOfDecimal(n / 10, before, [Digit(n % 10)] + after);
      assert s[e - 1] == Digit(n % 10);
    } else {
      assert Number(s, k, k) == 0;
    }
  }

  lemma RunEnds(s: string, k: nat, e: nat)
    requires k <= e <= |s| && (forall i :: k <= i < e ==> IsDigit(s[i])) && (e < |s| ==> !IsDigit(s[e]))
    ensures RunEnd(s, k) == e
    decreases e - k
  {
  }

  /** One step of the scan over a written number: one that does not fit ends the scan. */
  lemma ScanNumber(before: string, number: nat, after: string, n: nat)
    requires n > 0 && (after != "" ==> after[0] == '.')
    ensures var s, k := before + Decimal(number) + after, |before|;
            Scan(s, k, n) == if number > MAX_INT then Zeros(n)
                             else [number] + if after != "" then Scan(s, k + |Decimal(number)| + 1, n - 1) else Zeros(n - 1)
  {
    var s, k := before + Decimal(number) + after, |before|;
    var e := k + |Decimal(number)|;
    assert forall i :: k <= i < e ==> s[i] == Decimal(number)[i - k];
    assert after != "" ==> s[e] == after[0];
    RunEnds(s, k, e);
    NumberOfDecimal(number, before, after);
  }

  lemma {:induction false} HeadStops(v: Version, k: nat, e: nat)
    requires k <= e <= |v| && (forall i :: k <= i < e ==> v[i] != '-') && (e < |v| ==> v[e] == '-')
    ensures Head(v, k) == v[..e]
    decreases e - k
  {
    if k < e {
      HeadStops(v, k + 1, e);
    }
  }

  function Triple(a: nat, b: nat, c: nat): string {
    Decimal(a) + "." + Decimal(b) + "." + Decimal(c)
  }

  /** Reading back a written version, with or without a prerelease part: from the first number that does
      not fit on, all numbers read as zero. */
  lemma ParseOfTriple(a: nat, b: nat, c: nat, suffix: string)
    requires suffix != "" ==> suffix[0] == '-'
    ensures Parse(Triple(a, b, c) + suffix)
         == if a >= 0x8000_0000_0000_0000 then [0, 0, 0] else if b >= 0x8000_0000_0000_0000 then [a, 0, 0] else if c >= 0x8000_0000_0000_0000 then [a, b, 0] else [a, b, c]
  {
    hide Decimal, Head, Scan;
    var s := Triple(a, b, c);
    assert (s + suffix)[..|s|] == s;
    NoDash(a, b, c);
    HeadStops(s + suffix, 0, |s|);
    ScanTriple(a, b, c);
  }

  lemma NoDash(a: nat, b: nat, c: nat)
    ensures forall i :: 0 <= i < |Triple(a, b, c)| ==> Triple(a, b, c)[i] != '-'
  {
  }

  lemma ScanTriple(a: nat, b: nat, c: nat)
    ensures Scan(Triple(a, b, c), 0, 3)
         == if a > MAX_INT then [0, 0, 0] else if b > MAX_INT then [a, 0, 0] else if c > MAX_INT then [a, b, 0] else [a, b, c]
  {
    hide Decimal, Scan;
    var s := Triple(a, b, c);
    var da, db, dc := Decimal(a), Decimal(b), Decimal(c);
    assert s == "" + da + ("." + db + "." + dc);
    ScanNumber("", a, "." + db + "." + dc, 3);
    assert s == (da + ".") + db + ("." + dc);
    ScanNumber(da + ".", b, "." + dc, 2);
    assert s == (da + "." + db + ".") + dc + "";
    ScanNumber(da + "." + db + ".", c, "", 1);
  }

  /** What is not written reads as zero. */
  lemma ParseOfShort(a: nat, b: nat)
    requires a <= MAX_INT && b <= MAX_INT
    ensures Parse("") == [0, 0, 0] && Parse(Decimal(a)) == [a, 0, 0] && Parse(Decimal(a) + "." + Decimal(b)) == [a, b, 0]
  {
    hide Decimal, Head, Scan;
    HeadStops("", 0, 0);
    ScanNothing("", 0);
    assert "" + Decimal(a) + "" == Decimal(a);
    ScanNumber("", a, "", 3);
    NoDashIn(Decimal(a));
    var s := Decimal(a) + "." + Decimal(b);
    assert s == "" + Decimal(a) + ("." + Decimal(b));
    ScanNumber("", a, "." + Decimal(b), 3);
    assert s == (Decimal(a) + ".") + Decimal(b) + "";
    ScanNumber(Decimal(a) + ".", b, "", 2);
    NoDashIn(s);
  }

  lemma NoDashIn(v: string)
    requires forall i :: 0 <= i < |v| ==> v[i] != '-'
    ensures Head(v, 0) == v
  {
    HeadStops(v, 0, |v|);
    assert v[..|v|] == v;
  }

  lemma ScanNothing(s: string, k: nat)
    requires k == |s|
    ensures Scan(s, k, 3) == [0, 0, 0]
  {
  }

  /** Versions whose numbers fit are compared number by number. */
  lemma NumericPrecedence(a: seq<nat>, b: seq<nat>, k: nat, s: string, t: string)
    requires |a| == |b| == 3 && (forall i :: 0 <= i < 3 ==> a[i] <= MAX_INT && b[i] <= MAX_INT)
    requires (s != "" ==> s[0] == '-') && (t != "" ==> t[0] == '-')
    requires k < 3 && a[k] > b[k] && forall i :: 0 <= i < k ==> a[i] == b[i]
    ensures Greater(Triple(a[0], a[1], a[2]) + s, Triple(b[0], b[1], b[2]) + t)
  {
    hide Parse, Decimal;
    ParseOfTriple(a[0], a[1], a[2], s);
    ParseOfTriple(b[0], b[1], b[2], t);
    assert [a[0], a[1], a[2]] == a && [b[0], b[1], b[2]] == b;
    assert |Triple(b[0], b[1], b[2])| > 0;
    FirstDifference(a, b, 0, k);
  }

  lemma {:induction false} FirstDifference(a: seq<nat>, b: seq<nat>, i: nat, k: nat)
    requires |a| == |b| && i <= k < |a| && a[k] > b[k] && forall j :: i <= j < k ==> a[j] == b[j]
    ensures NumbersGreater(a, b, i)
    decreases k - i
  {
    if i < k {
      FirstDifference(a, b, i + 1, k);
    }
  }

  /** Where two texts part: one ends and the other goes on, or the character of the one is the larger. */
  predicate PartsAt(t: string, s: string, k: nat) {
    k < |s| && k <= |t| && s[..k] == t[..k] && (k == |t| || s[k] > t[k])
  }

  lemma {:induction false} TextPrecedence(before: string, s: string, t: string, i: nat, k: nat)
    requires PartsAt(t, s, k) && i <= |before| + k
    ensures TextGreater(before + s, before + t, i)
    decreases |before| + k - i
  {
    var a, b := before + s, before + t;
    if i < |before| + k {
      assert a[i] == b[i] by {
        assert i >= |before| ==> a[i] == s[..k][i - |before|] && b[i] == t[..k][i - |before|];
      }
      TextPrecedence(before, s, t, i + 1, k);
    }
  }

  /** Versions with the same numbers are compared by what follows them as plain text: at the first
      difference the larger character wins, and of two texts of which one begins the other the longer. So
      1.0.0-beta is above 1.0.0-alpha, and both are above 1.0.0. */
  lemma SuffixPrecedence(a: nat, b: nat, c: nat, s: string, t: string)
    requires a <= MAX_INT && b <= MAX_INT && c <= MAX_INT
    requires (s != "" ==> s[0] == '-') && (t != "" ==> t[0] == '-')
    ensures Greater(Triple(a, b, c) + s, Triple(a, b, c) + t) <==> exists k :: PartsAt(t, s, k)
  {
    hide Parse, Decimal, Triple, TextGreater;
    var front := Triple(a, b, c);
    TripleNotEmpty(a, b, c);
    ParseOfTriple(a, b, c, s);
    ParseOfTriple(a, b, c, t);
    EqualNumbers([a, b, c]);
    if k :| PartsAt(t, s, k) {
      TextPrecedence(front, s, t, 0, k);
    } else if s != t {
      var k := FirstDifferent(s, t);
      assert !PartsAt(t, s, k);
      TextPrecedence(front, t, s, 0, k);
      TextOrder(front + s, front + t, "", 0);
    } else {
      TextOrder(front + s, front + t, "", 0);
    }
  }

  lemma TripleNotEmpty(a: nat, b: nat, c: nat)
    ensures Triple(a, b, c) != ""
  {
  }

  lemma EqualNumbers(p: seq<nat>)
    ensures !NumbersGreater(p, p, 0)
  {
    NumbersOrder(p, p, p, 0);
  }

  lemma FirstDifferent(s: string, t: string) returns (k: nat)
    requires s != t
    ensures PartsAt(t, s, k) || PartsAt(s, t, k)
  {
    k := 0;
    while k < |s| && k < |t| && s[k] == t[k]
      invariant k <= |s| && k <= |t| && s[..k] == t[..k]
    {
      k := k + 1;
    }
    assert s[..|s|] == s && t[..|t|] == t;
  }

  // ---- maxima ----

  predicate IsMaximum(v: Version, vs: set<Version>) {
    v in vs && forall u :: u in vs && u != v ==> Greater(v, u)
  }

  lemma {:induction false} MaximumExists(vs: set<Version>)
    requires vs != {} && "" !in vs
    ensures exists v :: IsMaximum(v, vs)
    decreases |vs|
  {
    hide Greater;
    var w :| w in vs;
    var rest := vs - {w};
    if rest == {} {
      assert vs == rest + {w};
      assert IsMaximum(w, vs);
    } else {
      MaximumExists(rest);
      var m :| IsMaximum(m, rest);
      GreaterIsTotalOrder(m, w, w);
      if Greater(m, w) {
        assert IsMaximum(m, vs);
      } else {
        forall u | u in vs && u != w ensures Greater(w, u) {
          assert u in rest;
          GreaterIsTotalOrder(w, m, u);
        }
        assert IsMaximum(w, vs);
      }
    }
  }

  /** The greatest version, or the empty text when there is none. */
  ghost function Latest(vs: set<Version>): (v: Version)
    requires "" !in vs
    ensures if vs == {} then v == "" else IsMaximum(v, vs)
  {
    if vs == {} then ""
    else
      MaximumExists(vs);
      var v :| IsMaximum(v, vs);
      v
  }

  /** There is only one maximum, so every way of finding one finds the same. */
  lemma LatestIsUnique(v: Version, vs: set<Version>)
    requires "" !in vs && IsMaximum(v, vs)
    ensures v == Latest(vs)
  {
    hide Greater;
    var m := Latest(vs);
    GreaterIsTotalOrder(v, m, m);
  }
}
