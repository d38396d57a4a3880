/** Release precedence: items 9 to 11 of SemVer 2.0.0, over unbounded identifier lists. */
module VersionOrder {
  import opened Wrappers
  import opened VersionText

  function DigitValue(c: char): nat {
    if IsDigit(c) then c as int - '0' as int else 0
  }

  /** The number a digit string denotes. */
  function Value(s: string): nat
    decreases |s|
  {
    if |s| == 0 then 0 else Value(s[..|s| - 1]) * 10 + DigitValue(s[|s| - 1])
  }

  // ---------- The comparison ----------

  /** Order of strings by character code. */
  predicate TextLess(a: string, b: string) {
    if |b| == 0 then false
    else if |a| == 0 then true
    else a[0] < b[0] || (a[0] == b[0] && TextLess(a[1..], b[1..]))
  }

  /** Two different identifiers. */
  function IdOrder(x: string, y: string): (r: int)
    ensures r == -1 || r == 1
  {
    if Numeric(x) && Numeric(y) then if Value(x) < Value(y) then -1 else 1
    else if Numeric(x) != Numeric(y) then if Numeric(x) then -1 else 1
    else if TextLess(x, y) then -1 else 1
  }

  function PreOrder(a: seq<string>, b: seq<string>): int {
    if |a| == 0 then if |b| == 0 then 0 else -1
    else if |b| == 0 then 1
    else if a[0] == b[0] then PreOrder(a[1..], b[1..])
    else IdOrder(a[0], b[0])
  }

  function CoreOrder(a: seq<string>, b: seq<string>): int
    requires |a| == |b|
  {
    if |a| == 0 then 0
    else if Value(a[0]) < Value(b[0]) then -1
    else if Value(a[0]) > Value(b[0]) then 1
    else CoreOrder(a[1..], b[1..])
  }

  function Order(v: Version, w: Version): int
    requires WellFormed(v) && WellFormed(w)
  {
    var c := CoreOrder(v.core, w.core);
    if c != 0 then c
    else if v.pre == [] || w.pre == [] then if v.pre != [] then -1 else if w.pre != [] then 1 else 0
    else PreOrder(v.pre, w.pre)
  }

  // ---------- Numbers ----------

  lemma {:induction false} ValuePositive(s: string)
    requires CoreNumber(s) && s != "0"
    ensures Value(s) > 0
    decreases |s|
  {
    if |s| > 1 { ValuePositive(s[..|s| - 1]); }
  }

  /** Without leading zeros, equal numbers are equal strings. */
  lemma {:induction false} ValueInjective(s: string, t: string)
    requires CoreNumber(s) && CoreNumber(t) && Value(s) == Value(t)
    ensures s == t
    decreases |s|
  {
    if |s| > 1 && |t| > 1 {
      ValueInjective(s[..|s| - 1], t[..|t| - 1]);
      assert s == s[..|s| - 1] + [s[|s| - 1]] && t == t[..|t| - 1] + [t[|t| - 1]];
    } else if |s| > 1 {
      ValuePositive(s[..|s| - 1]);
    } else if |t| > 1 {
      ValuePositive(t[..|t| - 1]);
    }
  }

  /** The decimal rendering of a number. */
  function Decimal(n: nat): string {
    if n < 10 then ["0123456789"[n]] else Decimal(n / 10) + ["0123456789"[n % 10]]
  }

  lemma DigitsCount(d: nat)
    requires d < 10
    ensures IsDigit("0123456789"[d]) && DigitValue("0123456789"[d]) == d && ("0123456789"[d] == '0' <==> d == 0)
  {
  }

  /** Reading back a rendered number gives the number. */
  lemma {:induction false} ValueOfDecimal(n: nat)
    ensures CoreNumber(Decimal(n)) && Value(Decimal(n)) == n
    ensures Decimal(n)[0] == '0' ==> n == 0
  {
    DigitsCount(n % 10);
    if n < 10 {
      assert Decimal(n)[..0] == "";
    } else {
      ValueOfDecimal(n / 10);
      hide DigitValue;
      assert Decimal(n)[..|Decimal(n)| - 1] == Decimal(n / 10);
    }
  }

  /** Rendering what a number without leading zeros denotes gives it back. */
  lemma {:induction false} DecimalOfValue(s: string)
    requires CoreNumber(s)
    ensures Decimal(Value(s)) == s
  {
    ValueOfDecimal(Value(s));
    ValueInjective(Decimal(Value(s)), s);
  }

  // ---------- Identifiers ----------

  lemma {:induction false} TextTotal(a: string, b: string)
    ensures a == b ==> !TextLess(a, b)
    ensures a != b ==> (TextLess(a, b) <==> !TextLess(b, a))
    decreases |a|
  {
    if |a| > 0 && |b| > 0 {
      TextTotal(a[1..], b[1..]);
      assert a == [a[0]] + a[1..] && b == [b[0]] + b[1..];
    }
  }

  lemma {:induction false} TextTransitive(a: string, b: string, c: string)
    requires TextLess(a, b) && TextLess(b, c)
    ensures TextLess(a, c)
    decreases |a|
  {
    if |a| > 0 && a[0] == b[0] && b[0] == c[0] { TextTransitive(a[1..], b[1..], c[1..]); }
  }

  predicate SameNumber(x: string, y: string) {
    Numeric(x) && Numeric(y) && Value(x) == Value(y)
  }

  lemma IdAntisymmetric(x: string, y: string)
    requires x != y
    ensures IdOrder(x, y) == -IdOrder(y, x) <==> !SameNumber(x, y)
  {
    TextTotal(x, y);
  }

  lemma IdTransitive(x: string, y: string, z: string)
    requires x != y && y != z && IdOrder(x, y) < 0 && IdOrder(y, z) < 0
    ensures x != z && IdOrder(x, z) < 0
  {
    TextTotal(x, y);
    if TextLess(x, y) && TextLess(y, z) { TextTransitive(x, y, z); TextTotal(x, z); }
  }

  // ---------- Lists ----------

  /** The first position where two lists differ, if they do. */
  ghost predicate FirstDifference<T>(a: seq<T>, b: seq<T>, k: nat) {
    && k <= |a| && k <= |b| && a[..k] == b[..k]
    && (if k == |a| then k < |b| else k == |b| || a[k] != b[k])
  }

  lemma {:induction false} PreZero(a: seq<string>, b: seq<string>)
    ensures PreOrder(a, b) == 0 <==> a == b
    decreases |a|
  {
    if |a| > 0 && |b| > 0 {
      PreZero(a[1..], b[1..]);
      assert a == [a[0]] + a[1..] && b == [b[0]] + b[1..];
    }
  }

  lemma {:induction false} PreTransitive(a: seq<string>, b: seq<string>, c: seq<string>)
    requires PreOrder(a, b) <= 0 && PreOrder(b, c) <= 0
    ensures PreOrder(a, c) <= 0
    ensures PreOrder(a, c) == 0 ==> PreOrder(a, b) == 0 && PreOrder(b, c) == 0
    decreases |a|
  {
    hide IdOrder;
    if |a| > 0 && |b| > 0 && |c| > 0 {
      if a[0] == b[0] && b[0] == c[0] {
        PreTransitive(a[1..], b[1..], c[1..]);
      } else if a[0] != b[0] && b[0] != c[0] {
        IdTransitive(a[0], b[0], c[0]);
      }
    }
  }

  /** At the first difference one list ends or the identifiers decide. */
  lemma {:induction false} PreAt(a: seq<string>, b: seq<string>, k: nat)
    requires FirstDifference(a, b, k)
    ensures PreOrder(a, b) == if k == |a| then -1 else if k == |b| then 1 else IdOrder(a[k], b[k])
    decreases k
  {
    hide IdOrder;
    if k > 0 {
      assert a[0] == a[..k][0] && b[0] == b[..k][0];
      assert a[1..][..k - 1] == a[..k][1..] && b[1..][..k - 1] == b[..k][1..];
      PreAt(a[1..], b[1..], k - 1);
    }
  }

  lemma {:induction false} DifferenceExists<T>(a: seq<T>, b: seq<T>) returns (k: nat)
    requires a != b
    ensures FirstDifference(a, b, k)
    decreases |a|
  {
    k := 0;
    if |a| > 0 && |b| > 0 && a[0] == b[0] {
      assert a == [a[0]] + a[1..] && b == [b[0]] + b[1..];
      var j := DifferenceExists(a[1..], b[1..]);
      k := j + 1;
      assert a[..k] == [a[0]] + a[1..][..j] && b[..k] == [b[0]] + b[1..][..j];
    }
  }

  lemma {:induction false} CoreLaws(a: seq<string>, b: seq<string>)
    requires |a| == |b| && (forall i | 0 <= i < |a| :: CoreNumber(a[i])) && (forall i | 0 <= i < |b| :: CoreNumber(b[i]))
    ensures CoreOrder(a, b) == -CoreOrder(b, a)
    ensures CoreOrder(a, b) == 0 <==> a == b
    decreases |a|
  {
    if |a| > 0 {
      CoreLaws(a[1..], b[1..]);
      assert a == [a[0]] + a[1..] && b == [b[0]] + b[1..];
      if Value(a[0]) == Value(b[0]) { ValueInjective(a[0], b[0]); }
    }
  }

  lemma {:induction false} CoreTransitive(a: seq<string>, b: seq<string>, c: seq<string>)
    requires |a| == |b| == |c|
    requires CoreOrder(a, b) <= 0 && CoreOrder(b, c) <= 0
    ensures CoreOrder(a, c) <= 0
    ensures CoreOrder(a, c) == 0 ==> CoreOrder(a, b) == 0 && CoreOrder(b, c) == 0
    decreases |a|
  {
    if |a| > 0 && Value(a[0]) == Value(b[0]) == Value(c[0]) { CoreTransitive(a[1..], b[1..], c[1..]); }
  }

  // ---------- Versions ----------

  /** The result is zero exactly when two versions differ at most in their build metadata. */
  lemma ZeroIffSamePrecedence(v: Version, w: Version)
    requires WellFormed(v) && WellFormed(w)
    ensures Order(v, w) == 0 <==> v.core == w.core && v.pre == w.pre
  {
    CoreLaws(v.core, w.core);
    PreZero(v.pre, w.pre);
    hide CoreOrder, PreOrder;
  }

  /** Comparing is transitive on all versions, and strict if either side is. */
  lemma OrderTransitive(u: Version, v: Version, w: Version)
    requires WellFormed(u) && WellFormed(v) && WellFormed(w)
    requires Order(u, v) <= 0 && Order(v, w) <= 0
    ensures Order(u, w) <= 0
    ensures Order(u, w) == 0 ==> Order(u, v) == 0 && Order(v, w) == 0
  {
    CoreTransitive(u.core, v.core, w.core);
    if PreOrder(u.pre, v.pre) <= 0 && PreOrder(v.pre, w.pre) <= 0 { PreTransitive(u.pre, v.pre, w.pre); }
    hide CoreOrder, PreOrder;
  }

  /** The first differing prerelease identifiers are the same number written differently, as 01 and 1. */
  ghost predicate Clash(v: Version, w: Version) {
    v.core == w.core && exists k: nat :: FirstDifference(v.pre, w.pre, k) && k < |v.pre| && k < |w.pre| && SameNumber(v.pre[k], w.pre[k])
  }

  lemma DifferenceUnique<T>(a: seq<T>, b: seq<T>, j: nat, k: nat)
    requires FirstDifference(a, b, j) && FirstDifference(a, b, k)
    ensures j == k
  {
    assert forall i | 0 <= i < j :: a[..j][i] == a[i] && b[..j][i] == b[i];
    assert forall i | 0 <= i < k :: a[..k][i] == a[i] && b[..k][i] == b[i];
  }

  lemma Flip<T>(a: seq<T>, b: seq<T>, k: nat)
    requires FirstDifference(a, b, k)
    ensures FirstDifference(b, a, k)
  {
  }

  /** Swapping the arguments negates the result exactly when the versions do not clash. */
  lemma AntisymmetricIffNoClash(v: Version, w: Version)
    requires WellFormed(v) && WellFormed(w)
    ensures Order(v, w) == -Order(w, v) <==> !Clash(v, w)
  {
    CoreLaws(v.core, w.core);
    PreZero(v.pre, w.pre);
    PreZero(w.pre, v.pre);
    if v.pre != w.pre {
      var k := DifferenceExists(v.pre, w.pre);
      PreAt(v.pre, w.pre, k);
      Flip(v.pre, w.pre, k);
      PreAt(w.pre, v.pre, k);
      if k < |v.pre| && k < |w.pre| { IdAntisymmetric(v.pre[k], w.pre[k]); }
      forall j: nat | FirstDifference(v.pre, w.pre, j) ensures j == k { DifferenceUnique(v.pre, w.pre, j, k); }
    }
    hide CoreOrder, PreOrder, IdOrder, SameNumber;
  }

  /** Item 9: numeric identifiers have no leading zeros. */
  ghost predicate Canonical(v: Version) {
    WellFormed(v) && forall i | 0 <= i < |v.pre| :: Numeric(v.pre[i]) ==> NoLeadingZero(v.pre[i])
  }

  lemma CanonicalNeverClash(v: Version, w: Version)
    requires Canonical(v) && Canonical(w)
    ensures !Clash(v, w)
  {
    if Clash(v, w) {
      var k: nat :| FirstDifference(v.pre, w.pre, k) && k < |v.pre| && k < |w.pre| && SameNumber(v.pre[k], w.pre[k]);
      ValueInjective(v.pre[k], w.pre[k]);
    }
  }

  /** The parser accepts 1.0.0-01, and each of 1.0.0-01 and 1.0.0-1 is then greater than the other. */
  lemma LeadingZeroClashes()
    ensures var v := Version(["1", "0", "0"], ["01"], []); var w := v.(pre := ["1"]);
            WellFormed(v) && WellFormed(w) && Order(v, w) == 1 && Order(w, v) == 1
  {
    var v := Version(["1", "0", "0"], ["01"], []);
    var w := v.(pre := ["1"]);
    assert v.core[0] == "1" && v.core[1] == "0" && v.core[2] == "0";
    assert WellFormed(v) && WellFormed(w);
    CoreLaws(v.core, w.core);
    assert "01"[..1] == "0" && "1"[..0] == "" && "0"[..0] == "";
    assert Value("0") == 0 && Value("1") == 1 && Value("01") == 1;
  }

  // ---------- The precedence of the standard ----------

  /** Item 11.4: numbers numerically, other identifiers by character code, numbers below the others. */
  ghost predicate IdPrecedes(x: string, y: string) {
    if Numeric(x) then !Numeric(y) || Value(x) < Value(y)
    else !Numeric(y) && exists k: nat :: FirstDifference(x, y, k) && (k == |x| || (k < |y| && x[k] < y[k]))
  }

  ghost predicate Precedes(v: Version, w: Version)
    requires WellFormed(v) && WellFormed(w)
  {
    || (exists k :: 0 <= k < 3 && v.core[..k] == w.core[..k] && Value(v.core[k]) < Value(w.core[k]))
    || (v.core == w.core && v.pre != [] && w.pre == [])
    || (v.core == w.core && v.pre != [] && w.pre != [] && exists k: nat ::
          FirstDifference(v.pre, w.pre, k) && (k == |v.pre| || (k < |w.pre| && IdPrecedes(v.pre[k], w.pre[k]))))
  }

  lemma {:induction false} TextLessAt(x: string, y: string, k: nat)
    requires FirstDifference(x, y, k)
    ensures TextLess(x, y) <==> (k == |x| || (k < |y| && x[k] < y[k]))
    decreases k
  {
    if k > 0 {
      assert x[0] == x[..k][0] && y[0] == y[..k][0];
      assert x[1..][..k - 1] == x[..k][1..] && y[1..][..k - 1] == y[..k][1..];
      TextLessAt(x[1..], y[1..], k - 1);
    }
  }

  lemma IdOrderIsPrecedence(x: string, y: string)
    requires x != y
    ensures IdOrder(x, y) < 0 <==> IdPrecedes(x, y)
  {
    var k := DifferenceExists(x, y);
    TextLessAt(x, y, k);
    forall j: nat | FirstDifference(x, y, j) ensures j == k { DifferenceUnique(x, y, j, k); }
    hide TextLess;
  }

  lemma CoreOrderAt(a: seq<string>, b: seq<string>)
    requires |a| == |b| == 3 && (forall i | 0 <= i < 3 :: CoreNumber(a[i]) && CoreNumber(b[i]))
    ensures CoreOrder(a, b) < 0 <==> exists k :: 0 <= k < 3 && a[..k] == b[..k] && Value(a[k]) < Value(b[k])
  {
    CoreFirst(a, b, 0);
    assert a[0..] == a && b[0..] == b && a[..0] == b[..0];
  }

  /** The order of the tails from n on is decided by the first number that differs. */
  lemma {:induction false} CoreFirst(a: seq<string>, b: seq<string>, n: nat)
    requires n <= |a| == |b| && (forall i | 0 <= i < |a| :: CoreNumber(a[i]) && CoreNumber(b[i]))
    requires a[..n] == b[..n]
    ensures CoreOrder(a[n..], b[n..]) < 0 <==> exists k :: n <= k < |a| && a[..k] == b[..k] && Value(a[k]) < Value(b[k])
    decreases |a| - n
  {
    if n < |a| {
      assert a[n..][1..] == a[n + 1..] && b[n..][1..] == b[n + 1..];
      if Value(a[n]) == Value(b[n]) {
        ValueInjective(a[n], b[n]);
        assert a[..n + 1] == a[..n] + [a[n]] && b[..n + 1] == b[..n] + [b[n]];
        CoreFirst(a, b, n + 1);
      } else {
        forall k | n < k < |a| ensures a[..k] != b[..k] {
          assert a[..k][n] == a[n] && b[..k][n] == b[n];
        }
      }
    }
  }

  /** For every pair of versions the result is negative exactly when the first precedes the second. */
  lemma NegativeIffPrecedes(v: Version, w: Version)
    requires WellFormed(v) && WellFormed(w)
    ensures Order(v, w) < 0 <==> Precedes(v, w)
  {
    CoreLaws(v.core, w.core);
    CoreOrderAt(v.core, w.core);
    PreZero(v.pre, w.pre);
    if v.pre != w.pre {
      var k := DifferenceExists(v.pre, w.pre);
      PreAt(v.pre, w.pre, k);
      if k < |v.pre| && k < |w.pre| { IdOrderIsPrecedence(v.pre[k], w.pre[k]); }
      forall j: nat | FirstDifference(v.pre, w.pre, j) ensures j == k { DifferenceUnique(v.pre, w.pre, j, k); }
    }
    hide CoreOrder, PreOrder, IdOrder, IdPrecedes;
  }

  /** On canonical versions the comparison is a total preorder, and it is the standard's precedence both ways. */
  lemma CanonicalOrderIsTotal(v: Version, w: Version)
    requires Canonical(v) && Canonical(w)
    ensures Order(v, w) == -Order(w, v)
    ensures Order(v, w) < 0 <==> Precedes(v, w)
    ensures Order(v, w) > 0 <==> Precedes(w, v)
  {
    CanonicalNeverClash(v, w);
    AntisymmetricIffNoClash(v, w);
    NegativeIffPrecedes(v, w);
    NegativeIffPrecedes(w, v);
    hide Order, Precedes, Clash;
  }

  /** A release, and its string. */
  function Release(major: nat, minor: nat, patch: nat): Version {
    Version([Decimal(major), Decimal(minor), Decimal(patch)], [], [])
  }

  lemma ReleaseFacts(a: nat, b: nat, c: nat)
    ensures WellFormed(Release(a, b, c))
    ensures var v := Release(a, b, c).core; Value(v[0]) == a && Value(v[1]) == b && Value(v[2]) == c
    ensures Parse("v" + Decimal(a) + "." + Decimal(b) + "." + Decimal(c)) == Some(Release(a, b, c))
  {
    ValueOfDecimal(a);
    ValueOfDecimal(b);
    ValueOfDecimal(c);
    hide Decimal, Value, Parse, CoreNumber;
    var v := Release(a, b, c);
    ParseRender(v);
    assert v.core[1..] == [v.core[1], v.core[2]] && v.core[1..][1..] == [v.core[2]];
    assert Join(v.core[1..]) == Decimal(b) + "." + Decimal(c);
    assert "v" + Render(v) == "v" + Decimal(a) + "." + Decimal(b) + "." + Decimal(c);
  }

  /** For releases the comparison is that of their three numbers, and their strings parse as such. */
  lemma {:induction false} ReleasesCompareByNumbers(a: nat, b: nat, c: nat, x: nat, y: nat, z: nat)
    ensures WellFormed(Release(a, b, c)) && WellFormed(Release(x, y, z))
    ensures Order(Release(a, b, c), Release(x, y, z))
         == if a < x || (a == x && (b < y || (b == y && c < z))) then -1 else if a == x && b == y && c == z then 0 else 1
    ensures Parse("v" + Decimal(a) + "." + Decimal(b) + "." + Decimal(c)) == Some(Release(a, b, c))
  {
    ReleaseFacts(a, b, c);
    ReleaseFacts(x, y, z);
    hide Value, Decimal, Parse, WellFormed;
    var v, w := Release(a, b, c).core, Release(x, y, z).core;
    assert v[1..][1..][1..] == [] && w[1..][1..][1..] == [];
    assert v[1..][0] == v[1] && v[1..][1..][0] == v[2] && w[1..][0] == w[1] && w[1..][1..][0] == w[2];
    assert CoreOrder(v[1..][1..][1..], w[1..][1..][1..]) == 0;
    assert CoreOrder(v[1..][1..], w[1..][1..]) == if c < z then -1 else if c > z then 1 else 0;
    assert CoreOrder(v[1..], w[1..]) == if b < y then -1 else if b > y then 1 else CoreOrder(v[1..][1..], w[1..][1..]);
    assert CoreOrder(v, w) == if a < x then -1 else if a > x then 1 else CoreOrder(v[1..], w[1..]);
  }

  // ---------- compareVersions ----------

  method CompareCore(a: seq<string>, b: seq<string>) returns (r: int)
    requires |a| == |b| == 3
    ensures r == CoreOrder(a, b)
  {
    for i := 0 to 3
      invariant CoreOrder(a, b) == CoreOrder(a[i..], b[i..])
    {
      assert a[i..][1..] == a[i + 1..] && b[i..][1..] == b[i + 1..];
      var nA, nB := Value(a[i]), Value(b[i]);
      if nA < nB { return -1; }
      if nA > nB { return 1; }
    }
    return 0;
  }

  method ComparePrerelease(a: seq<string>, b: seq<string>) returns (r: int)
    ensures r == PreOrder(a, b)
  {
    hide IdOrder;
    var i := 0;
    while i < |a| || i < |b|
      invariant i <= |a| && i <= |b|
      invariant PreOrder(a, b) == PreOrder(a[i..], b[i..])
      decreases |a| - i
    {
      if i == |a| { return -1; }
      if i == |b| { return 1; }
      assert a[i..][1..] == a[i + 1..] && b[i..][1..] == b[i + 1..];
      if a[i] != b[i] {
        return IdOrder(a[i], b[i]);
      }
      i := i + 1;
    }
    return 0;
  }

  /** None stands for the validation error: one of the strings is no version. */
  method CompareVersions(a: string, b: string) returns (r: Option<int>)
    ensures r.Some? <==> Parse(a).Some? && Parse(b).Some?
    ensures r.Some? ==> WellFormed(Parse(a).value) && WellFormed(Parse(b).value) && r.value == Order(Parse(a).value, Parse(b).value)
  {
    var partsA, partsB := Parse(a), Parse(b);
    if partsA.None? || partsB.None? {
      return None;
    }
    var v, w := partsA.value, partsB.value;
    assert WellFormed(v) && WellFormed(w);
    hide Parse, CoreOrder, PreOrder;
    var core := CompareCore(v.core, w.core);
    if core != 0 {
      return Some(core);
    }
    if v.pre == [] || w.pre == [] {
      return Some(if v.pre != [] then -1 else if w.pre != [] then 1 else 0);
    }
    var pre := ComparePrerelease(v.pre, w.pre);
    return Some(pre);
  }

  /** What a caller sees: zero exactly for strings that differ at most in build metadata and the leading v. */
  lemma {:induction false} ZeroForText(a: string, b: string)
    requires Parse(a).Some? && Parse(b).Some?
    ensures WellFormed(Parse(a).value) && WellFormed(Parse(b).value)
    ensures Order(Parse(a).value, Parse(b).value) == 0
        <==> Head(Parse(a).value) == Head(Parse(b).value)
  {
    RenderParse(a);
    RenderParse(b);
    var v, w := Parse(a).value, Parse(b).value;
    ZeroIffSamePrecedence(v, w);
    CutHead(v);
    CutHead(w);
    SplitParts(v);
    SplitParts(w);
    hide Parse, Order, Join, Split, Cut, WellFormed;
  }
}
