/** Release version strings, in the grammar of SemVer 2.0.0 with an optional leading v. */
module VersionText {
  import opened Wrappers

  /** Core numbers and identifiers as written; [] stands for an absent prerelease or build part. */
  datatype Version = Version(core: seq<string>, pre: seq<string>, build: seq<string>)

  predicate IsDigit(c: char) {
    '0' <= c <= '9'
  }

  predicate IsIdentifierChar(c: char) {
    IsDigit(c) || 'A' <= c <= 'Z' || 'a' <= c <= 'z' || c == '-'
  }

  predicate Numeric(s: string) {
    |s| > 0 && forall i | 0 <= i < |s| :: IsDigit(s[i])
  }

  predicate NoLeadingZero(s: string) {
    |s| > 0 && (s[0] == '0' ==> |s| == 1)
  }

  predicate CoreNumber(s: string) {
    Numeric(s) && NoLeadingZero(s)
  }

  predicate Identifier(s: string) {
    |s| > 0 && forall i | 0 <= i < |s| :: IsIdentifierChar(s[i])
  }

  predicate WellFormed(v: Version) {
    && |v.core| == 3 && (forall i | 0 <= i < 3 :: CoreNumber(v.core[i]))
    && (forall i | 0 <= i < |v.pre| :: Identifier(v.pre[i]))
    && (forall i | 0 <= i < |v.build| :: Identifier(v.build[i]))
  }

  // ---------- Rendering and parsing ----------

  function Join(parts: seq<string>): string {
    if |parts| == 0 then "" else if |parts| == 1 then parts[0] else parts[0] + "." + Join(parts[1..])
  }

  function Head(v: Version): string {
    Join(v.core) + if v.pre == [] then "" else "-" + Join(v.pre)
  }

  function Render(v: Version): string {
    Head(v) + if v.build == [] then "" else "+" + Join(v.build)
  }

  /** Split at the first c. */
  function Cut(s: string, c: char): (r: (string, Option<string>))
    ensures c !in r.0
    ensures s == if r.1.Some? then r.0 + [c] + r.1.value else r.0
  {
    if s == "" then ("", None)
    else if s[0] == c then ("", Some(s[1..]))
    else
      var (a, b) := Cut(s[1..], c);
      ([s[0]] + a, b)
  }

  function Split(s: string): (r: seq<string>)
    ensures |r| > 0 && Join(r) == s && forall i | 0 <= i < |r| :: '.' !in r[i]
    decreases |s|
  {
    var (a, b) := Cut(s, '.');
    if b.None? then [a]
    else
      assert |b.value| < |s|;
      [a] + Split(b.value)
  }

  function Parts(s: Option<string>): seq<string> {
    if s.None? then [] else Split(s.value)
  }

  function Parse(s: string): Option<Version> {
    var body := if |s| > 0 && s[0] == 'v' then s[1..] else s;
    var (head, build) := Cut(body, '+');
    var (core, pre) := Cut(head, '-');
    var v := Version(Split(core), Parts(pre), Parts(build));
    if WellFormed(v) then Some(v) else None
  }

  // ---------- Round trips ----------

  lemma ConsSlices(a: string, c: char, b: string)
    requires a != ""
    ensures (a + [c] + b)[0] == a[0] && (a + [c] + b)[1..] == a[1..] + [c] + b && a == [a[0]] + a[1..]
    ensures a + [c] + b != ""
  {
  }

  lemma {:induction false} CutIsFirst(a: string, c: char, b: string)
    requires c !in a
    ensures Cut(a + [c] + b, c) == (a, Some(b)) && Cut(a, c) == (a, None)
    decreases |a|
  {
    if a == "" {
      assert a + [c] + b == [c] + b && ([c] + b)[1..] == b;
    } else {
      ConsSlices(a, c, b);
      assert a[0] in a;
      CutIsFirst(a[1..], c, b);
    }
  }

  lemma {:induction false} SplitJoin(parts: seq<string>)
    requires |parts| > 0 && forall i | 0 <= i < |parts| :: '.' !in parts[i]
    ensures Split(Join(parts)) == parts
    decreases |parts|
  {
    if |parts| == 1 {
      CutIsFirst(parts[0], '.', "");
    } else {
      CutIsFirst(parts[0], '.', Join(parts[1..]));
      assert Join(parts) == parts[0] + "." + Join(parts[1..]);
      SplitJoin(parts[1..]);
    }
  }

  lemma {:induction false} JoinPlain(parts: seq<string>, c: char)
    requires c != '.' && forall i | 0 <= i < |parts| :: c !in parts[i]
    ensures c !in Join(parts)
    decreases |parts|
  {
    if |parts| > 1 { JoinPlain(parts[1..], c); }
  }

  lemma {:induction false} FirstOfJoin(parts: seq<string>)
    requires |parts| > 0 && |parts[0]| > 0
    ensures |Join(parts)| > 0 && Join(parts)[0] == parts[0][0]
  {
  }

  lemma PlainParts(v: Version)
    requires WellFormed(v)
    ensures forall i | 0 <= i < 3 :: '.' !in v.core[i] && '-' !in v.core[i] && '+' !in v.core[i] && |v.core[i]| > 0
    ensures forall i | 0 <= i < |v.pre| :: '.' !in v.pre[i] && '+' !in v.pre[i]
    ensures forall i | 0 <= i < |v.build| :: '.' !in v.build[i]
    ensures IsDigit(v.core[0][0])
  {
    assert CoreNumber(v.core[0]);
  }

  /** A core followed by nothing, or by a hyphen and a prerelease. */
  lemma HeadText(v: Version)
    ensures v.pre == [] ==> Head(v) == Join(v.core)
    ensures v.pre != [] ==> Head(v) == Join(v.core) + ['-'] + Join(v.pre)
  {
    hide Join;
    assert Join(v.core) + ['-'] + Join(v.pre) == Join(v.core) + ("-" + Join(v.pre));
    assert Join(v.core) + "" == Join(v.core);
  }

  lemma PlainJoins(v: Version)
    requires WellFormed(v)
    ensures '-' !in Join(v.core) && '+' !in Join(v.core) && '+' !in Join(v.pre)
    ensures |Join(v.core)| > 0 && IsDigit(Join(v.core)[0])
  {
    PlainParts(v);
    hide WellFormed, Join;
    JoinPlain(v.core, '-');
    JoinPlain(v.core, '+');
    JoinPlain(v.pre, '+');
    FirstOfJoin(v.core);
  }

  lemma CutHead(v: Version)
    requires WellFormed(v)
    ensures '+' !in Head(v) && |Head(v)| > 0 && Head(v)[0] != 'v'
    ensures Cut(Head(v), '-') == (Join(v.core), if v.pre == [] then None else Some(Join(v.pre)))
  {
    PlainJoins(v);
    HeadText(v);
    hide WellFormed, Join, Head;
    CutIsFirst(Join(v.core), '-', Join(v.pre));
    hide Cut;
  }

  /** A head followed by nothing, or by a plus sign and a build. */
  lemma RenderText(v: Version)
    ensures v.build == [] ==> Render(v) == Head(v)
    ensures v.build != [] ==> Render(v) == Head(v) + ['+'] + Join(v.build)
  {
    hide Head, Join;
    assert Head(v) + ['+'] + Join(v.build) == Head(v) + ("+" + Join(v.build));
    assert Head(v) + "" == Head(v);
  }

  lemma CutBuild(v: Version)
    requires WellFormed(v)
    ensures Cut(Render(v), '+') == (Head(v), if v.build == [] then None else Some(Join(v.build)))
    ensures |Render(v)| > 0 && Render(v)[0] != 'v'
  {
    CutHead(v);
    RenderText(v);
    hide WellFormed, Head, Render;
    CutIsFirst(Head(v), '+', Join(v.build));
    hide Join, Cut;
  }

  lemma SplitParts(v: Version)
    requires WellFormed(v)
    ensures Split(Join(v.core)) == v.core
    ensures v.pre != [] ==> Split(Join(v.pre)) == v.pre
    ensures v.build != [] ==> Split(Join(v.build)) == v.build
  {
    PlainParts(v);
    hide Split, Join;
    SplitJoin(v.core);
    if v.pre != [] { SplitJoin(v.pre); }
    if v.build != [] { SplitJoin(v.build); }
  }

  /** Parsing a rendered version, with or without the leading v, gives the version back. */
  lemma ParseRender(v: Version)
    requires WellFormed(v)
    ensures Parse(Render(v)) == Some(v) && Parse("v" + Render(v)) == Some(v)
  {
    CutHead(v);
    CutBuild(v);
    SplitParts(v);
    assert ("v" + Render(v))[1..] == Render(v);
    hide WellFormed, Head, Render, Join, Cut, Split;
  }

  /** Only renderings of well-formed versions parse. */
  lemma {:induction false} RenderParse(s: string)
    ensures Parse(s).Some? ==> WellFormed(Parse(s).value) && (s == Render(Parse(s).value) || s == "v" + Render(Parse(s).value))
  {
    hide WellFormed, Join, Cut, Split;
    var body := if |s| > 0 && s[0] == 'v' then s[1..] else s;
    assert body == s || s == "v" + body;
    CutText(body, '+');
    CutText(Cut(body, '+').0, '-');
    var (head, build) := Cut(body, '+');
    var (core, pre) := Cut(head, '-');
    if Parse(s).Some? {
      var v := Parse(s).value;
      assert v == Version(Split(core), Parts(pre), Parts(build));
      assert head == Head(v) && body == Render(v);
    }
  }

  lemma CutText(s: string, c: char)
    ensures var (a, b) := Cut(s, c); s == a + if b.Some? then [c] + b.value else ""
  {
    hide Cut;
    var (a, b) := Cut(s, c);
    assert b.Some? ==> a + [c] + b.value == a + ([c] + b.value);
    assert a + "" == a;
  }
}
