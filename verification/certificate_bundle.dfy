/**
 * The one-pass scanner for bundles of PEM certificates (the textual encoding of section 5 of RFC 7468),
 * proved to accept exactly a grammar.
 */
module CertificateBundle {
  import opened Wrappers

  const START := "-----BEGIN CERTIFICATE-----"
  const END := "-----END CERTIFICATE-----"
  const MAX_CERTIFICATES := 8

  predicate IsSpace(c: char) {
    c == '\t' || c == '\n' || c == '\r' || c == ' '
  }

  predicate IsBase64(c: char) {
    'A' <= c <= 'Z' || 'a' <= c <= 'z' || '0' <= c <= '9' || c == '+' || c == '/' || c == '='
  }

  // ---------- Grammar ----------

  datatype Envelope = Envelope(space: string, body: string)

  predicate AllSpace(s: string) {
    forall i | 0 <= i < |s| :: IsSpace(s[i])
  }

  function Armored(body: string): string {
    START + body + END
  }

  predicate BodyOk(body: string) {
    && (forall i | 0 <= i < |body| :: IsSpace(body[i]) || IsBase64(body[i]))
    && (exists i :: 0 <= i < |body| && IsBase64(body[i]))
  }

  function Text(es: seq<Envelope>, tail: string): string {
    if |es| == 0 then tail else es[0].space + Armored(es[0].body) + Text(es[1..], tail)
  }

  predicate EnvelopeOk(e: Envelope, x509: string -> bool) {
    AllSpace(e.space) && BodyOk(e.body) && x509(Armored(e.body))
  }

  /** s is white space and at least `min`, at most `max`, good envelopes. */
  ghost predicate Derives(s: string, es: seq<Envelope>, tail: string, min: nat, max: nat, x509: string -> bool) {
    && min <= |es| <= max && AllSpace(tail) && s == Text(es, tail)
    && (forall i | 0 <= i < |es| :: EnvelopeOk(es[i], x509))
  }

  ghost predicate InGrammar(s: string, min: nat, max: nat, x509: string -> bool) {
    exists es, tail :: Derives(s, es, tail, min, max, x509)
  }

  // ---------- The grammar is deterministic ----------

  /** A text with an envelope shows its first dash right after the leading white space. */
  lemma FirstDash(es: seq<Envelope>, tail: string)
    requires |es| > 0 && AllSpace(es[0].space)
    ensures var s, m := Text(es, tail), |es[0].space|;
            |s| > m && s[m] == '-' && s[..m] == es[0].space && (IsSpace(s[0]) || m == 0)
  {
    assert Text(es, tail) == es[0].space + (Armored(es[0].body) + Text(es[1..], tail));
  }

  function Respaced(es: seq<Envelope>, space: string): seq<Envelope>
    requires |es| > 0
  {
    [Envelope(space, es[0].body)] + es[1..]
  }

  lemma RespacedText(es: seq<Envelope>, space: string, tail: string)
    requires |es| > 0
    ensures Text(es, tail) == es[0].space + Text(Respaced(es, ""), tail)
    ensures Text(Respaced(es, space), tail) == space + Text(Respaced(es, ""), tail)
  {
    hide Armored;
    var rest := Armored(es[0].body) + Text(es[1..], tail);
    assert Respaced(es, space)[1..] == es[1..] && Respaced(es, "")[1..] == es[1..];
    assert Text(es, tail) == es[0].space + rest;
    assert Text(Respaced(es, ""), tail) == "" + rest;
    assert Text(Respaced(es, space), tail) == space + rest;
  }

  /** Leading white space does not matter. */
  lemma SkipSpace(s: string, n: nat, min: nat, max: nat, x509: string -> bool)
    requires n <= |s| && AllSpace(s[..n])
    ensures InGrammar(s, min, max, x509) <==> InGrammar(s[n..], min, max, x509)
  {
    hide Text, Armored, BodyOk;
    if InGrammar(s, min, max, x509) {
      var es: seq<Envelope>, tail: string :| Derives(s, es, tail, min, max, x509);
      TrimSpace(s, n, es, tail, min, max, x509);
    }
    if InGrammar(s[n..], min, max, x509) {
      var es: seq<Envelope>, tail: string :| Derives(s[n..], es, tail, min, max, x509);
      AddSpace(s, n, es, tail, min, max, x509);
    }
  }

  lemma TrimSpace(s: string, n: nat, es: seq<Envelope>, tail: string, min: nat, max: nat, x509: string -> bool)
    requires n <= |s| && AllSpace(s[..n]) && Derives(s, es, tail, min, max, x509)
    ensures InGrammar(s[n..], min, max, x509)
  {
    hide Armored, BodyOk;
    if |es| == 0 {
      assert Derives(s[n..], [], tail[n..], min, max, x509);
    } else {
      FirstDash(es, tail);
      var space := es[0].space;
      RespacedText(es, space[Min(n, |space|)..], tail);
      hide Text;
      assert forall i | 0 <= i < n :: IsSpace(s[..n][i]) && s[..n][i] == s[i];
      assert n <= |space|;
      var fs := Respaced(es, space[n..]);
      assert forall i | 0 <= i < |fs| :: EnvelopeOk(fs[i], x509) by { assert forall i | 0 < i < |fs| :: fs[i] == es[i]; }
      assert s[n..] == space[n..] + Text(Respaced(es, ""), tail);
      assert Derives(s[n..], fs, tail, min, max, x509);
    }
  }

  lemma AddSpace(s: string, n: nat, es: seq<Envelope>, tail: string, min: nat, max: nat, x509: string -> bool)
    requires n <= |s| && AllSpace(s[..n]) && Derives(s[n..], es, tail, min, max, x509)
    ensures InGrammar(s, min, max, x509)
  {
    hide Armored, BodyOk;
    assert s == s[..n] + s[n..];
    if |es| == 0 {
      assert Derives(s, [], s, min, max, x509);
    } else {
      var space := s[..n] + es[0].space;
      RespacedText(es, space, tail);
      hide Text;
      var fs := Respaced(es, space);
      assert forall i | 0 <= i < |fs| :: EnvelopeOk(fs[i], x509) by { assert forall i | 0 < i < |fs| :: fs[i] == es[i]; }
      assert s == space + Text(Respaced(es, ""), tail);
      assert Derives(s, fs, tail, min, max, x509);
    }
  }

  ghost predicate At(s: string, p: string, i: int) {
    0 <= i <= |s| - |p| && s[i..i + |p|] == p
  }

  /** The first occurrence of p at or after `from`, or -1. */
  method IndexOf(s: string, p: string, from: nat) returns (r: int)
    requires from <= |s|
    ensures r == -1 ==> forall i | from <= i :: !At(s, p, i)
    ensures r != -1 ==> from <= r && At(s, p, r) && forall i | from <= i < r :: !At(s, p, i)
  {
    r := from;
    while r + |p| <= |s|
      invariant from <= r
      invariant forall i | from <= i < r :: !At(s, p, i)
    {
      if s[r..r + |p|] == p {
        return;
      }
      r := r + 1;
    }
    r := -1;
  }

  /** In a text of the form start + body + stop + rest, the first stop follows the body. */
  lemma Locate(s: string, start: string, stop: string, body: string, rest: string)
    requires |stop| > 0 && s == start + body + stop + rest && stop[0] !in body
    ensures At(s, start, 0) && At(s, stop, |start| + |body|)
    ensures forall i | |start| <= i < |start| + |body| :: !At(s, stop, i)
  {
    var k := |start| + |body|;
    assert s == start + (body + (stop + rest));
    assert s[..|start|] == start && s[k..] == stop + rest && s[k..][..|stop|] == stop;
    FirstChar(s, stop);
    forall i | |start| <= i < k ensures !At(s, stop, i) {
      assert s[i] == body[i - |start|];
    }
  }

  lemma FirstChar(s: string, p: string)
    requires |p| > 0
    ensures forall i :: At(s, p, i) ==> s[i] == p[0]
  {
    forall i | At(s, p, i) ensures s[i] == p[0] {
      assert s[i..i + |p|][0] == p[0];
    }
  }

  /** An envelope at the front ends at the first END line; `end` is that line, or -1 for none. */
  lemma FirstEnvelope(s: string, body: string, rest: string, end: int)
    requires s == Armored(body) + rest && BodyOk(body)
    requires end == -1 || (|START| <= end && At(s, END, end))
    requires forall i | |START| <= i && (end == -1 || i < end) :: !At(s, END, i)
    ensures end == |START| + |body| && s[|START|..end] == body && s[..end + |END|] == Armored(body)
  {
    assert END[0] == '-' && '-' !in body;
    Locate(s, START, END, body, rest);
  }

  lemma EnvelopeExists(s: string, body: string, rest: string)
    requires s == Armored(body) + rest && BodyOk(body)
    ensures At(s, END, |START| + |body|) && At(s, START, 0)
  {
    assert '-' !in body;
    Locate(s, START, END, body, rest);
  }

  /** What a text in the grammar that starts with a visible character must look like. */
  lemma Inversion(s: string, min: nat, max: nat, x509: string -> bool)
    requires |s| > 0 && !IsSpace(s[0]) && InGrammar(s, min, max, x509)
    ensures max > 0
    ensures exists body, rest ::
      s == Armored(body) + rest && BodyOk(body) && x509(Armored(body)) && InGrammar(rest, Less(min), max - 1, x509)
  {
    hide Armored, BodyOk;
    var es: seq<Envelope>, tail: string :| Derives(s, es, tail, min, max, x509);
    assert |es| == 0 ==> s == tail;
    assert EnvelopeOk(es[0], x509);
    FirstDash(es, tail);
    var rest := Text(es[1..], tail);
    assert s == Armored(es[0].body) + rest;
    assert Derives(rest, es[1..], tail, Less(min), max - 1, x509);
  }

  lemma Extension(body: string, rest: string, min: nat, max: nat, x509: string -> bool)
    requires BodyOk(body) && x509(Armored(body)) && InGrammar(rest, min, max, x509)
    ensures InGrammar(Armored(body) + rest, min + 1, max + 1, x509)
  {
    hide Armored, BodyOk;
    var es: seq<Envelope>, tail: string :| Derives(rest, es, tail, min, max, x509);
    var fs := [Envelope("", body)] + es;
    assert fs[1..] == es;
    assert Text(fs, tail) == "" + Armored(body) + rest;
    assert Derives(Armored(body) + rest, fs, tail, min + 1, max + 1, x509);
  }

  // ---------- The scanner ----------

  function Less(n: nat): nat {
    if n > 0 then n - 1 else 0
  }

  /** The certificate body between two positions: accepted, or the offending text is no body at all. */
  method ScanBody(s: string, from: nat, end: nat) returns (ok: bool)
    requires from <= end <= |s|
    ensures ok <==> BodyOk(s[from..end])
  {
    var position := from;
    var hasBase64 := false;
    while position < end
      invariant from <= position <= end
      invariant forall i | from <= i < position :: IsSpace(s[i]) || IsBase64(s[i])
      invariant hasBase64 <==> exists i :: from <= i < position && IsBase64(s[i])
    {
      if !IsSpace(s[position]) {
        if !IsBase64(s[position]) {
          assert s[from..end][position - from] == s[position];
          return false;
        }
        hasBase64 := true;
      }
      position := position + 1;
    }
    ghost var body := s[from..end];
    assert forall i | from <= i < end :: body[i - from] == s[i];
    if hasBase64 {
      ghost var i :| from <= i < end && IsBase64(s[i]);
      assert IsBase64(body[i - from]);
    }
    return hasBase64;
  }

  /** At a visible character the scan and the grammar fail together. */
  lemma StepFails(s: string, min: nat, max: nat, x509: string -> bool, end: int)
    requires |s| > 0 && !IsSpace(s[0])
    requires end == -1 || (|START| <= end && At(s, END, end))
    requires forall i | |START| <= i && (end == -1 || i < end) :: !At(s, END, i)
    requires end == -1 || !BodyOk(s[|START|..end]) || !x509(s[..end + |END|])
    ensures !InGrammar(s, min, max, x509)
  {
    forall body, rest | s == Armored(body) + rest && BodyOk(body)
      ensures end != -1 && s[|START|..end] == body && s[..end + |END|] == Armored(body)
    {
      FirstEnvelope(s, body, rest, end);
    }
    if InGrammar(s, min, max, x509) {
      Inversion(s, min, max, x509);
    }
  }

  lemma StepSucceeds(s: string, min: nat, max: nat, x509: string -> bool, end: nat)
    requires |s| > 0 && !IsSpace(s[0]) && At(s, START, 0) && |START| <= end && At(s, END, end)
    requires forall i | |START| <= i < end :: !At(s, END, i)
    requires max > 0 && BodyOk(s[|START|..end]) && x509(s[..end + |END|])
    ensures InGrammar(s, min, max, x509) <==> InGrammar(s[end + |END|..], Less(min), max - 1, x509)
  {
    var body, rest := s[|START|..end], s[end + |END|..];
    assert s == Armored(body) + rest;
    assert s[..end + |END|] == Armored(body);
    if InGrammar(rest, Less(min), max - 1, x509) {
      Extension(body, rest, Less(min), max - 1, x509);
      Weaken(s, Less(min) + 1, min, max, x509);
    }
    if InGrammar(s, min, max, x509) {
      Inversion(s, min, max, x509);
      var b, r :| s == Armored(b) + r && BodyOk(b) && InGrammar(r, Less(min), max - 1, x509);
      FirstEnvelope(s, b, r, end);
      assert r == s[|Armored(b)|..];
    }
  }

  lemma StepStarts(s: string, min: nat, max: nat, x509: string -> bool)
    requires |s| > 0 && !IsSpace(s[0]) && (max == 0 || !At(s, START, 0))
    ensures !InGrammar(s, min, max, x509)
  {
    forall body, rest | s == Armored(body) + rest && BodyOk(body) ensures At(s, START, 0) {
      EnvelopeExists(s, body, rest);
    }
    if InGrammar(s, min, max, x509) {
      Inversion(s, min, max, x509);
    }
  }

  lemma Shift(s: string, start: nat, p: string, i: nat)
    requires start <= i && start <= |s|
    ensures At(s[start..], p, i - start) <==> At(s, p, i)
  {
    if i + |p| <= |s| {
      assert s[start..][i - start..i - start + |p|] == s[i..i + |p|];
    }
  }

  lemma ShiftIndex(s: string, start: nat, end: int)
    requires start + |START| <= |s| && (end == -1 || (start + |START| <= end && At(s, END, end)))
    requires forall i | start + |START| <= i && (end == -1 || i < end) :: !At(s, END, i)
    ensures end != -1 ==> At(s[start..], END, end - start)
    ensures forall i | |START| <= i && (end == -1 || i < end - start) :: !At(s[start..], END, i)
  {
    if end != -1 { Shift(s, start, END, end); }
    forall i | |START| <= i && (end == -1 || i < end - start) ensures !At(s[start..], END, i) {
      Shift(s, start, END, start + i);
    }
  }

  lemma Slices(s: string, start: nat, end: nat)
    requires start + |START| <= end && end + |END| <= |s|
    ensures s[start..][|START|..end - start] == s[start + |START|..end]
    ensures s[start..][..end - start + |END|] == s[start..end + |END|]
    ensures s[start..][end - start + |END|..] == s[end + |END|..]
  {
  }

  lemma Weaken(s: string, min: nat, less: nat, max: nat, x509: string -> bool)
    requires InGrammar(s, min, max, x509) && less <= min
    ensures InGrammar(s, less, max, x509)
  {
    var es: seq<Envelope>, tail: string :| Derives(s, es, tail, min, max, x509);
    assert Derives(s, es, tail, less, max, x509);
  }

  lemma NothingLeft(s: string, min: nat, max: nat, x509: string -> bool)
    requires AllSpace(s)
    ensures InGrammar(s, min, max, x509) <==> min == 0
  {
    if min == 0 { assert Derives(s, [], s, min, max, x509); }
    if InGrammar(s, min, max, x509) {
      var es: seq<Envelope>, tail: string :| Derives(s, es, tail, min, max, x509);
      if |es| > 0 { assert EnvelopeOk(es[0], x509); FirstDash(es, tail); }
    }
  }

  /** One envelope at `start`, where white space has been skipped: the position after it, or -1 to reject. */
  method ScanEnvelope(pem: string, start: nat, x509: string -> bool, ghost min: nat, ghost max: nat) returns (next: int)
    requires start < |pem| && !IsSpace(pem[start]) && max > 0
    ensures next == -1 ==> !InGrammar(pem[start..], min, max, x509)
    ensures next != -1 ==> start < next <= |pem|
    ensures next != -1 ==> (InGrammar(pem[start..], min, max, x509) <==> InGrammar(pem[next..], Less(min), max - 1, x509))
  {
    hide InGrammar, BodyOk;
    ghost var s := pem[start..];
    Shift(pem, start, START, start);
    if !(start + |START| <= |pem| && pem[start..start + |START|] == START) {
      StepStarts(s, min, max, x509);
      return -1;
    }
    var position := start + |START|;
    var end := IndexOf(pem, END, position);
    ghost var e := if end == -1 then -1 else end - start;
    ShiftIndex(pem, start, end);
    if end == -1 {
      StepFails(s, min, max, x509, e);
      return -1;
    }
    Slices(pem, start, end);
    var good := ScanBody(pem, position, end);
    if !good {
      StepFails(s, min, max, x509, e);
      return -1;
    }
    if !x509(pem[start..end + |END|]) {
      StepFails(s, min, max, x509, e);
      return -1;
    }
    StepSucceeds(s, min, max, x509, e);
    next := end + |END|;
  }

  /** Accepts exactly one to eight envelopes, separated by white space, whose certificates all parse. */
  method ValidCertificateBundle(pem: string, x509: string -> bool) returns (ok: bool)
    ensures ok <==> InGrammar(pem, 1, 8, x509)
  {
    hide InGrammar;
    var position := 0;
    var count := 0;
    ghost var min := 1;
    assert pem[0..] == pem;
    while position < |pem|
      invariant position <= |pem| && count <= MAX_CERTIFICATES && min == if count > 0 then 0 else 1
      invariant InGrammar(pem, 1, MAX_CERTIFICATES, x509) <==> InGrammar(pem[position..], min, MAX_CERTIFICATES - count, x509)
      decreases |pem| - position
    {
      ghost var from := position;
      while position < |pem| && IsSpace(pem[position])
        invariant from <= position <= |pem|
        invariant forall i | from <= i < position :: IsSpace(pem[i])
      {
        position := position + 1;
      }
      SkipSpace(pem[from..], position - from, min, MAX_CERTIFICATES - count, x509);
      assert pem[from..][position - from..] == pem[position..];
      if position == |pem| {
        break;
      }
      if count == MAX_CERTIFICATES {
        StepStarts(pem[position..], min, 0, x509);
        return false;
      }
      var next := ScanEnvelope(pem, position, x509, min, MAX_CERTIFICATES - count);
      if next == -1 {
        return false;
      }
      position := next;
      count := count + 1;
      min := 0;
    }
    NothingLeft(pem[position..], min, MAX_CERTIFICATES - count, x509);
    ok := count > 0;
  }
}
