/** What the AT channel's line reader is meant to deliver: the non-empty fields of the input that
  are terminated by CR or LF. */
module AtLines {

  const MAX_AT_RESPONSE := 8192

  predicate IsEol(c: char) {
    c == '\r' || c == '\n'
  }

  predicate AllEol(s: string) {
    forall i | 0 <= i < |s| :: IsEol(s[i])
  }

  predicate NoEol(s: string) {
    forall i | 0 <= i < |s| :: !IsEol(s[i])
  }

  predicate NoNul(s: string) {
    forall i | 0 <= i < |s| :: s[i] != '\0'
  }

  function SkipEols(s: string): (t: string)
    ensures |t| <= |s|
    ensures t != [] ==> !IsEol(t[0])
  {
    if s != [] && IsEol(s[0]) then SkipEols(s[1..]) else s
  }

  /** The length of the part before the first terminator. */
  function FieldLength(s: string): (n: nat)
    ensures n <= |s| && (forall i | 0 <= i < n :: !IsEol(s[i]))
    ensures n < |s| ==> IsEol(s[n])
  {
    if s == [] || IsEol(s[0]) then 0 else 1 + FieldLength(s[1..])
  }

  predicate HasLine(s: string) {
    var t := SkipEols(s);
    FieldLength(t) < |t|
  }

  function FirstLine(s: string): string {
    var t := SkipEols(s);
    t[..FieldLength(t)]
  }

  function AfterLine(s: string): (r: string)
    requires HasLine(s)
    ensures |r| < |s|
  {
    var t := SkipEols(s);
    t[FieldLength(t) + 1..]
  }

  /** All lines of an input, in order. */
  function Lines(s: string): seq<string>
    decreases |s|
  {
    if HasLine(s) then [FirstLine(s)] + Lines(AfterLine(s)) else []
  }

  /** Terminators skipped before the first field. */
  function Run(s: string): nat {
    |s| - |SkipEols(s)|
  }

  /** Inputs the reader is built for: no line looks like the SMS prompt, and each run of terminators
    with the field behind it is shorter than the buffer. */
  predicate Tame(s: string)
    decreases |s|
  {
    && !("> " <= FirstLine(s))
    && Run(s) + |FirstLine(s)| < MAX_AT_RESPONSE
    && (HasLine(s) ==> Tame(AfterLine(s)))
  }

  /** Two texts that agree on their first line and on what follows it. */
  predicate SameLine(s: string, t: string) {
    HasLine(s) == HasLine(t) && FirstLine(s) == FirstLine(t) && (HasLine(s) ==> AfterLine(s) == AfterLine(t))
  }

  function Flatten(chunks: seq<string>): string {
    if chunks == [] then "" else chunks[0] + Flatten(chunks[1..])
  }

  lemma {:induction false} SkipAllEols(e: string, t: string)
    requires AllEol(e)
    ensures SkipEols(e + t) == SkipEols(t)
  {
    if e == "" {
      assert e + t == t;
    } else {
      assert (e + t)[1..] == e[1..] + t;
      SkipAllEols(e[1..], t);
    }
  }

  /** Leading terminators change nothing but the run. */
  lemma SkipsEols(e: string, t: string)
    requires AllEol(e)
    ensures SkipEols(e + t) == SkipEols(t)
    ensures HasLine(e + t) == HasLine(t) && FirstLine(e + t) == FirstLine(t)
    ensures HasLine(t) ==> AfterLine(e + t) == AfterLine(t)
    ensures Lines(e + t) == Lines(t)
    ensures Tame(e + t) ==> Tame(t)
  {
    SkipAllEols(e, t);
  }

  lemma {:induction false} FieldLengthAtLeast(p: string, r: string)
    requires NoEol(p)
    ensures FieldLength(p + r) == |p| + FieldLength(r)
  {
    if p == "" {
      assert p + r == r;
    } else {
      assert (p + r)[1..] == p[1..] + r;
      FieldLengthAtLeast(p[1..], r);
    }
  }

  /** Terminators, then a part without one: what is known before the rest `r` is. */
  lemma PartialLine(e: string, p: string, r: string)
    requires AllEol(e) && NoEol(p)
    ensures |e| + |p| <= Run(e + p + r) + |FirstLine(e + p + r)|
    ensures p != "" ==> p <= FirstLine(e + p + r)
    ensures r == "" ==> !HasLine(e + p + r)
  {
    assert e + p + r == e + (p + r);
    SkipsEols(e, p + r);
    if p != "" {
      assert SkipEols(p + r) == p + r;
      FieldLengthAtLeast(p, r);
      assert (p + r)[..|p|] == p;
    } else {
      assert p + r == r;
    }
  }

  /** Terminators, a non-empty field and its terminator are the first line. */
  lemma CompleteLine(e: string, line: string, eol: char, r: string)
    requires AllEol(e) && NoEol(line) && line != "" && IsEol(eol)
    ensures var s := e + line + [eol] + r;
            HasLine(s) && FirstLine(s) == line && AfterLine(s) == r
  {
    var tail := [eol] + r;
    assert e + line + [eol] + r == e + (line + tail);
    SkipsEols(e, line + tail);
    assert SkipEols(line + tail) == line + tail;
    FieldLengthAtLeast(line, tail);
    assert FieldLength(tail) == 0;
  }

  /** Lines are never empty and contain no terminator. */
  lemma {:induction false} LinesAreFields(s: string)
    ensures forall k | 0 <= k < |Lines(s)| :: Lines(s)[k] != "" && NoEol(Lines(s)[k])
    decreases |s|
  {
    if HasLine(s) {
      LinesAreFields(AfterLine(s));
    }
  }

  function Join(lines: seq<string>): string {
    if lines == [] then "" else lines[0] + "\r\n" + Join(lines[1..])
  }

  /** Lines written with CR LF after each are read back unchanged. */
  lemma {:induction false} LinesOfJoin(lines: seq<string>)
    requires forall k | 0 <= k < |lines| :: lines[k] != "" && NoEol(lines[k])
    ensures Lines(Join(lines)) == lines
    decreases |lines|
  {
    if lines != [] {
      var rest := "\n" + Join(lines[1..]);
      assert Join(lines) == "" + lines[0] + ['\r'] + rest;
      CompleteLine("", lines[0], '\r', rest);
      assert Lines(Join(lines)) == [lines[0]] + Lines(rest);
      SkipsEols("\n", Join(lines[1..]));
      LinesOfJoin(lines[1..]);
    }
  }
}
