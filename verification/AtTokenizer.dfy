/** The destructive tokenizer of AT response lines: a cursor into a NUL-terminated buffer whose
  delimiters are overwritten by NUL as tokens are cut off. */
module AtTokenizer {
  import opened AtTokens
  import opened Wrappers

  class Tokenizer {
    const buf: array<char>
    var cur: Option<nat>     // null once the line is used up
    const end: nat           // the NUL that ends the line

    ghost predicate Valid()
      reads this, buf
    {
      && end < buf.Length && buf[end] == '\0'
      && (cur.Some? ==> cur.value <= end && forall i | cur.value <= i < end :: buf[i] != '\0')
    }

    /** What is left of the line, or None for the null cursor. */
    ghost function Rest(): Option<string>
      reads this, buf
      requires Valid()
    {
      if cur.None? then None else Some(buf[cur.value..end])
    }

    constructor (line: string)
      requires '\0' !in line
      ensures Valid() && Rest() == Some(line) && fresh(buf)
    {
      buf := new char[|line| + 1](i => if 0 <= i < |line| then line[i] else '\0');
      cur, end := Some(0), |line|;
      new;
      assert buf[..end] == line;
    }

    method SkipWhiteSpace()
      requires Valid()
      modifies this`cur
      ensures Valid() && (old(cur).None? ==> cur.None?)
      ensures old(cur).Some? ==>
              cur.Some? && old(cur).value <= cur.value && Rest() == Some(SkipSpace(old(Rest()).value))
    {
      if cur.None? {
        return;
      }
      while buf[cur.value] != '\0' && IsSpace(buf[cur.value])
        invariant Valid() && cur.Some? && old(cur).value <= cur.value
        invariant SkipSpace(Rest().value) == SkipSpace(old(Rest()).value)
        decreases end - cur.value
      {
        assert buf[cur.value..end] == [buf[cur.value]] + buf[cur.value + 1..end];
        cur := Some(cur.value + 1);
      }
      assert cur.value < end ==> buf[cur.value..end][0] == buf[cur.value];
    }

    method SkipNextComma()
      requires Valid()
      modifies this`cur
      ensures Valid() && (old(cur).None? ==> cur.None?)
      ensures old(cur).Some? ==>
              cur.Some? && old(cur).value <= cur.value && Rest() == Some(SkipPastComma(old(Rest()).value))
    {
      if cur.None? {
        return;
      }
      while buf[cur.value] != '\0' && buf[cur.value] != ','
        invariant Valid() && cur.Some? && old(cur).value <= cur.value
        invariant SkipPastComma(Rest().value) == SkipPastComma(old(Rest()).value)
        decreases end - cur.value
      {
        assert buf[cur.value..end] == [buf[cur.value]] + buf[cur.value + 1..end];
        cur := Some(cur.value + 1);
      }
      if buf[cur.value] == ',' {
        assert buf[cur.value..end] == [buf[cur.value]] + buf[cur.value + 1..end];
        cur := Some(cur.value + 1);
      }
    }

    /** strsep with one delimiter: cuts the text before it off in place. */
    method Strsep(delim: char) returns (tok: Option<nat>)
      requires Valid() && delim != '\0'
      modifies this`cur, buf
      ensures Valid()
      ensures old(cur).None? ==> tok.None? && cur.None? && buf[..] == old(buf[..])
      ensures old(cur).Some? ==>
                var (text, rest) := CutAt(old(Rest()).value, delim);
                && tok == old(cur) && StringAt(buf[..], tok.value, text) && Rest() == rest
                && (cur.Some? ==> cur.value == tok.value + |text| + 1)
                && forall i | 0 <= i < buf.Length && i != tok.value + |text| :: buf[i] == old(buf[i])
    {
      tok := cur;
      if cur.None? {
        return;
      }
      var i := cur.value;
      while buf[i] != '\0' && buf[i] != delim
        invariant cur.value <= i <= end && delim !in buf[cur.value..i]
        decreases end - i
      {
        assert buf[cur.value..i + 1] == buf[cur.value..i] + [buf[i]];
        i := i + 1;
      }
      ghost var text, rest := buf[cur.value..i], buf[i..end];
      assert buf[cur.value..end] == text + rest;
      CutBehind(text, rest, delim);
      assert text + "" == text;
      if buf[i] == '\0' {
        assert rest == "";
        cur := None;
      } else {
        assert rest[0] == delim;
        buf[i] := '\0';
        cur := Some(i + 1);
        assert buf[i + 1..end] == rest[1..];
      }
      assert buf[..][tok.value..i] == text;
    }

    /** Cuts off one token; what was cut off before the cursor stays as it is. */
    method NextToken() returns (tok: Option<nat>)
      requires Valid()
      modifies this`cur, buf
      ensures Valid()
      ensures tok.Some? <==> NextTok(old(Rest())).0.Some?
      ensures tok.Some? ==> StringAt(buf[..], tok.value, NextTok(old(Rest())).0.value)
      ensures Rest() == NextTok(old(Rest())).1
      ensures old(cur).Some? ==>
              tok.Some? && old(cur).value <= tok.value && forall i | 0 <= i < old(cur).value :: buf[i] == old(buf[i])
      ensures cur.Some? ==> tok.Some? && tok.value + |NextTok(old(Rest())).0.value| < cur.value
    {
      SkipWhiteSpace();
      if cur.None? {
        tok := None;
      } else if buf[cur.value] == '"' {
        assert buf[cur.value..end] == ['"'] + buf[cur.value + 1..end];
        cur := Some(cur.value + 1);
        tok := Strsep('"');
        SkipNextComma();
      } else {
        assert cur.value < end ==> buf[cur.value..end][0] == buf[cur.value];
        tok := Strsep(',');
      }
    }

    /** Moves behind the prefix of a response line, which ends at the first colon. */
    method Start() returns (ok: bool)
      requires Valid()
      modifies this`cur
      ensures Valid() && ok == cur.Some?
      ensures Rest() == if old(cur).None? then None else CutAt(old(Rest()).value, ':').1
    {
      if cur.None? {
        return false;
      }
      var i := cur.value;
      while buf[i] != '\0' && buf[i] != ':'
        invariant cur.value <= i <= end && ':' !in buf[cur.value..i]
        decreases end - i
      {
        assert buf[cur.value..i + 1] == buf[cur.value..i] + [buf[i]];
        i := i + 1;
      }
      ghost var rest := buf[i..end];
      assert buf[cur.value..end] == buf[cur.value..i] + rest;
      CutBehind(buf[cur.value..i], rest, ':');
      ok := buf[i] != '\0';
      if ok {
        assert rest[0] == ':' && rest[1..] == buf[i + 1..end];
        cur := Some(i + 1);
      } else {
        assert rest == "";
        cur := None;
      }
    }

    /** The characters of the C string at `start`. */
    method ReadString(start: nat, ghost text: string) returns (r: string)
      requires StringAt(buf[..], start, text) && '\0' !in text
      ensures r == text
    {
      var stop := start;
      ghost var view := buf[start..start + |text|];
      assert view == text;
      while buf[stop] != '\0'
        invariant start <= stop <= start + |text| && view == text
        invariant forall j | start <= j < start + |text| :: buf[j] == view[j - start]
        decreases start + |text| - stop
      {
        stop := stop + 1;
      }
      r := buf[start..stop];
      assert buf[..][start..stop] == r;
    }

    /** The next token as a decimal integer, if it starts with one. */
    method NextInteger(longMax: nat) returns (v: Option<int>)
      requires Valid()
      modifies this`cur, buf
      ensures Valid() && (v, Rest()) == NextInt(old(Rest()), longMax)
    {
      if cur.None? {
        return None;
      }
      ghost var line := buf[cur.value..end];
      assert '\0' !in line;
      TokenWithin(line);
      var tok := NextToken();
      var text := ReadString(tok.value, NextTok(Some(line)).0.value);
      var l := StrToL(text, longMax);
      v := if l.None? then None else Some(ToInt(l.value));
    }

    predicate HasMoreTokens()
      reads this, buf
      requires Valid()
      ensures HasMoreTokens() <==> HasMore(Rest())
    {
      !(cur.None? || buf[cur.value] == '\0')
    }

    /** Reads the tokens of the line while there are more; every token ends up cut off in the buffer. */
    method ReadAll() returns (tokens: seq<nat>)
      requires Valid()
      modifies this`cur, buf
      ensures Valid() && |tokens| == |TokensWhileMore(old(Rest()))|
      ensures forall k | 0 <= k < |tokens| :: StringAt(buf[..], tokens[k], TokensWhileMore(old(Rest()))[k])
    {
      tokens := [];
      ghost var all := TokensWhileMore(Rest());
      while HasMoreTokens()
        invariant Valid() && |tokens| <= |all| && all[|tokens|..] == TokensWhileMore(Rest())
        invariant CutOff(tokens, all)
        decreases Measure(Rest())
      {
        NextTokShrinks(Rest());
        ghost var mark, count := cur.value, |tokens|;
        ghost var before := buf[..];
        var tok := NextToken();
        assert all[count] == all[count..][0] && all[count + 1..] == all[count..][1..];
        forall k | 0 <= k < count
          ensures StringAt(buf[..], tokens[k], all[k])
        {
          StringSurvives(before, buf[..], tokens[k], all[k], mark);
        }
        tokens := tokens + [tok.value];
      }
    }

    /** The tokens read so far are cut off in the buffer, below the cursor. */
    ghost predicate CutOff(tokens: seq<nat>, all: seq<string>)
      reads this, buf
      requires |tokens| <= |all|
    {
      forall k | 0 <= k < |tokens| ::
        StringAt(buf[..], tokens[k], all[k]) && (cur.Some? ==> tokens[k] + |all[k]| < cur.value <= buf.Length)
    }
  }

  /** The numeric error of a response, from its success flag and final line. */
  method GetCmeError(success: bool, final: Option<string>, longMax: nat) returns (r: int)
    requires final.Some? ==> '\0' !in final.value
    ensures r == CmeError(success, final, longMax)
  {
    if success {
      return CME_SUCCESS;
    }
    if final.None? || !(CmePrefix <= final.value) {
      return CME_ERROR_NON_CME;
    }
    var t := new Tokenizer(final.value);
    var ok := t.Start();
    if !ok {
      return CME_ERROR_NON_CME;
    }
    var v := t.NextInteger(longMax);
    if v.None? {
      return CME_ERROR_NON_CME;
    }
    r := v.value;
  }
}
