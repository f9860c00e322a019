/** The buffered line reader of the AT channel. */
module AtReader {
  import opened AtLines
  import opened Wrappers

  /** No read() but the last yields nothing, and none yields a NUL. */
  ghost predicate GoodChunks(chunks: seq<string>) {
    forall k | 0 <= k < |chunks| :: chunks[k] != "" && NoNul(chunks[k])
  }

  class Reader {
    const buf: array<char>       // s_ATBuffer
    var cur: nat                 // s_ATBufferCur
    var chunks: seq<string>      // what the coming read() calls find on the channel, then end of file
    ghost var end: nat           // the NUL that ends the buffered text

    ghost predicate Valid()
      reads this, buf
    {
      && buf.Length == MAX_AT_RESPONSE + 1
      && cur <= end <= MAX_AT_RESPONSE
      && buf[end] == '\0'
      && NoNul(buf[cur..end])
      && GoodChunks(chunks)
    }

    /** Everything not yet returned: the buffered text and what is still to be read. */
    ghost function Text(): string
      reads this, buf
      requires Valid()
    {
      buf[cur..end] + Flatten(chunks)
    }

    constructor (input: seq<string>)
      requires GoodChunks(input)
      ensures Valid() && Text() == Flatten(input) && fresh(buf)
    {
      buf := new char[MAX_AT_RESPONSE + 1](_ => '\0');
      cur, chunks, end := 0, input, 0;
    }

    /** Moves the cursor over leading terminators. */
    method SkipNewlines()
      requires Valid()
      modifies this`cur
      ensures Valid() && old(cur) <= cur && AllEol(buf[old(cur)..cur]) && !IsEol(buf[cur])
    {
      while buf[cur] == '\r' || buf[cur] == '\n'
        invariant old(cur) <= cur <= end && AllEol(buf[old(cur)..cur]) && NoNul(buf[cur..end])
        decreases end - cur
      {
        assert cur < end;
        cur := cur + 1;
      }
    }

    /** The end of the line at the cursor: the SMS prompt is special, other lines end at CR or LF. */
    method FindNextEol() returns (eol: Option<nat>)
      requires Valid()
      ensures buf[cur..end] == "> " ==> eol == Some(end)
      ensures buf[cur..end] != "> " ==>
                match eol
                case None => NoEol(buf[cur..end])
                case Some(e) => cur <= e < end && IsEol(buf[e]) && NoEol(buf[cur..e])
    {
      if buf[cur] == '>' && buf[cur + 1] == ' ' && buf[cur + 2] == '\0' {
        assert end == cur + 2;
        return Some(cur + 2);
      }
      assert buf[cur..end] != "> ";
      var e := cur;
      while buf[e] != '\0' && buf[e] != '\r' && buf[e] != '\n'
        invariant cur <= e <= end && NoEol(buf[cur..e])
        decreases end - e
      {
        e := e + 1;
      }
      assert buf[e] == '\0' ==> e == end by {
        if e < end {
          assert buf[cur..end][e - cur] == buf[e];
        }
      }
      return if buf[e] == '\0' then None else Some(e);
    }

    /** strlen at the cursor. */
    method Strlen() returns (len: nat)
      requires Valid()
      ensures len == end - cur
    {
      len := 0;
      while buf[cur + len] != '\0'
        invariant len <= end - cur
        decreases end - cur - len
      {
        len := len + 1;
      }
    }

    /** memmove to the front of the buffer. */
    method CopyDown(src: nat, len: nat)
      requires src + len <= buf.Length
      modifies buf
      ensures buf[..len] == old(buf[src..src + len])
    {
      forall i | 0 <= i < len {
        buf[i] := buf[src + i];
      }
    }

    /** Moves the partial line at the cursor to the front of the buffer. */
    method MoveUp() returns (pRead: nat)
      requires Valid()
      modifies this`cur, this`end, buf
      ensures Valid() && cur == 0 && pRead == end && buf[..end] == old(buf[cur..end]) && chunks == old(chunks)
    {
      var len := Strlen();
      ghost var text := buf[cur..end];
      assert buf[cur..cur + len + 1] == text + ['\0'];
      CopyDown(cur, len + 1);
      pRead, cur, end := len, 0, len;
      assert buf[..end + 1] == text + ['\0'];
      assert buf[end] == buf[..end + 1][end] && buf[..end] == buf[..end + 1][..end] == text;
    }

    /** Stores characters and the NUL behind them. */
    method Store(from: nat, pRead: nat, chunk: string)
      requires from <= pRead && pRead + |chunk| < buf.Length
      modifies buf
      ensures buf[..pRead] == old(buf[..pRead]) && buf[..pRead + |chunk|] == old(buf[..pRead]) + chunk
      ensures buf[from..pRead + |chunk|] == old(buf[from..pRead]) + chunk && buf[pRead + |chunk|] == '\0'
    {
      forall i | 0 <= i < |chunk| {
        buf[pRead + i] := chunk[i];
      }
      buf[pRead + |chunk|] := '\0';
    }

    /** What a read() with this much room yields. */
    method NextChunk(room: nat) returns (got: string)
      requires room > 0 && chunks != [] && GoodChunks(chunks)
      modifies this`chunks
      ensures GoodChunks(chunks) && 0 < |got| <= room && NoNul(got)
      ensures got + Flatten(chunks) == Flatten(old(chunks))
    {
      var chunk := chunks[0];
      var count := if |chunk| <= room then |chunk| else room;
      got := chunk[..count];
      if count == |chunk| {
        chunks := chunks[1..];
      } else {
        var kept := chunk[count..];
        assert chunk == got + kept && ([kept] + chunks[1..])[1..] == chunks[1..];
        assert got + (kept + Flatten(chunks[1..])) == chunk + Flatten(chunks[1..]);
        chunks := [kept] + chunks[1..];
      }
    }

    /** One read() into the buffer at `pRead`: some of what is on the channel, as much as fits. */
    method Read(pRead: nat) returns (count: nat)
      requires Valid() && pRead == end < MAX_AT_RESPONSE
      modifies this`chunks, this`end, buf
      ensures Valid() && (count == 0 <==> old(chunks) == [])
      ensures end == pRead + count <= MAX_AT_RESPONSE
      ensures buf[..pRead] == old(buf[..pRead])
      ensures buf[..end] + Flatten(chunks) == old(buf[..end] + Flatten(chunks))
    {
      if chunks == [] {
        return 0;
      }
      var got := NextChunk(MAX_AT_RESPONSE - pRead);
      Store(cur, pRead, got);
      count := |got|;
      ghost var before := old(buf[..end]);
      end := pRead + count;
      assert before + got + Flatten(chunks) == before + (got + Flatten(chunks));
    }

    /** Refutes the SMS prompt: no line of a tame text starts with it. */
    lemma NoPrompt(text: string, e: string)
      requires Valid() && Tame(text) && AllEol(e) && text == e + Text()
      ensures buf[cur..end] != "> "
    {
      if buf[cur..end] == "> " {
        assert e + ("> " + Flatten(chunks)) == e + "> " + Flatten(chunks);
        PartialLine(e, "> ", Flatten(chunks));
      }
    }

    /** A terminated field at the cursor is the first line. */
    lemma LineAt(eol: nat)
      requires Valid() && cur < eol < end && IsEol(buf[eol]) && NoEol(buf[cur..eol])
      ensures HasLine(Text()) && FirstLine(Text()) == buf[cur..eol]
      ensures AfterLine(Text()) == buf[eol + 1..end] + Flatten(chunks) && NoNul(buf[eol + 1..end])
    {
      var line, after := buf[cur..eol], buf[eol + 1..end];
      assert buf[cur..end] == line + [buf[eol]] + after;
      assert Text() == "" + line + [buf[eol]] + (after + Flatten(chunks));
      CompleteLine("", line, buf[eol], after + Flatten(chunks));
    }

    /** Cuts the line that ends at `eol` off the text. */
    method TakeLine(eol: nat) returns (line: string)
      requires Valid() && cur < eol < end && IsEol(buf[eol]) && NoEol(buf[cur..eol]) && Tame(Text())
      modifies this`cur, buf
      ensures Valid() && HasLine(old(Text())) && line == FirstLine(old(Text())) && Text() == AfterLine(old(Text()))
              && Tame(Text())
      ensures chunks == old(chunks) && end == old(end)
    {
      LineAt(eol);
      line := buf[cur..eol];
      ghost var after := buf[eol + 1..end];
      buf[eol] := '\0';
      cur := eol + 1;
      assert buf[cur..end] == after;
    }

    /** The buffer holds terminators up to the cursor and then part of a line. */
    ghost predicate Filling(text: string)
      reads this, buf
    {
      && Valid() && Tame(text)
      && AllEol(buf[..cur]) && NoEol(buf[cur..end]) && text == buf[..end] + Flatten(chunks)
    }

    /** Skips terminators at the cursor and looks for the end of the line behind them. */
    method Scan(ghost text: string) returns (eol: Option<nat>)
      requires Valid() && Tame(text) && AllEol(buf[..cur]) && text == buf[..end] + Flatten(chunks)
      modifies this`cur
      ensures Valid() && AllEol(buf[..cur])
      ensures eol.None? ==> Filling(text)
      ensures eol.Some? ==>
              text == buf[..cur] + Text() && cur < eol.value < end && IsEol(buf[eol.value])
                && NoEol(buf[cur..eol.value])
    {
      SkipNewlines();
      assert buf[..end] == buf[..cur] + buf[cur..end];
      assert text == buf[..cur] + Text();
      NoPrompt(text, buf[..cur]);
      eol := FindNextEol();
    }

    /** Reads more of a line that is not complete yet; at the end of the input there is none. */
    method Fill(pRead: nat, ghost text: string) returns (count: nat, eol: Option<nat>)
      requires Filling(text) && pRead == end
      modifies this, buf
      ensures Valid() && (count == 0 ==> !HasLine(text))
      ensures count > 0 && eol.None? ==> Filling(text)
      ensures count > 0 ==> end == old(end) + count && |Flatten(chunks)| < |old(Flatten(chunks))|
      ensures eol.Some? ==> count > 0 && cur < eol.value < end && IsEol(buf[eol.value]) && NoEol(buf[cur..eol.value])
      ensures eol.Some? ==> AllEol(buf[..cur]) && text == buf[..cur] + Text()
    {
      assert buf[..cur] + buf[cur..end] == buf[..end];
      PartialLine(buf[..cur], buf[cur..end], Flatten(chunks));
      eol := None;
      if MAX_AT_RESPONSE - pRead == 0 {
        assert false;  // readline drops the buffer here; a tame text never fills it
      }
      ghost var run := buf[..cur];
      ghost var size := |text|;
      count := Read(pRead);
      if count > 0 {
        assert buf[..cur] == buf[..pRead][..cur] == run;
        assert |buf[..end]| + |Flatten(chunks)| == size;
        eol := Scan(text);
      }
    }

    /** A complete line is buffered up to `eol`, or part of one is and `pRead` is where to go on. */
    ghost predicate Ready(text: string, pRead: nat, eol: Option<nat>)
      reads this, buf
    {
      match eol
      case None => Filling(text) && pRead == end
      case Some(e) => Valid() && Tame(text) && text == Text() && cur < e < end && IsEol(buf[e]) && NoEol(buf[cur..e])
    }

    /** An empty buffer is filled from its start. */
    method Rewind()
      requires Valid() && buf[cur] == '\0'
      modifies this`cur, this`end, buf
      ensures Valid() && cur == end == 0 && old(Text()) == Text()
    {
      assert buf[cur..end] == "";
      cur, end := 0, 0;
      buf[0] := '\0';
    }

    /** Skips the terminators in front of the next line. */
    method SkipToLine()
      requires Valid() && Tame(Text())
      modifies this`cur
      ensures Valid() && Tame(Text()) && SameLine(old(Text()), Text()) && !IsEol(buf[cur]) && buf[cur..end] != "> "
    {
      SkipNewlines();
      ghost var run := buf[old(cur)..cur];
      assert old(Text()) == run + Text();
      SkipsEols(run, Text());
      assert Text() == "" + Text();
      NoPrompt(Text(), "");
    }

    /** Looks for a line in what is already buffered. */
    method Prepare() returns (pRead: nat, eol: Option<nat>, ghost text: string)
      requires Valid() && Tame(Text())
      modifies this, buf
      ensures Ready(text, pRead, eol) && SameLine(old(Text()), text)
    {
      eol, pRead := None, 0;
      if buf[cur] == '\0' {
        Rewind();
        text := Text();
      } else {
        SkipToLine();
        text := Text();
        eol := FindNextEol();
        if eol.None? {
          pRead := MoveUp();
        }
      }
    }

    /** Returns the next line, or nothing at the end of the input. */
    method Readline() returns (line: Option<string>)
      requires Valid() && Tame(Text())
      modifies this, buf
      ensures Valid()
      ensures HasLine(old(Text())) <==> line.Some?
      ensures line.Some? ==> line.value == FirstLine(old(Text())) && Text() == AfterLine(old(Text())) && Tame(Text())
    {
      var pRead, eol;
      ghost var text;
      pRead, eol, text := Prepare();
      while eol.None?
        invariant Ready(text, pRead, eol) && SameLine(old(Text()), text)
        decreases |Flatten(chunks)|
      {
        var count;
        count, eol := Fill(pRead, text);
        if count == 0 {
          return None;
        }
        pRead := pRead + count;
        if eol.Some? {
          SkipsEols(buf[..cur], Text());
          text := Text();
        }
      }
      var taken := TakeLine(eol.value);
      line := Some(taken);
    }

    /** Reads to the end of the input: every line is returned once, in order, however the channel
      splits the input over its reads. */
    method ReadAll() returns (lines: seq<string>)
      requires Valid() && Tame(Text())
      modifies this, buf
      ensures lines == Lines(old(Text()))
    {
      ghost var all, rest := Lines(Text()), Text();
      lines := [];
      var line := Readline();
      while line.Some?
        invariant Valid()
        invariant line.Some? <==> HasLine(rest)
        invariant line.Some? ==> line.value == FirstLine(rest) && Text() == AfterLine(rest) && Tame(Text())
        invariant all == lines + Lines(rest)
        decreases |rest|
      {
        assert lines + ([line.value] + Lines(AfterLine(rest))) == lines + [line.value] + Lines(AfterLine(rest));
        lines := lines + [line.value];
        rest := Text();
        line := Readline();
      }
    }
  }
}
