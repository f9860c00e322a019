/** How the AT channel sorts the lines it reads, on values. */
module AtDispatch {
  import opened Wrappers

  datatype CommandType = NoResult | Numeric | SingleLine | MultiLine

  /** A response under construction; intermediate lines are kept newest first. */
  datatype Response = Response(success: bool, final: Option<string>, intermediates: seq<string>)

  const EmptyResponse := Response(false, None, [])

  /** The pending command and its response, as far as the reader sees them. */
  datatype Channel = Channel(response: Option<Response>, kind: CommandType, prefix: Option<string>,
    smsPdu: Option<string>)

  /** Where a line went. */
  datatype Delivery =
    | ToFinal(line: string)
    | ToIntermediate(line: string)
    | ToPrompt(line: string, pdu: string)
    | ToUnsolicited(line: string)
    | ToSms(first: string, second: string)

  const FinalResponsesError := ["ERROR", "+CMS ERROR:", "+CME ERROR:", "NO CARRIER", "NO ANSWER", "NO DIALTONE"]
  const FinalResponsesSuccess := ["OK", "CONNECT"]
  const SmsUnsoliciteds := ["+CMT:", "+CDS:", "+CBM:"]

  predicate StartsWithAny(line: string, prefixes: seq<string>) {
    exists i :: 0 <= i < |prefixes| && prefixes[i] <= line
  }

  predicate IsFinalResponseError(line: string) {
    StartsWithAny(line, FinalResponsesError)
  }

  predicate IsFinalResponseSuccess(line: string) {
    StartsWithAny(line, FinalResponsesSuccess)
  }

  predicate IsSmsUnsolicited(line: string) {
    StartsWithAny(line, SmsUnsoliciteds)
  }

  predicate StartsWithDigit(line: string) {
    line != "" && '0' <= line[0] <= '9'
  }

  predicate HasPrefix(ch: Channel, line: string) {
    ch.prefix.Some? && ch.prefix.value <= line
  }

  /** Does a line that is neither final nor the prompt belong to the pending command? */
  predicate IsIntermediate(ch: Channel, line: string)
    requires ch.response.Some?
  {
    match ch.kind
    case NoResult => false
    case Numeric => ch.response.value.intermediates == [] && StartsWithDigit(line)
    case SingleLine => ch.response.value.intermediates == [] && HasPrefix(ch, line)
    case MultiLine => HasPrefix(ch, line)
  }

  /** The channel after a line was processed, and where the line went. */
  function ProcessLine(ch: Channel, line: string): (Channel, Delivery) {
    if ch.response.None? then (ch, ToUnsolicited(line))
    else
      var r := ch.response.value;
      if IsFinalResponseSuccess(line) then
        (ch.(response := Some(r.(success := true, final := Some(line)))), ToFinal(line))
      else if IsFinalResponseError(line) then
        (ch.(response := Some(r.(success := false, final := Some(line)))), ToFinal(line))
      else if ch.smsPdu.Some? && line == "> " then
        (ch.(smsPdu := None), ToPrompt(line, ch.smsPdu.value))
      else if IsIntermediate(ch, line) then
        (ch.(response := Some(r.(intermediates := [line] + r.intermediates))), ToIntermediate(line))
      else (ch, ToUnsolicited(line))
  }

  /** Which lines end a command, and which are the first of two: no line is both, nor a success and an error. */
  lemma FinalLines(line: string)
    ensures IsFinalResponseSuccess(line) <==> "OK" <= line || "CONNECT" <= line
    ensures IsFinalResponseError(line) <==>
              || "ERROR" <= line || "+CMS ERROR:" <= line || "+CME ERROR:" <= line
              || "NO CARRIER" <= line || "NO ANSWER" <= line || "NO DIALTONE" <= line
    ensures IsSmsUnsolicited(line) <==> "+CMT:" <= line || "+CDS:" <= line || "+CBM:" <= line
    ensures !(IsFinalResponseSuccess(line) && IsFinalResponseError(line))
    ensures IsSmsUnsolicited(line) || line == "> " ==> !IsFinalResponseSuccess(line) && !IsFinalResponseError(line)
  {
    var e, t, u := FinalResponsesError, FinalResponsesSuccess, SmsUnsoliciteds;
    assert e[0] == "ERROR" && e[1] == "+CMS ERROR:" && e[2] == "+CME ERROR:";
    assert e[3] == "NO CARRIER" && e[4] == "NO ANSWER" && e[5] == "NO DIALTONE";
    assert t[0] == "OK" && t[1] == "CONNECT";
    assert u[0] == "+CMT:" && u[1] == "+CDS:" && u[2] == "+CBM:";
    assert IsFinalResponseSuccess(line) ==> line != "" && (line[0] == 'O' || line[0] == 'C');
    assert IsFinalResponseError(line) ==> line != "" && (line[0] == 'E' || line[0] == '+' || line[0] == 'N');
    if IsSmsUnsolicited(line) {
      assert line[0] == '+' && (line[2] == 'M' || line[2] == 'D' || line[2] == 'B') && line[4] == ':';
    }
  }

  /** While a command is pending a line ends it if and only if it is a final response, which then says
    whether it succeeded; without one every line is unsolicited. */
  lemma FinalIff(ch: Channel, line: string)
    ensures var (after, d) := ProcessLine(ch, line);
            && (d.ToFinal? <==> ch.response.Some? && (IsFinalResponseSuccess(line) || IsFinalResponseError(line)))
            && (d.ToFinal? ==> d.line == line && after.response.value.final == Some(line)
                               && (after.response.value.success <==> IsFinalResponseSuccess(line)))
            && (ch.response.None? ==> d == ToUnsolicited(line) && after == ch)
  {
    FinalLines(line);
  }

  /** Another line is an intermediate line of the pending command if and only if the command expects it: it
    starts with the prefix, of a single-line command the first that does, or with a digit and is the
    first; else it is the prompt an SMS waits for, or unsolicited. */
  lemma IntermediateIff(ch: Channel, line: string)
    requires ch.response.Some? && !IsFinalResponseSuccess(line) && !IsFinalResponseError(line)
    ensures var d, none := ProcessLine(ch, line).1, Arrivals(ch.response.value) == [];
            var prompt := ch.smsPdu.Some? && line == "> ";
            && (prompt <==> d.ToPrompt?)
            && (!prompt && ch.kind.MultiLine? ==> (d.ToIntermediate? <==> ch.prefix.Some? && ch.prefix.value <= line))
            && (!prompt && ch.kind.SingleLine? ==>
                  (d.ToIntermediate? <==> none && ch.prefix.Some? && ch.prefix.value <= line))
            && (!prompt && ch.kind.Numeric? ==>
                  (d.ToIntermediate? <==> none && line != "" && '0' <= line[0] <= '9'))
            && (ch.kind.NoResult? ==> !d.ToIntermediate?)
            && (d == ToIntermediate(line) || d == ToUnsolicited(line)
                || (prompt && d == ToPrompt(line, ch.smsPdu.value)))
  {
  }

  function Reverse<T>(s: seq<T>): (r: seq<T>)
    ensures |r| == |s|
  {
    if s == [] then [] else Reverse(s[1..]) + [s[0]]
  }

  lemma {:induction false} ReverseOfConcat<T>(a: seq<T>, b: seq<T>)
    ensures Reverse(a + b) == Reverse(b) + Reverse(a)
  {
    if a == [] {
      assert a + b == b;
      assert Reverse(b) + [] == Reverse(b);
    } else {
      assert (a + b)[1..] == a[1..] + b;
      ReverseOfConcat(a[1..], b);
    }
  }

  /** The order of the pending response: what arrived so far, oldest first. */
  function Arrivals(r: Response): seq<string> {
    Reverse(r.intermediates)
  }

  /** What every response keeps: it agrees with its final line, and its lines with the kind and the prefix
    of its command. */
  predicate Consistent(r: Response, kind: CommandType, prefix: Option<string>) {
    && (r.final.None? ==> !r.success)
    && (r.final.Some? ==>
      (r.success <==> IsFinalResponseSuccess(r.final.value)) && (r.success || IsFinalResponseError(r.final.value)))
    && (kind.NoResult? ==> r.intermediates == [])
    && (kind.Numeric? || kind.SingleLine? ==> |r.intermediates| <= 1)
    && (kind.Numeric? ==> forall l | l in r.intermediates :: l != "" && '0' <= l[0] <= '9')
    && (kind.SingleLine? || kind.MultiLine? ==>
          forall l | l in r.intermediates :: prefix.Some? && prefix.value <= l)
  }

  /** Processing a line keeps the response consistent and appends to what arrived, or leaves it. */
  lemma ProcessLineKeeps(ch: Channel, line: string)
    requires ch.response.Some? && Consistent(ch.response.value, ch.kind, ch.prefix)
    ensures var (after, d) := ProcessLine(ch, line);
            && after.response.Some? && Consistent(after.response.value, ch.kind, ch.prefix)
            && after.kind == ch.kind && after.prefix == ch.prefix
            && Arrivals(after.response.value)
              == Arrivals(ch.response.value) + (if d.ToIntermediate? then [line] else [])
            && after.response.value.final == (if d.ToFinal? then Some(line) else ch.response.value.final)
            && (after.smsPdu == if d.ToPrompt? then None else ch.smsPdu)
            && (d.ToPrompt? ==> ch.smsPdu == Some(d.pdu) && line == "> ")
  {
    var old_ := ch.response.value.intermediates;
    ReverseOfConcat([line], old_);
    assert Reverse([line]) == [line];
    assert Arrivals(ch.response.value) + [] == Arrivals(ch.response.value);
  }
}
