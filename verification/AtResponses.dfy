/** The pending response of the AT channel as atchannel.c keeps it: a singly linked list built at
  its head and reversed in place before it is handed out. */
module AtResponses {
  import opened AtDispatch
  import opened Wrappers

  class AtLine {
    const line: string
    var next: AtLine?

    constructor (line: string, next: AtLine?)
      ensures this.line == line && this.next == next
    {
      this.line := line;
      this.next := next;
    }
  }

  /** `nodes` are the cells of a list that starts at `first`, all different, ending in null. */
  ghost predicate IsList(first: AtLine?, nodes: seq<AtLine>)
    reads nodes
  {
    && (first == if nodes == [] then null else nodes[0])
    && (forall i {:trigger nodes[i].next} | 0 <= i < |nodes| ::
          nodes[i].next == if i + 1 < |nodes| then nodes[i + 1] else null)
    && (forall i, j | 0 <= i < j < |nodes| :: nodes[i] != nodes[j])
  }

  ghost function LinesOf(nodes: seq<AtLine>): (r: seq<string>)
    ensures |r| == |nodes|
  {
    seq(|nodes|, i requires 0 <= i < |nodes| => nodes[i].line)
  }

  lemma {:induction false} ReverseAt<T>(s: seq<T>)
    ensures forall i | 0 <= i < |s| :: Reverse(s)[i] == s[|s| - 1 - i]
    ensures multiset(Reverse(s)) == multiset(s)
  {
    if s != [] {
      ReverseAt(s[1..]);
      assert s == [s[0]] + s[1..];
    }
  }

  lemma {:induction false} LinesOfReverse(nodes: seq<AtLine>)
    ensures LinesOf(Reverse(nodes)) == Reverse(LinesOf(nodes))
  {
    if nodes != [] {
      LinesOfReverse(nodes[1..]);
      assert LinesOf(nodes)[1..] == LinesOf(nodes[1..]);
    }
  }

  class AtResponse {
    var success: bool
    var finalResponse: Option<string>
    var intermediates: AtLine?
    ghost var nodes: seq<AtLine>

    ghost predicate Valid()
      reads this, nodes
    {
      IsList(intermediates, nodes)
    }

    ghost function Value(): Response
      reads this
    {
      Response(success, finalResponse, LinesOf(nodes))
    }

    constructor ()
      ensures Valid() && Value() == EmptyResponse && nodes == []
    {
      success, finalResponse, intermediates, nodes := false, None, null, [];
    }

    /** Adds a line at the head of the list. */
    method AddIntermediate(line: string)
      requires Valid()
      modifies this`intermediates, this`nodes
      ensures Valid() && Value() == old(Value()).(intermediates := [line] + old(Value()).intermediates)
      ensures fresh(nodes[0]) && nodes[1..] == old(nodes)
    {
      var p := new AtLine(line, intermediates);
      intermediates := p;
      nodes := [p] + nodes;
      forall i | 0 <= i < |nodes|
        ensures nodes[i].next == if i + 1 < |nodes| then nodes[i + 1] else null
      {
        if i > 0 {
          assert nodes[i] == old(nodes)[i - 1] && nodes[i].next == old(nodes[i - 1].next);
        }
      }
    }

    /** Flips the list in place, so that it is in the order of arrival. */
    method ReverseIntermediates()
      requires Valid()
      modifies this`intermediates, this`nodes, nodes
      ensures Valid() && Value() == old(Value()).(intermediates := Reverse(old(Value()).intermediates))
      ensures multiset(nodes) == multiset(old(nodes))
    {
      var cur := intermediates;
      intermediates := null;
      ghost var n, k := |nodes|, 0;
      while cur != null
        invariant nodes == old(nodes) && 0 <= k <= n
        invariant cur == (if k < n then nodes[k] else null)
        invariant intermediates == (if k == 0 then null else nodes[k - 1])
        invariant forall i {:trigger nodes[i].next} | 0 <= i < k ::
                    nodes[i].next == if i == 0 then null else nodes[i - 1]
        invariant forall i {:trigger nodes[i].next} | k <= i < n ::
                    nodes[i].next == if i + 1 < n then nodes[i + 1] else null
        decreases n - k
      {
        var next := cur.next;
        cur.next := intermediates;
        intermediates := cur;
        cur := next;
        k := k + 1;
      }
      ReverseAt(nodes);
      LinesOfReverse(nodes);
      nodes := Reverse(nodes);
    }
  }

  /** Does the line start with the prefix? Both are compared up to the end of the shorter. */
  method StrStartsWith(line: string, prefix: string) returns (r: bool)
    ensures r <==> prefix <= line
  {
    var i := 0;
    while i < |line| && i < |prefix|
      invariant 0 <= i <= |line| && i <= |prefix| && line[..i] == prefix[..i]
    {
      if line[i] != prefix[i] {
        return false;
      }
      i := i + 1;
    }
    return i == |prefix|;
  }

  method MatchesAny(line: string, prefixes: seq<string>) returns (r: bool)
    ensures r <==> StartsWithAny(line, prefixes)
  {
    for i := 0 to |prefixes|
      invariant forall j | 0 <= j < i :: !(prefixes[j] <= line)
    {
      var starts := StrStartsWith(line, prefixes[i]);
      if starts {
        return true;
      }
    }
    return false;
  }

  /** The statics of the channel that describe the pending command. */
  class PendingCommand {
    var response: AtResponse?
    var kind: CommandType
    var prefix: Option<string>
    var smsPdu: Option<string>

    ghost predicate Valid()
      reads this, response, if response != null then response.nodes else []
    {
      response != null ==> response.Valid()
    }

    ghost function Value(): Channel
      reads this, response
    {
      Channel(if response == null then None else Some(response.Value()), kind, prefix, smsPdu)
    }

    constructor (kind: CommandType, prefix: Option<string>, smsPdu: Option<string>)
      ensures Valid() && Value() == Channel(Some(EmptyResponse), kind, prefix, smsPdu)
      ensures response != null && fresh(response) && response.nodes == []
    {
      response := new AtResponse();
      this.kind, this.prefix, this.smsPdu := kind, prefix, smsPdu;
    }

    method HandleFinalResponse(line: string, success: bool)
      requires Valid() && response != null
      modifies response`success, response`finalResponse
      ensures Valid()
      ensures Value()
              == old(Value()).(response := Some(old(Value()).response.value.(success := success, final := Some(line))))
    {
      response.success := success;
      response.finalResponse := Some(line);
    }

    /** Sorts one line: final response, prompt, intermediate or unsolicited. */
    method ProcessLine(line: string) returns (d: Delivery)
      requires Valid()
      modifies this`smsPdu, response
      ensures Valid() && response == old(response)
      ensures (Value(), d) == AtDispatch.ProcessLine(old(Value()), line)
    {
      if response == null {
        return ToUnsolicited(line);
      }
      var success := MatchesAny(line, FinalResponsesSuccess);
      var error := MatchesAny(line, FinalResponsesError);
      if success {
        HandleFinalResponse(line, true);
        return ToFinal(line);
      } else if error {
        HandleFinalResponse(line, false);
        return ToFinal(line);
      } else if smsPdu.Some? && line == "> " {
        d := ToPrompt(line, smsPdu.value);
        smsPdu := None;
        return;
      }
      var matches := false;
      if prefix.Some? {
        matches := StrStartsWith(line, prefix.value);
      }
      var belongs :=
        match kind
        case NoResult => false
        case Numeric => response.intermediates == null && StartsWithDigit(line)
        case SingleLine => response.intermediates == null && matches
        case MultiLine => matches;
      assert belongs == IsIntermediate(Value(), line);
      if belongs {
        response.AddIntermediate(line);
        d := ToIntermediate(line);
      } else {
        d := ToUnsolicited(line);
      }
    }

    /** The response is handed out with its intermediate lines in the order of arrival. */
    method Finish() returns (r: AtResponse)
      requires Valid() && response != null
      modifies this`response, response, response.nodes
      ensures r == old(response) && response == null && r.Valid()
      ensures r.Value() == old(Value()).response.value.(intermediates := Arrivals(old(Value()).response.value))
    {
      response.ReverseIntermediates();
      r := response;
      response := null;
    }
  }
}
