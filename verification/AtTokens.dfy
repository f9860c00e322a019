/** What the AT response tokenizer computes, on values. `None` is the null cursor. */
module AtTokens {
  import opened Wrappers

  predicate IsSpace(c: char) {
    c == ' ' || '\t' <= c <= '\r'
  }

  /** The six white-space characters of the C locale. */
  lemma SpacesIff(c: char)
    ensures IsSpace(c) <==> c as int == 32 || c as int == 9 || c as int == 10 || c as int == 11 || c as int == 12
                            || c as int == 13
  {
  }

  function SkipSpace(s: string): (t: string)
    ensures |t| <= |s| && (t != "" ==> !IsSpace(t[0]))
  {
    if s != "" && IsSpace(s[0]) then SkipSpace(s[1..]) else s
  }

  /** strsep with one delimiter: the text before it, and the text behind it if it occurs. */
  function CutAt(s: string, delim: char): (r: (string, Option<string>))
    ensures |r.0| <= |s| && (r.1.Some? ==> |r.0| + 1 + |r.1.value| == |s|)
  {
    if s == "" then ("", None)
    else if s[0] == delim then ("", Some(s[1..]))
    else
      var (tok, rest) := CutAt(s[1..], delim);
      ([s[0]] + tok, rest)
  }

  function SkipPastComma(s: string): (t: string)
    ensures |t| <= |s|
  {
    if s == "" then "" else if s[0] == ',' then s[1..] else SkipPastComma(s[1..])
  }

  /** One token and the cursor behind it. */
  function NextTok(cursor: Option<string>): (Option<string>, Option<string>) {
    if cursor.None? then (None, None)
    else
      var s := SkipSpace(cursor.value);
      if s != "" && s[0] == '"' then
        var (tok, rest) := CutAt(s[1..], '"');
        (Some(tok), if rest.Some? then Some(SkipPastComma(rest.value)) else None)
      else
        var (tok, rest) := CutAt(s, ',');
        (Some(tok), rest)
  }

  predicate HasMore(cursor: Option<string>) {
    cursor.Some? && cursor.value != ""
  }

  function Measure(cursor: Option<string>): nat {
    if cursor.None? then 0 else |cursor.value| + 1
  }

  /** Every call on a non-null cursor shrinks what is left. */
  lemma NextTokShrinks(cursor: Option<string>)
    requires cursor.Some?
    ensures NextTok(cursor).0.Some? && Measure(NextTok(cursor).1) < Measure(cursor)
  {
    var s := SkipSpace(cursor.value);
    if s != "" && s[0] == '"' {
      var (tok, rest) := CutAt(s[1..], '"');
      assert rest.Some? ==> |rest.value| < |s[1..]|;
    }
  }

  /** The tokens a loop over hasmore reads. */
  function TokensWhileMore(cursor: Option<string>): seq<string>
    decreases Measure(cursor)
  {
    if !HasMore(cursor) then []
    else
      NextTokShrinks(cursor);
      [NextTok(cursor).0.value] + TokensWhileMore(NextTok(cursor).1)
  }

  /** The tokens of `n` calls; a call on the null cursor yields none. */
  function ReadTokens(cursor: Option<string>, n: nat): seq<Option<string>>
    decreases n
  {
    if n == 0 then [] else [NextTok(cursor).0] + ReadTokens(NextTok(cursor).1, n - 1)
  }

  // ---------------------------------------------------------------- printing and reading back

  datatype Token = Quoted(text: string) | Plain(text: string)

  /** Tokens that can be told apart when printed. */
  predicate Printable(t: Token) {
    match t
    case Quoted(text) => '"' !in text
    case Plain(text) => ',' !in text && (text != "" ==> !IsSpace(text[0]) && text[0] != '"')
  }

  function PrintToken(t: Token): string {
    match t
    case Quoted(text) => "\"" + text + "\""
    case Plain(text) => text
  }

  function Print(ts: seq<Token>): string
    requires ts != []
  {
    if |ts| == 1 then PrintToken(ts[0]) else PrintToken(ts[0]) + "," + Print(ts[1..])
  }

  function Texts(ts: seq<Token>): (r: seq<string>)
    ensures |r| == |ts|
  {
    if ts == [] then [] else [ts[0].text] + Texts(ts[1..])
  }

  /** Every token is found. */
  function Found(ts: seq<Token>): (r: seq<Option<string>>)
    ensures |r| == |ts|
  {
    if ts == [] then [] else [Some(ts[0].text)] + Found(ts[1..])
  }

  lemma {:induction false} CutBehind(pre: string, s: string, delim: char)
    requires delim !in pre
    ensures CutAt(pre + s, delim) == (pre + CutAt(s, delim).0, CutAt(s, delim).1)
  {
    if pre == "" {
      assert pre + s == s && pre + CutAt(s, delim).0 == CutAt(s, delim).0;
    } else {
      assert (pre + s)[1..] == pre[1..] + s && (pre + s)[0] == pre[0];
      assert pre == [pre[0]] + pre[1..];
      CutBehind(pre[1..], s, delim);
      assert pre + CutAt(s, delim).0 == [pre[0]] + (pre[1..] + CutAt(s, delim).0);
    }
  }

  /** The C string that starts at `start` in a buffer. */
  predicate StringAt(buffer: seq<char>, start: nat, text: string) {
    start + |text| < |buffer| && buffer[start..start + |text|] == text && buffer[start + |text|] == '\0'
  }

  /** A string below `mark` survives changes at and above it. */
  lemma StringSurvives(before: seq<char>, after: seq<char>, start: nat, text: string, mark: nat)
    requires StringAt(before, start, text) && start + |text| < mark <= |before| == |after|
    requires forall i | 0 <= i < mark :: before[i] == after[i]
    ensures StringAt(after, start, text)
  {
    assert after[start..start + |text|] == before[start..start + |text|];
  }

  lemma {:induction false} CutWhole(s: string, delim: char)
    requires delim !in s
    ensures CutAt(s, delim) == (s, None)
  {
    if s != "" {
      assert s == [s[0]] + s[1..];
      CutWhole(s[1..], delim);
    }
  }

  lemma {:induction false} CutFirst(s: string, delim: char, rest: string)
    requires delim !in s
    ensures CutAt(s + [delim] + rest, delim) == (s, Some(rest))
  {
    if s == "" {
      assert s + [delim] + rest == [delim] + rest;
    } else {
      assert (s + [delim] + rest)[1..] == s[1..] + [delim] + rest;
      assert s == [s[0]] + s[1..] && (s + [delim] + rest)[0] == s[0];
      CutFirst(s[1..], delim, rest);
    }
  }

  /** Reading the last token of a printed list. */
  lemma NextTokOfLast(t: Token)
    requires Printable(t)
    ensures NextTok(Some(PrintToken(t))) == (Some(t.text), if t.Quoted? then Some("") else None)
  {
    match t
    case Quoted(text) =>
      assert PrintToken(t)[1..] == text + ['"'] + "";
      CutFirst(text, '"', "");
    case Plain(text) => CutWhole(text, ',');
  }

  /** Reading a token that is followed by others. */
  lemma NextTokOfFirst(t: Token, rest: string)
    requires Printable(t)
    ensures NextTok(Some(PrintToken(t) + "," + rest)) == (Some(t.text), Some(rest))
  {
    var s := PrintToken(t) + "," + rest;
    match t
    case Quoted(text) =>
      assert s[1..] == text + ['"'] + ("," + rest);
      CutFirst(text, '"', "," + rest);
    case Plain(text) =>
      assert s == text + [','] + rest;
      CutFirst(text, ',', rest);
  }

  /** A printed list is read back by as many calls as it has tokens. */
  lemma {:induction false} ReadsBack(ts: seq<Token>)
    requires ts != [] && forall t | t in ts :: Printable(t)
    ensures ReadTokens(Some(Print(ts)), |ts|) == Found(ts)
  {
    assert Printable(ts[0]);
    if |ts| == 1 {
      NextTokOfLast(ts[0]);
    } else {
      NextTokOfFirst(ts[0], Print(ts[1..]));
      assert forall t | t in ts[1..] :: t in ts;
      ReadsBack(ts[1..]);
    }
  }

  lemma {:induction false} PrintIsEmpty(ts: seq<Token>)
    requires ts != []
    ensures Print(ts) == "" <==> ts == [Plain("")]
  {
  }

  lemma MoreOfOne(t: Token)
    requires Printable(t)
    ensures TokensWhileMore(Some(PrintToken(t))) == if t == Plain("") then [] else [t.text]
  {
    NextTokOfLast(t);
    if t != Plain("") {
      assert TokensWhileMore(NextTok(Some(PrintToken(t))).1) == [];
    }
  }

  lemma MoreOfSeveral(ts: seq<Token>)
    requires |ts| > 1 && Printable(ts[0])
    ensures TokensWhileMore(Some(Print(ts))) == [ts[0].text] + TokensWhileMore(Some(Print(ts[1..])))
  {
    PrintIsEmpty(ts);
    NextTokOfFirst(ts[0], Print(ts[1..]));
  }

  lemma LastOfTail(ts: seq<Token>)
    requires |ts| > 1
    ensures ts[|ts| - 1] == ts[1..][|ts[1..]| - 1]
    ensures Texts(ts) == [ts[0].text] + Texts(ts[1..])
    ensures Texts(ts)[..|ts| - 1] == [ts[0].text] + Texts(ts[1..])[..|ts[1..]| - 1]
  {
  }

  /** A loop over hasmore reads all tokens of a printed list exactly when the last one is not an empty
    unquoted token; that one it misses. */
  lemma {:induction false} HasMoreLoopReadsBack(ts: seq<Token>)
    requires ts != [] && forall t | t in ts :: Printable(t)
    ensures TokensWhileMore(Some(Print(ts))) == (if ts[|ts| - 1] == Plain("") then Texts(ts)[..|ts| - 1] else Texts(ts))
  {
    assert Printable(ts[0]);
    if |ts| == 1 {
      MoreOfOne(ts[0]);
    } else {
      MoreOfSeveral(ts);
      assert forall t | t in ts[1..] :: t in ts;
      HasMoreLoopReadsBack(ts[1..]);
      LastOfTail(ts);
    }
  }

  lemma {:induction false} CutWithin(s: string, delim: char)
    ensures forall c | c in CutAt(s, delim).0 :: c in s
  {
    if s != "" && s[0] != delim {
      CutWithin(s[1..], delim);
    }
  }

  lemma {:induction false} SkipWithin(s: string)
    ensures forall c | c in SkipSpace(s) :: c in s
  {
    if s != "" && IsSpace(s[0]) {
      SkipWithin(s[1..]);
    }
  }

  /** A token is made of characters of the line. */
  lemma TokenWithin(s: string)
    ensures forall c | c in NextTok(Some(s)).0.value :: c in s
  {
    SkipWithin(s);
    var t := SkipSpace(s);
    if t != "" && t[0] == '"' {
      CutWithin(t[1..], '"');
    } else {
      CutWithin(t, ',');
    }
  }

  // ---------------------------------------------------------------- integers

  const INT_MAX := 0x7FFF_FFFF
  const INT_MIN := -0x8000_0000

  predicate IsDigit(c: char) {
    '0' <= c <= '9'
  }

  function LeadingDigits(s: string): (n: nat)
    ensures n <= |s|
  {
    if s != "" && IsDigit(s[0]) then 1 + LeadingDigits(s[1..]) else 0
  }

  function DigitsValue(s: string): int {
    if s == "" then 0 else 10 * DigitsValue(s[..|s| - 1]) + (s[|s| - 1] as int - '0' as int)
  }

  /** The signed value, kept between the least and the greatest long. */
  function Clamped(negative: bool, v: int, longMax: int): int {
    if negative then (if -v < -longMax - 1 then -longMax - 1 else -v) else if v > longMax then longMax else v
  }

  /** The value itself if it is a long, else the nearest long. */
  lemma ClampedIsNearest(negative: bool, v: int, longMax: int)
    requires v >= 0 && longMax >= 0
    ensures var r: int, exact: int := Clamped(negative, v, longMax), if negative then -v else v;
            && -longMax - 1 <= r <= longMax
            && (-longMax - 1 <= exact <= longMax ==> r == exact)
            && (exact > longMax ==> r == longMax) && (exact < -longMax - 1 ==> r == -longMax - 1)
  {
  }

  /** strtol in base 10 with a long of the given greatest value: None when no digits are found. */
  function StrToL(s: string, longMax: nat): Option<int> {
    var t := SkipSpace(s);
    var negative := t != "" && t[0] == '-';
    var u := if t != "" && (t[0] == '-' || t[0] == '+') then t[1..] else t;
    var n := LeadingDigits(u);
    if n == 0 then None
    else Some(Clamped(negative, DigitsValue(u[..n]), longMax))
  }

  /** Conversion of a long to a 32-bit int. */
  function ToInt(v: int): (r: int)
    ensures INT_MIN <= r <= INT_MAX && (INT_MIN <= v <= INT_MAX ==> r == v)
  {
    var m := v % 0x1_0000_0000;
    if m > INT_MAX then m - 0x1_0000_0000 else m
  }

  /** Other longs wrap around. */
  lemma ToIntWraps(v: int)
    ensures (ToInt(v) - v) % 0x1_0000_0000 == 0
  {
  }

  /** One integer token and the cursor behind it. */
  function NextInt(cursor: Option<string>, longMax: nat): (Option<int>, Option<string>) {
    if cursor.None? then (None, None)
    else
      var (tok, rest) := NextTok(cursor);
      var v := if tok.None? then None else StrToL(tok.value, longMax);
      (if v.None? then None else Some(ToInt(v.value)), rest)
  }

  function DigitsOf(n: nat): (s: string)
    ensures s != ""
    ensures forall i | 0 <= i < |s| :: IsDigit(s[i])
  {
    var last := [('0' as int + n % 10) as char];
    if n < 10 then last else DigitsOf(n / 10) + last
  }

  function Decimal(n: int): (s: string) {
    if n < 0 then "-" + DigitsOf(-n) else DigitsOf(n)
  }

  lemma {:induction false} DigitsValueOf(n: nat)
    ensures DigitsValue(DigitsOf(n)) == n
  {
    var s := DigitsOf(n);
    if n >= 10 {
      DigitsValueOf(n / 10);
      assert s[..|s| - 1] == DigitsOf(n / 10);
    } else {
      assert s[..0] == "";
    }
  }

  lemma {:induction false} AllLeadingDigits(s: string)
    requires forall i | 0 <= i < |s| :: IsDigit(s[i])
    ensures LeadingDigits(s) == |s|
  {
    if s != "" {
      AllLeadingDigits(s[1..]);
    }
  }

  /** A string of digits is read as a whole, with or without a minus sign. */
  lemma StrToLOfDigits(d: string, negative: bool, longMax: nat)
    requires d != "" && forall i | 0 <= i < |d| :: IsDigit(d[i])
    ensures StrToL(if negative then "-" + d else d, longMax) == Some(Clamped(negative, DigitsValue(d), longMax))
  {
    AllLeadingDigits(d);
    assert d[..|d|] == d && IsDigit(d[0]);
    if negative {
      var s := "-" + d;
      assert s[0] == '-' && s[1..] == d && SkipSpace(s) == s;
    } else {
      assert SkipSpace(d) == d;
    }
  }

  lemma StrToLOfDecimal(n: int, longMax: nat)
    requires INT_MIN <= n <= INT_MAX <= longMax
    ensures StrToL(Decimal(n), longMax) == Some(n)
  {
    var m := if n < 0 then -n else n;
    DigitsValueOf(m);
    StrToLOfDigits(DigitsOf(m), n < 0, longMax);
  }

  // ---------------------------------------------------------------- CME errors

  const CmePrefix := "+CME ERROR:"
  const CME_ERROR_NON_CME := -1
  const CME_SUCCESS := 0

  /** at_get_cme_error on the success flag and the final line of a response. */
  function CmeError(success: bool, final: Option<string>, longMax: nat): int {
    if success then CME_SUCCESS
    else if final.None? || !(CmePrefix <= final.value) then CME_ERROR_NON_CME
    else
      var start := CutAt(final.value, ':').1;
      if start.None? then CME_ERROR_NON_CME
      else
        var v := NextInt(start, longMax).0;
        if v.None? then CME_ERROR_NON_CME else v.value
  }

  lemma {:induction false} NotIn(s: string, c: char)
    requires IsDigit(c) == false && c != '-' && forall i | 0 <= i < |s| :: IsDigit(s[i]) || s[i] == '-'
    ensures c !in s
  {
  }

  /** An integer printed behind a blank is read back. */
  lemma NextIntOfDecimal(n: int, longMax: nat)
    requires INT_MIN <= n <= INT_MAX <= longMax
    ensures NextInt(Some(" " + Decimal(n)), longMax).0 == Some(n)
  {
    var s := Decimal(n);
    assert (" " + s)[1..] == s;
    assert SkipSpace(" " + s) == s;
    NotIn(s, ',');
    CutWhole(s, ',');
    StrToLOfDecimal(n, longMax);
  }

  /** A response that succeeded has no error; one that failed without a line that names a CME error, as with a
    plain "ERROR", reports that it is none, and not success. */
  lemma CmeErrorOfOthers(success: bool, final: Option<string>, longMax: nat)
    ensures success ==> CmeError(success, final, longMax) == 0
    ensures !success && (final.None? || !("+CME ERROR:" <= final.value)) ==> CmeError(success, final, longMax) == -1
    ensures CmeError(false, Some("ERROR"), longMax) == CME_ERROR_NON_CME != CME_SUCCESS
  {
    assert "ERROR"[0] != CmePrefix[0];
  }

  /** A failed "+CME ERROR: n" decodes to n, for every 32-bit n. */
  lemma CmeErrorDecodes(n: int, longMax: nat)
    requires INT_MIN <= n <= INT_MAX <= longMax
    ensures CmeError(false, Some(CmePrefix + " " + Decimal(n)), longMax) == n
  {
    var rest := " " + Decimal(n);
    var line, head := CmePrefix + rest, "+CME ERROR";
    assert CmePrefix + " " + Decimal(n) == line && line == head + [':'] + rest;
    CutFirst(head, ':', rest);
    NextIntOfDecimal(n, longMax);
  }
}
