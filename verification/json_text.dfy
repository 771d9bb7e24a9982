/** Reading the top-level structure of a JSON array text (RFC 8259,
    section 5 for arrays, section 7 for strings, section 2 for whitespace):
    the elements of `[e0, e1, ...]` are the pieces between the commas that
    sit outside every string literal and every nested array or object. This
    is the reference against which the websocket envelopes are checked. */
module JsonText {
  import opened Common

  /** Where a left-to-right scan stands: bracket nesting depth, inside a
      string literal or not, and right after a backslash inside one. */
  datatype Lex = Lex(depth: int, inString: bool, escaped: bool)

  const Outside := Lex(0, false, false)

  function Next(l: Lex, c: char): Lex {
    if l.inString then
      if l.escaped then l.(escaped := false)
      else if c == '\\' then l.(escaped := true)
      else if c == '"' then l.(inString := false)
      else l
    else if c == '"' then l.(inString := true)
    else if c == '[' || c == '{' then l.(depth := l.depth + 1)
    else if c == ']' || c == '}' then l.(depth := l.depth - 1)
    else l
  }

  function LexAfter(l: Lex, s: string): Lex
    decreases |s|
  {
    if s == [] then l else LexAfter(Next(l, s[0]), s[1..])
  }

  /** A comma that separates elements of the array being read. */
  predicate IsSeparator(l: Lex, c: char) {
    !l.inString && l.depth == 0 && c == ','
  }

  predicate NoSeparator(l: Lex, s: string)
    decreases |s|
  {
    s == [] || (!IsSeparator(l, s[0]) && NoSeparator(Next(l, s[0]), s[1..]))
  }

  /** Cuts `s` at its separators; `done` holds the pieces already cut and
      `cur` the piece being read. */
  function Split(l: Lex, done: seq<string>, cur: string, s: string): (parts: seq<string>)
    ensures |parts| > |done|
    decreases |s|
  {
    if s == [] then done + [cur]
    else if IsSeparator(l, s[0]) then Split(Next(l, s[0]), done + [cur], "", s[1..])
    else Split(Next(l, s[0]), done, cur + [s[0]], s[1..])
  }

  /** JSON whitespace: space, horizontal tab, line feed, carriage return. */
  predicate IsWhitespace(c: char) {
    c == ' ' || c == '\t' || c == '\n' || c == '\r'
  }

  function TrimLeft(s: string): (t: string)
    ensures |t| <= |s|
    decreases |s|
  {
    if s != [] && IsWhitespace(s[0]) then TrimLeft(s[1..]) else s
  }

  function TrimRight(s: string): (t: string)
    ensures |t| <= |s|
    decreases |s|
  {
    if s != [] && IsWhitespace(s[|s| - 1]) then TrimRight(s[..|s| - 1]) else s
  }

  function Trim(s: string): string {
    TrimRight(TrimLeft(s))
  }

  function TrimAll(parts: seq<string>): (r: seq<string>)
    ensures |r| == |parts|
    decreases |parts|
  {
    if parts == [] then [] else [Trim(parts[0])] + TrimAll(parts[1..])
  }

  /** The whitespace-trimmed top-level elements of an array text, or None
      when the text between the outer brackets does not end outside any
      string and at the nesting level it started at. The scanner counts
      brackets without checking their order, so it reads a valid array
      exactly but may also accept some texts that are not JSON. */
  function Elements(s: string): Option<seq<string>> {
    if |s| < 2 || s[0] != '[' || s[|s| - 1] != ']' then None
    else
      var inner := s[1..|s| - 1];
      if LexAfter(Outside, inner) != Outside then None
      else if Trim(inner) == "" then Some([])
      else Some(TrimAll(Split(Outside, [], "", inner)))
  }

  /** Pieces written one after the other with a comma between them. */
  function JoinCommas(pieces: seq<string>): string
    decreases |pieces|
  {
    if pieces == [] then ""
    else if |pieces| == 1 then pieces[0]
    else pieces[0] + "," + JoinCommas(pieces[1..])
  }

  /** A text that can stand as one array element: it has no top-level comma
      and ends outside any string, at the nesting level it started at (the
      count of brackets balances; their order is not checked). */
  predicate IsOneElement(p: string) {
    NoSeparator(Outside, p) && LexAfter(Outside, p) == Outside
  }

  /** Characters with no meaning to the scanner. */
  predicate IsPlain(c: char) {
    c !in "\"\\[]{},"
  }

  lemma {:induction false} LexAfterAppend(l: Lex, a: string, b: string)
    ensures LexAfter(l, a + b) == LexAfter(LexAfter(l, a), b)
    decreases |a|
  {
    if a == [] {
      assert a + b == b;
    } else {
      assert (a + b)[0] == a[0] && (a + b)[1..] == a[1..] + b;
      LexAfterAppend(Next(l, a[0]), a[1..], b);
    }
  }

  lemma {:induction false} NoSeparatorAppend(l: Lex, a: string, b: string)
    ensures NoSeparator(l, a + b) <==> NoSeparator(l, a) && NoSeparator(LexAfter(l, a), b)
    decreases |a|
  {
    if a == [] {
      assert a + b == b;
    } else {
      assert (a + b)[0] == a[0] && (a + b)[1..] == a[1..] + b;
      NoSeparatorAppend(Next(l, a[0]), a[1..], b);
    }
  }

  /** Plain text changes nothing for the scanner and holds no separator. */
  lemma {:induction false} PlainText(l: Lex, a: string)
    requires !l.escaped
    requires forall i :: 0 <= i < |a| ==> IsPlain(a[i])
    ensures LexAfter(l, a) == l && NoSeparator(l, a)
    decreases |a|
  {
    if a != [] {
      assert IsPlain(a[0]);
      PlainText(l, a[1..]);
    }
  }

  lemma {:induction false} SplitNoSeparator(l: Lex, done: seq<string>, cur: string, a: string, b: string)
    requires NoSeparator(l, a)
    ensures Split(l, done, cur, a + b) == Split(LexAfter(l, a), done, cur + a, b)
    decreases |a|
  {
    if a == [] {
      assert a + b == b && cur + a == cur;
    } else {
      assert (a + b)[0] == a[0] && (a + b)[1..] == a[1..] + b;
      SplitNoSeparator(Next(l, a[0]), done, cur + [a[0]], a[1..], b);
      assert cur + [a[0]] + a[1..] == cur + a;
    }
  }

  /** Cutting a comma-joined list of one-element texts at its separators
      gives the list back. */
  lemma {:induction false} SplitJoinCommas(done: seq<string>, pieces: seq<string>)
    requires |pieces| > 0
    requires forall i :: 0 <= i < |pieces| ==> IsOneElement(pieces[i])
    ensures Split(Outside, done, "", JoinCommas(pieces)) == done + pieces
    ensures LexAfter(Outside, JoinCommas(pieces)) == Outside
    decreases |pieces|
  {
    var p := pieces[0];
    assert IsOneElement(p);
    if |pieces| == 1 {
      SplitNoSeparator(Outside, done, "", p, "");
      assert p + "" == p && "" + p == p;
    } else {
      var rest := JoinCommas(pieces[1..]);
      assert JoinCommas(pieces) == p + ("," + rest);
      SplitNoSeparator(Outside, done, "", p, "," + rest);
      assert "" + p == p;
      assert ("," + rest)[0] == ',' && ("," + rest)[1..] == rest;
      SplitJoinCommas(done + [p], pieces[1..]);
      assert done + [p] + pieces[1..] == done + pieces;
      LexAfterAppend(Outside, p, "," + rest);
      LexAfterAppend(Outside, ",", rest);
    }
  }

  /** A bracketed, comma-joined list of one-element texts reads back as
      exactly those elements, trimmed. */
  lemma ElementsOfJoin(pieces: seq<string>)
    requires |pieces| > 0
    requires forall i :: 0 <= i < |pieces| ==> IsOneElement(pieces[i])
    requires pieces[0] != [] && !IsWhitespace(pieces[0][0])
    ensures Elements("[" + JoinCommas(pieces) + "]") == Some(TrimAll(pieces))
  {
    var inner := JoinCommas(pieces);
    var s := "[" + inner + "]";
    assert s[0] == '[' && s[|s| - 1] == ']';
    assert s[1..|s| - 1] == inner;
    SplitJoinCommas([], pieces);
    assert [] + pieces == pieces;
    JoinCommasHead(pieces);
    TrimNonEmpty(inner);
  }

  lemma JoinCommasHead(pieces: seq<string>)
    requires |pieces| > 0 && pieces[0] != []
    ensures JoinCommas(pieces) != [] && JoinCommas(pieces)[0] == pieces[0][0]
  {
  }

  /** A text that starts with a non-whitespace character does not trim away. */
  lemma TrimNonEmpty(s: string)
    requires s != [] && !IsWhitespace(s[0])
    ensures Trim(s) != []
  {
    assert TrimLeft(s) == s;
    TrimRightKeepsHead(s);
  }

  /** Trimming the right end of a text whose first character is not
      whitespace leaves that character. */
  lemma {:induction false} TrimRightKeepsHead(t: string)
    requires t != [] && !IsWhitespace(t[0])
    ensures TrimRight(t) != [] && TrimRight(t)[0] == t[0]
    decreases |t|
  {
    if IsWhitespace(t[|t| - 1]) {
      TrimRightKeepsHead(t[..|t| - 1]);
    }
  }

  lemma OneChar(l: Lex, c: char)
    ensures LexAfter(l, [c]) == Next(l, c)
    ensures NoSeparator(l, [c]) == !IsSeparator(l, c)
  {
  }

  /** A string literal with plain contents, read outside any string, leaves
      the scanner where it was and holds no separator. */
  lemma QuotedPlain(l: Lex, a: string)
    requires !l.inString && !l.escaped
    requires forall i :: 0 <= i < |a| ==> IsPlain(a[i])
    ensures LexAfter(l, "\"" + a + "\"") == l && NoSeparator(l, "\"" + a + "\"")
  {
    var open := l.(inString := true);
    OneChar(l, '"');
    PlainText(open, a);
    LexAfterAppend(l, "\"", a);
    NoSeparatorAppend(l, "\"", a);
    OneChar(open, '"');
    LexAfterAppend(l, "\"" + a, "\"");
    NoSeparatorAppend(l, "\"" + a, "\"");
  }

  /** Inside an object or array, one level deep. */
  const Inside := Lex(1, false, false)

  /** An object whose contents return to the same nesting level is one
      array element. */
  lemma Braced(body: string)
    requires LexAfter(Inside, body) == Inside && NoSeparator(Inside, body)
    ensures IsOneElement("{" + body + "}")
  {
    OneChar(Outside, '{');
    OneChar(Inside, '}');
    LexAfterAppend(Outside, "{", body);
    NoSeparatorAppend(Outside, "{", body);
    LexAfterAppend(Outside, "{" + body, "}");
    NoSeparatorAppend(Outside, "{" + body, "}");
  }
}
