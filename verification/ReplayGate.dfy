/** isRetryableRead: the small lexer that decides whether a GraphQL document may be sent again. */
module ReplayGate {

  // ----- the source -----

  const BOM := '\U{FEFF}'

  /** What the trim of the whole document takes off the left. */
  predicate Trimmed(c: char) { c == BOM || c == ',' || c == ' ' || c == '\t' || c == '\r' || c == '\n' }

  /** unicode.IsSpace */
  predicate Space(c: char) {
    || c == '\t' || c == '\n' || c == '\U{000B}' || c == '\U{000C}' || c == '\r' || c == ' '
    || c == '\U{0085}' || c == '\U{00A0}' || c == '\U{1680}' || '\U{2000}' <= c <= '\U{200A}'
    || c == '\U{2028}' || c == '\U{2029}' || c == '\U{202F}' || c == '\U{205F}' || c == '\U{3000}'
  }

  /** isGraphQLDelimiter */
  predicate Delimiter(c: char) {
    c == ' ' || c == '\t' || c == '\r' || c == '\n' || c == '(' || c == '{' || c == '@'
  }

  function TrimLeft(doc: string, drop: char -> bool): (r: string)
    ensures |r| <= |doc|
  {
    if doc != [] && drop(doc[0]) then TrimLeft(doc[1..], drop) else doc
  }

  function TrimRight(doc: string, drop: char -> bool): (r: string)
    ensures |r| <= |doc|
  {
    if doc != [] && drop(doc[|doc| - 1]) then TrimRight(doc[..|doc| - 1], drop) else doc
  }

  /** strings.TrimSpace */
  function TrimSpace(doc: string): (r: string)
    ensures |r| <= |doc|
  {
    TrimRight(TrimLeft(doc, Space), Space)
  }

  /** What follows the first line feed, if there is one. */
  function AfterLine(doc: string): (r: string)
    requires '\n' in doc
    ensures |r| < |doc|
  {
    if doc[0] == '\n' then doc[1..] else AfterLine(doc[1..])
  }

  /** The loop over leading comments; nothing is left of a comment without an end. */
  function SkipComments(doc: string): string
    decreases |doc|
  {
    if doc == [] || doc[0] != '#' then doc
    else if '\n' in doc then SkipComments(TrimSpace(AfterLine(doc)))
    else []
  }

  predicate Opens(doc: string) {
    || (doc != [] && doc[0] == '{')
    || ("query" <= doc && (|doc| == 5 || Delimiter(doc[5])))
  }

  /** The whole decision. */
  predicate Retryable(doc: string) {
    Opens(SkipComments(TrimLeft(doc, Trimmed)))
  }

  method IndexOfLine(doc: string) returns (i: int)
    ensures '\n' in doc ==> 0 <= i < |doc| && doc[i] == '\n' && AfterLine(doc) == doc[i + 1..]
    ensures '\n' !in doc ==> i == -1
  {
    for k := 0 to |doc|
      invariant '\n' !in doc[..k]
      invariant '\n' in doc ==> '\n' in doc[k..] && AfterLine(doc) == AfterLine(doc[k..])
    {
      if doc[k] == '\n' {
        return k;
      }
    }
    return -1;
  }

  method IsRetryableRead(query: string) returns (r: bool)
    ensures r <==> Retryable(query)
  {
    var doc := TrimLeft(query, Trimmed);
    while "#" <= doc
      invariant SkipComments(doc) == SkipComments(TrimLeft(query, Trimmed))
      decreases |doc|
    {
      var newline := IndexOfLine(doc);
      if newline < 0 {
        return false;
      }
      doc := TrimSpace(doc[newline + 1..]);
    }
    if "{" <= doc {
      return true;
    }
    if "query" <= doc {
      return |doc| == 5 || Delimiter(doc[5]);
    }
    return false;
  }

  // ----- section 2.1 of the GraphQL specification, October 2021 -----

  predicate LineTerminator(c: char) { c == '\n' || c == '\r' }

  /** UnicodeBOM, WhiteSpace, LineTerminator and Comma. */
  predicate Insignificant(c: char) { c == BOM || c == '\t' || c == ' ' || LineTerminator(c) || c == ',' }

  /** The rest of the document from the line terminator that ends a comment. */
  function SkipComment(doc: string): (r: string)
    ensures |r| <= |doc|
  {
    if doc == [] || LineTerminator(doc[0]) then doc else SkipComment(doc[1..])
  }

  /** The document from its first token on. */
  function SkipIgnored(doc: string): (r: string)
    ensures |r| <= |doc|
    ensures r != [] ==> !Insignificant(r[0]) && r[0] != '#'
    decreases |doc|
  {
    if doc == [] then []
    else if Insignificant(doc[0]) then SkipIgnored(doc[1..])
    else if doc[0] == '#' then SkipIgnored(SkipComment(doc[1..]))
    else doc
  }

  predicate NameContinue(c: char) { 'a' <= c <= 'z' || 'A' <= c <= 'Z' || '0' <= c <= '9' || c == '_' }

  /** The text starts with the Name token `name`, whole. */
  predicate StartsWithName(text: string, name: string) {
    name <= text && (|text| == |name| || !NameContinue(text[|name|]))
  }

  /** A token that opens a query: `{`, or the Name `query`. */
  predicate QueryToken(text: string) {
    (text != [] && text[0] == '{') || StartsWithName(text, "query")
  }

  /** The first token of the document opens a query. */
  predicate StartsQuery(doc: string) { QueryToken(SkipIgnored(doc)) }

  // ----- the source against the specification -----

  /** What precedes the first line feed. */
  function LineOf(doc: string): string
    requires '\n' in doc
  {
    if doc[0] == '\n' then [] else [doc[0]] + LineOf(doc[1..])
  }

  ghost predicate AllSpace(s: string) { forall i :: 0 <= i < |s| ==> Space(s[i]) }

  /** The white space that TrimSpace takes off the left is white space to the specification too. */
  predicate PlainIndent(doc: string) {
    doc != [] && Space(doc[0]) ==> Insignificant(doc[0]) && PlainIndent(doc[1..])
  }

  /** What the source skips as leading comments is nothing but ignored tokens to the specification: no
      comment line goes on after a carriage return, and no unusual white space is trimmed. */
  predicate LeadIsClean(doc: string)
    decreases |doc|
  {
    doc != [] && doc[0] == '#' && '\n' in doc ==>
      SkipIgnored(LineOf(doc)) == [] && PlainIndent(AfterLine(doc)) && LeadIsClean(TrimSpace(AfterLine(doc)))
  }

  /** The first token that hides in such a line opens a query itself. */
  predicate HiddenQuery(doc: string)
    decreases |doc|
  {
    && doc != [] && doc[0] == '#' && '\n' in doc
    && if SkipIgnored(LineOf(doc)) != [] then QueryToken(SkipIgnored(LineOf(doc)) + "\n")
       else PlainIndent(AfterLine(doc)) && HiddenQuery(TrimSpace(AfterLine(doc)))
  }

  lemma {:induction false} LineSplits(doc: string)
    requires '\n' in doc
    ensures doc == LineOf(doc) + "\n" + AfterLine(doc)
  {
    if doc[0] != '\n' {
      LineSplits(doc[1..]);
    }
  }

  lemma {:induction false} CommentEndsAtLine(u: string, v: string)
    requires v != [] && LineTerminator(v[0])
    ensures SkipComment(u + v) == SkipComment(u) + v
  {
    if u == [] {
      assert u + v == v;
    } else if !LineTerminator(u[0]) {
      assert (u + v)[1..] == u[1..] + v;
      CommentEndsAtLine(u[1..], v);
    }
  }

  /** Lexing goes on after a line that holds no token, and stops in one that does. */
  lemma {:induction false} LexingCrossesLine(u: string, v: string)
    requires v != [] && LineTerminator(v[0])
    ensures SkipIgnored(u + v) == if SkipIgnored(u) == [] then SkipIgnored(v) else SkipIgnored(u) + v
    decreases |u|
  {
    if u == [] {
      assert u + v == v;
    } else {
      assert (u + v)[1..] == u[1..] + v;
      if Insignificant(u[0]) {
        LexingCrossesLine(u[1..], v);
      } else if u[0] == '#' {
        CommentEndsAtLine(u[1..], v);
        LexingCrossesLine(SkipComment(u[1..]), v);
      }
    }
  }

  lemma {:induction false} TrimRightSplits(doc: string) returns (t: string)
    ensures doc == TrimRight(doc, Space) + t && AllSpace(t)
  {
    if doc != [] && Space(doc[|doc| - 1]) {
      var front := doc[..|doc| - 1];
      var t' := TrimRightSplits(front);
      t := t' + [doc[|doc| - 1]];
      assert doc == front + [doc[|doc| - 1]];
    } else {
      t := [];
    }
  }

  /** Trimming plain white space off the left is lexing; other white space is a token that opens nothing. */
  lemma {:induction false} LexingCrossesIndent(doc: string, t: string)
    requires TrimLeft(doc, Space) != []
    ensures PlainIndent(doc) ==> SkipIgnored(doc + t) == SkipIgnored(TrimLeft(doc, Space) + t)
    ensures !PlainIndent(doc) ==> !StartsQuery(doc + t)
  {
    if doc != [] && Space(doc[0]) {
      assert (doc + t)[1..] == doc[1..] + t && (doc + t)[0] == doc[0];
      if Insignificant(doc[0]) {
        LexingCrossesIndent(doc[1..], t);
      } else {
        assert SkipIgnored(doc + t) == doc + t;
        assert "query"[0] == 'q';
      }
    }
  }

  /** What decides about a token lies before the line feed that follows it. */
  lemma TokenEndsAtLine(u: string, v: string)
    requires u != []
    ensures QueryToken(u + "\n" + v) == QueryToken(u + "\n")
  {
    var long, short := u + "\n" + v, u + "\n";
    assert long[|u|] == short[|u|] == '\n';
    assert forall i :: 0 <= i < |short| ==> long[i] == short[i];
    if |u| < 5 {
      assert "query"[|u|] != '\n';
    } else {
      assert "query" <= long <==> "query" <= short by {
        assert long[..5] == short[..5];
      }
    }
  }

  lemma OpenerIsQueryToken(doc: string, t: string)
    requires Opens(doc) && AllSpace(t)
    ensures StartsQuery(doc + t)
  {
    assert doc[0] == '{' || doc[0] == "query"[0];
    assert SkipIgnored(doc + t) == doc + t;
    if doc[0] != '{' {
      assert "query" <= doc + t;
      if |doc| == 5 && t != [] {
        assert (doc + t)[5] == t[0];
      }
    }
  }

  /** Lexing a leading comment line. */
  lemma LexingCrossesComment(doc: string, t: string)
    requires doc != [] && doc[0] == '#' && '\n' in doc
    ensures var line, rest := SkipIgnored(LineOf(doc)), AfterLine(doc) + t;
            SkipIgnored(doc + t) == if line == [] then SkipIgnored(rest) else line + "\n" + rest
  {
    var line, rest := LineOf(doc), AfterLine(doc) + t;
    LineSplits(doc);
    var v := "\n" + rest;
    assert doc + t == line + v && v[1..] == rest;
    LexingCrossesLine(line, v);
    assert SkipIgnored(v) == SkipIgnored(rest);
    assert SkipIgnored(line) + v == SkipIgnored(line) + "\n" + rest;
  }

  /** Lexing the white space around the rest. */
  lemma LexingCrossesTrim(tail: string, t: string) returns (t': string)
    requires TrimSpace(tail) != [] && AllSpace(t)
    ensures AllSpace(t')
    ensures PlainIndent(tail) ==> SkipIgnored(tail + t) == SkipIgnored(TrimSpace(tail) + t')
    ensures !PlainIndent(tail) ==> !StartsQuery(tail + t)
  {
    var inner := TrimLeft(tail, Space);
    var right := TrimRightSplits(inner);
    t' := right + t;
    LexingCrossesIndent(tail, t);
    assert inner + t == TrimSpace(tail) + t';
  }

  /** The loop over comments, for a document that may have lost white space at its end. */
  lemma {:induction false} GateAgainstSpec(doc: string, t: string)
    requires Opens(SkipComments(doc)) && AllSpace(t)
    ensures StartsQuery(doc + t) <==> LeadIsClean(doc) || HiddenQuery(doc)
    decreases |doc|
  {
    if doc == [] || doc[0] != '#' {
      OpenerIsQueryToken(doc, t);
    } else {
      LexingCrossesComment(doc, t);
      if SkipIgnored(LineOf(doc)) != [] {
        TokenEndsAtLine(SkipIgnored(LineOf(doc)), AfterLine(doc) + t);
      } else {
        assert SkipComments(doc) == SkipComments(TrimSpace(AfterLine(doc)));
        var t' := LexingCrossesTrim(AfterLine(doc), t);
        GateAgainstSpec(TrimSpace(AfterLine(doc)), t');
      }
    }
  }

  /** The trim of the whole document is lexing. */
  lemma {:induction false} TrimIsLexing(doc: string)
    ensures SkipIgnored(doc) == SkipIgnored(TrimLeft(doc, Trimmed))
    ensures TrimLeft(doc, Trimmed) != [] ==> !Insignificant(TrimLeft(doc, Trimmed)[0])
  {
    if doc != [] && Trimmed(doc[0]) {
      TrimIsLexing(doc[1..]);
    }
  }

  /** A document that the source takes for a query starts with one, by the specification, exactly
      when its leading comments are clean, or what they hide opens a query as well. */
  lemma RetryableStartsQueryIff(doc: string)
    requires Retryable(doc)
    ensures StartsQuery(doc) <==>
              LeadIsClean(TrimLeft(doc, Trimmed)) || HiddenQuery(TrimLeft(doc, Trimmed))
  {
    TrimIsLexing(doc);
    var d := TrimLeft(doc, Trimmed);
    GateAgainstSpec(d, []);
    assert d + [] == d;
  }

  lemma {:induction false} AfterLineSkips(u: string, v: string)
    requires '\n' !in u
    ensures '\n' in u + "\n" + v && AfterLine(u + "\n" + v) == v
  {
    var doc := u + "\n" + v;
    assert doc[|u|] == '\n';
    if u == [] {
      assert doc[1..] == v;
    } else {
      assert doc[1..] == u[1..] + "\n" + v;
      AfterLineSkips(u[1..], v);
    }
  }

  /** The gate is not sound for all documents. A carriage return ends a comment, but the source reads
      on to the line feed: any text hidden in between is the document's first token to the server,
      a mutation for one, while the source sees the query on the next line. */
  lemma HiddenTextPasses(text: string)
    requires text != [] && '\n' !in text && !Insignificant(text[0]) && text[0] != '#'
    ensures var doc := "#\r" + text + "\n{q}";
            Retryable(doc) && SkipIgnored(doc) == text + "\n{q}"
    ensures StartsWithName(text, "mutation") ==> !StartsQuery("#\r" + text + "\n{q}")
  {
    var u, doc := "#\r" + text, "#\r" + text + "\n{q}";
    assert doc == u + "\n" + "{q}";
    AfterLineSkips(u, "{q}");
    assert TrimSpace("{q}") == "{q}";
    assert "#\r" == ['#', '\r'];
    assert doc == ['#', '\r'] + (text + "\n{q}");
    var hidden := text + "\n{q}";
    assert doc[1..][0] == '\r' && doc[1..][1..] == hidden;
    assert SkipIgnored(doc) == SkipIgnored(doc[1..]) == SkipIgnored(hidden);
    assert hidden[0] == text[0] && SkipIgnored(hidden) == hidden;
    assert AfterLine(doc) == "{q}";
    assert SkipComments(doc) == SkipComments("{q}");
    assert TrimLeft(doc, Trimmed) == doc;
    assert SkipComment(doc[1..]) == doc[1..];
    if StartsWithName(text, "mutation") {
      assert text[0] == "mutation"[0];
      assert (text + "\n{q}")[0] == 'm' && "query"[0] == 'q';
    }
  }

  /** So a document with clean leading comments whose first token is mutation, subscription, fragment
      or anything else that opens no query is never taken for a query. */
  lemma CleanDocumentsAreSafe(doc: string)
    requires LeadIsClean(TrimLeft(doc, Trimmed)) && !StartsQuery(doc)
    ensures !Retryable(doc)
  {
    if Retryable(doc) {
      RetryableStartsQueryIff(doc);
    }
  }

  /** Without leading comments the gate asks for a query token and, after `query`, for a space, a tab, a
      line end, a parenthesis, a brace or an at sign: both directions. */
  lemma GateWithoutComments(doc: string)
    requires TrimLeft(doc, Trimmed) == [] || TrimLeft(doc, Trimmed)[0] != '#'
    ensures var text := SkipIgnored(doc);
            Retryable(doc) <==>
              StartsQuery(doc) && (text[0] == '{' || |text| == 5 || text[5] in {' ', '\t', '\r', '\n', '(', '{', '@'})
  {
    TrimIsLexing(doc);
  }

  /** So the queries that the gate refuses, without leading comments, are those whose Name `query` is
      followed at once by anything else: a comma, a comment, a quote. */
  lemma RefusedQueryIff(doc: string)
    requires TrimLeft(doc, Trimmed) == [] || TrimLeft(doc, Trimmed)[0] != '#'
    ensures var text := SkipIgnored(doc);
            StartsQuery(doc) && !Retryable(doc) <==>
              StartsWithName(text, "query") && |text| > 5 && text[5] !in {' ', '\t', '\r', '\n', '(', '{', '@'}
  {
    GateWithoutComments(doc);
    if StartsWithName(SkipIgnored(doc), "query") {
      assert SkipIgnored(doc)[0] == "query"[0];
    }
  }

  /** unicode.IsSpace by code points. */
  lemma SpaceByCode(c: char)
    ensures Space(c) <==>
              var n := c as int;
              || 9 <= n <= 13 || n in {32, 133, 160, 5760, 8232, 8233, 8239, 8287, 12288} || 8192 <= n <= 8202
  {
  }

  // ----- the documents that pass -----

  /** Leading comments: each line with the white space that follows it. */
  function Lead(lines: seq<(string, string)>): string {
    if lines == [] then [] else "#" + lines[0].0 + "\n" + (lines[0].1 + Lead(lines[1..]))
  }

  /** What opens a query for the gate. */
  predicate Opener(text: string) {
    && text != []
    && (text[0] == '{' || ("query" <= text && (|text| == 5 || text[5] in {' ', '\t', '\r', '\n', '(', '{', '@'})))
  }

  lemma {:induction false} TrimLeftStops(blank: string, rest: string, drop: char -> bool)
    requires (forall i :: 0 <= i < |blank| ==> drop(blank[i])) && rest != [] && !drop(rest[0])
    ensures TrimLeft(blank + rest, drop) == rest
  {
    if blank == [] {
      assert blank + rest == rest;
    } else {
      assert (blank + rest)[1..] == blank[1..] + rest;
      TrimLeftStops(blank[1..], rest, drop);
    }
  }

  lemma {:induction false} TrimRightStops(u: string, v: string)
    requires v != [] && !Space(v[0])
    ensures TrimRight(v, Space) != [] && TrimRight(v, Space) <= v && TrimRight(u + v, Space) == u + TrimRight(v, Space)
    ensures |TrimRight(v, Space)| < |v| ==> Space(v[|TrimRight(v, Space)|])
  {
    if Space(v[|v| - 1]) {
      assert (u + v)[..|u + v| - 1] == u + v[..|v| - 1];
      TrimRightStops(u, v[..|v| - 1]);
    }
  }

  lemma OpenerIsNoSpace(text: string)
    requires Opener(text)
    ensures !Space(text[0]) && !Trimmed(text[0]) && text[0] != '#'
  {
    assert text[0] == '{' || text[0] == "query"[0];
  }

  lemma OpenerSurvivesTrim(text: string)
    requires Opener(text)
    ensures Opener(TrimRight(text, Space))
  {
    OpenerIsNoSpace(text);
    TrimRightStops([], text);
    var r := TrimRight(text, Space);
    if "query" <= text {
      assert forall i :: 0 <= i < 5 ==> text[i] == "query"[i] && !Space("query"[i]);
      assert r[..5] == text[..5];
    }
  }

  lemma {:induction false} LeadPasses(lines: seq<(string, string)>, text: string)
    requires forall l :: l in lines ==> '\n' !in l.0 && AllSpace(l.1)
    requires Opener(text)
    ensures Opens(SkipComments(Lead(lines) + text))
    decreases |lines|
  {
    OpenerIsNoSpace(text);
    if lines == [] {
      assert Lead(lines) + text == text;
    } else {
      var line, indent, rest := lines[0].0, lines[0].1, Lead(lines[1..]) + text;
      var trimmed := TrimRight(text, Space);
      assert Lead(lines) + text == "#" + line + "\n" + (indent + rest);
      AfterLineSkips("#" + line, indent + rest);
      TrimLeftStops(indent, rest, Space);
      TrimRightStops(Lead(lines[1..]), text);
      OpenerSurvivesTrim(text);
      LeadPasses(lines[1..], trimmed);
      assert TrimSpace(indent + rest) == Lead(lines[1..]) + trimmed;
    }
  }

  /** The gate is complete for queries written in the usual way: any blanks, any number of comment lines
      with any white space after each, and then a brace or the Name `query` with its delimiter. Every
      such document may be sent again. */
  lemma UsualQueriesPass(blank: string, lines: seq<(string, string)>, text: string)
    requires forall i :: 0 <= i < |blank| ==> blank[i] in {'\U{FEFF}', ',', ' ', '\t', '\r', '\n'}
    requires forall l :: l in lines ==> '\n' !in l.0 && AllSpace(l.1)
    requires Opener(text)
    ensures Retryable(blank + (Lead(lines) + text))
  {
    OpenerIsNoSpace(text);
    TrimLeftStops(blank, Lead(lines) + text, Trimmed);
    LeadPasses(lines, text);
  }

  /** A comment line before a document changes nothing about the decision. */
  lemma CommentLineChangesNothing(line: string, doc: string)
    requires '\n' !in line && TrimSpace(doc) == doc == TrimLeft(doc, Trimmed)
    ensures Retryable("#" + line + "\n" + doc) <==> Retryable(doc)
  {
    AfterLineSkips("#" + line, doc);
    var long := "#" + line + "\n" + doc;
    assert long[0] == '#';
    assert TrimLeft(long, Trimmed) == long;
    assert SkipComments(long) == SkipComments(doc);
  }
}
