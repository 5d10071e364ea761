/** Which operation of a document a server executes, by the GraphQL specification of October 2021, and
    whether it is the one that the replay gate has looked at. Section 2 gives the tokens and the
    definitions, and GetOperation of section 6.1 the selection. */
module OperationSelection {
  import opened Wrappers
  import opened ReplayGate

  /** A punctuator, a Name, or a number or string. */
  datatype Token = Mark(mark: char) | Name(text: string) | Value

  predicate NameStart(c: char) { NameContinue(c) && !('0' <= c <= '9') }

  predicate IsName(name: string) {
    name != [] && NameStart(name[0]) && forall i :: 0 <= i < |name| ==> NameContinue(name[i])
  }

  /** The longest run of name characters at the start. */
  function TakeName(text: string): (r: string)
    ensures |r| <= |text|
    ensures text != [] && NameContinue(text[0]) ==> r != []
  {
    if text != [] && NameContinue(text[0]) then [text[0]] + TakeName(text[1..]) else []
  }

  /** The rest after a string whose opening quote has been read. */
  function SkipString(text: string): (r: string)
    ensures |r| <= |text|
  {
    if text == [] then []
    else if text[0] == '"' then text[1..]
    else if text[0] == '\\' && |text| > 1 then SkipString(text[2..])
    else SkipString(text[1..])
  }

  /** The rest after a block string whose opening quotes have been read. */
  function SkipBlock(text: string): (r: string)
    ensures |r| <= |text|
  {
    if text == [] then []
    else if "\\\"\"\"" <= text then SkipBlock(text[4..])
    else if "\"\"\"" <= text then text[3..]
    else SkipBlock(text[1..])
  }

  /** The rest after a number whose first character has been read. */
  function SkipNumber(text: string): (r: string)
    ensures |r| <= |text|
  {
    if |text| > 1 && (text[0] == 'e' || text[0] == 'E') && (text[1] == '+' || text[1] == '-') then SkipNumber(text[2..])
    else if text != [] && (NameContinue(text[0]) || text[0] == '.') then SkipNumber(text[1..])
    else text
  }

  /** The tokens of a document. */
  function Tokens(doc: string): seq<Token>
    decreases |doc|
  {
    var text := SkipIgnored(doc);
    if text == [] then []
    else if NameStart(text[0]) then [Name(TakeName(text))] + Tokens(text[|TakeName(text)|..])
    else if text[0] == '"' then
      [Value] + Tokens(if "\"\"\"" <= text then SkipBlock(text[3..]) else SkipString(text[1..]))
    else if text[0] == '-' || '0' <= text[0] <= '9' then [Value] + Tokens(SkipNumber(text[1..]))
    else [Mark(text[0])] + Tokens(text[1..])
  }

  function Nesting(t: Token, depth: nat): nat {
    if t == Mark('{') || t == Mark('(') || t == Mark('[') then depth + 1
    else if (t == Mark('}') || t == Mark(')') || t == Mark(']')) && depth > 0 then depth - 1
    else depth
  }

  /** How many tokens belong to the first definition: those up to the brace that closes it. */
  function DefinitionLength(ts: seq<Token>, depth: nat): (n: nat)
    ensures n <= |ts| && (ts != [] ==> n > 0)
  {
    if ts == [] then 0
    else if ts[0] == Mark('}') && Nesting(ts[0], depth) == 0 then 1
    else 1 + DefinitionLength(ts[1..], Nesting(ts[0], depth))
  }

  datatype OperationType = Query | Mutation | Subscription

  datatype Operation = Operation(kind: OperationType, name: Option<string>)

  /** The operation that a definition defines, if it is not a fragment. */
  function OperationOf(def: seq<Token>): Option<Operation>
    requires def != []
  {
    var name := if |def| > 1 && def[1].Name? then Some(def[1].text) else None;
    if def[0] == Mark('{') then Some(Operation(Query, None))
    else if def[0] == Name("query") then Some(Operation(Query, name))
    else if def[0] == Name("mutation") then Some(Operation(Mutation, name))
    else if def[0] == Name("subscription") then Some(Operation(Subscription, name))
    else None
  }

  /** The operations of a document, in order. */
  function Operations(ts: seq<Token>): seq<Operation>
    decreases |ts|
  {
    if ts == [] then []
    else
      var n := DefinitionLength(ts, 0);
      var op := OperationOf(ts[..n]);
      (if op.Some? then [op.value] else []) + Operations(ts[n..])
  }

  /** The first operation of that name. */
  function Named(ops: seq<Operation>, name: string): (r: Option<Operation>)
    ensures r.Some? ==> r.value in ops && r.value.name == Some(name)
  {
    if ops == [] then None else if ops[0].name == Some(name) then Some(ops[0]) else Named(ops[1..], name)
  }

  /** The operation that a request asks for: the only one when it names none. */
  function Selected(doc: string, operationName: string): Option<Operation> {
    var ops := Operations(Tokens(doc));
    if operationName != "" then Named(ops, operationName) else if |ops| == 1 then Some(ops[0]) else None
  }

  // ----- the first token -----

  lemma {:induction false} TakesWholeName(text: string, name: string)
    requires forall i :: 0 <= i < |name| ==> NameContinue(name[i])
    ensures TakeName(text) == name <==> StartsWithName(text, name)
  {
    if name == [] {
    } else if text != [] && NameContinue(text[0]) {
      TakesWholeName(text[1..], name[1..]);
      assert TakeName(text) == [text[0]] + TakeName(text[1..]);
      if TakeName(text) == name {
        assert name[1..] == TakeName(text[1..]) && name == [name[0]] + name[1..];
      }
      if StartsWithName(text, name) {
        assert text[0] == name[0] && name[1..] <= text[1..];
        assert name == [name[0]] + name[1..];
      }
    }
  }

  /** A document that starts with a query, by its first token, has a query for its first operation. */
  lemma StartsQueryIff(doc: string)
    ensures StartsQuery(doc) <==>
              Tokens(doc) != [] && (Tokens(doc)[0] == Mark('{') || Tokens(doc)[0] == Name("query"))
  {
    var text := SkipIgnored(doc);
    assert forall i :: 0 <= i < 5 ==> NameContinue("query"[i]);
    TakesWholeName(text, "query");
    if StartsWithName(text, "query") {
      assert text[0] == "query"[0];
    }
  }

  lemma FirstOperationIsQuery(doc: string)
    requires StartsQuery(doc)
    ensures Operations(Tokens(doc)) != [] && Operations(Tokens(doc))[0].kind == Query
  {
    StartsQueryIff(doc);
    var ts := Tokens(doc);
    assert ts[..DefinitionLength(ts, 0)][0] == ts[0];
  }

  // ----- the operation that is executed -----

  /** For a document whose first token opens a query, the operation that is executed is a query exactly
      when the request names no operation, or names the first one, or a later one of that name is a
      query too. The gate has looked at the first only. */
  lemma SelectedIsQueryIff(doc: string, operationName: string)
    requires StartsQuery(doc) && Selected(doc, operationName).Some?
    ensures var ops := Operations(Tokens(doc));
            && ops != []
            && (Selected(doc, operationName).value.kind == Query <==>
                  || operationName == ""
                  || ops[0].name == Some(operationName)
                  || (Named(ops[1..], operationName).Some? && Named(ops[1..], operationName).value.kind == Query))
  {
    FirstOperationIsQuery(doc);
  }

  /** So a request for a document with clean leading comments that passes the gate executes a query, if
      the document holds no other operation or the request names the first. */
  lemma ReplayedRequestIsQuery(doc: string, operationName: string)
    requires Retryable(doc) && LeadIsClean(TrimLeft(doc, Trimmed)) && Selected(doc, operationName).Some?
    requires var ops := Operations(Tokens(doc));
             operationName == "" || |ops| == 1 || (ops != [] && ops[0].name == Some(operationName))
    ensures Selected(doc, operationName).value.kind == Query
  {
    RetryableStartsQueryIff(doc);
    SelectedIsQueryIff(doc, operationName);
  }

  // ----- a second operation -----

  lemma NameToken(name: string, rest: string)
    requires IsName(name) && (rest == [] || !NameContinue(rest[0]))
    ensures Tokens(name + rest) == [Name(name)] + Tokens(rest)
  {
    var text := name + rest;
    assert text[0] == name[0];
    assert SkipIgnored(text) == text;
    TakesWholeName(text, name);
    assert rest != [] ==> text[|name|] == rest[0];
    assert text[|name|..] == rest;
  }

  lemma MarkToken(c: char, rest: string)
    requires c == '{' || c == '}'
    ensures Tokens([c] + rest) == [Mark(c)] + Tokens(rest)
  {
    assert ([c] + rest)[1..] == rest;
    assert SkipIgnored([c] + rest) == [c] + rest;
  }

  lemma SpaceIsNoToken(rest: string)
    ensures Tokens(" " + rest) == Tokens(rest)
  {
    assert (" " + rest)[0] == " "[0] && (" " + rest)[1..] == rest;
    assert SkipIgnored(" " + rest) == SkipIgnored(rest);
  }

  /** `{field}`, and what follows it. */
  function SelectionText(field: string, rest: string): string {
    "{" + (field + ("}" + rest))
  }

  lemma SelectionTokens(field: string, rest: string)
    requires IsName(field)
    ensures Tokens(SelectionText(field, rest)) == [Mark('{'), Name(field), Mark('}')] + Tokens(rest)
    ensures SelectionText(field, rest)[0] == '{'
  {
    MarkToken('}', rest);
    NameToken(field, "}" + rest);
    MarkToken('{', field + ("}" + rest));
  }

  /** ` name`, and the selection that follows it. */
  function NamedText(name: string, selection: string): string {
    " " + (name + selection)
  }

  lemma NamedTokens(name: string, selection: string)
    requires IsName(name) && selection != [] && selection[0] == '{'
    ensures Tokens(NamedText(name, selection)) == [Name(name)] + Tokens(selection)
    ensures NamedText(name, selection)[0] == ' '
  {
    NameToken(name, selection);
    SpaceIsNoToken(name + selection);
  }

  /** `keyword name`, and the selection that follows it. */
  function OperationText(keyword: string, name: string, selection: string): string {
    keyword + NamedText(name, selection)
  }

  lemma OperationTokens(keyword: string, name: string, selection: string)
    requires IsName(keyword) && IsName(name) && selection != [] && selection[0] == '{'
    ensures Tokens(OperationText(keyword, name, selection)) == [Name(keyword)] + ([Name(name)] + Tokens(selection))
  {
    NamedTokens(name, selection);
    NameToken(keyword, NamedText(name, selection));
  }

  /** The tokens of `keyword name{field}`. */
  function DefinitionTokens(keyword: string, name: string, field: string): seq<Token> {
    [Name(keyword), Name(name), Mark('{'), Name(field), Mark('}')]
  }

  /** Such an operation is a definition of its own. */
  lemma OperationsSplit(keyword: string, name: string, field: string, rest: seq<Token>)
    requires OperationOf(DefinitionTokens(keyword, name, field)).Some?
    ensures Operations(DefinitionTokens(keyword, name, field) + rest) ==
              [OperationOf(DefinitionTokens(keyword, name, field)).value] + Operations(rest)
  {
    var def := DefinitionTokens(keyword, name, field);
    var ts := def + rest;
    assert ts[4..][0] == Mark('}') && ts[3..][0] == Name(field) && ts[2..][0] == Mark('{') && ts[1..][0] == Name(name);
    assert ts[3..][1..] == ts[4..] && ts[2..][1..] == ts[3..] && ts[1..][1..] == ts[2..];
    assert DefinitionLength(ts[4..], 1) == 1;
    assert DefinitionLength(ts[3..], 1) == 2;
    assert DefinitionLength(ts[2..], 0) == 3;
    assert DefinitionLength(ts[1..], 0) == 4;
    assert DefinitionLength(ts, 0) == 5;
    assert ts[..5] == def && ts[5..] == rest;
  }

  lemma TextTokens(keyword: string, name: string, field: string, rest: string)
    requires IsName(keyword) && IsName(name) && IsName(field)
    ensures Tokens(OperationText(keyword, name, SelectionText(field, rest))) ==
              DefinitionTokens(keyword, name, field) + Tokens(rest)
  {
    SelectionTokens(field, rest);
    OperationTokens(keyword, name, SelectionText(field, rest));
    assert [Name(keyword)] + ([Name(name)] + ([Mark('{'), Name(field), Mark('}')] + Tokens(rest))) ==
           DefinitionTokens(keyword, name, field) + Tokens(rest);
  }

  lemma KeywordsAreNames()
    ensures IsName("query") && IsName("mutation") && IsName("a") && IsName("b")
  {
  }

  /** `query first{a}mutation second{b}` */
  function TwoOperations(first: string, second: string): string {
    OperationText("query", first, SelectionText("a", OperationText("mutation", second, SelectionText("b", ""))))
  }

  lemma TwoOperationsPass(first: string, rest: string)
    ensures var doc := OperationText("query", first, rest);
            TrimLeft(doc, Trimmed) == doc && Retryable(doc) && LeadIsClean(doc) && StartsQuery(doc)
  {
    var doc := OperationText("query", first, rest);
    assert doc[0] == "query"[0] && doc[..5] == "query" && doc[5] == " "[0];
    assert SkipIgnored(doc) == doc;
  }

  lemma TokensOfTwo(first: string, second: string)
    requires IsName(first) && IsName(second)
    ensures Tokens(TwoOperations(first, second)) ==
              DefinitionTokens("query", first, "a") + (DefinitionTokens("mutation", second, "b") + [])
  {
    KeywordsAreNames();
    TextTokens("mutation", second, "b", "");
    TextTokens("query", first, "a", OperationText("mutation", second, SelectionText("b", "")));
  }

  lemma OperationsOfTwo(first: string, second: string)
    requires first != second
    ensures var ops := Operations(DefinitionTokens("query", first, "a") +
              (DefinitionTokens("mutation", second, "b") + []));
            && ops == [Operation(Query, Some(first)), Operation(Mutation, Some(second))]
            && Named(ops, second) == Some(ops[1])
  {
    OperationsSplit("mutation", second, "b", []);
    OperationsSplit("query", first, "a", DefinitionTokens("mutation", second, "b") + []);
    var ops := [Operation(Query, Some(first)), Operation(Mutation, Some(second))];
    assert ops[1..] == [Operation(Mutation, Some(second))];
  }

  /** The gate is blind to operations after the first. These documents pass it, start with a query and
      have no comments at all, but a request that names their second operation runs a mutation. */
  lemma SecondOperationIsMutation(first: string, second: string)
    requires IsName(first) && IsName(second) && first != second
    ensures var doc := TwoOperations(first, second);
            && Retryable(doc) && LeadIsClean(TrimLeft(doc, Trimmed)) && StartsQuery(doc)
            && Selected(doc, second) == Some(Operation(Mutation, Some(second)))
  {
    TwoOperationsPass(first, SelectionText("a", OperationText("mutation", second, SelectionText("b", ""))));
    TokensOfTwo(first, second);
    OperationsOfTwo(first, second);
  }
}
