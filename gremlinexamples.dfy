/**
 * Worked examples of the query parser: the query of the source's own test, taken
 * apart step by step, and a nested call.
 */
module GremlinParserExamples {
  import opened Wrappers
  import opened GremlinParser

  /*
   * The query
   *   i = g.V().has( 'name', 'New York' ).out( 'connects' ).has( 'name', 'Boulder' ).values( 'companies' )
   * as the tokenizer delivers it, from the encoding token to the end marker, cut
   * where the scan finishes a step.
   */

  const QueryStart: seq<Token> :=
    [Other("utf-8"), Name("i"), Op("="), Name("g"), Op("."), Name("V"), Op("("), Op(")")]
  const QueryHasNewYork: seq<Token> :=
    [Op("."), Name("has"), Op("("), Str("'name'"), Op(","), Str("'New York'"), Op(")")]
  const QueryOut: seq<Token> :=
    [Op("."), Name("out"), Op("("), Str("'connects'"), Op(")")]
  const QueryHasBoulder: seq<Token> :=
    [Op("."), Name("has"), Op("("), Str("'name'"), Op(","), Str("'Boulder'"), Op(")")]
  const QueryValues: seq<Token> :=
    [Op("."), Name("values"), Op("("), Str("'companies'"), Op(")"), Other(""), EndMarker]

  const ExampleQuery: seq<Token> :=
    QueryStart + (QueryHasNewYork + (QueryOut + (QueryHasBoulder + QueryValues)))

  lemma QueryStartScan(rest: seq<Token>)
    ensures Scan(QueryStart + rest, 0) ==
      Prefixed([Identifier("i"), Assign, Identifier("g"), Function("V", [], None)], Scan(rest, 0))
  {
    var q := QueryStart + rest;
    var i, g, v := [Identifier("i"), Assign], [Identifier("g")], [Function("V", [], None)];
    IdentifierStep(q, 0, 1);
    IdentifierStep(q, 3, 3);
    CallStep(q, 5, 5, 7);
    ScanSuffix(QueryStart, rest, 0);
    assert Scan(q, 0) == Prefixed(i, Prefixed(g, Prefixed(v, Scan(rest, 0))));
    PrefixedTwice(i, g, Prefixed(v, Scan(rest, 0)));
    PrefixedTwice(i + g, v, Scan(rest, 0));
    assert i + g + v == [Identifier("i"), Assign, Identifier("g"), Function("V", [], None)];
  }

  /** A call step of the query: `.<name>(<literals>)` followed by `rest`. */
  lemma QueryCallScan(segment: seq<Token>, rest: seq<Token>)
    requires |segment| >= 4 && segment[0] == Op(".") && segment[1].Name? && segment[2] == Op("(")
    requires segment[|segment| - 1] == Op(")")
    requires forall j :: 3 <= j < |segment| - 1 ==> !IsOp(segment[j], ')')
    ensures Scan(segment + rest, 0) ==
      Prefixed([Function(segment[1].text, Arguments(segment, 3, |segment| - 1), None)], Scan(rest, 0))
  {
    var q := segment + rest;
    var c := |segment| - 1;
    forall j | 3 <= j < c
      ensures !IsOp(q[j], ')')
    {
      assert q[j] == segment[j];
    }
    assert !StartsStep(q[0]);
    CallStep(q, 0, 1, c);
    ArgumentsPrefix(segment, rest, 3, c);
    ScanSuffix(segment, rest, 0);
  }

  lemma QueryHasNewYorkScan(rest: seq<Token>)
    ensures Scan(QueryHasNewYork + rest, 0) == Prefixed([Function("has", ["name", "New York"], None)], Scan(rest, 0))
  {
    QueryCallScan(QueryHasNewYork, rest);
    assert StripQuotes("'name'") == "name";
    assert StripQuotes("'New York'") == "New York";
    assert Arguments(QueryHasNewYork, 3, 6) == ["name", "New York"];
  }

  lemma QueryOutScan(rest: seq<Token>)
    ensures Scan(QueryOut + rest, 0) == Prefixed([Function("out", ["connects"], None)], Scan(rest, 0))
  {
    QueryCallScan(QueryOut, rest);
    assert StripQuotes("'connects'") == "connects";
    assert Arguments(QueryOut, 3, 4) == ["connects"];
  }

  lemma QueryHasBoulderScan(rest: seq<Token>)
    ensures Scan(QueryHasBoulder + rest, 0) == Prefixed([Function("has", ["name", "Boulder"], None)], Scan(rest, 0))
  {
    QueryCallScan(QueryHasBoulder, rest);
    assert StripQuotes("'name'") == "name";
    assert StripQuotes("'Boulder'") == "Boulder";
    assert Arguments(QueryHasBoulder, 3, 6) == ["name", "Boulder"];
  }

  lemma QueryValuesScan()
    ensures Scan(QueryValues, 0) == Success([Function("values", ["companies"], None)])
  {
    var q := QueryValues;
    assert StripQuotes("'companies'") == "companies";
    assert Arguments(q, 3, 4) == ["companies"];
    CallStep(q, 0, 1, 4);
    assert Scan(q, 5) == Success([]);
    assert [Function("values", ["companies"], None)] + [] == [Function("values", ["companies"], None)];
  }

  lemma ExampleNodesJoin()
    ensures [Identifier("i"), Assign, Identifier("g"), Function("V", [], None)]
      + ([Function("has", ["name", "New York"], None)]
      + ([Function("out", ["connects"], None)]
      + ([Function("has", ["name", "Boulder"], None)]
      + [Function("values", ["companies"], None)])))
      == [Identifier("i"), Assign, Identifier("g"),
        Function("V", [], None),
        Function("has", ["name", "New York"], None),
        Function("out", ["connects"], None),
        Function("has", ["name", "Boulder"], None),
        Function("values", ["companies"], None)]
  {
  }

  /** The example query parses into the assignment, the traversal source and its five steps. */
  lemma ExampleQueryParses(query: seq<Token>)
    requires query == ExampleQuery
    ensures Scan(query, 0) == Success([
      Identifier("i"), Assign, Identifier("g"),
      Function("V", [], None),
      Function("has", ["name", "New York"], None),
      Function("out", ["connects"], None),
      Function("has", ["name", "Boulder"], None),
      Function("values", ["companies"], None)])
  {
    var t4 := QueryHasBoulder + QueryValues;
    var t3 := QueryOut + t4;
    var t2 := QueryHasNewYork + t3;
    var values := [Function("values", ["companies"], None)];
    var hasBoulder := [Function("has", ["name", "Boulder"], None)] + values;
    var out := [Function("out", ["connects"], None)] + hasBoulder;
    var hasNewYork := [Function("has", ["name", "New York"], None)] + out;
    var start := [Identifier("i"), Assign, Identifier("g"), Function("V", [], None)];
    QueryValuesScan();
    QueryHasBoulderScan(QueryValues);
    assert Scan(t4, 0) == Success(hasBoulder);
    QueryOutScan(t4);
    assert Scan(t3, 0) == Success(out);
    QueryHasNewYorkScan(t3);
    assert Scan(t2, 0) == Success(hasNewYork);
    QueryStartScan(t2);
    assert query == QueryStart + t2;
    var all := start + hasNewYork;
    assert Scan(query, 0) == Success(all);
    ExampleNodesJoin();
  }

  /**
   * A call nested in another's arguments does not become a node of its own: in
   * `repeat(out('x'))` the inner name is skipped, its literal goes to `repeat`, and the
   * outer `)` is skipped after the inner one closed the argument list.
   */
  lemma NestedCallFlattened()
    ensures Scan([Name("repeat"), Op("("), Name("out"), Op("("), Str("'x'"), Op(")"), Op(")"), EndMarker], 0)
      == Success([Function("repeat", ["x"], None)])
  {
    var q := [Name("repeat"), Op("("), Name("out"), Op("("), Str("'x'"), Op(")"), Op(")"), EndMarker];
    assert Scan(q, 6) == Success([]);
    assert ClosingParen(q, 2) == Some(5);
    assert Arguments(q, 2, 4) == [];
    assert StripQuotes("'x'") == "x";
    assert Arguments(q, 2, 5) == ["x"];
    assert ScanStep(q, 0) == Prefixed([Function("repeat", ["x"], None)], Scan(q, 6));
    assert [Function("repeat", ["x"], None)] + [] == [Function("repeat", ["x"], None)];
  }
}
