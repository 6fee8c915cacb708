/**
 * The query parser: a single left-to-right scan over the query's token stream that
 * appends to a flat list of nodes. A name followed by `(` becomes a function node whose
 * arguments are the string and number literals up to the first `)`; a name followed by
 * `.` becomes an identifier node; a name followed by `=` becomes an identifier node and
 * an assignment node. The scan ends at the end marker; running out of tokens first is
 * a failure.
 *
 * The tokenizer is not part of this model: the scan takes the tokens it would produce.
 */
module GremlinParser {
  import opened Wrappers

  /** A token of the query text: its type and its text. */
  datatype Token =
    | Name(text: string)
    | Op(text: string)
      /** A string literal, its quotes included. */
    | Str(text: string)
    | Num(text: string)
    | EndMarker
      /** Any other token type: encoding, newline, comment and the like. */
    | Other(text: string)

  /** The token stream ran out while the scan still asked for a token. */
  datatype ParseError = TokensExhausted

  /** A node of the parsed query. */
  datatype GremlinNode =
    | Identifier(identifierName: string)
    | Assign
    | Function(functionName: string, argumentList: seq<string>, calls: Option<GremlinNode>)

  /** Appends an argument to a function node; nothing else about the node changes. */
  function AddArgument(f: GremlinNode, argument: string): (r: GremlinNode)
    requires f.Function?
    ensures r.Function? && r.functionName == f.functionName && r.calls == f.calls
    ensures r.argumentList == f.argumentList + [argument]
  {
    f.(argumentList := f.argumentList + [argument])
  }

  /** Records the function a function node calls; only function nodes can be called. */
  function SetCalls(f: GremlinNode, calledFunction: GremlinNode): (r: GremlinNode)
    requires f.Function? && calledFunction.Function?
    ensures r.Function? && r.functionName == f.functionName && r.argumentList == f.argumentList
    ensures r.calls == Some(calledFunction)
  {
    f.(calls := Some(calledFunction))
  }

  /** Whether `t` is the one-character operator `op`. */
  predicate IsOp(t: Token, op: char)
  {
    t.Op? && |t.text| == 1 && t.text[0] == op
  }

  /** The scan for the next step stops at a name or at the end marker. */
  predicate StartsStep(t: Token)
  {
    t.Name? || t.EndMarker?
  }

  /** A string literal's text without its first and last character. */
  function StripQuotes(s: string): (r: string)
    ensures |r| == if |s| >= 2 then |s| - 2 else 0
    ensures forall k :: 0 <= k < |r| ==> r[k] == s[k + 1]
  {
    if |s| >= 2 then s[1..|s| - 1] else ""
  }

  /** The argument a token inside a function's parentheses contributes: none or one. */
  function ArgumentOf(t: Token): (r: seq<string>)
    ensures |r| <= 1
    ensures |r| == 1 <==> t.Str? || t.Num?
  {
    match t
    case Str(s) => [StripQuotes(s)]
    case Num(s) => [s]
    case _ => []
  }

  /** The arguments the tokens from `lo` up to `hi` contribute, in order. */
  function Arguments(tokens: seq<Token>, lo: nat, hi: nat): (r: seq<string>)
    requires lo <= hi <= |tokens|
    decreases hi - lo
    ensures |r| <= hi - lo
  {
    if lo == hi then [] else Arguments(tokens, lo, hi - 1) + ArgumentOf(tokens[hi - 1])
  }

  /** The index of the first name or end marker at or after `pos`, if any. */
  function NextStepStart(tokens: seq<Token>, pos: nat): (r: Option<nat>)
    requires pos <= |tokens|
    decreases |tokens| - pos
    ensures r.Some? ==> pos <= r.value < |tokens| && StartsStep(tokens[r.value])
  {
    if pos == |tokens| then None
    else if StartsStep(tokens[pos]) then Some(pos)
    else NextStepStart(tokens, pos + 1)
  }

  /** The index of the first `)` at or after `pos`, if any. */
  function ClosingParen(tokens: seq<Token>, pos: nat): (r: Option<nat>)
    requires pos <= |tokens|
    decreases |tokens| - pos
    ensures r.Some? ==> pos <= r.value < |tokens| && IsOp(tokens[r.value], ')')
  {
    if pos == |tokens| then None
    else if IsOp(tokens[pos], ')') then Some(pos)
    else ClosingParen(tokens, pos + 1)
  }

  /** `NextStepStart` finds the first name or end marker. */
  lemma {:induction false} NextStepStartFinds(tokens: seq<Token>, pos: nat, i: nat)
    requires pos <= i < |tokens| && StartsStep(tokens[i])
    requires forall j :: pos <= j < i ==> !StartsStep(tokens[j])
    ensures NextStepStart(tokens, pos) == Some(i)
    decreases i - pos
  {
    if pos < i {
      NextStepStartFinds(tokens, pos + 1, i);
    }
  }

  lemma {:induction false} NextStepStartAbsent(tokens: seq<Token>, pos: nat)
    requires pos <= |tokens|
    requires forall j :: pos <= j < |tokens| ==> !StartsStep(tokens[j])
    ensures NextStepStart(tokens, pos) == None
    decreases |tokens| - pos
  {
    if pos < |tokens| {
      NextStepStartAbsent(tokens, pos + 1);
    }
  }

  /** `ClosingParen` finds the first `)`. */
  lemma {:induction false} ClosingParenFinds(tokens: seq<Token>, pos: nat, c: nat)
    requires pos <= c < |tokens| && IsOp(tokens[c], ')')
    requires forall j :: pos <= j < c ==> !IsOp(tokens[j], ')')
    ensures ClosingParen(tokens, pos) == Some(c)
    decreases c - pos
  {
    if pos < c {
      ClosingParenFinds(tokens, pos + 1, c);
    }
  }

  lemma {:induction false} ClosingParenAbsent(tokens: seq<Token>, pos: nat)
    requires pos <= |tokens|
    requires forall j :: pos <= j < |tokens| ==> !IsOp(tokens[j], ')')
    ensures ClosingParen(tokens, pos) == None
    decreases |tokens| - pos
  {
    if pos < |tokens| {
      ClosingParenAbsent(tokens, pos + 1);
    }
  }

  /** A scan result with `head` put in front of its nodes; a failure passes through. */
  function Prefixed(head: seq<GremlinNode>, result: Result<seq<GremlinNode>, ParseError>): Result<seq<GremlinNode>, ParseError>
  {
    match result
    case Success(nodes) => Success(head + nodes)
    case Failure(e) => Failure(e)
  }

  lemma PrefixedTwice(a: seq<GremlinNode>, b: seq<GremlinNode>, result: Result<seq<GremlinNode>, ParseError>)
    ensures Prefixed(a + b, result) == Prefixed(a, Prefixed(b, result))
  {
    if result.Success? {
      assert (a + b) + result.value == a + (b + result.value);
    }
  }

  /** The nodes the scan appends from `pos` on, or the failure it ends in. */
  function Scan(tokens: seq<Token>, pos: nat): (r: Result<seq<GremlinNode>, ParseError>)
    requires pos <= |tokens|
    decreases |tokens| - pos, 1
    ensures r.Success? ==> |r.value| <= |tokens| - pos
  {
    match NextStepStart(tokens, pos)
    case None => Failure(TokensExhausted)
    case Some(i) => ScanStep(tokens, i)
  }

  /** One step of the scan, from the name or end marker at `i`. */
  function ScanStep(tokens: seq<Token>, i: nat): (r: Result<seq<GremlinNode>, ParseError>)
    requires i < |tokens| && StartsStep(tokens[i])
    decreases |tokens| - i, 0
    ensures r.Success? ==> |r.value| <= |tokens| - i
  {
    if tokens[i].EndMarker? then Success([])
    else if i + 1 == |tokens| then Failure(TokensExhausted)
    else
      var name := tokens[i].text;
      var follow := tokens[i + 1];
      if IsOp(follow, '(') then
        match ClosingParen(tokens, i + 2)
        case None => Failure(TokensExhausted)
        case Some(c) =>
          var rest :- Scan(tokens, c + 1);
          Success([Function(name, Arguments(tokens, i + 2, c), None)] + rest)
      else
        var head :=
          if IsOp(follow, '.') then [Identifier(name)]
          else if IsOp(follow, '=') then [Identifier(name), Assign]
          else [];
        Prefixed(head, Scan(tokens, i + 2))
  }

  /** The arguments of two adjacent runs are those of the first followed by those of the second. */
  lemma {:induction false} ArgumentsAppend(tokens: seq<Token>, lo: nat, mid: nat, hi: nat)
    requires lo <= mid <= hi <= |tokens|
    ensures Arguments(tokens, lo, hi) == Arguments(tokens, lo, mid) + Arguments(tokens, mid, hi)
    decreases hi - mid
  {
    if mid < hi {
      ArgumentsAppend(tokens, lo, mid, hi - 1);
    }
  }

  /**
   * Collects the arguments of the function node last in `nodes`, up to and including
   * the first `)`. On success `r` is the position after that `)`; when the stream
   * runs out first, the node has collected every argument that was left.
   */
  method ProcessFunction(tokens: seq<Token>, pos: nat, nodes: seq<GremlinNode>)
    returns (r: Result<nat, ParseError>, out: seq<GremlinNode>)
    requires pos <= |tokens|
    requires nodes != [] && nodes[|nodes| - 1].Function?
    ensures var f := nodes[|nodes| - 1];
      match ClosingParen(tokens, pos)
      case Some(c) =>
        && r == Success(c + 1)
        && out == nodes[..|nodes| - 1] + [f.(argumentList := f.argumentList + Arguments(tokens, pos, c))]
      case None =>
        && r == Failure(TokensExhausted)
        && out == nodes[..|nodes| - 1] + [f.(argumentList := f.argumentList + Arguments(tokens, pos, |tokens|))]
  {
    var f := nodes[|nodes| - 1];
    var g := f;
    var i := pos;
    assert f.argumentList + [] == f.argumentList;
    while i < |tokens| && !IsOp(tokens[i], ')')
      invariant pos <= i <= |tokens|
      invariant forall j :: pos <= j < i ==> !IsOp(tokens[j], ')')
      invariant g == f.(argumentList := f.argumentList + Arguments(tokens, pos, i))
    {
      var t := tokens[i];
      ghost var before := f.argumentList + Arguments(tokens, pos, i);
      assert f.argumentList + Arguments(tokens, pos, i + 1) == before + ArgumentOf(t);
      if t.Str? {
        g := AddArgument(g, StripQuotes(t.text));
      } else if t.Num? {
        g := AddArgument(g, t.text);
      } else {
        assert before + ArgumentOf(t) == before;
      }
      i := i + 1;
    }
    out := nodes[..|nodes| - 1] + [g];
    if i == |tokens| {
      ClosingParenAbsent(tokens, pos);
      r := Failure(TokensExhausted);
    } else {
      ClosingParenFinds(tokens, pos, i);
      r := Success(i + 1);
    }
  }

  /**
   * Appends to `nodes` what the scan from `pos` produces: `r` is `nodes` followed by
   * the scanned nodes, or the scan's failure. Tokens before the next name or end
   * marker are skipped.
   */
  method Process(tokens: seq<Token>, pos: nat, nodes: seq<GremlinNode>)
    returns (r: Result<seq<GremlinNode>, ParseError>)
    requires pos <= |tokens|
    decreases |tokens| - pos, 1
    ensures r == Prefixed(nodes, Scan(tokens, pos))
  {
    var i := pos;
    while i < |tokens| && !StartsStep(tokens[i])
      invariant pos <= i <= |tokens|
      invariant forall j :: pos <= j < i ==> !StartsStep(tokens[j])
    {
      i := i + 1;
    }
    if i == |tokens| {
      NextStepStartAbsent(tokens, pos);
      return Failure(TokensExhausted);
    }
    NextStepStartFinds(tokens, pos, i);
    r := ProcessStep(tokens, i, nodes);
  }

  /**
   * One step of `Process`, from the name or end marker at `i`: the end marker ends
   * the scan; a name is looked at together with the token after it.
   */
  method ProcessStep(tokens: seq<Token>, i: nat, nodes: seq<GremlinNode>)
    returns (r: Result<seq<GremlinNode>, ParseError>)
    requires i < |tokens| && StartsStep(tokens[i])
    decreases |tokens| - i, 0
    ensures r == Prefixed(nodes, ScanStep(tokens, i))
  {
    if tokens[i].EndMarker? {
      assert nodes + [] == nodes;
      return Success(nodes);
    }
    var name := tokens[i].text;
    if i + 1 == |tokens| {
      return Failure(TokensExhausted);
    }
    var follow := tokens[i + 1];
    if IsOp(follow, '(') {
      var closed, out := ProcessFunction(tokens, i + 2, nodes + [Function(name, [], None)]);
      if closed.Failure? {
        return Failure(closed.error);
      }
      var c := closed.value - 1;
      ghost var head := [Function(name, Arguments(tokens, i + 2, c), None)];
      assert out == nodes + head by {
        assert (nodes + [Function(name, [], None)])[..|nodes|] == nodes;
        assert [] + Arguments(tokens, i + 2, c) == Arguments(tokens, i + 2, c);
      }
      PrefixedTwice(nodes, head, Scan(tokens, c + 1));
      r := Process(tokens, c + 1, out);
    } else {
      var out := nodes;
      if IsOp(follow, '.') || IsOp(follow, '=') {
        out := out + [Identifier(name)];
        if IsOp(follow, '=') {
          out := out + [Assign];
        }
      }
      ghost var head: seq<GremlinNode> :=
        if IsOp(follow, '.') then [Identifier(name)]
        else if IsOp(follow, '=') then [Identifier(name), Assign]
        else [];
      assert out == nodes + head;
      PrefixedTwice(nodes, head, Scan(tokens, i + 2));
      r := Process(tokens, i + 2, out);
    }
  }

  /** Parses a whole token stream into its list of nodes. */
  method Parse(tokens: seq<Token>) returns (r: Result<seq<GremlinNode>, ParseError>)
    ensures r == Scan(tokens, 0)
  {
    r := Process(tokens, 0, []);
    if r.Success? {
      assert [] + Scan(tokens, 0).value == Scan(tokens, 0).value;
    }
  }

  /** Every assignment node comes right after an identifier node. */
  predicate AssignsFollowIdentifiers(ns: seq<GremlinNode>)
  {
    forall k :: 0 <= k < |ns| && ns[k].Assign? ==> 0 < k && ns[k - 1].Identifier?
  }

  lemma AssignsFollowIdentifiersAppend(head: seq<GremlinNode>, rest: seq<GremlinNode>)
    requires AssignsFollowIdentifiers(head) && AssignsFollowIdentifiers(rest)
    ensures AssignsFollowIdentifiers(head + rest)
  {
    var ns := head + rest;
    forall k | 0 <= k < |ns| && ns[k].Assign?
      ensures 0 < k && ns[k - 1].Identifier?
    {
      if k >= |head| {
        assert rest[k - |head|].Assign?;
      }
    }
  }

  /** The scan produces an assignment node only right after the identifier it assigns. */
  lemma {:induction false} AssignFollowsIdentifier(tokens: seq<Token>, pos: nat)
    requires pos <= |tokens|
    ensures Scan(tokens, pos).Success? ==> AssignsFollowIdentifiers(Scan(tokens, pos).value)
    decreases |tokens| - pos
  {
    match NextStepStart(tokens, pos)
    case None =>
    case Some(i) =>
      if !tokens[i].EndMarker? && i + 1 < |tokens| {
        var name := tokens[i].text;
        var follow := tokens[i + 1];
        if IsOp(follow, '(') {
          match ClosingParen(tokens, i + 2)
          case None =>
          case Some(c) =>
            AssignFollowsIdentifier(tokens, c + 1);
            var rest := Scan(tokens, c + 1);
            if rest.Success? {
              AssignsFollowIdentifiersAppend([Function(name, Arguments(tokens, i + 2, c), None)], rest.value);
            }
        } else {
          AssignFollowsIdentifier(tokens, i + 2);
          var rest := Scan(tokens, i + 2);
          var head: seq<GremlinNode> :=
            if IsOp(follow, '.') then [Identifier(name)]
            else if IsOp(follow, '=') then [Identifier(name), Assign]
            else [];
          if rest.Success? {
            AssignsFollowIdentifiersAppend(head, rest.value);
          }
        }
      }
  }

  /** Tokens in front of the next name or end marker are skipped without a trace. */
  lemma {:induction false} SkipsToNextStep(tokens: seq<Token>, pos: nat, i: nat)
    requires pos <= i <= |tokens|
    requires forall j :: pos <= j < i ==> !StartsStep(tokens[j])
    ensures Scan(tokens, pos) == Scan(tokens, i)
    decreases i - pos
  {
    if pos < i {
      SkipsToNextStep(tokens, pos + 1, i);
      assert NextStepStart(tokens, pos) == NextStepStart(tokens, pos + 1);
    }
  }

  /** An end marker reached before any name ends the scan, which then adds no node. */
  lemma EndMarkerBeforeName(tokens: seq<Token>, pos: nat, i: nat)
    requires pos <= i < |tokens| && tokens[i].EndMarker?
    requires forall j :: pos <= j < i ==> !StartsStep(tokens[j])
    ensures Scan(tokens, pos) == Success([])
  {
    NextStepStartFinds(tokens, pos, i);
  }

  /** A stream with no end marker left always runs out: the scan fails. */
  lemma {:induction false} ExhaustedWithoutEndMarker(tokens: seq<Token>, pos: nat)
    requires pos <= |tokens|
    requires forall j :: pos <= j < |tokens| ==> !tokens[j].EndMarker?
    ensures Scan(tokens, pos) == Failure(TokensExhausted)
    decreases |tokens| - pos
  {
    match NextStepStart(tokens, pos)
    case None =>
    case Some(i) =>
      if i + 1 < |tokens| {
        if IsOp(tokens[i + 1], '(') {
          match ClosingParen(tokens, i + 2)
          case None =>
          case Some(c) => ExhaustedWithoutEndMarker(tokens, c + 1);
        } else {
          ExhaustedWithoutEndMarker(tokens, i + 2);
        }
      }
  }

  /** The names a node carries: an identifier's or a function's name; an assignment has none. */
  function NodeName(n: GremlinNode): seq<string>
  {
    match n
    case Identifier(x) => [x]
    case Assign => []
    case Function(x, _, _) => [x]
  }

  function NodeNames(ns: seq<GremlinNode>): seq<string>
  {
    if ns == [] then [] else NodeName(ns[0]) + NodeNames(ns[1..])
  }

  /** The texts of the name tokens from `lo` to the end of the stream, in order. */
  function NameTexts(tokens: seq<Token>, lo: nat): seq<string>
    requires lo <= |tokens|
    decreases |tokens| - lo
  {
    if lo == |tokens| then []
    else (if tokens[lo].Name? then [tokens[lo].text] else []) + NameTexts(tokens, lo + 1)
  }

  /** `a` can be obtained from `b` by deleting elements. */
  predicate IsSubsequence(a: seq<string>, b: seq<string>)
    decreases |b|
  {
    a == [] || (b != [] && ((a[0] == b[0] && IsSubsequence(a[1..], b[1..])) || IsSubsequence(a, b[1..])))
  }

  lemma {:induction false} NodeNamesAppend(a: seq<GremlinNode>, b: seq<GremlinNode>)
    ensures NodeNames(a + b) == NodeNames(a) + NodeNames(b)
    decreases |a|
  {
    if a == [] {
      assert a + b == b;
    } else {
      assert (a + b)[1..] == a[1..] + b;
      NodeNamesAppend(a[1..], b);
    }
  }

  /** Name tokens in front of a stream can be skipped by a subsequence of it. */
  lemma {:induction false} SubsequenceOfLaterNames(a: seq<string>, tokens: seq<Token>, lo: nat, hi: nat)
    requires lo <= hi <= |tokens|
    requires IsSubsequence(a, NameTexts(tokens, hi))
    ensures IsSubsequence(a, NameTexts(tokens, lo))
    decreases hi - lo
  {
    if lo < hi {
      SubsequenceOfLaterNames(a, tokens, lo + 1, hi);
      var b := NameTexts(tokens, lo);
      if tokens[lo].Name? {
        assert b[1..] == NameTexts(tokens, lo + 1);
      } else {
        assert b == NameTexts(tokens, lo + 1);
      }
    }
  }

  /**
   * The names on the scanned nodes appear, in the same order, among the texts of the
   * stream's name tokens: the scan never invents or reorders a name.
   */
  lemma {:induction false} NamesInTokenOrder(tokens: seq<Token>, pos: nat)
    requires pos <= |tokens|
    ensures Scan(tokens, pos).Success? ==> IsSubsequence(NodeNames(Scan(tokens, pos).value), NameTexts(tokens, pos))
    decreases |tokens| - pos, 1
  {
    match NextStepStart(tokens, pos)
    case None =>
    case Some(i) =>
      var r := ScanStep(tokens, i);
      if r.Success? {
        NamesInStepTokenOrder(tokens, i);
        SubsequenceOfLaterNames(NodeNames(r.value), tokens, pos, i);
      }
  }

  lemma {:induction false} NamesInStepTokenOrder(tokens: seq<Token>, i: nat)
    requires i < |tokens| && StartsStep(tokens[i])
    ensures ScanStep(tokens, i).Success? ==> IsSubsequence(NodeNames(ScanStep(tokens, i).value), NameTexts(tokens, i))
    decreases |tokens| - i, 0
  {
    if !tokens[i].EndMarker? && i + 1 < |tokens| {
      var name := tokens[i].text;
      var follow := tokens[i + 1];
      var head: seq<GremlinNode>, next: nat;
      if IsOp(follow, '(') {
        match ClosingParen(tokens, i + 2)
        case None => return;
        case Some(c) =>
          head, next := [Function(name, Arguments(tokens, i + 2, c), None)], c + 1;
      } else {
        head := if IsOp(follow, '.') then [Identifier(name)]
          else if IsOp(follow, '=') then [Identifier(name), Assign]
          else [];
        next := i + 2;
      }
      assert ScanStep(tokens, i) == Prefixed(head, Scan(tokens, next));
      var rest := Scan(tokens, next);
      if rest.Success? {
        NamesInTokenOrder(tokens, next);
        var restNames := NodeNames(rest.value);
        NodeNamesAppend(head, rest.value);
        assert ScanStep(tokens, i).value == head + rest.value;
        if head == [] {
          assert NodeNames(head) + restNames == restNames;
          SubsequenceOfLaterNames(restNames, tokens, i, next);
        } else {
          assert NodeNames(head) == [name] by {
            if |head| == 2 {
              assert head[1..] == [Assign];
              assert NodeNames([Assign]) == NodeName(Assign) + NodeNames([]);
            }
          }
          var names := NameTexts(tokens, i);
          assert names[0] == name && names[1..] == NameTexts(tokens, i + 1);
          SubsequenceOfLaterNames(restNames, tokens, i + 1, next);
        }
      }
    }
  }

  /** Each argument of a call comes from a string or number literal between its parentheses. */
  lemma {:induction false} ArgumentsFromLiterals(tokens: seq<Token>, lo: nat, hi: nat)
    requires lo <= hi <= |tokens|
    ensures forall a :: a in Arguments(tokens, lo, hi) ==>
      exists j :: lo <= j < hi && a in ArgumentOf(tokens[j])
    decreases hi - lo
  {
    if lo < hi {
      ArgumentsFromLiterals(tokens, lo, hi - 1);
      var before, last := Arguments(tokens, lo, hi - 1), ArgumentOf(tokens[hi - 1]);
      forall a | a in before + last
        ensures exists j :: lo <= j < hi && a in ArgumentOf(tokens[j])
      {
        if a !in before {
          assert a in ArgumentOf(tokens[hi - 1]);
        }
      }
    }
  }

  /** Each string or number literal between a call's parentheses becomes one of its arguments. */
  lemma {:induction false} LiteralsBecomeArguments(tokens: seq<Token>, lo: nat, hi: nat)
    requires lo <= hi <= |tokens|
    ensures forall j :: lo <= j < hi && (tokens[j].Str? || tokens[j].Num?) ==>
      ArgumentOf(tokens[j])[0] in Arguments(tokens, lo, hi)
    ensures |Arguments(tokens, lo, hi)| <= hi - lo
    decreases hi - lo
  {
    if lo < hi {
      LiteralsBecomeArguments(tokens, lo, hi - 1);
      var before, last := Arguments(tokens, lo, hi - 1), ArgumentOf(tokens[hi - 1]);
      forall j | lo <= j < hi && (tokens[j].Str? || tokens[j].Num?)
        ensures ArgumentOf(tokens[j])[0] in before + last
      {
        var arg := ArgumentOf(tokens[j]);
        if j == hi - 1 {
          assert (before + last)[|before|] == arg[0];
        } else {
          assert arg[0] in before;
        }
      }
    }
  }

  /**
   * A name followed by anything other than `(`, `.` or `=` produces nothing, and the
   * token after it is consumed with it.
   */
  lemma StrayNameDropped(tokens: seq<Token>, i: nat)
    requires i + 1 < |tokens| && tokens[i].Name?
    requires !IsOp(tokens[i + 1], '(') && !IsOp(tokens[i + 1], '.') && !IsOp(tokens[i + 1], '=')
    ensures Scan(tokens, i) == Scan(tokens, i + 2)
  {
    assert Prefixed([], Scan(tokens, i + 2)) == Scan(tokens, i + 2) by {
      if Scan(tokens, i + 2).Success? {
        assert [] + Scan(tokens, i + 2).value == Scan(tokens, i + 2).value;
      }
    }
  }

  /**
   * A call step: after skipping to the name at `i`, a `(` right behind it opens an
   * argument list that the first `)` at `c` closes; the function node carries the
   * arguments in between, and the scan goes on after `c`.
   */
  lemma CallStep(tokens: seq<Token>, pos: nat, i: nat, c: nat)
    requires pos <= i && i + 2 <= c < |tokens|
    requires forall j :: pos <= j < i ==> !StartsStep(tokens[j])
    requires tokens[i].Name? && IsOp(tokens[i + 1], '(') && IsOp(tokens[c], ')')
    requires forall j :: i + 2 <= j < c ==> !IsOp(tokens[j], ')')
    ensures Scan(tokens, pos) == Prefixed([Function(tokens[i].text, Arguments(tokens, i + 2, c), None)], Scan(tokens, c + 1))
  {
    NextStepStartFinds(tokens, pos, i);
    ClosingParenFinds(tokens, i + 2, c);
  }

  /**
   * An identifier step: after skipping to the name at `i`, a `.` behind it gives an
   * identifier node, an `=` an identifier and an assignment node.
   */
  lemma IdentifierStep(tokens: seq<Token>, pos: nat, i: nat)
    requires pos <= i && i + 1 < |tokens|
    requires forall j :: pos <= j < i ==> !StartsStep(tokens[j])
    requires tokens[i].Name? && (IsOp(tokens[i + 1], '.') || IsOp(tokens[i + 1], '='))
    ensures Scan(tokens, pos) == Prefixed(
      if IsOp(tokens[i + 1], '.') then [Identifier(tokens[i].text)] else [Identifier(tokens[i].text), Assign],
      Scan(tokens, i + 2))
  {
    NextStepStartFinds(tokens, pos, i);
  }

  /** `t` holds `u` from position `d` on, and nothing after it. */
  predicate ShiftedBy(t: seq<Token>, u: seq<Token>, d: nat)
  {
    |t| == d + |u| && forall k {:trigger u[k]} :: 0 <= k < |u| ==> t[d + k] == u[k]
  }

  lemma {:induction false} NextStepStartShift(t: seq<Token>, u: seq<Token>, d: nat, k: nat)
    requires ShiftedBy(t, u, d) && k <= |u|
    ensures NextStepStart(t, d + k) ==
      match NextStepStart(u, k)
      case None => None
      case Some(i) => Some(d + i)
    decreases |u| - k
  {
    if k < |u| {
      assert t[d + k] == u[k];
      NextStepStartShift(t, u, d, k + 1);
    }
  }

  lemma {:induction false} ClosingParenShift(t: seq<Token>, u: seq<Token>, d: nat, k: nat, q: nat)
    requires ShiftedBy(t, u, d) && k <= |u| && q == d + k
    ensures ClosingParen(t, q) ==
      match ClosingParen(u, k)
      case None => None
      case Some(c) => Some(d + c)
    decreases |u| - k
  {
    if k < |u| {
      assert t[d + k] == u[k];
      ClosingParenShift(t, u, d, k + 1, q + 1);
    }
  }

  lemma {:induction false} ArgumentsShift(t: seq<Token>, u: seq<Token>, d: nat, lo: nat, hi: nat, tlo: nat, thi: nat)
    requires ShiftedBy(t, u, d) && lo <= hi <= |u| && tlo == d + lo && thi == d + hi
    ensures Arguments(t, tlo, thi) == Arguments(u, lo, hi)
    decreases hi - lo
  {
    if lo < hi {
      assert t[d + (hi - 1)] == u[hi - 1];
      assert t[thi - 1] == u[hi - 1];
      ArgumentsShift(t, u, d, lo, hi - 1, tlo, thi - 1);
    }
  }

  /**
   * The scan never looks back: scanning a stream from a position `p` inside a suffix
   * `u` of it gives what scanning `u` alone gives from the corresponding position `k`.
   */
  lemma {:induction false} ScanShift(t: seq<Token>, u: seq<Token>, d: nat, k: nat, p: nat)
    requires ShiftedBy(t, u, d) && k <= |u| && p == d + k
    ensures Scan(t, p) == Scan(u, k)
    decreases |u| - k, 2
  {
    NextStepStartShift(t, u, d, k);
    match NextStepStart(u, k)
    case None =>
    case Some(i) =>
      ScanStepShift(t, u, d, i, d + i);
  }

  lemma ShortStepUnfolds(tokens: seq<Token>, i: nat)
    requires i < |tokens| && StartsStep(tokens[i]) && (tokens[i].EndMarker? || i + 1 == |tokens|)
    ensures ScanStep(tokens, i) == if tokens[i].EndMarker? then Success([]) else Failure(TokensExhausted)
  {
  }

  lemma UnclosedStepUnfolds(tokens: seq<Token>, i: nat)
    requires i + 1 < |tokens| && tokens[i].Name? && IsOp(tokens[i + 1], '(')
    requires ClosingParen(tokens, i + 2) == None
    ensures ScanStep(tokens, i) == Failure(TokensExhausted)
  {
  }

  lemma CallStepUnfolds(tokens: seq<Token>, i: nat, c: nat)
    requires i + 1 < |tokens| && tokens[i].Name? && IsOp(tokens[i + 1], '(')
    requires ClosingParen(tokens, i + 2) == Some(c)
    ensures ScanStep(tokens, i) == Prefixed([Function(tokens[i].text, Arguments(tokens, i + 2, c), None)], Scan(tokens, c + 1))
  {
  }

  lemma NameStepUnfolds(tokens: seq<Token>, i: nat)
    requires i + 1 < |tokens| && tokens[i].Name? && !IsOp(tokens[i + 1], '(')
    ensures ScanStep(tokens, i) == Prefixed(
      if IsOp(tokens[i + 1], '.') then [Identifier(tokens[i].text)]
      else if IsOp(tokens[i + 1], '=') then [Identifier(tokens[i].text), Assign]
      else [],
      Scan(tokens, i + 2))
  {
  }

  lemma {:induction false} ScanStepShift(t: seq<Token>, u: seq<Token>, d: nat, i: nat, p: nat)
    requires ShiftedBy(t, u, d) && i < |u| && StartsStep(u[i]) && p == d + i
    ensures t[p] == u[i]
    ensures ScanStep(t, p) == ScanStep(u, i)
    decreases |u| - i, 1
  {
    assert t[d + i] == u[i];
    if u[i].EndMarker? || i + 1 == |u| {
      ShortStepUnfolds(t, p);
      ShortStepUnfolds(u, i);
    } else {
      assert t[d + (i + 1)] == u[i + 1];
      if IsOp(u[i + 1], '(') && ClosingParen(u, i + 2).Some? {
        CallStepShift(t, u, d, i, p);
      } else if IsOp(u[i + 1], '(') {
        ClosingParenShift(t, u, d, i + 2, p + 2);
        UnclosedStepUnfolds(t, p);
        UnclosedStepUnfolds(u, i);
      } else {
        ScanShift(t, u, d, i + 2, p + 2);
        NameStepUnfolds(t, p);
        NameStepUnfolds(u, i);
      }
    }
  }

  lemma {:induction false} CallStepShift(t: seq<Token>, u: seq<Token>, d: nat, i: nat, p: nat)
    requires ShiftedBy(t, u, d) && i + 1 < |u| && u[i].Name? && p == d + i
    requires IsOp(u[i + 1], '(') && ClosingParen(u, i + 2).Some?
    ensures ScanStep(t, p) == ScanStep(u, i)
    decreases |u| - i, 0
  {
    var c := ClosingParen(u, i + 2).value;
    var e := d + c;
    CallHeadShift(t, u, d, i, p, c, e);
    ScanShift(t, u, d, c + 1, e + 1);
    CallStepsAgree(t, p, e, u, i, c);
  }

  /** The head of a call step (name, parenthesis, closing parenthesis, arguments) moves with the shift. */
  lemma CallHeadShift(t: seq<Token>, u: seq<Token>, d: nat, i: nat, p: nat, c: nat, e: nat)
    requires ShiftedBy(t, u, d) && i + 1 < |u| && p == d + i
    requires ClosingParen(u, i + 2) == Some(c) && e == d + c
    ensures p + 1 < |t| && t[p] == u[i] && t[p + 1] == u[i + 1]
    ensures ClosingParen(t, p + 2) == Some(e)
    ensures Arguments(t, p + 2, e) == Arguments(u, i + 2, c)
  {
    assert t[p] == u[i] && t[p + 1] == u[i + 1] by {
      assert t[d + i] == u[i];
      assert t[d + (i + 1)] == u[i + 1];
    }
    assert ClosingParen(t, p + 2) == Some(e) by {
      ClosingParenShift(t, u, d, i + 2, p + 2);
    }
    assert Arguments(t, p + 2, e) == Arguments(u, i + 2, c) by {
      ArgumentsShift(t, u, d, i + 2, c, p + 2, e);
    }
  }

  /** Two call steps agree when their names, their arguments and what follows them do. */
  lemma CallStepsAgree(t: seq<Token>, p: nat, e: nat, u: seq<Token>, i: nat, c: nat)
    requires p + 1 < |t| && t[p].Name? && IsOp(t[p + 1], '(') && ClosingParen(t, p + 2) == Some(e)
    requires i + 1 < |u| && u[i].Name? && IsOp(u[i + 1], '(') && ClosingParen(u, i + 2) == Some(c)
    requires t[p].text == u[i].text && Arguments(t, p + 2, e) == Arguments(u, i + 2, c)
    requires Scan(t, e + 1) == Scan(u, c + 1)
    ensures ScanStep(t, p) == ScanStep(u, i)
  {
    CallStepUnfolds(t, p, e);
    CallStepUnfolds(u, i, c);
  }

  /** In particular, what follows a stream's prefix is scanned as if the prefix were not there. */
  lemma ScanSuffix(a: seq<Token>, b: seq<Token>, k: nat)
    requires k <= |b|
    ensures Scan(a + b, |a| + k) == Scan(b, k)
  {
    assert ShiftedBy(a + b, b, |a|);
    ScanShift(a + b, b, |a|, k, |a| + k);
  }

  lemma {:induction false} ArgumentsPrefix(a: seq<Token>, b: seq<Token>, lo: nat, hi: nat)
    requires lo <= hi <= |a|
    ensures Arguments(a + b, lo, hi) == Arguments(a, lo, hi)
    decreases hi - lo
  {
    if lo < hi {
      assert (a + b)[hi - 1] == a[hi - 1];
      ArgumentsPrefix(a, b, lo, hi - 1);
    }
  }
}
