/** `StructuredSearch`: one clause tree of a CloudSearch structured query, held
    as the list of rendered statements. Leaf clauses (`term`, `phrase`,
    `prefix`, `near`) are private and reached through `__call`, which escapes
    their string arguments; `range`, `matchall`, `qAnd`, `qOr` and `qNot` are
    public and embed their arguments as given. A closure block is modelled
    as the script of calls it makes on the fresh sub-builder it receives. */
module Clauses {
  import opened Wrappers
  import opened Php
  import opened Collections
  import opened Escaping
  import opened ClauseSyntax

  /** The exceptions and errors a clause tree can raise. */
  datatype Failure =
    | MethodMissing(name: string)     // `__call`: "Method doesn't exist"
    | TooFewArguments(name: string)   // a leaf called without its `$value`
    | EmptyBlock                      // `implode` over the `null` list of an empty tree
    | NotCallable                     // `qNot` calling an object that has no `__invoke`

  /** A value that is not a string: null, a boolean, an integer or an array. */
  type NonString = v: Value | !v.Str? witness Null

  /** The argument of `qAnd`, `qOr` and `qNot`. */
  datatype Block =
    | Closure(body: seq<Op>)          // a `Closure`
    | Invokable(body: seq<Op>)        // any other object with `__invoke`
    | Uncallable                      // an object without `__invoke`
    | Text(s: string)                 // a string
    | Other(v: NonString)             // any other value

  /** One call made on a builder. */
  datatype Op =
    | Call(name: string, args: seq<Value>)   // an inaccessible method, reached through `__call`;
                                             // PHP matches `name` whatever its case
    | Range(field: Value, min: Value, max: Value)
    | MatchAll
    | QAnd(block: Block)
    | QOr(block: Block)
    | QNot(block: Block)

  /** The private leaf methods `__call` can dispatch to, by their declared
      (lower-case) names. */
  predicate IsLeafMethod(name: string) {
    name == "term" || name == "phrase" || name == "prefix" || name == "near"
  }

  /** Positional argument `i`, or the parameter's default when not passed. */
  function ArgOr(args: seq<Value>, i: nat, default: Value): Value {
    if i < |args| then args[i] else default
  }

  /** The attributes of a leaf, bound from the arguments after `$value`, in
      rendering order; `near` defaults its distance to 3. */
  function LeafAttrs(name: string, args: seq<Value>): (r: seq<(string, Value)>)
    ensures |r| == (if name == "near" then 3 else 2) && r[0].0 == "field" && r[|r| - 1].0 == "boost"
    ensures name == "near" && |args| <= 2 ==> r[1] == ("distance", Int(3))
  {
    if name == "near" then [("field", ArgOr(args, 1, Null)), ("distance", ArgOr(args, 2, Int(3))), ("boost", ArgOr(args, 3, Null))]
    else [("field", ArgOr(args, 1, Null)), ("boost", ArgOr(args, 2, Null))]
  }

  /** `__call`'s rewriting of the whole argument list. */
  function EscapeAll(args: seq<Value>): (r: seq<Value>)
    ensures |r| == |args|
  {
    seq(|args|, i requires 0 <= i < |args| => EscapeArg(args[i]))
  }

  /** Binding escaped arguments is escaping the bound attributes: the
      defaults (null, 3) are not strings. */
  lemma LeafAttrsEscaped(name: string, args: seq<Value>)
    ensures LeafAttrs(name, EscapeAll(args)) == EscapeAttrs(LeafAttrs(name, args))
  {
    var e := EscapeAll(args);
    forall i: nat, d: Value | !d.Str?
      ensures ArgOr(e, i, d) == EscapeArg(ArgOr(args, i, d))
    {
    }
  }

  /** The statement a leaf call appends. */
  function LeafEntry(name: string, args: seq<Value>): (r: string)
    requires args != []
    ensures IsLeafMethod(name) ==> ReadsBackAs(r, name, args)
  {
    var e := EscapeAll(args);
    if IsLeafMethod(name) then
      LeafTextReadsBack(name, args);
      LeafText(name, LeafAttrs(name, e), e[0])
    else
      LeafText(name, LeafAttrs(name, e), e[0])
  }

  /** `entry` parses as the leaf `name` with the truthy attributes bound
      from `args` and the value `args[0]`, each as the caller passed it. */
  predicate ReadsBackAs(entry: string, name: string, args: seq<Value>)
    requires args != []
  {
    ParseLeaf(entry) == Some(Leaf(name, Present(LeafAttrs(name, args)), Interpolate(args[0])))
  }

  lemma LeafTextReadsBack(name: string, args: seq<Value>)
    requires IsLeafMethod(name) && args != []
    ensures ParseLeaf(LeafText(name, LeafAttrs(name, EscapeAll(args)), EscapeAll(args)[0]))
         == Some(Leaf(name, Present(LeafAttrs(name, args)), Interpolate(args[0])))
  {
    LeafWords(name, args);
    LeafAttrsEscaped(name, args);
    ParseLeafText(name, LeafAttrs(name, args), args[0]);
  }

  /** The leaf names and attribute names are plain words. */
  lemma LeafWords(name: string, args: seq<Value>)
    requires IsLeafMethod(name)
    ensures Word(name)
    ensures forall i | 0 <= i < |LeafAttrs(name, args)| :: Word(LeafAttrs(name, args)[i].0)
  {
    assert Word("field") && Word("distance") && Word("boost");
  }

  /** The statement a literal block appends, e.g. `(and 'S')`. */
  function TextEntry(keyword: string, s: string): string {
    "(" + keyword + " '" + s + "')"
  }

  /** The statement a closure block appends, e.g. `(and …)`. */
  function BlockEntry(keyword: string, entries: seq<string>): string {
    "(" + keyword + " " + Concat(entries) + ")"
  }

  /** What running a script leaves behind: the statements appended, in
      order, and whether it ran to the end or stopped on an error. */
  datatype Trace = Trace(entries: seq<string>, outcome: Outcome<Failure>)

  /** One call followed by the rest of a script. */
  function Step(first: Result<seq<string>, Failure>, rest: Trace): Trace {
    match first
    case Err(e) => Trace([], Fail(e))
    case Ok(es) => Trace(es + rest.entries, rest.outcome)
  }

  /** A script followed by another: the second runs only if the first passed. */
  function Then(t: Trace, u: Trace): Trace {
    if t.outcome.Fail? then t else Trace(t.entries + u.entries, u.outcome)
  }

  /** Runs a script: each call's statements in turn, stopping at the first
      failure with the statements appended before it. */
  function Exec(ops: seq<Op>): (t: Trace)
    ensures |t.entries| <= |ops|
    decreases ops
  {
    if ops == [] then Trace([], Pass) else Step(Apply(ops[0]), Exec(ops[1..]))
  }

  /** The statements one call appends, or its error. */
  function Apply(op: Op): (r: Result<seq<string>, Failure>)
    ensures r.Ok? ==> |r.value| <= 1
    decreases op
  {
    match op
    case Call(name, args) =>
      var leaf := Lower(name);
      if !IsLeafMethod(leaf) then Err(MethodMissing(name))
      else if args == [] then Err(TooFewArguments(leaf))
      else Ok([LeafEntry(leaf, args)])
    case Range(field, min, max) =>
      (match RangeBounds(min, max)
       case None => Ok([])
       case Some(b) => Ok([RangeText(field, b)]))
    case MatchAll => Ok(["(matchall)"])
    case QAnd(b) => Wrap("and", b, false)
    case QOr(b) => Wrap("or", b, false)
    case QNot(b) => Wrap("not", b, true)
  }

  /** `qAnd`, `qOr` (closures only) and `qNot` (any object): a block runs
      on a fresh builder and its statements become one entry; `qNot` fails
      on an object it cannot call; a string is embedded as a quoted literal
      without escaping; anything else adds nothing. */
  function Wrap(keyword: string, b: Block, anyObject: bool): (r: Result<seq<string>, Failure>)
    ensures r.Ok? ==> |r.value| <= 1
    decreases b
  {
    if b.Closure? || (b.Invokable? && anyObject) then
      var t := Exec(b.body);
      if t.outcome.Fail? then Err(t.outcome.error)
      else if t.entries == [] then Err(EmptyBlock)
      else Ok([BlockEntry(keyword, t.entries)])
    else if b.Uncallable? && anyObject then Err(NotCallable)
    else if b.Text? then Ok([TextEntry(keyword, b.s)])
    else Ok([])
  }

  /** `__toString`: the whole tree inside `(and …)`. */
  function Render(query: seq<string>): (r: Result<string, Failure>)
    ensures r.Err? <==> query == []
  {
    if query == [] then Err(EmptyBlock) else Ok(BlockEntry("and", query))
  }

  lemma StepThen(h: Result<seq<string>, Failure>, t: Trace, u: Trace)
    ensures Step(h, Then(t, u)) == Then(Step(h, t), u)
  {
    if h.Ok? && t.outcome.Pass? {
      assert h.value + (t.entries + u.entries) == h.value + t.entries + u.entries;
    }
  }

  /** Scripts compose: running `a + b` runs `a`, then `b` unless `a` failed;
      statements are only ever appended, never altered or reordered. */
  lemma {:induction false} ExecAppend(a: seq<Op>, b: seq<Op>)
    ensures Exec(a + b) == Then(Exec(a), Exec(b))
  {
    if a == [] {
      assert a + b == b;
    } else {
      assert (a + b)[0] == a[0];
      assert (a + b)[1..] == a[1..] + b;
      ExecAppend(a[1..], b);
      StepThen(Apply(a[0]), Exec(a[1..]), Exec(b));
    }
  }

  /** A script runs to the end exactly when none of its calls fails. */
  lemma {:induction false} ExecPasses(ops: seq<Op>)
    ensures Exec(ops).outcome.Pass? <==> forall i | 0 <= i < |ops| :: Apply(ops[i]).Ok?
  {
    if ops != [] {
      ExecPasses(ops[1..]);
      assert forall i | 1 <= i < |ops| :: ops[i] == ops[1..][i - 1];
    }
  }

  /** One more call of a script that has run so far without failing. */
  lemma ExecStep(ops: seq<Op>, i: int)
    requires 0 <= i < |ops| && Exec(ops[..i]).outcome.Pass?
    ensures Exec(ops[..i + 1]) == if Apply(ops[i]).Ok?
      then Trace(Exec(ops[..i]).entries + Apply(ops[i]).value, Pass)
      else Trace(Exec(ops[..i]).entries, Fail(Apply(ops[i]).error))
  {
    TakeOneMore(ops, i);
    ExecAppend(ops[..i], [ops[i]]);
    ExecSingle(ops[i]);
    AppendEmpty(Exec(ops[..i]).entries);
  }

  /** A script stops at its first failing call: what follows it never runs. */
  lemma ExecStops(a: seq<Op>, b: seq<Op>)
    requires Exec(a).outcome.Fail?
    ensures Exec(a + b) == Exec(a)
  {
    ExecAppend(a, b);
  }

  /** A script whose first `n` calls already fail runs as that prefix. */
  lemma ExecPrefixStops(ops: seq<Op>, n: int)
    requires 0 <= n <= |ops| && Exec(ops[..n]).outcome.Fail?
    ensures Exec(ops) == Exec(ops[..n])
  {
    SplitJoin(ops, n);
    ExecStops(ops[..n], ops[n..]);
  }

  lemma ExecSingle(op: Op)
    ensures Exec([op]) == if Apply(op).Ok? then Trace(Apply(op).value, Pass) else Trace([], Fail(Apply(op).error))
  {
    assert [op][1..] == [];
  }

  /** A call to a leaf method appends exactly one statement, and that
      statement reads back as the leaf's kind, its truthy attributes in
      rendering order and its value, whatever quotes or backslashes the
      arguments hold. */
  lemma LeafCallReadsBack(name: string, args: seq<Value>)
    requires IsLeafMethod(name) && args != []
    ensures Apply(Call(name, args)) == Ok([LeafEntry(name, args)])
    ensures ParseLeaf(LeafEntry(name, args))
         == Some(Leaf(name, Present(LeafAttrs(name, args)), Interpolate(args[0])))
  {
    LeafNameLower(name);
    LeafTextReadsBack(name, args);
  }

  /** The leaf names are written in lower case. */
  lemma LeafNameLower(name: string)
    requires IsLeafMethod(name)
    ensures Lower(name) == name
  {
    LowerKeeps(name);
  }

  /** `__call` rejects a name that is not a leaf method in any case, and a
      leaf called without its value. */
  lemma CallFailures(name: string, args: seq<Value>)
    ensures !IsLeafMethod(Lower(name)) ==> Apply(Call(name, args)) == Err(MethodMissing(name))
    ensures IsLeafMethod(Lower(name)) && args == [] ==> Apply(Call(name, args)) == Err(TooFewArguments(Lower(name)))
    ensures Apply(Call(name, args)).Ok? <==> IsLeafMethod(Lower(name)) && args != []
  {
  }

  /** Method names are matched whatever their case: a leaf called under any
      spelling appends what the lower-case call appends, and fails the same. */
  lemma {:induction false} CallIgnoresCase(name: string, args: seq<Value>)
    requires IsLeafMethod(Lower(name))
    ensures Apply(Call(name, args)) == Apply(Call(Lower(name), args))
  {
    LowerIdempotent(name);
  }

  /** `Term('x')` reaches `__call` and appends the `term` statement. */
  lemma CapitalizedTerm()
    ensures Apply(Call("Term", [Str("x")])) == Ok([LeafEntry("term", [Str("x")])])
  {
    assert Lower("Term") == "term" by {
      assert Lower("Term")[0] == 't';
      assert "term"[1..] == "Term"[1..];
      LowerKeeps("Term"[1..]);
    }
  }

  /** `range` appends nothing when both bounds are falsy, and otherwise one
      statement whose bounds read back as the truthy bounds included and the
      falsy ones open. */
  lemma RangeReadsBack(field: Value, min: Value, max: Value)
    requires NoComma(Interpolate(min))
    ensures Apply(Range(field, min, max)) == Ok([]) <==> !Truthy(min) && !Truthy(max)
    ensures Truthy(min) || Truthy(max) ==>
      Apply(Range(field, min, max)) == Ok([RangeText(field, RangeBounds(min, max).value)])
      && ParseBounds(RangeBounds(min, max).value) == Some((BoundOf(min), BoundOf(max)))
  {
    if Truthy(min) || Truthy(max) {
      RangeBoundsRead(min, max);
    }
  }

  /** The tree's `__toString` is the statement a closure block with the same
      script would append through `qAnd`, and fails exactly when that block
      would. */
  lemma RenderIsAndBlock(ops: seq<Op>)
    requires Exec(ops).outcome.Pass?
    ensures Render(Exec(ops).entries).Ok? <==> Apply(QAnd(Closure(ops))).Ok?
    ensures Render(Exec(ops).entries).Ok? ==> Apply(QAnd(Closure(ops))) == Ok([Render(Exec(ops).entries).value])
  {
  }

  /** Only `qNot` takes an object that is not a `Closure`: `qAnd` and `qOr`
      ignore it, `qNot` runs an invokable one as it would a closure and
      fails on one it cannot call; a value that is neither an object nor a
      string is ignored by all three. */
  lemma ObjectBlocks(ops: seq<Op>, v: NonString)
    ensures Apply(QAnd(Invokable(ops))) == Ok([]) && Apply(QOr(Invokable(ops))) == Ok([])
    ensures Apply(QAnd(Uncallable)) == Ok([]) && Apply(QOr(Uncallable)) == Ok([])
    ensures Wrap("not", Invokable(ops), true) == Wrap("not", Closure(ops), false)
    ensures Apply(QNot(Uncallable)) == Err(NotCallable)
    ensures Apply(QAnd(Other(v))) == Ok([]) && Apply(QOr(Other(v))) == Ok([]) && Apply(QNot(Other(v))) == Ok([])
  {
  }

  /** A literal block is embedded without escaping: in `(and 'S')` a quote
      inside `S` closes the literal early, and what follows it in `S` is
      read as clause syntax. */
  lemma LiteralBlockNotEscaped(s: string, x: string)
    requires forall i | 0 <= i < |s| :: s[i] != '\\' && s[i] != '\''
    ensures Apply(QAnd(Text(s + "'" + x))) == Ok(["(and '" + (s + "'" + (x + "')"))])
    ensures ReadQuoted(s + "'" + (x + "')")) == Some((s, x + "')"))
  {
    EscapePlain(s);
    ReadEscaped(s, x + "')");
    var t := s + "'" + x;
    assert Apply(QAnd(Text(t))) == Ok([TextEntry("and", t)]);
    assert "(" + "and" + " '" == "(and '";
    assert TextEntry("and", t) == "(and '" + t + "')";
    assert "(and '" + t + "')" == "(and '" + (s + "'" + (x + "')"));
  }

  /** The text of a leaf clause is its head, then each attribute's text,
      then the quoted value, as the leaf methods build it. */
  lemma LeafTextOfTwo(kind: string, field: Value, boost: Value, value: Value)
    ensures LeafText(kind, [("field", field), ("boost", boost)], value)
         == "(" + kind + " " + Attr("field", field) + Attr("boost", boost) + ("'" + Interpolate(value) + "')")
  {
    var attrs := [("field", field), ("boost", boost)];
    assert attrs[1..] == [("boost", boost)] && attrs[1..][1..] == [];
    var head := "(" + kind + " ";
    assert AppendAttrs(head, attrs) == AppendAttrs(head + Attr("field", field), attrs[1..]);
    assert AppendAttrs(head + Attr("field", field), attrs[1..]) == head + Attr("field", field) + Attr("boost", boost);
  }

  lemma LeafTextOfThree(kind: string, field: Value, distance: Value, boost: Value, value: Value)
    ensures LeafText(kind, [("field", field), ("distance", distance), ("boost", boost)], value)
         == "(" + kind + " " + Attr("field", field) + Attr("distance", distance) + Attr("boost", boost) + ("'" + Interpolate(value) + "')")
  {
    var attrs := [("field", field), ("distance", distance), ("boost", boost)];
    assert attrs[1..] == [("distance", distance), ("boost", boost)];
    assert attrs[1..][1..] == [("boost", boost)] && attrs[1..][1..][1..] == [];
    var head := "(" + kind + " ";
    var h1 := head + Attr("field", field);
    var h2 := h1 + Attr("distance", distance);
    assert AppendAttrs(head, attrs) == AppendAttrs(h1, attrs[1..]);
    assert AppendAttrs(h1, attrs[1..]) == AppendAttrs(h2, attrs[1..][1..]);
    assert AppendAttrs(h2, attrs[1..][1..]) == h2 + Attr("boost", boost);
  }

  /** A clause tree: the statements rendered so far, oldest first. The empty
      list stands for the initial `null`, which only `implode` can observe. */
  class StructuredSearch {
    var query: seq<string>

    constructor ()
      ensures query == []
    {
      query := [];
    }

    function GetQuery(): seq<string>
      reads this
    {
      query
    }

    method Term(value: Value, field: Value, boost: Value)
      modifies this
      ensures query == old(query) + [LeafText("term", [("field", field), ("boost", boost)], value)]
    {
      var term := "(term ";
      if Truthy(field) {
        term := term + Attr("field", field);
      }
      assert term == "(term " + Attr("field", field);
      if Truthy(boost) {
        term := term + Attr("boost", boost);
      }
      assert term == "(term " + Attr("field", field) + Attr("boost", boost);
      assert "(term " == "(" + "term" + " ";
      term := term + ("'" + Interpolate(value) + "')");
      LeafTextOfTwo("term", field, boost, value);
      query := query + [term];
    }

    method Phrase(value: Value, field: Value, boost: Value)
      modifies this
      ensures query == old(query) + [LeafText("phrase", [("field", field), ("boost", boost)], value)]
    {
      var phrase := "(phrase ";
      if Truthy(field) {
        phrase := phrase + Attr("field", field);
      }
      assert phrase == "(phrase " + Attr("field", field);
      if Truthy(boost) {
        phrase := phrase + Attr("boost", boost);
      }
      assert phrase == "(phrase " + Attr("field", field) + Attr("boost", boost);
      assert "(phrase " == "(" + "phrase" + " ";
      phrase := phrase + ("'" + Interpolate(value) + "')");
      LeafTextOfTwo("phrase", field, boost, value);
      query := query + [phrase];
    }

    method Prefix(value: Value, field: Value, boost: Value)
      modifies this
      ensures query == old(query) + [LeafText("prefix", [("field", field), ("boost", boost)], value)]
    {
      var prefix := "(prefix ";
      if Truthy(field) {
        prefix := prefix + Attr("field", field);
      }
      assert prefix == "(prefix " + Attr("field", field);
      if Truthy(boost) {
        prefix := prefix + Attr("boost", boost);
      }
      assert prefix == "(prefix " + Attr("field", field) + Attr("boost", boost);
      assert "(prefix " == "(" + "prefix" + " ";
      prefix := prefix + ("'" + Interpolate(value) + "')");
      LeafTextOfTwo("prefix", field, boost, value);
      query := query + [prefix];
    }

    method Near(value: Value, field: Value, distance: Value, boost: Value)
      modifies this
      ensures query == old(query) + [LeafText("near", [("field", field), ("distance", distance), ("boost", boost)], value)]
    {
      var near := "(near ";
      if Truthy(field) {
        near := near + Attr("field", field);
      }
      assert near == "(near " + Attr("field", field);
      if Truthy(distance) {
        near := near + Attr("distance", distance);
      }
      assert near == "(near " + Attr("field", field) + Attr("distance", distance);
      if Truthy(boost) {
        near := near + Attr("boost", boost);
      }
      assert near == "(near " + Attr("field", field) + Attr("distance", distance) + Attr("boost", boost);
      assert "(near " == "(" + "near" + " ";
      near := near + ("'" + Interpolate(value) + "')");
      LeafTextOfThree("near", field, distance, boost, value);
      query := query + [near];
    }

    method Range(field: Value, min: Value, max: Value)
      modifies this
      ensures query == old(query) + Apply(Op.Range(field, min, max)).value
    {
      var value: string;
      if Truthy(min) && !Truthy(max) {
        value := "[" + Interpolate(min) + ",}";
      } else if !Truthy(min) && Truthy(max) {
        value := "{," + Interpolate(max) + "]";
      } else if Truthy(min) && Truthy(max) {
        value := "[" + Interpolate(min) + "," + Interpolate(max) + "]";
      } else {
        return;
      }
      query := query + ["(range field=" + Interpolate(field) + " " + value + ")"];
    }

    method MatchAll()
      modifies this
      ensures query == old(query) + ["(matchall)"]
    {
      query := query + ["(matchall)"];
    }

    /** `__call`: reject unknown methods (names are matched whatever their
        case), escape every string argument, then dispatch to the leaf with
        the arguments bound positionally. */
    method Call(name: string, args: seq<Value>) returns (out: Outcome<Failure>)
      modifies this
      ensures out == (if Apply(Op.Call(name, args)).Ok? then Pass else Fail(Apply(Op.Call(name, args)).error))
      ensures query == old(query) + (if Apply(Op.Call(name, args)).Ok? then Apply(Op.Call(name, args)).value else [])
    {
      var leaf := Lower(name);
      if !IsLeafMethod(leaf) {
        return Fail(MethodMissing(name));
      }
      var a := EscapeArgs(args);
      assert a == EscapeAll(args);
      if a == [] {
        return Fail(TooFewArguments(leaf));
      }
      if leaf == "term" {
        Term(a[0], ArgOr(a, 1, Null), ArgOr(a, 2, Null));
      } else if leaf == "phrase" {
        Phrase(a[0], ArgOr(a, 1, Null), ArgOr(a, 2, Null));
      } else if leaf == "prefix" {
        Prefix(a[0], ArgOr(a, 1, Null), ArgOr(a, 2, Null));
      } else {
        Near(a[0], ArgOr(a, 1, Null), ArgOr(a, 2, Int(3)), ArgOr(a, 3, Null));
      }
      out := Pass;
    }

    /** The shared body of `qAnd`, `qOr` and `qNot`. */
    method Group(keyword: string, block: Block, anyObject: bool) returns (out: Outcome<Failure>)
      modifies this
      ensures out == (if Wrap(keyword, block, anyObject).Ok? then Pass else Fail(Wrap(keyword, block, anyObject).error))
      ensures query == old(query) + (if Wrap(keyword, block, anyObject).Ok? then Wrap(keyword, block, anyObject).value else [])
      decreases block
    {
      out := Pass;
      if block.Closure? || (block.Invokable? && anyObject) {
        var builder := new StructuredSearch();
        out := builder.Run(block.body);
        if out.Fail? {
          return;
        }
        var parts := builder.GetQuery();
        assert parts == Exec(block.body).entries;
        if parts == [] {
          return Fail(EmptyBlock);
        }
        query := query + [BlockEntry(keyword, parts)];
      } else if block.Uncallable? && anyObject {
        return Fail(NotCallable);
      } else if block.Text? {
        query := query + [TextEntry(keyword, block.s)];
      }
    }

    method QAnd(block: Block) returns (out: Outcome<Failure>)
      modifies this
      ensures out == (if Apply(Op.QAnd(block)).Ok? then Pass else Fail(Apply(Op.QAnd(block)).error))
      ensures query == old(query) + (if Apply(Op.QAnd(block)).Ok? then Apply(Op.QAnd(block)).value else [])
      decreases Op.QAnd(block), 0
    {
      out := Group("and", block, false);
    }

    method QOr(block: Block) returns (out: Outcome<Failure>)
      modifies this
      ensures out == (if Apply(Op.QOr(block)).Ok? then Pass else Fail(Apply(Op.QOr(block)).error))
      ensures query == old(query) + (if Apply(Op.QOr(block)).Ok? then Apply(Op.QOr(block)).value else [])
      decreases Op.QOr(block), 0
    {
      out := Group("or", block, false);
    }

    method QNot(block: Block) returns (out: Outcome<Failure>)
      modifies this
      ensures out == (if Apply(Op.QNot(block)).Ok? then Pass else Fail(Apply(Op.QNot(block)).error))
      ensures query == old(query) + (if Apply(Op.QNot(block)).Ok? then Apply(Op.QNot(block)).value else [])
      decreases Op.QNot(block), 0
    {
      out := Group("not", block, true);
    }

    /** Makes one call on this builder. */
    method Do(op: Op) returns (out: Outcome<Failure>)
      modifies this
      ensures out == (if Apply(op).Ok? then Pass else Fail(Apply(op).error))
      ensures Apply(op).Ok? ==> query == old(query) + Apply(op).value
      ensures Apply(op).Err? ==> query == old(query)
      decreases op, 1
    {
      match op
      case Call(name, args) => out := Call(name, args);
      case Range(field, min, max) => Range(field, min, max); out := Pass;
      case MatchAll => MatchAll(); out := Pass;
      case QAnd(b) => out := QAnd(b);
      case QOr(b) => out := QOr(b);
      case QNot(b) => out := QNot(b);
    }

    /** Runs a closure's script on this builder, stopping at the first error. */
    method Run(ops: seq<Op>) returns (out: Outcome<Failure>)
      modifies this
      ensures out == Exec(ops).outcome
      ensures query == old(query) + Exec(ops).entries
      decreases ops, 2
    {
      var i := 0;
      while i < |ops|
        invariant 0 <= i <= |ops|
        invariant Exec(ops[..i]).outcome.Pass?
        invariant query == old(query) + Exec(ops[..i]).entries
      {
        out := RunStep(ops, i, old(query));
        if out.Fail? {
          ExecPrefixStops(ops, i + 1);
          return;
        }
        i := i + 1;
      }
      assert ops[..i] == ops;
      out := Pass;
    }

    /** One round of `Run`: call `i` of a script whose earlier calls passed. */
    method RunStep(ops: seq<Op>, i: int, ghost base: seq<string>) returns (out: Outcome<Failure>)
      requires 0 <= i < |ops| && Exec(ops[..i]).outcome.Pass?
      requires query == base + Exec(ops[..i]).entries
      modifies this
      ensures out == Exec(ops[..i + 1]).outcome
      ensures query == base + Exec(ops[..i + 1]).entries
      decreases ops, 1
    {
      ghost var done := Exec(ops[..i]).entries;
      ExecStep(ops, i);
      out := Do(ops[i]);
      if out.Pass? {
        AppendAssoc(base, done, Apply(ops[i]).value);
      }
    }

    /** `__toString`. */
    function ToString(): Result<string, Failure>
      reads this
    {
      Render(query)
    }
  }
}
