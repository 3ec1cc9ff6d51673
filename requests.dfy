/** `StructuredQueryBuilder`: the state of one CloudSearch search request (the
    query and filter trees, paging, sorting, facets, expressions, options,
    return fields and statistics) and its compilation into the request
    parameters sent to the search endpoint. */
module Requests {
  import opened Wrappers
  import opened Php
  import opened Collections
  import opened ClauseSyntax
  import opened Clauses

  /** The options of one facet: sorted (`facet`) or by buckets (`facetBuckets`). */
  datatype Facet =
    | SortSize(sort: Value, size: Value)
    | Buckets(buckets: Value, bucketMethod: Value)

  /** `json_encode` of the three arrays the request carries as JSON. */
  datatype Codec = Codec(
    expressions: OMap<string, Value> -> string,
    facets: OMap<string, Facet> -> string,
    options: OMap<string, Value> -> string)

  /** The request parameters, in the order `buildStructuredQuery` adds them. */
  datatype Param =
    | Cursor | Expr | Facet | FilterQuery | Query | QueryOptions
    | QueryParser | Return | Size | Sort | Start | Stats

  /** The parameter's name in the request. */
  function Name(p: Param): string {
    match p
    case Cursor => "cursor"
    case Expr => "expr"
    case Facet => "facet"
    case FilterQuery => "filterQuery"
    case Query => "query"
    case QueryOptions => "queryOptions"
    case QueryParser => "queryParser"
    case Return => "return"
    case Size => "size"
    case Sort => "sort"
    case Start => "start"
    case Stats => "stats"
  }

  /** The parameter's position in the request. */
  function Rank(p: Param): nat {
    match p
    case Cursor => 0
    case Expr => 1
    case Facet => 2
    case FilterQuery => 3
    case Query => 4
    case QueryOptions => 5
    case QueryParser => 6
    case Return => 7
    case Size => 8
    case Sort => 9
    case Start => 10
    case Stats => 11
  }

  /** Distinct parameters have distinct names: a compiled request, keyed by
      `Param`, names each parameter at most once on the wire. */
  lemma NamesDistinct(p: Param, p': Param)
    ensures Name(p) == Name(p') <==> p == p'
  {
    if p != p' {
      var a, b := Name(p), Name(p');
      assert |a| != |b| || a[0] != b[0] || a[1] != b[1] || a[|a| - 1] != b[|b| - 1];
    }
  }

  /** Keys come in the order of their rank (so none is repeated). */
  predicate InParamOrder(r: OMap<Param, Value>) {
    forall i, j | 0 <= i < j < |r| :: Rank(r[i].0) < Rank(r[j].0)
  }

  /** One candidate parameter: its key, whether it is sent, its value. */
  type Candidate = (Param, bool, Value)

  /** `if (present) $request[k] = v;` on a fresh key. */
  function Guarded(c: Candidate): OMap<Param, Value> {
    if c.1 then [(c.0, c.2)] else []
  }

  /** The request a run of guarded assignments leaves, in order. */
  function Keep(cs: seq<Candidate>): OMap<Param, Value>
    decreases |cs|
  {
    if cs == [] then [] else Keep(cs[..|cs| - 1]) + Guarded(cs[|cs| - 1])
  }

  /** The candidates come one per parameter, in rank order. */
  predicate Ranked(cs: seq<Candidate>) {
    forall i | 0 <= i < |cs| :: Rank(cs[i].0) == i
  }

  lemma RankInjective(p: Param, p': Param)
    ensures Rank(p) == Rank(p') ==> p == p'
  {
  }

  /** A parameter is sent exactly when its candidate is present, with the
      candidate's value. */
  lemma {:induction false} KeepGet(cs: seq<Candidate>, p: Param)
    requires Ranked(cs)
    ensures Get(Keep(cs), p) == if Rank(p) < |cs| && cs[Rank(p)].1 then Some(cs[Rank(p)].2) else None
  {
    if cs != [] {
      var init, c := cs[..|cs| - 1], cs[|cs| - 1];
      assert Ranked(init);
      KeepGet(init, p);
      if Rank(p) < |init| {
        assert init[Rank(p)] == cs[Rank(p)];
      }
      assert Keep(cs) == Keep(init) + Guarded(c);
      KeepGetLast(Keep(init), c, p, |init|);
    }
  }

  /** One more guarded assignment, for the parameter of the next rank. */
  lemma KeepGetLast(m: OMap<Param, Value>, c: Candidate, p: Param, n: nat)
    requires Rank(c.0) == n
    requires Rank(p) >= n ==> Get(m, p) == None
    ensures Get(m + Guarded(c), p) == if Rank(p) == n && c.1 then Some(c.2) else if Rank(p) < n then Get(m, p) else None
  {
    RankInjective(p, c.0);
    if c.1 {
      GetAppendOther(m, (c.0, c.2), p);
      GetNoneIffAbsent(m, p);
    } else {
      assert m + Guarded(c) == m;
    }
  }

  lemma KeepGetAll(cs: seq<Candidate>)
    requires Ranked(cs)
    ensures forall p :: Get(Keep(cs), p) == if Rank(p) < |cs| && cs[Rank(p)].1 then Some(cs[Rank(p)].2) else None
  {
    forall p {
      KeepGet(cs, p);
    }
  }

  /** The request's keys come in rank order and are all below `|cs|`. */
  lemma {:induction false} KeepOrdered(cs: seq<Candidate>)
    requires Ranked(cs)
    ensures InParamOrder(Keep(cs))
    ensures forall i | 0 <= i < |Keep(cs)| :: Rank(Keep(cs)[i].0) < |cs|
  {
    if cs != [] {
      var init, c := cs[..|cs| - 1], cs[|cs| - 1];
      assert Ranked(init);
      KeepOrdered(init);
      var r := Keep(cs);
      assert r == Keep(init) + Guarded(c);
      assert forall i | 0 <= i < |r| :: i < |Keep(init)| ==> r[i] == Keep(init)[i];
    }
  }

  /** One entry of the `stats` parameter: `"FIELD":{}`. */
  function StatEntry(field: Value): string {
    "\"" + Interpolate(field) + "\":{}"
  }

  /** The `stats` parameter: the entries of the fields in call order, as one
      JSON object. */
  function StatsText(fields: seq<Value>): (r: string)
    ensures |r| >= 2 && r[0] == '{' && r[|r| - 1] == '}'
    ensures r == "{}" <==> fields == []
    ensures fields != [] ==> |StatEntry(fields[0])| + 2 <= |r| && r[1..1 + |StatEntry(fields[0])|] == StatEntry(fields[0])
  {
    var entries := seq(|fields|, i requires 0 <= i < |fields| => StatEntry(fields[i]));
    assert fields != [] ==> entries[0] == StatEntry(fields[0]);
    "{" + Join(",", entries) + "}"
  }

  /** `cursor($c)`: a value loosely equal to 0 requests the first page;
      the stored cursor is never loosely 0 itself, so storing it again
      changes nothing. */
  function CursorValue(c: Value): (r: Value)
    ensures !LooselyZero(r)
    ensures !LooselyZero(c) ==> r == c
  {
    InitialNotZero();
    if LooselyZero(c) then Str("initial") else c
  }

  /** `'initial'` is not a numeric string. */
  lemma InitialNotZero()
    ensures !LooselyZero(Str("initial"))
  {
    var u := DropSign(TrimEnd(TrimStart("initial")));
    assert TrimStart("initial") == "initial";
    assert TrimEnd("initial") == "initial";
    assert u == "initial";
    assert !AllZeros(u) by { assert u[0] != '0'; }
    assert forall d | 0 <= d < |u| :: u[d] != '.';
    assert forall e | 0 < e < |u| :: u[e] != 'e' && u[e] != 'E';
  }

  /** Under PHP 8 rules the stored cursor is falsy only for `""` and `[]`,
      which are not loosely 0; every value loosely 0 becomes `'initial'`. */
  lemma CursorTruthy(c: Value)
    ensures Truthy(CursorValue(c)) <==> c != Str("") && c != Arr([])
    ensures LooselyZero(c) <==> CursorValue(c) == Str("initial") && c != Str("initial")
  {
    if c == Str("") {
      assert TrimEnd(TrimStart("")) == "";
    }
    if c == Str("0") {
      assert DropSign(TrimEnd(TrimStart("0"))) == "0";
      assert ZeroMantissa("0");
    }
    if c == Str("initial") {
      InitialNotZero();
    }
  }

  /** The non-tree part of the request state. */
  datatype Settings = Settings(
    cursor: Value,
    expressions: OMap<string, Value>,
    facets: OMap<string, Facet>,
    options: OMap<string, Value>,
    returnFields: Value,
    size: Value,
    sort: Value,
    start: Value,
    stats: seq<Value>)

  /** `haversin(LAT,LON,FIELD.latitude,FIELD.longitude)`. */
  function HaversinText(field: Value, lat: Value, lon: Value): (r: string)
    ensures var head := "haversin(" + Interpolate(lat) + ","; |head| <= |r| && r[..|head|] == head
    ensures var tail := Interpolate(field) + ".longitude)"; |tail| <= |r| && r[|r| - |tail|..] == tail
  {
    "haversin(" + Interpolate(lat) + "," + Interpolate(lon) + "," + Interpolate(field) + ".latitude,"
      + Interpolate(field) + ".longitude)"
  }

  /** A corner of the `latlon` box as the range bound `'LAT,LON'`. */
  function Corner(lat: string, lon: string): Value {
    Str("'" + lat + "," + lon + "'")
  }

  /** `latlon` always appends one closed range: both corners are non-empty
      quoted strings and so truthy. */
  lemma LatLonRange(field: Value, lat1: string, lon1: string, lat2: string, lon2: string)
    ensures Apply(Op.Range(field, Corner(lat1, lon1), Corner(lat2, lon2)))
         == Ok([RangeText(field, "['" + lat1 + "," + lon1 + "','" + lat2 + "," + lon2 + "']")])
  {
    var a := "'" + lat1 + "," + lon1 + "'";
    var b := "'" + lat2 + "," + lon2 + "'";
    assert Truthy(Str(a)) by { assert a[0] == '\''; }
    assert Truthy(Str(b)) by { assert b[0] == '\''; }
    assert "[" + a + "," + b + "]" == "['" + lat1 + "," + lon1 + "','" + lat2 + "," + lon2 + "']";
  }

  class StructuredQueryBuilder {
    var cursor: Value
    var expressions: OMap<string, Value>
    var facets: OMap<string, Facet>
    const fq: StructuredSearch
    const q: StructuredSearch
    var options: OMap<string, Value>
    var returnFields: Value
    var size: Value
    var sort: Value
    var start: Value
    var stats: seq<Value>

    /** The two trees are distinct objects. */
    predicate Valid()
      reads this
    {
      q != fq
    }

    function State(): Settings
      reads this
    {
      Settings(cursor, expressions, facets, options, returnFields, size, sort, start, stats)
    }

    constructor ()
      ensures Valid() && fresh(q) && fresh(fq)
      ensures q.query == [] && fq.query == []
      ensures State() == Settings(Null, [], [], [], Null, Int(10), Null, Int(0), [])
    {
      cursor := Null;
      expressions := [];
      facets := [];
      options := [];
      returnFields := Null;
      size := Int(10);
      sort := Null;
      start := Int(0);
      stats := [];
      q := new StructuredSearch();
      fq := new StructuredSearch();
    }

    method Cursor(c: Value)
      modifies this
      ensures State() == old(State()).(cursor := CursorValue(c))
    {
      cursor := if LooselyZero(c) then Str("initial") else c;
    }

    method Expr(accessor: string, expression: Value)
      modifies this
      ensures State() == old(State()).(expressions := Put(old(expressions), accessor, expression))
    {
      expressions := Put(expressions, accessor, expression);
    }

    method Facet(field: string, sort: Value, size: Value)
      modifies this
      ensures State() == old(State()).(facets := Put(old(facets), field, SortSize(sort, size)))
    {
      facets := Put(facets, field, SortSize(sort, size));
    }

    method FacetBuckets(field: string, buckets: Value, bucketMethod: Value)
      modifies this
      ensures State() == old(State()).(facets := Put(old(facets), field, Buckets(buckets, bucketMethod)))
    {
      facets := Put(facets, field, Buckets(buckets, bucketMethod));
    }

    method Options(key: string, value: Value)
      modifies this
      ensures State() == old(State()).(options := Put(old(options), key, value))
    {
      options := Put(options, key, value);
    }

    method ReturnFields(value: Value)
      modifies this
      ensures State() == old(State()).(returnFields := value)
    {
      returnFields := value;
    }

    method Size(value: Value)
      modifies this
      ensures State() == old(State()).(size := value)
    {
      size := value;
    }

    method Sort(field: Value, direction: Value)
      modifies this
      ensures State() == old(State()).(sort := Str(Interpolate(field) + " " + Interpolate(direction)))
    {
      sort := Str(Interpolate(field) + " " + Interpolate(direction));
    }

    method Start(value: Value)
      modifies this
      ensures State() == old(State()).(start := value)
    {
      start := value;
    }

    method Stats(field: Value)
      modifies this
      ensures State() == old(State()).(stats := old(stats) + [field])
    {
      stats := stats + [field];
    }

    method AddDistanceExpr(field: Value, lat: Value, lon: Value)
      modifies this
      ensures State() == old(State()).(expressions := Put(old(expressions), "distance", Str(HaversinText(field, lat, lon))))
    {
      var expression := "haversin(" + Interpolate(lat) + "," + Interpolate(lon) + ","
        + Interpolate(field) + ".latitude," + Interpolate(field) + ".longitude)";
      Expr("distance", Str(expression));
    }

    /** `latlon` with the corners of the box already computed and rendered:
        one range on the filter tree, and the distance expression iff
        `addExpr` is truthy. */
    method LatLon(field: Value, lat: string, lon: string,
                  lat1: string, lon1: string, lat2: string, lon2: string, addExpr: Value)
      requires Valid()
      modifies this, fq
      ensures fq.query == old(fq.query) + [RangeText(field, "['" + lat1 + "," + lon1 + "','" + lat2 + "," + lon2 + "']")]
      ensures q.query == old(q.query)
      ensures State() == if Truthy(addExpr)
        then old(State()).(expressions := Put(old(expressions), "distance", Str(HaversinText(field, Str(lat), Str(lon)))))
        else old(State())
    {
      var min := "'" + lat1 + "," + lon1 + "'";
      var max := "'" + lat2 + "," + lon2 + "'";
      LatLonRange(field, lat1, lon1, lat2, lon2);
      fq.Range(field, Str(min), Str(max));
      if Truthy(addExpr) {
        AddDistanceExpr(field, Str(lat), Str(lon));
      }
    }

    /** The value each request parameter is sent with, or `None` when it is
        left out. */
    function Sent(p: Param, codec: Codec): (r: Option<Value>)
      reads this, q, fq
      ensures p.Cursor? || p.Start? ==> (r.Some? <==> (p.Cursor? <==> Truthy(cursor)))
      ensures p.QueryParser? || p.Size? ==> r.Some?
      ensures r.Some? && (p.Cursor? || p.Return? || p.Sort?) ==> Truthy(r.value)
      ensures p.Query? ==> (r.Some? <==> q.query != [])
      ensures p.FilterQuery? ==> (r.Some? <==> fq.query != [])
    {
      match p
      case Cursor => if Truthy(cursor) then Some(cursor) else None
      case Expr => if expressions == [] then None else Some(Str(codec.expressions(expressions)))
      case Facet => if facets == [] then None else Some(Str(codec.facets(facets)))
      case FilterQuery => if fq.query == [] then None else Some(Str(fq.ToString().value))
      case Query => if q.query == [] then None else Some(Str(q.ToString().value))
      case QueryOptions => if options == [] then None else Some(Str(codec.options(options)))
      case QueryParser => Some(Str("structured"))
      case Return => if Truthy(returnFields) then Some(returnFields) else None
      case Size => Some(size)
      case Sort => if Truthy(sort) then Some(sort) else None
      case Start => if Truthy(cursor) then None else Some(start)
      case Stats => if stats == [] then None else Some(Str(StatsText(stats)))
    }

    /** `buildStructuredQuery`'s guarded assignments, in order: each
        parameter, whether it is set, and its value. */
    function Candidates(codec: Codec): (cs: seq<Candidate>)
      reads this, q, fq
      ensures Ranked(cs) && |cs| == 12
    {
      [ (Param.Cursor, Truthy(cursor), cursor),
        (Param.Expr, expressions != [], Str(codec.expressions(expressions))),
        (Param.Facet, facets != [], Str(codec.facets(facets))),
        (Param.FilterQuery, fq.query != [], Str(if fq.query == [] then "" else fq.ToString().value)),
        (Param.Query, q.query != [], Str(if q.query == [] then "" else q.ToString().value)),
        (Param.QueryOptions, options != [], Str(codec.options(options))),
        (Param.QueryParser, true, Str("structured")),
        (Param.Return, Truthy(returnFields), returnFields),
        (Param.Size, true, size),
        (Param.Sort, Truthy(sort), sort),
        (Param.Start, !Truthy(cursor), start),
        (Param.Stats, stats != [], Str(StatsText(stats))) ]
    }

    /** `buildStructuredQuery`: every parameter is sent exactly as `Sent`
        says, and the parameters keep their fixed order. */
    function BuildStructuredQuery(codec: Codec): (r: OMap<Param, Value>)
      reads this, q, fq
      ensures forall p :: Get(r, p) == Sent(p, codec)
      ensures InParamOrder(r)
    {
      KeptAreSent(this, codec);
      Keep(Candidates(codec))
    }
  }

  lemma KeptAreSent(b: StructuredQueryBuilder, codec: Codec)
    ensures forall p :: Get(Keep(b.Candidates(codec)), p) == b.Sent(p, codec)
    ensures InParamOrder(Keep(b.Candidates(codec)))
  {
    var cs := b.Candidates(codec);
    KeepGetAll(cs);
    KeepOrdered(cs);
    CandidatesAreSent(b, codec);
  }

  lemma CandidatesAreSent(b: StructuredQueryBuilder, codec: Codec)
    ensures forall p :: b.Sent(p, codec) == if b.Candidates(codec)[Rank(p)].1 then Some(b.Candidates(codec)[Rank(p)].2) else None
  {
    var cs := b.Candidates(codec);
    forall p
      ensures b.Sent(p, codec) == if cs[Rank(p)].1 then Some(cs[Rank(p)].2) else None
    {
      match p
      case Cursor =>
      case Expr =>
      case Facet =>
      case FilterQuery =>
      case Query =>
      case QueryOptions =>
      case QueryParser =>
      case Return =>
      case Size =>
      case Sort =>
      case Start =>
      case Stats =>
    }
  }
}
