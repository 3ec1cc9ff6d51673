/** `Query\Builder`: the fluent facade over one request builder. Clause
    methods go to the query tree `q`, their `filter*` counterparts to the
    filter tree `fq`, and the settings methods to the request builder;
    every method hands back the same facade so that calls chain. */
module Fluent {
  import opened Wrappers
  import opened Php
  import opened Collections
  import opened ClauseSyntax
  import opened Clauses
  import opened Requests
  import opened Searcher

  /** One leaf call through `__call`: a single statement is appended. */
  method AddLeaf(t: StructuredSearch, name: string, args: seq<Value>)
    requires IsLeafMethod(name) && args != []
    modifies t
    ensures t.query == old(t.query) + [LeafEntry(name, args)]
  {
    LeafCallReadsBack(name, args);
    var out := t.Call(name, args);
  }

  /** `phrase($value, $field)` through `__call`, with the default boost. */
  method AddPhrase(t: StructuredSearch, value: Value, field: string)
    modifies t
    ensures t.query == old(t.query) + [PhraseEntry((value, field))]
  {
    AddLeaf(t, "phrase", [value, Str(field), Null]);
  }

  /** The values `filter` makes a phrase of for one field: the value itself,
      or for an array its truthy top-level entries, flattened. */
  function FilterValues(v: Value): seq<Value> {
    if v.Arr? then Flatten(FilterTruthy(v.items)) else [v]
  }

  /** The `(value, field)` pairs of the phrases `filter` adds, in order. */
  function FilterPhrases(filters: OMap<string, Value>): seq<(Value, string)> {
    if filters == [] then []
    else
      var last := filters[|filters| - 1];
      FilterPhrases(filters[..|filters| - 1]) + Pairs(FilterValues(last.1), last.0)
  }

  function Pairs(vs: seq<Value>, field: string): (r: seq<(Value, string)>)
    ensures |r| == |vs|
    ensures forall i | 0 <= i < |vs| :: r[i] == (vs[i], field)
  {
    seq(|vs|, i requires 0 <= i < |vs| => (vs[i], field))
  }

  /** `phrase($value, $field)` with the default boost. */
  function PhraseEntry(p: (Value, string)): string {
    LeafEntry("phrase", [p.0, Str(p.1), Null])
  }

  function PhraseEntries(ps: seq<(Value, string)>): (r: seq<string>)
    ensures |r| == |ps|
    ensures forall i | 0 <= i < |ps| :: r[i] == PhraseEntry(ps[i])
  {
    seq(|ps|, i requires 0 <= i < |ps| => PhraseEntry(ps[i]))
  }

  lemma PhraseEntriesAppend(a: seq<(Value, string)>, b: seq<(Value, string)>)
    ensures PhraseEntries(a + b) == PhraseEntries(a) + PhraseEntries(b)
  {
  }

  /** No phrase `filter` adds has an array as its value. */
  lemma {:induction false} FilterPhrasesScalar(filters: OMap<string, Value>)
    ensures forall i | 0 <= i < |FilterPhrases(filters)| :: !FilterPhrases(filters)[i].0.Arr?
  {
    if filters != [] {
      var init := filters[..|filters| - 1];
      FilterPhrasesScalar(init);
    }
  }

  /** With scalar values only, `filter` adds exactly one phrase per field,
      in the order of the map. */
  lemma {:induction false} FilterScalars(filters: OMap<string, Value>)
    requires forall i | 0 <= i < |filters| :: !filters[i].1.Arr?
    ensures FilterPhrases(filters) == seq(|filters|, i requires 0 <= i < |filters| => (filters[i].1, filters[i].0))
  {
    if filters != [] {
      var init := filters[..|filters| - 1];
      FilterScalars(init);
    }
  }

  /** Every statement `filter` adds reads back as a phrase on its field
      carrying the value's text. */
  lemma FilterEntriesReadBack(filters: OMap<string, Value>)
    ensures forall i | 0 <= i < |FilterPhrases(filters)| ::
      ParseLeaf(PhraseEntry(FilterPhrases(filters)[i]))
        == Some(Leaf("phrase", Present([("field", Str(FilterPhrases(filters)[i].1)), ("boost", Null)]),
                     Interpolate(FilterPhrases(filters)[i].0)))
  {
    forall i | 0 <= i < |FilterPhrases(filters)|
      ensures ParseLeaf(PhraseEntry(FilterPhrases(filters)[i]))
        == Some(Leaf("phrase", Present([("field", Str(FilterPhrases(filters)[i].1)), ("boost", Null)]),
                     Interpolate(FilterPhrases(filters)[i].0)))
    {
      var p := FilterPhrases(filters)[i];
      LeafCallReadsBack("phrase", [p.0, Str(p.1), Null]);
    }
  }

  /** The inner `foreach` of `filter`: one phrase per value, in order. */
  lemma FilterEntriesStep(filters: OMap<string, Value>, i: int)
    requires 0 <= i < |filters|
    ensures PhraseEntries(FilterPhrases(filters[..i + 1])) ==
      PhraseEntries(FilterPhrases(filters[..i])) + PhraseEntries(Pairs(FilterValues(filters[i].1), filters[i].0))
  {
    assert filters[..i + 1][..i] == filters[..i];
    PhraseEntriesAppend(FilterPhrases(filters[..i]), Pairs(FilterValues(filters[i].1), filters[i].0));
  }

  /** The loop of `filter` over a tree: the fields in order. */
  method AddFilters(t: StructuredSearch, filters: OMap<string, Value>)
    modifies t
    ensures t.query == old(t.query) + PhraseEntries(FilterPhrases(filters))
  {
    var i := 0;
    while i < |filters|
      invariant 0 <= i <= |filters|
      invariant t.query == old(t.query) + PhraseEntries(FilterPhrases(filters[..i]))
    {
      AddFilterStep(t, filters, i, old(t.query));
      i := i + 1;
    }
    assert filters[..i] == filters;
  }

  /** One round of the `filter` loop: the phrases of field `i`. */
  method AddFilterStep(t: StructuredSearch, filters: OMap<string, Value>, i: int, ghost base: seq<string>)
    requires 0 <= i < |filters|
    requires t.query == base + PhraseEntries(FilterPhrases(filters[..i]))
    modifies t
    ensures t.query == base + PhraseEntries(FilterPhrases(filters[..i + 1]))
  {
    ghost var done := PhraseEntries(FilterPhrases(filters[..i]));
    ghost var step := PhraseEntries(Pairs(FilterValues(filters[i].1), filters[i].0));
    FilterEntriesStep(filters, i);
    AddFilter(t, filters[i].0, filters[i].1);
    AppendAssoc(base, done, step);
  }

  /** The phrases `filter` adds for one field. */
  method AddFilter(t: StructuredSearch, field: string, value: Value)
    modifies t
    ensures t.query == old(t.query) + PhraseEntries(Pairs(FilterValues(value), field))
  {
    if value.Arr? {
      AddPhrases(t, Flatten(FilterTruthy(value.items)), field);
    } else {
      AddLeaf(t, "phrase", [value, Str(field), Null]);
    }
  }

  /** One more value in the phrase loop adds one phrase at the end. */
  lemma PhrasesStep(vs: seq<Value>, j: int, field: string)
    requires 0 <= j < |vs|
    ensures PhraseEntries(Pairs(vs[..j + 1], field)) ==
      PhraseEntries(Pairs(vs[..j], field)) + [LeafEntry("phrase", [vs[j], Str(field), Null])]
  {
    assert Pairs(vs[..j + 1], field) == Pairs(vs[..j], field) + [(vs[j], field)];
    PhraseEntriesAppend(Pairs(vs[..j], field), [(vs[j], field)]);
  }

  method AddPhrases(t: StructuredSearch, vs: seq<Value>, field: string)
    modifies t
    ensures t.query == old(t.query) + PhraseEntries(Pairs(vs, field))
  {
    var j := 0;
    while j < |vs|
      invariant 0 <= j <= |vs|
      invariant t.query == old(t.query) + PhraseEntries(Pairs(vs[..j], field))
    {
      AddPhraseStep(t, vs, j, field, old(t.query));
      j := j + 1;
    }
    assert vs[..j] == vs;
  }

  /** One round of the phrase loop: the phrase of value `j`. */
  method AddPhraseStep(t: StructuredSearch, vs: seq<Value>, j: int, field: string, ghost base: seq<string>)
    requires 0 <= j < |vs|
    requires t.query == base + PhraseEntries(Pairs(vs[..j], field))
    modifies t
    ensures t.query == base + PhraseEntries(Pairs(vs[..j + 1], field))
  {
    ghost var done := PhraseEntries(Pairs(vs[..j], field));
    PhrasesStep(vs, j, field);
    AddLeaf(t, "phrase", [vs[j], Str(field), Null]);
    AppendAssoc(base, done, [LeafEntry("phrase", [vs[j], Str(field), Null])]);
  }

  /** What `searchableType` is given: a model object or a class name. */
  datatype TypeRef = Instance(className: string) | ClassName(name: Value)

  /** The fields `searchableType` and `byLocale` put phrases on. */
  const TypeField := "searchable_type"
  const LocaleField := "locale"

  /** `get_class` for an object, the value itself otherwise. */
  function TypeName(t: TypeRef): Value {
    match t
    case Instance(c) => Str(c)
    case ClassName(v) => v
  }

  /** `$locale ?: app()->getLocale()`. */
  function LocaleOr(locale: Value, appLocale: Value): (r: Value)
    ensures Truthy(locale) ==> r == locale
    ensures !Truthy(locale) ==> r == appLocale
  {
    if Truthy(locale) then locale else appLocale
  }

  class Builder {
    const builder: StructuredQueryBuilder

    predicate Valid()
      reads this, builder
    {
      builder.Valid()
    }

    constructor ()
      ensures Valid() && fresh(builder) && fresh(builder.q) && fresh(builder.fq)
      ensures builder.q.query == [] && builder.fq.query == []
      ensures builder.State() == Settings(Null, [], [], [], Null, Int(10), Null, Int(0), [])
    {
      builder := new StructuredQueryBuilder();
    }

    method Term(value: Value, field: Value, boost: Value) returns (self: Builder)
      requires Valid()
      modifies builder.q
      ensures self == this
      ensures builder.q.query == old(builder.q.query) + [LeafEntry("term", [value, field, boost])]
      ensures builder.fq.query == old(builder.fq.query)
    {
      AddLeaf(builder.q, "term", [value, field, boost]);
      return this;
    }

    method FilterTerm(value: Value, field: Value, boost: Value) returns (self: Builder)
      requires Valid()
      modifies builder.fq
      ensures self == this
      ensures builder.fq.query == old(builder.fq.query) + [LeafEntry("term", [value, field, boost])]
      ensures builder.q.query == old(builder.q.query)
    {
      AddLeaf(builder.fq, "term", [value, field, boost]);
      return this;
    }

    method Phrase(value: Value, field: Value, boost: Value) returns (self: Builder)
      requires Valid()
      modifies builder.q
      ensures self == this
      ensures builder.q.query == old(builder.q.query) + [LeafEntry("phrase", [value, field, boost])]
      ensures builder.fq.query == old(builder.fq.query)
    {
      AddLeaf(builder.q, "phrase", [value, field, boost]);
      return this;
    }

    method FilterPhrase(value: Value, field: Value, boost: Value) returns (self: Builder)
      requires Valid()
      modifies builder.fq
      ensures self == this
      ensures builder.fq.query == old(builder.fq.query) + [LeafEntry("phrase", [value, field, boost])]
      ensures builder.q.query == old(builder.q.query)
    {
      AddLeaf(builder.fq, "phrase", [value, field, boost]);
      return this;
    }

    method Prefix(value: Value, field: Value, boost: Value) returns (self: Builder)
      requires Valid()
      modifies builder.q
      ensures self == this
      ensures builder.q.query == old(builder.q.query) + [LeafEntry("prefix", [value, field, boost])]
      ensures builder.fq.query == old(builder.fq.query)
    {
      AddLeaf(builder.q, "prefix", [value, field, boost]);
      return this;
    }

    method FilterPrefix(value: Value, field: Value, boost: Value) returns (self: Builder)
      requires Valid()
      modifies builder.fq
      ensures self == this
      ensures builder.fq.query == old(builder.fq.query) + [LeafEntry("prefix", [value, field, boost])]
      ensures builder.q.query == old(builder.q.query)
    {
      AddLeaf(builder.fq, "prefix", [value, field, boost]);
      return this;
    }

    /** `near` always passes its distance (3 unless given). */
    method Near(value: Value, field: Value, distance: Value, boost: Value) returns (self: Builder)
      requires Valid()
      modifies builder.q
      ensures self == this
      ensures builder.q.query == old(builder.q.query) + [LeafEntry("near", [value, field, distance, boost])]
      ensures builder.fq.query == old(builder.fq.query)
    {
      AddLeaf(builder.q, "near", [value, field, distance, boost]);
      return this;
    }

    method FilterNear(value: Value, field: Value, distance: Value, boost: Value) returns (self: Builder)
      requires Valid()
      modifies builder.fq
      ensures self == this
      ensures builder.fq.query == old(builder.fq.query) + [LeafEntry("near", [value, field, distance, boost])]
      ensures builder.q.query == old(builder.q.query)
    {
      AddLeaf(builder.fq, "near", [value, field, distance, boost]);
      return this;
    }

    method Range(field: Value, min: Value, max: Value) returns (self: Builder)
      requires Valid()
      modifies builder.q
      ensures self == this
      ensures builder.q.query == old(builder.q.query) + Apply(Op.Range(field, min, max)).value
      ensures builder.fq.query == old(builder.fq.query)
    {
      builder.q.Range(field, min, max);
      return this;
    }

    method FilterRange(field: Value, min: Value, max: Value) returns (self: Builder)
      requires Valid()
      modifies builder.fq
      ensures self == this
      ensures builder.fq.query == old(builder.fq.query) + Apply(Op.Range(field, min, max)).value
      ensures builder.q.query == old(builder.q.query)
    {
      builder.fq.Range(field, min, max);
      return this;
    }

    method MatchAll() returns (self: Builder)
      requires Valid()
      modifies builder.q
      ensures self == this
      ensures builder.q.query == old(builder.q.query) + ["(matchall)"]
      ensures builder.fq.query == old(builder.fq.query)
    {
      builder.q.MatchAll();
      return this;
    }

    /** `qAnd`, `qOr`, `qNot` and their filter counterparts: the block's
        statement on the chosen tree, or the error the block raises. */
    method QAnd(block: Block) returns (self: Builder, out: Outcome<Failure>)
      requires Valid()
      modifies builder.q
      ensures self == this
      ensures out.Fail? <==> Apply(Op.QAnd(block)).Err?
      ensures builder.q.query == old(builder.q.query) + (if Apply(Op.QAnd(block)).Ok? then Apply(Op.QAnd(block)).value else [])
      ensures builder.fq.query == old(builder.fq.query)
    {
      out := builder.q.QAnd(block);
      return this, out;
    }

    method FilterAnd(block: Block) returns (self: Builder, out: Outcome<Failure>)
      requires Valid()
      modifies builder.fq
      ensures self == this
      ensures out.Fail? <==> Apply(Op.QAnd(block)).Err?
      ensures builder.fq.query == old(builder.fq.query) + (if Apply(Op.QAnd(block)).Ok? then Apply(Op.QAnd(block)).value else [])
      ensures builder.q.query == old(builder.q.query)
    {
      out := builder.fq.QAnd(block);
      return this, out;
    }

    method QOr(block: Block) returns (self: Builder, out: Outcome<Failure>)
      requires Valid()
      modifies builder.q
      ensures self == this
      ensures out.Fail? <==> Apply(Op.QOr(block)).Err?
      ensures builder.q.query == old(builder.q.query) + (if Apply(Op.QOr(block)).Ok? then Apply(Op.QOr(block)).value else [])
      ensures builder.fq.query == old(builder.fq.query)
    {
      out := builder.q.QOr(block);
      return this, out;
    }

    method FilterOr(block: Block) returns (self: Builder, out: Outcome<Failure>)
      requires Valid()
      modifies builder.fq
      ensures self == this
      ensures out.Fail? <==> Apply(Op.QOr(block)).Err?
      ensures builder.fq.query == old(builder.fq.query) + (if Apply(Op.QOr(block)).Ok? then Apply(Op.QOr(block)).value else [])
      ensures builder.q.query == old(builder.q.query)
    {
      out := builder.fq.QOr(block);
      return this, out;
    }

    method QNot(block: Block) returns (self: Builder, out: Outcome<Failure>)
      requires Valid()
      modifies builder.q
      ensures self == this
      ensures out.Fail? <==> Apply(Op.QNot(block)).Err?
      ensures builder.q.query == old(builder.q.query) + (if Apply(Op.QNot(block)).Ok? then Apply(Op.QNot(block)).value else [])
      ensures builder.fq.query == old(builder.fq.query)
    {
      out := builder.q.QNot(block);
      return this, out;
    }

    method FilterNot(block: Block) returns (self: Builder, out: Outcome<Failure>)
      requires Valid()
      modifies builder.fq
      ensures self == this
      ensures out.Fail? <==> Apply(Op.QNot(block)).Err?
      ensures builder.fq.query == old(builder.fq.query) + (if Apply(Op.QNot(block)).Ok? then Apply(Op.QNot(block)).value else [])
      ensures builder.q.query == old(builder.q.query)
    {
      out := builder.fq.QNot(block);
      return this, out;
    }

    /** `filter`: a phrase on the query tree for every value of every field,
        an array value contributing its truthy entries, flattened. */
    method Filter(filters: OMap<string, Value>) returns (self: Builder)
      requires Valid()
      modifies builder.q
      ensures self == this
      ensures builder.q.query == old(builder.q.query) + PhraseEntries(FilterPhrases(filters))
      ensures builder.fq.query == old(builder.fq.query)
    {
      AddFilters(builder.q, filters);
      return this;
    }

    /** `byLocale`: a `locale` phrase on the given locale, or on the
        application's when none is given. */
    method ByLocale(locale: Value, appLocale: Value) returns (self: Builder)
      requires Valid()
      modifies builder.q
      ensures self == this
      ensures builder.q.query == old(builder.q.query) + [PhraseEntry((LocaleOr(locale, appLocale), LocaleField))]
      ensures builder.fq.query == old(builder.fq.query)
    {
      var l := if Truthy(locale) then locale else appLocale;
      AddPhrase(builder.q, l, LocaleField);
      return this;
    }

    /** `searchableType`: a `searchable_type` phrase on the class name, then
        a `locale` phrase on the application locale iff the class is
        localized (`localized` holds the class names whose
        `getLocalizedSearchableId` is true). */
    method SearchableType(t: TypeRef, localized: set<Value>, appLocale: Value) returns (self: Builder)
      requires Valid()
      modifies builder.q
      ensures self == this
      ensures TypeName(t) in localized ==>
        builder.q.query == old(builder.q.query) + [PhraseEntry((TypeName(t), TypeField))] + [PhraseEntry((appLocale, LocaleField))]
      ensures TypeName(t) !in localized ==>
        builder.q.query == old(builder.q.query) + [PhraseEntry((TypeName(t), TypeField))]
      ensures builder.fq.query == old(builder.fq.query)
    {
      var name := TypeName(t);
      AddPhrase(builder.q, name, TypeField);
      if name in localized {
        assert !Truthy(Null);
        self := ByLocale(Null, appLocale);
      }
      return this;
    }

    method Cursor(c: Value) returns (self: Builder)
      modifies builder
      ensures self == this
      ensures builder.State() == old(builder.State()).(cursor := CursorValue(c))
    {
      builder.Cursor(c);
      return this;
    }

    method Expr(accessor: string, expression: Value) returns (self: Builder)
      modifies builder
      ensures self == this
      ensures builder.State() == old(builder.State()).(expressions := Put(old(builder.expressions), accessor, expression))
    {
      builder.Expr(accessor, expression);
      return this;
    }

    method Facet(field: string, sort: Value, size: Value) returns (self: Builder)
      modifies builder
      ensures self == this
      ensures builder.State() == old(builder.State()).(facets := Put(old(builder.facets), field, SortSize(sort, size)))
    {
      builder.Facet(field, sort, size);
      return this;
    }

    method FacetBuckets(field: string, buckets: Value, bucketMethod: Value) returns (self: Builder)
      modifies builder
      ensures self == this
      ensures builder.State() == old(builder.State()).(facets := Put(old(builder.facets), field, Buckets(buckets, bucketMethod)))
    {
      builder.FacetBuckets(field, buckets, bucketMethod);
      return this;
    }

    method ReturnFields(value: Value) returns (self: Builder)
      modifies builder
      ensures self == this
      ensures builder.State() == old(builder.State()).(returnFields := value)
    {
      builder.ReturnFields(value);
      return this;
    }

    method Options(key: string, value: Value) returns (self: Builder)
      modifies builder
      ensures self == this
      ensures builder.State() == old(builder.State()).(options := Put(old(builder.options), key, value))
    {
      builder.Options(key, value);
      return this;
    }

    /** `take`: the request size. */
    method Take(value: Value) returns (self: Builder)
      modifies builder
      ensures self == this
      ensures builder.State() == old(builder.State()).(size := value)
    {
      builder.Size(value);
      return this;
    }

    method Sort(field: Value, direction: Value) returns (self: Builder)
      modifies builder
      ensures self == this
      ensures builder.State() == old(builder.State()).(sort := Str(Interpolate(field) + " " + Interpolate(direction)))
    {
      builder.Sort(field, direction);
      return this;
    }

    method Start(value: Value) returns (self: Builder)
      modifies builder
      ensures self == this
      ensures builder.State() == old(builder.State()).(start := value)
    {
      builder.Start(value);
      return this;
    }

    method Stats(field: Value) returns (self: Builder)
      modifies builder
      ensures self == this
      ensures builder.State() == old(builder.State()).(stats := old(builder.stats) + [field])
    {
      builder.Stats(field);
      return this;
    }

    method LatLon(field: Value, lat: string, lon: string,
                  lat1: string, lon1: string, lat2: string, lon2: string, addExpr: Value) returns (self: Builder)
      requires Valid()
      modifies builder, builder.fq
      ensures self == this
      ensures builder.fq.query == old(builder.fq.query) + [RangeText(field, "['" + lat1 + "," + lon1 + "','" + lat2 + "," + lon2 + "']")]
      ensures builder.q.query == old(builder.q.query)
      ensures builder.State() == if Truthy(addExpr)
        then old(builder.State()).(expressions := Put(old(builder.expressions), "distance", Str(HaversinText(field, Str(lat), Str(lon)))))
        else old(builder.State())
    {
      builder.LatLon(field, lat, lon, lat1, lon1, lat2, lon2, addExpr);
      return this;
    }

    method AddDistanceExpr(field: Value, lat: Value, lon: Value) returns (self: Builder)
      modifies builder
      ensures self == this
      ensures builder.State() == old(builder.State()).(expressions := Put(old(builder.expressions), "distance", Str(HaversinText(field, lat, lon))))
    {
      builder.AddDistanceExpr(field, lat, lon);
      return this;
    }

    /** `get`: the hits the search service returns for the compiled request,
        hydrated one to one. */
    function Get(codec: Codec, search: OMap<Param, Value> -> seq<OMap<string, seq<Value>>>): (r: seq<Option<Record>>)
      reads this, builder, builder.q, builder.fq
      ensures |r| == |search(builder.BuildStructuredQuery(codec))|
      ensures forall i | 0 <= i < |r| :: r[i] == NewFromHit(search(builder.BuildStructuredQuery(codec))[i])
    {
      HydrateResults(search(builder.BuildStructuredQuery(codec)))
    }

    /** `first`: size 1, then the first result of `get` (`None` when there
        are no hits; a hit without a type is itself a `null` result). */
    method First(codec: Codec, search: OMap<Param, Value> -> seq<OMap<string, seq<Value>>>) returns (r: Option<Option<Record>>)
      modifies builder
      ensures builder.State() == old(builder.State()).(size := Int(1))
      ensures Collections.Get(builder.BuildStructuredQuery(codec), Param.Size) == Some(Int(1))
      ensures var hits := search(builder.BuildStructuredQuery(codec));
        if hits == [] then r == None else r == Some(NewFromHit(hits[0]))
    {
      var self := Take(Int(1));
      var results := Get(codec, search);
      r := if results == [] then None else Some(results[0]);
    }

    /** `paginate`: size and offset for the requested page, then the page's
        results. */
    method Paginate(page: int, perPage: int, codec: Codec, search: OMap<Param, Value> -> seq<OMap<string, seq<Value>>>)
      returns (results: seq<Option<Record>>)
      modifies builder
      ensures builder.State() == old(builder.State()).(size := Int(perPage), start := Int(PageOffset(page, perPage)))
      ensures results == HydrateResults(search(builder.BuildStructuredQuery(codec)))
    {
      Searcher.Paginate(builder, page, perPage);
      results := Get(codec, search);
    }
  }
}
