/** The pure parts of `CloudSearcher`: the documents an upload or a delete
    sends, the attributes a search hit is turned back into, result grouping
    by table, the multi-level array test and the paging offset. */
module Searcher {
  import opened Wrappers
  import opened Php
  import opened Collections
  import opened Requests

  /** A searchable model as the client sees it: its class, its primary key,
      its locale when the class is localized, the document it produces
      (`getSearchDocument` of the model) and its table. */
  datatype Model = Model(className: string, key: Value, locale: Option<Value>, document: OMap<string, Value>, table: string)

  /** `getSearchableId`: `LOCALE-KEY` for a localized model, the key otherwise. */
  function SearchableId(m: Model): (id: Value)
    ensures m.locale.None? ==> id == m.key
    ensures m.locale.Some? ==> id.Str? && |id.s| > |Interpolate(m.locale.value)|
                               && id.s[|Interpolate(m.locale.value)|] == '-'
  {
    match m.locale
    case None => m.key
    case Some(l) => Str(Interpolate(l) + "-" + Interpolate(m.key))
  }

  /** `CloudSearcher::getSearchDocument`: the model's document with
      `searchable_type` set to its class. */
  function SearchDocument(m: Model): (d: OMap<string, Value>)
    ensures Get(d, "searchable_type") == Some(Str(m.className))
    ensures forall k | k != "searchable_type" :: Get(d, k) == Get(m.document, k)
  {
    Put(m.document, "searchable_type", Str(m.className))
  }

  /** The document always carries `searchable_type`, so the empty-document
      skip of `update` never applies. */
  lemma SearchDocumentNonEmpty(m: Model)
    ensures SearchDocument(m) != []
  {
    var d := SearchDocument(m);
    GetNoneIffAbsent(d, "searchable_type");
  }

  /** The `array_map` of `update`: every `null` field becomes `''`. */
  function BlankNulls(fields: OMap<string, Value>): (r: OMap<string, Value>)
    ensures |r| == |fields|
    ensures forall i | 0 <= i < |r| :: r[i].0 == fields[i].0 && r[i].1 != Null
    ensures forall i | 0 <= i < |r| :: r[i].1 == if fields[i].1 == Null then Str("") else fields[i].1
  {
    seq(|fields|, i requires 0 <= i < |fields| => (fields[i].0, if fields[i].1 == Null then Str("") else fields[i].1))
  }

  /** One document of an upload batch: `{type: 'add', id, fields}` or
      `{type: 'delete', version, id}`. */
  datatype Document =
    | Add(id: Value, fields: OMap<string, Value>)
    | Delete(version: int, id: Value)

  /** `update`: one `add` document per model, in order. */
  method Update(models: seq<Model>) returns (payload: seq<Document>)
    ensures |payload| == |models|
    ensures forall i | 0 <= i < |models| ::
      payload[i] == Add(SearchableId(models[i]), BlankNulls(SearchDocument(models[i])))
  {
    payload := [];
    var i := 0;
    while i < |models|
      invariant 0 <= i <= |models| && |payload| == i
      invariant forall j | 0 <= j < i ::
        payload[j] == Add(SearchableId(models[j]), BlankNulls(SearchDocument(models[j])))
    {
      var fields := SearchDocument(models[i]);
      payload := payload + [Add(SearchableId(models[i]), BlankNulls(fields))];
      i := i + 1;
    }
  }

  /** `remove`: one `delete` document of version 1 per model, in order. */
  method Remove(models: seq<Model>) returns (payload: seq<Document>)
    ensures |payload| == |models|
    ensures forall i | 0 <= i < |models| :: payload[i] == Delete(1, SearchableId(models[i]))
  {
    payload := [];
    var i := 0;
    while i < |models|
      invariant 0 <= i <= |models| && |payload| == i
      invariant forall j | 0 <= j < i :: payload[j] == Delete(1, SearchableId(models[j]))
    {
      payload := payload + [Delete(1, SearchableId(models[i]))];
      i := i + 1;
    }
  }


  /** `str_replace('\\', '/', $s)`. */
  function Slashes(s: string): (r: string)
    ensures |r| == |s|
    ensures forall i | 0 <= i < |s| :: r[i] == if s[i] == '\\' then '/' else s[i]
  {
    if s == [] then [] else [if s[0] == '\\' then '/' else s[0]] + Slashes(s[1..])
  }

  /** `s` without its trailing slashes. */
  function TrimSlashes(s: string): (r: string)
    ensures |r| <= |s| && r == s[..|r|]
    ensures r == [] || r[|r| - 1] != '/'
  {
    if s != [] && s[|s| - 1] == '/' then TrimSlashes(s[..|s| - 1]) else s
  }

  /** The text after the last slash (all of `s` when it has none). */
  function AfterLastSlash(s: string): (r: string)
    ensures |r| <= |s| && r == s[|s| - |r|..]
    ensures forall i | 0 <= i < |r| :: r[i] != '/'
  {
    if s == [] || s[|s| - 1] == '/' then []
    else
      var r := AfterLastSlash(s[..|s| - 1]) + [s[|s| - 1]];
      assert s[|s| - |r|..] == s[..|s| - 1][|s| - 1 - (|r| - 1)..] + [s[|s| - 1]];
      r
  }

  /** `basename` of a `/`-separated path: trailing slashes ignored. */
  function Basename(s: string): string {
    AfterLastSlash(TrimSlashes(s))
  }

  /** `result_type`: the base name of the lower-cased class with namespace
      separators read as path separators. */
  function ResultType(model: Value): (r: string)
    ensures |r| <= |Interpolate(model)|
    ensures forall i | 0 <= i < |r| :: r[i] != '/' && r[i] != '\\' && !('A' <= r[i] <= 'Z')
  {
    ResultTypeChars(Interpolate(model));
    Basename(Slashes(Lower(Interpolate(model))))
  }

  /** The base name of a lower-cased, slash-separated class name has no
      separator and no capital, and is no longer than the name. */
  lemma ResultTypeChars(s: string)
    ensures |Basename(Slashes(Lower(s)))| <= |s|
    ensures forall i | 0 <= i < |Basename(Slashes(Lower(s)))| ::
      var c := Basename(Slashes(Lower(s)))[i]; c != '/' && c != '\\' && !('A' <= c <= 'Z')
  {
    var path := Slashes(Lower(s));
    var base := Basename(path);
    PathChars(s);
    BasenameChars(path);
    forall i | 0 <= i < |base| ensures base[i] != '/' && base[i] != '\\' && !('A' <= base[i] <= 'Z') {
      var j :| 0 <= j < |path| && path[j] == base[i];
    }
  }

  /** After lower-casing and replacing backslashes, no backslash and no
      upper-case letter is left. */
  lemma PathChars(s: string)
    ensures forall j | 0 <= j < |Slashes(Lower(s))| :: Slashes(Lower(s))[j] != '\\' && !('A' <= Slashes(Lower(s))[j] <= 'Z')
  {
    var low := Lower(s);
    forall j | 0 <= j < |low| ensures low[j] != '\\' ==> !('A' <= low[j] <= 'Z') {
      if 'A' <= s[j] <= 'Z' {
        assert low[j] as int == s[j] as int + 32;
      }
    }
  }

  /** The base name is a slash-free piece of the path. */
  lemma BasenameChars(path: string)
    ensures |Basename(path)| <= |path|
    ensures forall i | 0 <= i < |Basename(path)| :: Basename(path)[i] != '/' && Basename(path)[i] in path
  {
    var trimmed := TrimSlashes(path);
    var base := AfterLastSlash(trimmed);
    forall i | 0 <= i < |base| ensures base[i] in path {
      assert base[i] == trimmed[|trimmed| - |base| + i] == path[|trimmed| - |base| + i];
    }
  }

  lemma {:induction false} AfterLastSlashOf(x: string, name: string)
    requires forall i | 0 <= i < |name| :: name[i] != '/'
    ensures AfterLastSlash(x + "/" + name) == name
  {
    var s := x + "/" + name;
    if name == [] {
      assert s[|s| - 1] == '/';
    } else {
      var init := name[..|name| - 1];
      assert s[..|s| - 1] == x + "/" + init;
      AfterLastSlashOf(x, init);
      assert init + [name[|name| - 1]] == name;
    }
  }

  lemma {:induction false} AfterLastSlashPlain(name: string)
    requires forall i | 0 <= i < |name| :: name[i] != '/'
    ensures AfterLastSlash(name) == name
  {
    if name != [] {
      var init := name[..|name| - 1];
      AfterLastSlashPlain(init);
      assert init + [name[|name| - 1]] == name;
    }
  }

  lemma {:induction false} LowerAppend(a: string, b: string)
    ensures Lower(a + b) == Lower(a) + Lower(b)
  {
    if a == [] {
      assert a + b == b;
    } else {
      assert (a + b)[1..] == a[1..] + b;
      LowerAppend(a[1..], b);
      AppendAssoc(Lower(a[..1]), Lower(a[1..]), Lower(b));
      assert Lower(a) == Lower(a[..1]) + Lower(a[1..]);
    }
  }

  lemma {:induction false} SlashesAppend(a: string, b: string)
    ensures Slashes(a + b) == Slashes(a) + Slashes(b)
  {
    if a == [] {
      assert a + b == b;
    } else {
      assert (a + b)[1..] == a[1..] + b;
      SlashesAppend(a[1..], b);
      AppendAssoc(Slashes(a[..1]), Slashes(a[1..]), Slashes(b));
      assert Slashes(a) == Slashes(a[..1]) + Slashes(a[1..]);
    }
  }

  /** Lower-casing keeps a name free of separators and non-empty. */
  lemma LowerPlain(name: string)
    requires name != []
    requires forall i | 0 <= i < |name| :: name[i] != '/' && name[i] != '\\'
    ensures Lower(name) != [] && Slashes(Lower(name)) == Lower(name)
    ensures forall i | 0 <= i < |Lower(name)| :: Lower(name)[i] != '/'
  {
  }

  lemma BasenamePlain(s: string)
    requires s != []
    requires forall i | 0 <= i < |s| :: s[i] != '/'
    ensures Basename(s) == s
  {
    assert TrimSlashes(s) == s;
    AfterLastSlashPlain(s);
  }

  lemma BasenameLast(x: string, s: string)
    requires s != []
    requires forall i | 0 <= i < |s| :: s[i] != '/'
    ensures Basename(x + "/" + s) == s
  {
    assert (x + "/" + s)[|x + "/" + s| - 1] == s[|s| - 1];
    assert TrimSlashes(x + "/" + s) == x + "/" + s;
    AfterLastSlashOf(x, s);
  }

  /** A class `NS\Name` has the result type `name`: the lower-cased short
      class name. */
  lemma ResultTypeOfClass(ns: string, name: string)
    requires name != []
    requires forall i | 0 <= i < |name| :: name[i] != '/' && name[i] != '\\'
    ensures ResultType(Str(ns + "\\" + name)) == Lower(name)
  {
    var low := Lower(name);
    LowerPlain(name);
    assert Slashes(Lower(ns + "\\" + name)) == Slashes(Lower(ns)) + "/" + low by {
      LowerAppend(ns + "\\", name);
      LowerAppend(ns, "\\");
      SlashesAppend(Lower(ns) + Lower("\\"), low);
      SlashesAppend(Lower(ns), Lower("\\"));
      assert Slashes(Lower("\\")) == "/";
    }
    BasenameLast(Slashes(Lower(ns)), low);
  }

  /** A class without a namespace keeps its whole (lower-cased) name. */
  lemma ResultTypeOfPlainClass(name: string)
    requires name != []
    requires forall i | 0 <= i < |name| :: name[i] != '/' && name[i] != '\\'
    ensures ResultType(Str(name)) == Lower(name)
  {
    LowerPlain(name);
    BasenamePlain(Lower(name));
  }

  /** `$field[0]` of a hit's value list (`null` for an empty list). */
  function FirstOf(vs: seq<Value>): Value {
    if vs == [] then Null else vs[0]
  }

  /** The `array_map` of `newFromHitBuilder`: each field's first value. */
  function Firsts(fields: OMap<string, seq<Value>>): (r: OMap<string, Value>)
    ensures forall k :: Get(r, k) == match Get(fields, k) case None => None case Some(vs) => Some(FirstOf(vs))
  {
    if fields == [] then []
    else
      var rest := Firsts(fields[1..]);
      assert ([(fields[0].0, FirstOf(fields[0].1))] + rest)[1..] == rest;
      [(fields[0].0, FirstOf(fields[0].1))] + rest
  }

  /** A search hit turned back into a model: its class and the attributes
      it is filled with. */
  datatype Record = Record(className: Value, attributes: OMap<string, Value>)

  /** The `searchable_type` a hit names, `null` when it has none. */
  function TypeOf(fields: OMap<string, seq<Value>>): Value {
    Get(Firsts(fields), "searchable_type").GetOr(Null)
  }

  /** The attributes of a hit: the first values, less `searchable_type`,
      plus `result_type`. */
  function HitAttributes(fields: OMap<string, seq<Value>>, resultType: string): (a: OMap<string, Value>)
    ensures Get(a, "searchable_type") == None
    ensures Get(a, "result_type") == Some(Str(resultType))
    ensures forall k | k != "searchable_type" && k != "result_type" :: Get(a, k) == Get(Firsts(fields), k)
  {
    Put(Collections.Remove(Firsts(fields), "searchable_type"), "result_type", Str(resultType))
  }

  /** `newFromHitBuilder` up to the reflective model construction. */
  function NewFromHit(fields: OMap<string, seq<Value>>): (r: Option<Record>)
    ensures r.Some? <==> Truthy(TypeOf(fields))
    ensures r.Some? ==> r.value.className == TypeOf(fields)
    ensures r.Some? ==> Get(r.value.attributes, "searchable_type") == None
    ensures r.Some? ==> Get(r.value.attributes, "result_type") == Some(Str(ResultType(TypeOf(fields))))
    ensures r.Some? ==> forall k | k != "searchable_type" && k != "result_type" ::
      Get(r.value.attributes, k) == match Get(fields, k) case None => None case Some(vs) => Some(FirstOf(vs))
  {
    var model := TypeOf(fields);
    if !Truthy(model) then None
    else Some(Record(model, HitAttributes(fields, ResultType(model))))
  }

  /** `hydrateResults`: one entry per hit, in order; a hit without a truthy
      `searchable_type` gives a `null` entry rather than being dropped. */
  function HydrateResults(hits: seq<OMap<string, seq<Value>>>): (r: seq<Option<Record>>)
    ensures |r| == |hits|
    ensures forall i | 0 <= i < |hits| :: r[i] == NewFromHit(hits[i])
    ensures forall i | 0 <= i < |hits| :: r[i].None? <==> !Truthy(TypeOf(hits[i]))
  {
    seq(|hits|, i requires 0 <= i < |hits| => NewFromHit(hits[i]))
  }

  /** `isMultiLevelArray`: every element is an array (vacuously for `[]`). */
  method IsMultiLevelArray(items: seq<Value>) returns (b: bool)
    ensures b <==> forall i | 0 <= i < |items| :: items[i].Arr?
  {
    var i := 0;
    while i < |items|
      invariant 0 <= i <= |items|
      invariant forall j | 0 <= j < i :: items[j].Arr?
    {
      if !items[i].Arr? {
        return false;
      }
      i := i + 1;
    }
    return true;
  }

  /** `groupResults`: `$groups[$item->getTable()][] = $item` for each item. */
  method GroupResults<T>(items: seq<T>, table: T -> string) returns (groups: OMap<string, seq<T>>)
    ensures groups == GroupBy(items, table)
    ensures DistinctKeys(groups)
    ensures multiset(Concat(Values(groups))) == multiset(items)
  {
    groups := [];
    var i := 0;
    while i < |items|
      invariant 0 <= i <= |items|
      invariant groups == GroupBy(items[..i], table)
    {
      assert items[..i + 1][..i] == items[..i];
      groups := AddToGroup(groups, table(items[i]), items[i]);
      i := i + 1;
    }
    assert items[..i] == items;
    GroupByDistinct(items, table);
    GroupByPartition(items, table);
  }

  /** The offset `paginate` asks for: the hits on the pages before `page`. */
  function PageOffset(page: int, perPage: int): (n: int)
    ensures page >= 1 && perPage >= 0 ==> n >= 0
    ensures n == (page - 1) * perPage
  {
    page * perPage - perPage
  }

  /** `paginate`'s settings: `size($perPage)->start($page * $perPage - $perPage)`
      on the request builder. */
  method Paginate(b: StructuredQueryBuilder, page: int, perPage: int)
    modifies b
    ensures b.State() == old(b.State()).(size := Int(perPage), start := Int(PageOffset(page, perPage)))
  {
    b.Size(Int(perPage));
    b.Start(Int(page * perPage - perPage));
  }

  /** Consecutive pages follow each other without gap or overlap. */
  lemma PagesTile(page: int, perPage: int)
    ensures PageOffset(1, perPage) == 0
    ensures PageOffset(page + 1, perPage) == PageOffset(page, perPage) + perPage
  {
  }
}
