/** `search:fields`: bring the index fields of the search domain in line
    with the configured ones. The configured fields, with `searchable_type`
    forced to `literal`, are the desired map; the domain's description is
    the remote map. Each remote field is deleted when it is no longer
    desired, redefined when its type changed, and left alone otherwise; the
    desired fields the domain lacks are then defined. The command as written
    redefines a changed field with the type the domain already has
    (`FieldOutcomeAsWritten`, `PlanAsWritten`), and the class follows it;
    `FieldOutcome` and `Plan` redefine it with the desired type, and only
    they bring the domain in line. Every request the
    domain answers with status 200 counts as one change, and a rebuild of
    the index is offered exactly when there was a change. The domain's
    answers are an oracle `respond(k, call)`: the status of the `k`-th
    request. */
module Fields {
  import opened Wrappers
  import opened Collections

  /** The status code of an accepted request. */
  const StatusOk := 200

  /** The field forced into every desired map, and its type. */
  const SearchableType := "searchable_type"
  const SearchableTypeType := "literal"

  /** A request to the domain: `defineIndexField` or `deleteIndexField`. */
  datatype FieldCall = Define(name: string, fieldType: string) | Delete(name: string)

  /** What the command reports at the end. */
  datatype Report = NoFields | UpToDate | RebuildOffered(changes: int)

  // ---------------------------------------------------------------------
  // The remote map

  /** `getFields`: the described fields, name to type, assigned in the order
      the domain lists them. */
  function Described(described: seq<(string, string)>): (r: OMap<string, string>)
    ensures DistinctKeys(r)
    ensures r == [] <==> described == []
  {
    if described == [] then []
    else
      var last := described[|described| - 1];
      var init := Described(described[..|described| - 1]);
      PutDistinct(init, last.0, last.1);
      Put(init, last.0, last.1)
  }

  /** Every name is listed once, a name the domain does not describe is
      absent, and a described name has the type of its last description. */
  lemma {:induction false} DescribedGet(described: seq<(string, string)>)
    ensures DistinctKeys(Described(described))
    ensures forall n :: Get(Described(described), n).None? <==> forall i | 0 <= i < |described| :: described[i].0 != n
    ensures forall i | 0 <= i < |described| && (forall j | i < j < |described| :: described[j].0 != described[i].0) ::
      Get(Described(described), described[i].0) == Some(described[i].1)
  {
    if described != [] {
      var init := described[..|described| - 1];
      var last := described[|described| - 1];
      DescribedGet(init);
      PutDistinct(Described(init), last.0, last.1);
      assert forall i | 0 <= i < |init| :: init[i] == described[i];
    }
  }

  /** `getFields` as the loop the command runs. */
  method GetFields(described: seq<(string, string)>) returns (fields: OMap<string, string>)
    ensures fields == Described(described)
  {
    fields := [];
    var i := 0;
    while i < |described|
      invariant 0 <= i <= |described|
      invariant fields == Described(described[..i])
    {
      assert described[..i + 1][..i] == described[..i];
      fields := Put(fields, described[i].0, described[i].1);
      i := i + 1;
    }
    assert described[..i] == described;
  }

  // ---------------------------------------------------------------------
  // The desired map and the plan

  /** The configured fields with `searchable_type` set to `literal`,
      whatever the configuration said. */
  function Forced(config: OMap<string, string>): (d: OMap<string, string>)
    ensures Get(d, SearchableType) == Some(SearchableTypeType)
    ensures forall n | n != SearchableType :: Get(d, n) == Get(config, n)
  {
    Put(config, SearchableType, SearchableTypeType)
  }

  /** The requests for one remote field `name` of type `remoteType`: delete
      it when it is not desired, redefine it with the desired type when the
      types differ, nothing when they agree. */
  function FieldOutcome(desired: OMap<string, string>, name: string, remoteType: string): (r: seq<FieldCall>)
    ensures |r| <= 1 && forall c | c in r :: c.name == name
    ensures r == [] <==> Get(desired, name) == Some(remoteType)
    ensures r == [Delete(name)] <==> Get(desired, name).None?
  {
    match Get(desired, name)
    case None => [Delete(name)]
    case Some(t) => if t != remoteType then [Define(name, t)] else []
  }

  /** `syncCurrentFields`: the requests for the remote fields in order, and
      the desired map with every remote name unset. */
  function Reconcile(remote: OMap<string, string>, desired: OMap<string, string>): (r: (seq<FieldCall>, OMap<string, string>))
    ensures |r.0| <= |remote|
    ensures |r.1| <= |desired|
  {
    if remote == [] then ([], desired)
    else
      var tail := Reconcile(remote[1..], Remove(desired, remote[0].0));
      RemoveShrinks(desired, remote[0].0);
      (FieldOutcome(desired, remote[0].0, remote[0].1) + tail.0, tail.1)
  }

  lemma {:induction false} RemoveShrinks(m: OMap<string, string>, k: string)
    ensures |Remove(m, k)| <= |m|
  {
    if m != [] {
      RemoveShrinks(m[1..], k);
    }
  }

  /** `syncNewFields`: define every field left in the desired map. */
  function Defines(rest: OMap<string, string>): (r: seq<FieldCall>)
    ensures |r| == |rest| && forall c | c in r :: c.Define?
  {
    if rest == [] then [] else [Define(rest[0].0, rest[0].1)] + Defines(rest[1..])
  }

  /** Every request `handle` makes for a non-empty configuration. */
  function Plan(config: OMap<string, string>, remote: OMap<string, string>): (r: seq<FieldCall>)
    ensures |r| <= |remote| + |Forced(config)|
  {
    var sync := Reconcile(remote, Forced(config));
    sync.0 + Defines(sync.1)
  }

  /** After `syncCurrentFields` no remote name is left in the desired map,
      and every desired name the domain lacks still is: `syncNewFields`
      defines exactly the desired fields absent remotely. */
  lemma {:induction false} ReconcileLeftover(remote: OMap<string, string>, desired: OMap<string, string>)
    ensures forall n :: Get(Reconcile(remote, desired).1, n) == if Get(remote, n).Some? then None else Get(desired, n)
  {
    if remote != [] {
      ReconcileLeftover(remote[1..], Remove(desired, remote[0].0));
    }
  }

  /** Unsetting keys keeps them distinct. */
  lemma {:induction false} RemoveDistinct(m: OMap<string, string>, k: string)
    requires DistinctKeys(m)
    ensures DistinctKeys(Remove(m, k))
  {
    if m != [] {
      assert DistinctKeys(m[1..]) by {
        forall a, b | 0 <= a < b < |m[1..]| ensures m[1..][a].0 != m[1..][b].0 {
          assert m[1..][a] == m[a + 1] && m[1..][b] == m[b + 1];
        }
      }
      RemoveDistinct(m[1..], k);
      if m[0].0 != k {
        var rest := Remove(m[1..], k);
        GetNoneIffAbsent(m[1..], m[0].0);
        GetNoneIffAbsent(rest, m[0].0);
        assert m[0].0 !in Keys(rest);
        assert forall j | 0 <= j < |rest| :: rest[j].0 == Keys(rest)[j];
      }
    }
  }

  lemma {:induction false} ReconcileDistinct(remote: OMap<string, string>, desired: OMap<string, string>)
    requires DistinctKeys(desired)
    ensures DistinctKeys(Reconcile(remote, desired).1)
  {
    if remote != [] {
      RemoveDistinct(desired, remote[0].0);
      ReconcileDistinct(remote[1..], Remove(desired, remote[0].0));
    }
  }

  // ---------------------------------------------------------------------
  // What the requests do to the domain, when it accepts them

  function Effect(m: OMap<string, string>, c: FieldCall): OMap<string, string>
  {
    match c
    case Define(n, t) => Put(m, n, t)
    case Delete(n) => Remove(m, n)
  }

  function Apply(m: OMap<string, string>, calls: seq<FieldCall>): OMap<string, string>
    decreases |calls|
  {
    if calls == [] then m else Apply(Effect(m, calls[0]), calls[1..])
  }

  lemma {:induction false} ApplyAppend(m: OMap<string, string>, a: seq<FieldCall>, b: seq<FieldCall>)
    ensures Apply(m, a + b) == Apply(Apply(m, a), b)
    decreases |a|
  {
    if a == [] {
      assert a + b == b;
    } else {
      assert (a + b)[1..] == a[1..] + b;
      ApplyAppend(Effect(m, a[0]), a[1..], b);
    }
  }

  /** The type a field has once the requests for it are carried out. */
  function Settled(m: OMap<string, string>, desired: OMap<string, string>, n: string, remoteType: string): Option<string>
  {
    match Get(desired, n)
    case None => None
    case Some(t) => if t != remoteType then Some(t) else Get(m, n)
  }

  /** The requests for one field touch that field only. */
  lemma FieldOutcomeEffect(m: OMap<string, string>, desired: OMap<string, string>, k: string, t: string)
    ensures forall n :: Get(Apply(m, FieldOutcome(desired, k, t)), n) == if n == k then Settled(m, desired, k, t) else Get(m, n)
  {
    var calls := FieldOutcome(desired, k, t);
    if calls != [] {
      assert calls[1..] == [];
    }
  }

  lemma {:induction false} ApplyReconcile(m: OMap<string, string>, remote: OMap<string, string>, desired: OMap<string, string>)
    requires DistinctKeys(remote)
    ensures forall n :: Get(Apply(m, Reconcile(remote, desired).0), n) == (if Get(remote, n).Some? then Settled(m, desired, n, Get(remote, n).value) else Get(m, n))
    decreases |remote|
  {
    if remote != [] {
      var k, t := remote[0].0, remote[0].1;
      var first := FieldOutcome(desired, k, t);
      var m1 := Apply(m, first);
      var d1 := Remove(desired, k);
      assert DistinctKeys(remote[1..]) by {
        forall a, b | 0 <= a < b < |remote[1..]| ensures remote[1..][a].0 != remote[1..][b].0 {
          assert remote[1..][a] == remote[a + 1] && remote[1..][b] == remote[b + 1];
        }
      }
      ApplyAppend(m, first, Reconcile(remote[1..], d1).0);
      FieldOutcomeEffect(m, desired, k, t);
      ApplyReconcile(m1, remote[1..], d1);
      assert Get(remote[1..], k).None? by {
        GetNoneIffAbsent(remote[1..], k);
        assert forall j | 0 <= j < |remote[1..]| :: Keys(remote[1..])[j] == remote[j + 1].0;
      }
    }
  }

  lemma {:induction false} ApplyDefines(m: OMap<string, string>, rest: OMap<string, string>)
    requires DistinctKeys(rest)
    ensures forall n :: Get(Apply(m, Defines(rest)), n) == if Get(rest, n).Some? then Get(rest, n) else Get(m, n)
    decreases |rest|
  {
    if rest != [] {
      var tail := rest[1..];
      assert DistinctKeys(tail) by {
        forall a, b | 0 <= a < b < |tail| ensures tail[a].0 != tail[b].0 {
          assert tail[a] == rest[a + 1] && tail[b] == rest[b + 1];
        }
      }
      assert Get(tail, rest[0].0).None? by {
        GetNoneIffAbsent(tail, rest[0].0);
        assert forall j | 0 <= j < |tail| :: Keys(tail)[j] == rest[j + 1].0;
      }
      ApplyDefines(Put(m, rest[0].0, rest[0].1), tail);
    }
  }

  /** When the domain accepts every request, the plan leaves it with
      exactly the desired fields and types. */
  lemma PlanConverges(config: OMap<string, string>, remote: OMap<string, string>)
    requires DistinctKeys(config) && DistinctKeys(remote)
    ensures InSync(config, Apply(remote, Plan(config, remote)))
  {
    var desired := Forced(config);
    var sync := Reconcile(remote, desired);
    PutDistinct(config, SearchableType, SearchableTypeType);
    ReconcileDistinct(remote, desired);
    ReconcileLeftover(remote, desired);
    ApplyReconcile(remote, remote, desired);
    ApplyAppend(remote, sync.0, Defines(sync.1));
    ApplyDefines(Apply(remote, sync.0), sync.1);
  }

  lemma {:induction false} ReconcileQuiet(remote: OMap<string, string>, desired: OMap<string, string>)
    requires DistinctKeys(remote)
    requires forall i | 0 <= i < |remote| :: Get(desired, remote[i].0) == Some(remote[i].1)
    ensures Reconcile(remote, desired).0 == []
  {
    if remote != [] {
      var d1 := Remove(desired, remote[0].0);
      var tail := remote[1..];
      forall i | 0 <= i < |tail| ensures Get(d1, tail[i].0) == Some(tail[i].1) {
        assert tail[i] == remote[i + 1];
      }
      assert DistinctKeys(tail) by {
        forall a, b | 0 <= a < b < |tail| ensures tail[a].0 != tail[b].0 {
          assert tail[a] == remote[a + 1] && tail[b] == remote[b + 1];
        }
      }
      ReconcileQuiet(tail, d1);
    }
  }

  /** The domain has exactly the desired fields, with the desired types. */
  ghost predicate InSync(config: OMap<string, string>, remote: OMap<string, string>) {
    forall n :: Get(remote, n) == Get(Forced(config), n)
  }

  /** A domain already in line with the desired map gets no request, and
      one that gets none is in line: the plan is empty exactly when every
      field already has its desired type. */
  lemma PlanEmptyIffInSync(config: OMap<string, string>, remote: OMap<string, string>)
    requires DistinctKeys(config) && DistinctKeys(remote)
    ensures Plan(config, remote) == [] <==> InSync(config, remote)
  {
    if Plan(config, remote) == [] {
      PlanConverges(config, remote);
      assert Apply(remote, Plan(config, remote)) == remote;
    }
    if InSync(config, remote) {
      InSyncQuiet(config, remote);
    }
  }

  lemma InSyncQuiet(config: OMap<string, string>, remote: OMap<string, string>)
    requires DistinctKeys(remote)
    requires InSync(config, remote)
    ensures Plan(config, remote) == []
  {
    var desired := Forced(config);
    forall i | 0 <= i < |remote| ensures Get(desired, remote[i].0) == Some(remote[i].1) {
      GetAt(remote, i);
    }
    ReconcileQuiet(remote, desired);
    var rest := Reconcile(remote, desired).1;
    ReconcileLeftover(remote, desired);
    NothingFoundEmpty(rest);
  }

  lemma NothingFoundEmpty(m: OMap<string, string>)
    ensures (forall n :: Get(m, n).None?) ==> m == []
  {
    if m != [] {
      assert Get(m, m[0].0).Some?;
    }
  }

  /** `syncCurrentFields` as written redefines a changed field with the
      type the domain already has, not the desired one. */
  function FieldOutcomeAsWritten(desired: OMap<string, string>, name: string, remoteType: string): (r: seq<FieldCall>)
    ensures |r| == |FieldOutcome(desired, name, remoteType)| && forall c | c in r :: c.name == name
    ensures forall c | c in r && c.Define? :: c.fieldType == remoteType
    ensures r != FieldOutcome(desired, name, remoteType) <==> Get(desired, name).Some? && Get(desired, name) != Some(remoteType)
  {
    match Get(desired, name)
    case None => [Delete(name)]
    case Some(t) => if t != remoteType then [Define(name, remoteType)] else []
  }

  /** The remote pass as written: the same walk as `Reconcile`, with each
      field's requests from `FieldOutcomeAsWritten`. It leaves the same
      fields for the new-field pass and makes a request exactly where the
      corrected pass does. */
  function ReconcileAsWritten(remote: OMap<string, string>, desired: OMap<string, string>): (r: (seq<FieldCall>, OMap<string, string>))
    ensures r.1 == Reconcile(remote, desired).1
    ensures |r.0| == |Reconcile(remote, desired).0|
  {
    if remote == [] then ([], desired)
    else
      var tail := ReconcileAsWritten(remote[1..], Remove(desired, remote[0].0));
      (FieldOutcomeAsWritten(desired, remote[0].0, remote[0].1) + tail.0, tail.1)
  }

  /** Every request `handle` as written makes for a non-empty
      configuration. */
  function PlanAsWritten(config: OMap<string, string>, remote: OMap<string, string>): (r: seq<FieldCall>)
    ensures |r| == |Plan(config, remote)|
  {
    var sync := ReconcileAsWritten(remote, Forced(config));
    sync.0 + Defines(sync.1)
  }

  /** The type a field has once the as-written requests for it are carried
      out: a changed field keeps `remoteType`. */
  function SettledAsWritten(m: OMap<string, string>, desired: OMap<string, string>, n: string, remoteType: string): Option<string>
  {
    match Get(desired, n)
    case None => None
    case Some(t) => if t != remoteType then Some(remoteType) else Get(m, n)
  }

  lemma FieldOutcomeAsWrittenEffect(m: OMap<string, string>, desired: OMap<string, string>, k: string, t: string)
    ensures forall n :: Get(Apply(m, FieldOutcomeAsWritten(desired, k, t)), n) == if n == k then SettledAsWritten(m, desired, k, t) else Get(m, n)
  {
    var calls := FieldOutcomeAsWritten(desired, k, t);
    if calls != [] {
      assert calls[1..] == [];
    }
  }

  lemma {:induction false} ApplyReconcileAsWritten(m: OMap<string, string>, remote: OMap<string, string>, desired: OMap<string, string>)
    requires DistinctKeys(remote)
    ensures forall n :: Get(Apply(m, ReconcileAsWritten(remote, desired).0), n) == (if Get(remote, n).Some? then SettledAsWritten(m, desired, n, Get(remote, n).value) else Get(m, n))
    decreases |remote|
  {
    if remote != [] {
      var k, t := remote[0].0, remote[0].1;
      var first := FieldOutcomeAsWritten(desired, k, t);
      var m1 := Apply(m, first);
      var d1 := Remove(desired, k);
      assert DistinctKeys(remote[1..]) by {
        forall a, b | 0 <= a < b < |remote[1..]| ensures remote[1..][a].0 != remote[1..][b].0 {
          assert remote[1..][a] == remote[a + 1] && remote[1..][b] == remote[b + 1];
        }
      }
      ApplyAppend(m, first, ReconcileAsWritten(remote[1..], d1).0);
      FieldOutcomeAsWrittenEffect(m, desired, k, t);
      ApplyReconcileAsWritten(m1, remote[1..], d1);
      assert Get(remote[1..], k).None? by {
        GetNoneIffAbsent(remote[1..], k);
        assert forall j | 0 <= j < |remote[1..]| :: Keys(remote[1..])[j] == remote[j + 1].0;
      }
    }
  }

  /** What the domain holds after `handle` as written, when it accepts
      every request: fields no longer desired are gone and missing ones are
      defined, but a remote field that is still desired keeps the type it
      had, changed or not. */
  lemma PlanAsWrittenOutcome(config: OMap<string, string>, remote: OMap<string, string>)
    requires DistinctKeys(config) && DistinctKeys(remote)
    ensures forall n :: Get(Apply(remote, PlanAsWritten(config, remote)), n) == (if Get(remote, n).Some? && Get(Forced(config), n).Some? then Get(remote, n) else Get(Forced(config), n))
  {
    var desired := Forced(config);
    var sync := ReconcileAsWritten(remote, desired);
    PutDistinct(config, SearchableType, SearchableTypeType);
    ReconcileDistinct(remote, desired);
    ReconcileLeftover(remote, desired);
    ApplyReconcileAsWritten(remote, remote, desired);
    ApplyAppend(remote, sync.0, Defines(sync.1));
    ApplyDefines(Apply(remote, sync.0), sync.1);
  }

  /** As written, the plan is still empty exactly when the domain is
      already in line: a changed field draws a (useless) request. */
  lemma PlanAsWrittenEmptyIffInSync(config: OMap<string, string>, remote: OMap<string, string>)
    requires DistinctKeys(config) && DistinctKeys(remote)
    ensures PlanAsWritten(config, remote) == [] <==> InSync(config, remote)
  {
    PlanEmptyIffInSync(config, remote);
  }

  /** Carrying out requests keeps field names distinct. */
  lemma {:induction false} ApplyDistinct(m: OMap<string, string>, calls: seq<FieldCall>)
    requires DistinctKeys(m)
    ensures DistinctKeys(Apply(m, calls))
    decreases |calls|
  {
    if calls != [] {
      match calls[0] {
        case Define(n, t) => PutDistinct(m, n, t);
        case Delete(n) => RemoveDistinct(m, n);
      }
      ApplyDistinct(Effect(m, calls[0]), calls[1..]);
    }
  }

  /** As written, a field whose configured type differs from the domain's
      keeps the domain's type once every request is accepted, so the
      domain is not in line, and the next run requests again: the command
      never settles. */
  lemma AsWrittenNeverSettles(config: OMap<string, string>, remote: OMap<string, string>, n: string)
    requires DistinctKeys(config) && DistinctKeys(remote)
    requires Get(remote, n).Some? && Get(Forced(config), n).Some? && Get(Forced(config), n) != Get(remote, n)
    ensures Get(Apply(remote, PlanAsWritten(config, remote)), n) == Get(remote, n)
    ensures !InSync(config, Apply(remote, PlanAsWritten(config, remote)))
    ensures PlanAsWritten(config, Apply(remote, PlanAsWritten(config, remote))) != []
  {
    var after := Apply(remote, PlanAsWritten(config, remote));
    PlanAsWrittenOutcome(config, remote);
    ApplyDistinct(remote, PlanAsWritten(config, remote));
    PlanAsWrittenEmptyIffInSync(config, after);
  }

  /** `year` configured as `int` but indexed as `text`: as written the
      command asks to define it as `text` again, where the corrected plan
      asks for `int`. */
  lemma AsWrittenYearExample()
    ensures FieldOutcomeAsWritten([("year", "int")], "year", "text") == [Define("year", "text")]
    ensures FieldOutcome([("year", "int")], "year", "text") == [Define("year", "int")]
    ensures Get(Apply([("year", "text")], FieldOutcomeAsWritten([("year", "int")], "year", "text")), "year") == Some("text")
  {
    FieldOutcomeAsWrittenEffect([("year", "text")], [("year", "int")], "year", "text");
  }

  // ---------------------------------------------------------------------
  // Counting changes

  /** The number of requests the domain accepted. */
  function Accepted(log: seq<FieldCall>, respond: (nat, FieldCall) -> int): (c: nat)
    ensures c <= |log|
  {
    if log == [] then 0
    else Accepted(log[..|log| - 1], respond) + if respond(|log| - 1, log[|log| - 1]) == StatusOk then 1 else 0
  }

  /** There was a change exactly when some request was accepted. */
  lemma {:induction false} AcceptedPositive(log: seq<FieldCall>, respond: (nat, FieldCall) -> int)
    ensures Accepted(log, respond) > 0 <==> exists k | 0 <= k < |log| :: respond(k, log[k]) == StatusOk
  {
    if log != [] {
      var init := log[..|log| - 1];
      AcceptedPositive(init, respond);
      assert forall k | 0 <= k < |init| :: init[k] == log[k];
    }
  }

  class FieldsCommand {
    var changes: int
    /** The define and delete requests sent so far, in order. */
    var requests: seq<FieldCall>
    const respond: (nat, FieldCall) -> int

    /** `changes` counts the accepted requests. */
    predicate Valid()
      reads this
    {
      changes == Accepted(requests, respond)
    }

    constructor (respond: (nat, FieldCall) -> int)
      ensures changes == 0 && requests == [] && this.respond == respond
      ensures Valid()
    {
      changes := 0;
      requests := [];
      this.respond := respond;
    }

    /** `defineField`: one request; a change when it is accepted. */
    method DefineField(name: string, fieldType: string) returns (ok: bool)
      requires Valid()
      modifies this
      ensures Valid()
      ensures requests == old(requests) + [Define(name, fieldType)]
      ensures ok <==> respond(|old(requests)|, Define(name, fieldType)) == StatusOk
      ensures changes == old(changes) + if ok then 1 else 0
    {
      ok := respond(|requests|, Define(name, fieldType)) == StatusOk;
      requests := requests + [Define(name, fieldType)];
      assert requests[..|requests| - 1] == old(requests);
      if ok {
        changes := changes + 1;
      }
    }

    /** `deleteField`: one request; a change when it is accepted. */
    method DeleteField(name: string) returns (ok: bool)
      requires Valid()
      modifies this
      ensures Valid()
      ensures requests == old(requests) + [Delete(name)]
      ensures ok <==> respond(|old(requests)|, Delete(name)) == StatusOk
      ensures changes == old(changes) + if ok then 1 else 0
    {
      ok := respond(|requests|, Delete(name)) == StatusOk;
      requests := requests + [Delete(name)];
      assert requests[..|requests| - 1] == old(requests);
      if ok {
        changes := changes + 1;
      }
    }

    /** The requests for one remote field. */
    method SyncField(rest: OMap<string, string>, name: string, remoteType: string)
      requires Valid()
      modifies this
      ensures Valid()
      ensures requests == old(requests) + FieldOutcomeAsWritten(rest, name, remoteType)
    {
      var current := Get(rest, name);
      if current.None? {
        var _ := DeleteField(name);
      } else if current.value != remoteType {
        var _ := DefineField(name, remoteType);
      }
    }

    /** `syncCurrentFields`, with a changed field redefined with the type
        the domain already has; returns what is left of the desired map. */
    method SyncCurrentFields(fields: OMap<string, string>, remote: OMap<string, string>) returns (rest: OMap<string, string>)
      requires Valid()
      modifies this
      ensures Valid()
      ensures requests == old(requests) + ReconcileAsWritten(remote, fields).0
      ensures rest == ReconcileAsWritten(remote, fields).1
    {
      rest := fields;
      var i := 0;
      while i < |remote|
        invariant 0 <= i <= |remote|
        invariant Valid()
        invariant requests + ReconcileAsWritten(remote[i..], rest).0 == old(requests) + ReconcileAsWritten(remote, fields).0
        invariant ReconcileAsWritten(remote[i..], rest).1 == ReconcileAsWritten(remote, fields).1
      {
        var name, remoteType := remote[i].0, remote[i].1;
        ghost var before := requests;
        ghost var next := ReconcileAsWritten(remote[i + 1..], Collections.Remove(rest, name));
        assert remote[i..][1..] == remote[i + 1..];
        assert ReconcileAsWritten(remote[i..], rest) == (FieldOutcomeAsWritten(rest, name, remoteType) + next.0, next.1);
        SyncField(rest, name, remoteType);
        AppendAssoc(before, FieldOutcomeAsWritten(rest, name, remoteType), next.0);
        rest := Collections.Remove(rest, name);
        i := i + 1;
      }
    }

    /** `syncNewFields`: define every field left. */
    method SyncNewFields(rest: OMap<string, string>)
      requires Valid()
      modifies this
      ensures Valid()
      ensures requests == old(requests) + Defines(rest)
    {
      var i := 0;
      while i < |rest|
        invariant 0 <= i <= |rest|
        invariant Valid()
        invariant requests + Defines(rest[i..]) == old(requests) + Defines(rest)
      {
        assert rest[i..][1..] == rest[i + 1..];
        var _ := DefineField(rest[i].0, rest[i].1);
        i := i + 1;
      }
    }

    /** The two sync passes of `handle`, one after the other. */
    method Sync(fields: OMap<string, string>, remote: OMap<string, string>)
      requires Valid()
      modifies this
      ensures Valid()
      ensures requests == old(requests) + (ReconcileAsWritten(remote, fields).0 + Defines(ReconcileAsWritten(remote, fields).1))
    {
      ghost var before := requests;
      ghost var sync := ReconcileAsWritten(remote, fields);
      var rest := SyncCurrentFields(fields, remote);
      SyncNewFields(rest);
      AppendAssoc(before, sync.0, Defines(sync.1));
    }

    /** `handle`: refuse an empty configuration; otherwise force
        `searchable_type`, sync against the domain's description and
        report whether the index needs a rebuild. */
    method Handle(config: OMap<string, string>, described: seq<(string, string)>) returns (report: Report)
      requires Valid()
      modifies this
      ensures Valid()
      ensures report.NoFields? <==> config == []
      ensures config == [] ==> requests == old(requests) && changes == old(changes)
      ensures config != [] ==> requests == old(requests) + PlanAsWritten(config, Described(described))
      ensures config != [] ==> report == if changes > 0 then RebuildOffered(changes) else UpToDate
    {
      if config == [] {
        return NoFields;
      }
      var fields := Forced(config);
      var remote := GetFields(described);
      Sync(fields, remote);
      if changes > 0 {
        report := RebuildOffered(changes);
      } else {
        report := UpToDate;
      }
    }
  }
}
