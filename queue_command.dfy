/** `QueueCommand`: claims a batch from the queue, splits it by action and
    then by model class, hands each group to the handler named by its
    action, and flushes the batch once every group has been handled. The
    search service and the database are sinks and oracles. */
module Batches {
  import opened Wrappers
  import opened Php
  import opened Collections
  import opened Searcher
  import opened Queues

  /** `batching_size` when the configuration does not set it. */
  const DefaultBatchingSize := 100

  /** One call on the search client. */
  datatype SinkCall =
    | Upload(models: seq<Model>)   // `update` of a chunk of records
    | Drop(ids: seq<string>)       // the delete of a chunk of entry ids

  /** One handler call: the action, the model class and its entries. */
  datatype Group = Group(action: string, model: string, items: seq<Entry>)

  function EntryTypeOf(e: Entry): string {
    e.entryType
  }

  /** `pluck('entry_id')`. */
  function Ids(items: seq<Entry>): (ids: seq<string>)
    ensures |ids| == |items|
    ensures forall i | 0 <= i < |items| :: ids[i] == items[i].entryId
  {
    seq(|items|, i requires 0 <= i < |items| => items[i].entryId)
  }

  lemma IdsAppend(a: seq<Entry>, b: seq<Entry>)
    ensures Ids(a + b) == Ids(a) + Ids(b)
  {
  }

  /** The handler groups of one action, in the order `groupBy('entry_type')`
      yields them. */
  function Tag(action: string, typed: OMap<string, seq<Entry>>): (gs: seq<Group>)
    ensures |gs| == |typed|
    ensures forall i | 0 <= i < |typed| :: gs[i] == Group(action, typed[i].0, typed[i].1)
  {
    seq(|typed|, i requires 0 <= i < |typed| => Group(action, typed[i].0, typed[i].1))
  }

  /** The handler groups of one action's collection. */
  function ActionGroups(p: (string, seq<Entry>)): seq<Group> {
    Tag(p.0, GroupBy(p.1, EntryTypeOf))
  }

  /** All handler groups of a batch, action by action. */
  function Groups(batch: OMap<string, seq<Entry>>): seq<Group> {
    if batch == [] then [] else Groups(batch[..|batch| - 1]) + ActionGroups(batch[|batch| - 1])
  }

  function GroupItems(gs: seq<Group>): (r: seq<seq<Entry>>)
    ensures |r| == |gs|
    ensures forall i | 0 <= i < |gs| :: r[i] == gs[i].items
  {
    seq(|gs|, i requires 0 <= i < |gs| => gs[i].items)
  }

  lemma GroupItemsAppend(a: seq<Group>, b: seq<Group>)
    ensures GroupItems(a + b) == GroupItems(a) + GroupItems(b)
  {
    assert forall i | 0 <= i < |a + b| :: GroupItems(a + b)[i] == (GroupItems(a) + GroupItems(b))[i];
  }

  /** The groups of one action hold its collection, split by model class. */
  lemma ActionGroupsPartition(p: (string, seq<Entry>))
    ensures multiset(Concat(GroupItems(ActionGroups(p)))) == multiset(p.1)
  {
    var typed := GroupBy(p.1, EntryTypeOf);
    assert GroupItems(ActionGroups(p)) == Values(typed);
    GroupByPartition(p.1, EntryTypeOf);
  }

  lemma ActionGroupsHomogeneous(p: (string, seq<Entry>))
    requires forall j | 0 <= j < |p.1| :: p.1[j].action == p.0
    ensures forall g | g in ActionGroups(p) :: forall j | 0 <= j < |g.items| ::
      g.items[j].action == g.action && g.items[j].entryType == g.model
  {
    var typed := GroupBy(p.1, EntryTypeOf);
    GroupByHomogeneous(p.1, EntryTypeOf);
    forall g | g in ActionGroups(p)
      ensures forall j | 0 <= j < |g.items| :: g.items[j].action == g.action && g.items[j].entryType == g.model
    {
      var k :| 0 <= k < |typed| && ActionGroups(p)[k] == g;
      assert g.items == typed[k].1;
    }
  }

  /** Every entry of a batch reaches exactly one handler group. */
  lemma {:induction false} GroupsPartition(batch: OMap<string, seq<Entry>>)
    ensures multiset(Concat(GroupItems(Groups(batch)))) == multiset(Concat(Values(batch)))
  {
    if batch != [] {
      var init := batch[..|batch| - 1];
      var last := batch[|batch| - 1];
      assert batch == init + [last];
      var before := GroupItems(Groups(init));
      var added := GroupItems(ActionGroups(last));
      assert Groups(batch) == Groups(init) + ActionGroups(last);
      GroupItemsAppend(Groups(init), ActionGroups(last));
      ConcatAppend(before, added);
      ConcatValuesAppend(init, last);
      calc {
        multiset(Concat(GroupItems(Groups(batch))));
        multiset(Concat(before) + Concat(added));
        multiset(Concat(before)) + multiset(Concat(added));
        { GroupsPartition(init); ActionGroupsPartition(last); }
        multiset(Concat(Values(init))) + multiset(last.1);
        multiset(Concat(Values(init)) + last.1);
        multiset(Concat(Values(batch)));
      }
    }
  }

  /** Each handler group holds only entries of its action and model class. */
  lemma {:induction false} GroupsHomogeneous(batch: OMap<string, seq<Entry>>)
    requires forall i, j | 0 <= i < |batch| && 0 <= j < |batch[i].1| :: batch[i].1[j].action == batch[i].0
    ensures forall g | g in Groups(batch) :: forall j | 0 <= j < |g.items| ::
      g.items[j].action == g.action && g.items[j].entryType == g.model
  {
    if batch != [] {
      var init := batch[..|batch| - 1];
      GroupsHomogeneous(init);
      ActionGroupsHomogeneous(batch[|batch| - 1]);
    }
  }

  /** The calls `update` makes: the records of class `model` found for the
      entry ids, in chunks. */
  function UpdateCalls(model: string, items: seq<Entry>, n: int, lookup: (string, seq<string>) -> seq<Model>): (r: seq<SinkCall>)
    ensures forall c | c in r :: c.Upload? && 0 < |c.models| <= n
    ensures r == [] <==> n <= 0 || lookup(model, Ids(items)) == []
  {
    var chunks := Chunks(lookup(model, Ids(items)), n);
    seq(|chunks|, i requires 0 <= i < |chunks| => Upload(chunks[i]))
  }

  /** The calls `delete` makes: the entry ids, in chunks. */
  function DeleteCalls(items: seq<Entry>, n: int): (r: seq<SinkCall>)
    ensures forall c | c in r :: c.Drop? && 0 < |c.ids| <= n
    ensures r == [] <==> n <= 0 || items == []
  {
    var chunks := Chunks(items, n);
    seq(|chunks|, i requires 0 <= i < |chunks| => Drop(Ids(chunks[i])))
  }

  function UploadedModels(calls: seq<SinkCall>): seq<Model> {
    if calls == [] then [] else (if calls[0].Upload? then calls[0].models else []) + UploadedModels(calls[1..])
  }

  function DroppedIds(calls: seq<SinkCall>): seq<string> {
    if calls == [] then [] else (if calls[0].Drop? then calls[0].ids else []) + DroppedIds(calls[1..])
  }

  lemma {:induction false} DroppedChunks(chunks: seq<seq<Entry>>)
    ensures DroppedIds(seq(|chunks|, i requires 0 <= i < |chunks| => Drop(Ids(chunks[i])))) == Ids(Concat(chunks))
  {
    if chunks != [] {
      var calls := seq(|chunks|, i requires 0 <= i < |chunks| => Drop(Ids(chunks[i])));
      DroppedChunks(chunks[1..]);
      assert calls[1..] == seq(|chunks[1..]|, i requires 0 <= i < |chunks[1..]| => Drop(Ids(chunks[1..][i])));
      IdsAppend(chunks[0], Concat(chunks[1..]));
    }
  }

  lemma {:induction false} UploadedChunks(chunks: seq<seq<Model>>)
    ensures UploadedModels(seq(|chunks|, i requires 0 <= i < |chunks| => Upload(chunks[i]))) == Concat(chunks)
  {
    if chunks != [] {
      var calls := seq(|chunks|, i requires 0 <= i < |chunks| => Upload(chunks[i]));
      UploadedChunks(chunks[1..]);
      assert calls[1..] == seq(|chunks[1..]|, i requires 0 <= i < |chunks[1..]| => Upload(chunks[1..][i]));
    }
  }

  /** `delete` forwards every entry id of its group once, in order, at most
      `n` per call. */
  lemma DeleteForwardsAll(items: seq<Entry>, n: int)
    requires n > 0
    ensures DroppedIds(DeleteCalls(items, n)) == Ids(items)
    ensures forall c | c in DeleteCalls(items, n) :: 0 < |c.ids| <= n
  {
    DroppedChunks(Chunks(items, n));
  }

  /** `update` forwards every record the database finds for its group once,
      in order, at most `n` per call. */
  lemma UpdateForwardsAll(model: string, items: seq<Entry>, n: int, lookup: (string, seq<string>) -> seq<Model>)
    requires n > 0
    ensures UploadedModels(UpdateCalls(model, items, n, lookup)) == lookup(model, Ids(items))
    ensures forall c | c in UpdateCalls(model, items, n, lookup) :: 0 < |c.models| <= n
  {
    UploadedChunks(Chunks(lookup(model, Ids(items)), n));
  }

  /** The handler `$this->{$action}` finds: `update`, `delete`, or none.
      PHP looks method names up whatever their case. */
  function GroupCalls(g: Group, n: int, lookup: (string, seq<string>) -> seq<Model>): (r: Result<seq<SinkCall>, string>)
    ensures r.Ok? <==> Lower(g.action) == "update" || Lower(g.action) == "delete"
    ensures r.Err? ==> r.error == g.action
    ensures r.Ok? ==> forall c | c in r.value :: (c.Upload? <==> Lower(g.action) == "update")
  {
    var handler := Lower(g.action);
    if handler == "update" then Ok(UpdateCalls(g.model, g.items, n, lookup))
    else if handler == "delete" then Ok(DeleteCalls(g.items, n))
    else Err(g.action)
  }

  /** An action names its handler whatever its case: a group runs as the
      same group under the lower-case action. */
  lemma GroupCallsIgnoreCase(g: Group, n: int, lookup: (string, seq<string>) -> seq<Model>)
    ensures GroupCalls(g, n, lookup).Ok? <==> GroupCalls(g.(action := Lower(g.action)), n, lookup).Ok?
    ensures GroupCalls(g, n, lookup).Ok? ==> GroupCalls(g, n, lookup) == GroupCalls(g.(action := Lower(g.action)), n, lookup)
  {
    LowerIdempotent(g.action);
  }

  /** A batch row pushed as `Update` is handled by `update`. */
  lemma CapitalizedUpdate(model: string, items: seq<Entry>, n: int, lookup: (string, seq<string>) -> seq<Model>)
    ensures GroupCalls(Group("Update", model, items), n, lookup) == Ok(UpdateCalls(model, items, n, lookup))
  {
    var u := Lower("Update");
    assert |u| == 6 && u[0] == 'u';
    assert u == "update" by {
      assert forall i | 1 <= i < 6 :: u[i] == "Update"[i];
    }
  }

  /** The calls a run of handler results makes, stopping at the first
      failure. */
  function Run(rs: seq<Result<seq<SinkCall>, string>>): (seq<SinkCall>, Outcome<string>) {
    if rs == [] then ([], Pass)
    else
      match rs[0]
      case Err(a) => ([], Fail(a))
      case Ok(cs) =>
        var rest := Run(rs[1..]);
        (cs + rest.0, rest.1)
  }

  lemma {:induction false} RunThen(a: seq<Result<seq<SinkCall>, string>>, b: seq<Result<seq<SinkCall>, string>>)
    ensures Run(a + b) == if Run(a).1.Fail? then Run(a) else (Run(a).0 + Run(b).0, Run(b).1)
  {
    if a == [] {
      assert a + b == b;
      assert Run(a).0 + Run(b).0 == Run(b).0;
    } else {
      assert (a + b)[0] == a[0];
      assert (a + b)[1..] == a[1..] + b;
      RunThen(a[1..], b);
      if a[0].Ok? && Run(a[1..]).1.Pass? {
        var x := Run(a[1..]).0;
        assert a[0].value + (x + Run(b).0) == (a[0].value + x) + Run(b).0;
      }
    }
  }

  function Handlers(gs: seq<Group>, n: int, lookup: (string, seq<string>) -> seq<Model>): (rs: seq<Result<seq<SinkCall>, string>>)
    ensures |rs| == |gs|
    ensures forall i | 0 <= i < |gs| :: rs[i] == GroupCalls(gs[i], n, lookup)
  {
    seq(|gs|, i requires 0 <= i < |gs| => GroupCalls(gs[i], n, lookup))
  }

  /** The calls a run of handler groups makes, stopping at the first group
      whose action has no handler. */
  function Dispatch(gs: seq<Group>, n: int, lookup: (string, seq<string>) -> seq<Model>): (seq<SinkCall>, Outcome<string>) {
    Run(Handlers(gs, n, lookup))
  }

  /** Dispatching two runs of groups is dispatching the first, then the
      second only if the first got through. */
  lemma DispatchThen(a: seq<Group>, b: seq<Group>, n: int, lookup: (string, seq<string>) -> seq<Model>)
    ensures Dispatch(a + b, n, lookup) == if Dispatch(a, n, lookup).1.Fail? then Dispatch(a, n, lookup)
      else (Dispatch(a, n, lookup).0 + Dispatch(b, n, lookup).0, Dispatch(b, n, lookup).1)
  {
    assert Handlers(a + b, n, lookup) == Handlers(a, n, lookup) + Handlers(b, n, lookup);
    RunThen(Handlers(a, n, lookup), Handlers(b, n, lookup));
  }

  /** A single group dispatches to its handler's calls, or fails on its action. */
  lemma DispatchOne(g: Group, n: int, lookup: (string, seq<string>) -> seq<Model>)
    ensures Dispatch([g], n, lookup) == if GroupCalls(g, n, lookup).Ok? then (GroupCalls(g, n, lookup).value, Pass) else ([], Fail(g.action))
  {
    var rs := Handlers([g], n, lookup);
    assert rs[1..] == [];
    if GroupCalls(g, n, lookup).Ok? {
      assert Run(rs) == (GroupCalls(g, n, lookup).value + Run([]).0, Run([]).1);
      assert GroupCalls(g, n, lookup).value + [] == GroupCalls(g, n, lookup).value;
    }
  }

  /** A run of handler results gets through exactly when every group found
      its handler. */
  lemma {:induction false} RunPasses(rs: seq<Result<seq<SinkCall>, string>>)
    ensures Run(rs).1.Pass? <==> forall i | 0 <= i < |rs| :: rs[i].Ok?
  {
    if rs != [] {
      RunPasses(rs[1..]);
      assert forall i | 1 <= i < |rs| :: rs[i] == rs[1..][i - 1];
    }
  }

  /** A batch dispatches without failure exactly when every action in it is
      `update` or `delete`, in any case. */
  lemma DispatchPasses(gs: seq<Group>, n: int, lookup: (string, seq<string>) -> seq<Model>)
    ensures Dispatch(gs, n, lookup).1.Pass? <==> forall g | g in gs :: Lower(g.action) == "update" || Lower(g.action) == "delete"
  {
    RunPasses(Handlers(gs, n, lookup));
  }

  /** Handling one more group of an action. */
  lemma GroupStep(gs: seq<Group>, j: int, n: int, lookup: (string, seq<string>) -> seq<Model>)
    requires 0 <= j < |gs|
    requires Dispatch(gs[..j], n, lookup).1.Pass?
    ensures Dispatch(gs[..j + 1], n, lookup) == if GroupCalls(gs[j], n, lookup).Ok?
      then (Dispatch(gs[..j], n, lookup).0 + GroupCalls(gs[j], n, lookup).value, Pass)
      else (Dispatch(gs[..j], n, lookup).0, Fail(gs[j].action))
  {
    assert gs[..j + 1] == gs[..j] + [gs[j]];
    DispatchThen(gs[..j], [gs[j]], n, lookup);
    DispatchOne(gs[j], n, lookup);
    if GroupCalls(gs[j], n, lookup).Err? {
      assert Dispatch(gs[..j], n, lookup).0 + [] == Dispatch(gs[..j], n, lookup).0;
    }
  }

  /** A group without a handler ends the dispatch of the rest. */
  lemma GroupStops(gs: seq<Group>, j: int, n: int, lookup: (string, seq<string>) -> seq<Model>)
    requires 0 <= j < |gs|
    requires Dispatch(gs[..j + 1], n, lookup).1.Fail?
    ensures Dispatch(gs, n, lookup) == Dispatch(gs[..j + 1], n, lookup)
  {
    assert gs == gs[..j + 1] + gs[j + 1..];
    DispatchThen(gs[..j + 1], gs[j + 1..], n, lookup);
  }

  /** Handling the groups of one more action. */
  lemma DispatchStep(batch: OMap<string, seq<Entry>>, i: int, n: int, lookup: (string, seq<string>) -> seq<Model>)
    requires 0 <= i < |batch|
    requires Dispatch(Groups(batch[..i]), n, lookup).1.Pass?
    ensures Dispatch(Groups(batch[..i + 1]), n, lookup)
      == (Dispatch(Groups(batch[..i]), n, lookup).0 + Dispatch(ActionGroups(batch[i]), n, lookup).0,
          Dispatch(ActionGroups(batch[i]), n, lookup).1)
  {
    assert batch[..i + 1][..i] == batch[..i];
    assert Groups(batch[..i + 1]) == Groups(batch[..i]) + ActionGroups(batch[i]);
    DispatchThen(Groups(batch[..i]), ActionGroups(batch[i]), n, lookup);
  }

  /** A failing action ends the dispatch of the whole batch. */
  lemma {:induction false} DispatchStops(batch: OMap<string, seq<Entry>>, i: int, n: int, lookup: (string, seq<string>) -> seq<Model>)
    requires 0 <= i < |batch|
    requires Dispatch(Groups(batch[..i + 1]), n, lookup).1.Fail?
    ensures Dispatch(Groups(batch), n, lookup) == Dispatch(Groups(batch[..i + 1]), n, lookup)
    decreases |batch| - i
  {
    if i + 1 < |batch| {
      assert Groups(batch[..i + 2]) == Groups(batch[..i + 1]) + ActionGroups(batch[i + 1]) by {
        assert batch[..i + 2][..i + 1] == batch[..i + 1];
      }
      DispatchThen(Groups(batch[..i + 1]), ActionGroups(batch[i + 1]), n, lookup);
      DispatchStops(batch, i + 1, n, lookup);
    } else {
      assert batch[..i + 1] == batch;
    }
  }

  class QueueCommand {
    const queue: Queue
    const batchingSize: int
    /** The records of a class whose primary key is among the given ids, as
        the database returns them. */
    const lookup: (string, seq<string>) -> seq<Model>
    /** Every call made on the search client, oldest first. */
    var sent: seq<SinkCall>

    /** `batching_size` from the configuration, 100 when it is not set. */
    constructor (queue: Queue, configured: Option<int>, lookup: (string, seq<string>) -> seq<Model>)
      ensures this.queue == queue && this.lookup == lookup && sent == []
      ensures batchingSize == if configured.Some? then configured.value else DefaultBatchingSize
    {
      this.queue := queue;
      this.batchingSize := configured.GetOr(DefaultBatchingSize);
      this.lookup := lookup;
      sent := [];
    }

    /** `update`: the matching records, `batchingSize` at a time. */
    method Update(items: seq<Entry>, model: string)
      modifies this
      ensures sent == old(sent) + UpdateCalls(model, items, batchingSize, lookup)
    {
      var chunks := Chunks(lookup(model, Ids(items)), batchingSize);
      var i := 0;
      while i < |chunks|
        invariant 0 <= i <= |chunks|
        invariant sent == old(sent) + seq(i, k requires 0 <= k < i => Upload(chunks[k]))
      {
        sent := sent + [Upload(chunks[i])];
        i := i + 1;
      }
    }

    /** `delete`: the entry ids, `batchingSize` at a time. */
    method Delete(items: seq<Entry>, model: string)
      modifies this
      ensures sent == old(sent) + DeleteCalls(items, batchingSize)
    {
      var chunks := Chunks(items, batchingSize);
      var i := 0;
      while i < |chunks|
        invariant 0 <= i <= |chunks|
        invariant sent == old(sent) + seq(i, k requires 0 <= k < i => Drop(Ids(chunks[k])))
      {
        sent := sent + [Drop(Ids(chunks[i]))];
        i := i + 1;
      }
    }

    /** `$this->{$action}($items, $model)`, the action matched whatever its
        case: a missing handler stops the run. */
    method Handle1(g: Group) returns (out: Outcome<string>)
      modifies this
      ensures out == if GroupCalls(g, batchingSize, lookup).Ok? then Pass else Fail(GroupCalls(g, batchingSize, lookup).error)
      ensures sent == old(sent) + (if out.Pass? then GroupCalls(g, batchingSize, lookup).value else [])
    {
      var handler := Lower(g.action);
      if handler == "update" {
        Update(g.items, g.model);
        out := Pass;
      } else if handler == "delete" {
        Delete(g.items, g.model);
        out := Pass;
      } else {
        out := Fail(g.action);
      }
    }

    /** The inner `each` of `handle`: the groups of one action, model class
        by model class, up to the first without a handler. */
    method HandleAction(action: string, collection: seq<Entry>) returns (out: Outcome<string>)
      modifies this
      ensures out == Dispatch(ActionGroups((action, collection)), batchingSize, lookup).1
      ensures sent == old(sent) + Dispatch(ActionGroups((action, collection)), batchingSize, lookup).0
    {
      var typed := GroupBy(collection, EntryTypeOf);
      ghost var gs := ActionGroups((action, collection));
      var j := 0;
      while j < |typed|
        invariant 0 <= j <= |typed|
        invariant Dispatch(gs[..j], batchingSize, lookup).1.Pass?
        invariant sent == old(sent) + Dispatch(gs[..j], batchingSize, lookup).0
      {
        var g := Group(action, typed[j].0, typed[j].1);
        assert gs[j] == g;
        GroupStep(gs, j, batchingSize, lookup);
        ghost var done := Dispatch(gs[..j], batchingSize, lookup).0;
        out := Handle1(g);
        if out.Fail? {
          GroupStops(gs, j, batchingSize, lookup);
          return;
        }
        AppendAssoc(old(sent), done, GroupCalls(g, batchingSize, lookup).value);
        j := j + 1;
      }
      assert gs[..j] == gs;
      out := Pass;
    }

    /** The outer `each` of `handle`: every action of a batch in turn, up to
        the first group without a handler. */
    method DispatchBatch(batch: OMap<string, seq<Entry>>) returns (out: Outcome<string>)
      modifies this
      ensures out == Dispatch(Groups(batch), batchingSize, lookup).1
      ensures sent == old(sent) + Dispatch(Groups(batch), batchingSize, lookup).0
    {
      var i := 0;
      while i < |batch|
        invariant 0 <= i <= |batch|
        invariant Dispatch(Groups(batch[..i]), batchingSize, lookup).1.Pass?
        invariant sent == old(sent) + Dispatch(Groups(batch[..i]), batchingSize, lookup).0
      {
        DispatchStep(batch, i, batchingSize, lookup);
        ghost var done := Dispatch(Groups(batch[..i]), batchingSize, lookup).0;
        ghost var step := Dispatch(ActionGroups(batch[i]), batchingSize, lookup);
        out := HandleAction(batch[i].0, batch[i].1);
        AppendAssoc(old(sent), done, step.0);
        if out.Fail? {
          DispatchStops(batch, i, batchingSize, lookup);
          return;
        }
        i := i + 1;
      }
      assert Groups(batch[..i]) == Groups(batch) by {
        assert batch[..i] == batch;
      }
      out := Pass;
    }

    /** `handle`: claim a batch, dispatch every group, then flush once; a
        group without a handler ends the run before the flush, leaving its
        batch running. */
    method Handle() returns (batch: OMap<string, seq<Entry>>, out: Outcome<string>)
      modifies this, queue
      ensures out == Dispatch(Groups(batch), batchingSize, lookup).1
      ensures sent == old(sent) + Dispatch(Groups(batch), batchingSize, lookup).0
      ensures multiset(Concat(GroupItems(Groups(batch)))) == multiset(Concat(Values(batch)))
      ensures forall e :: e in Concat(Values(batch)) <==> e in Running(Claimed(old(queue.rows)))
      ensures forall g | g in Groups(batch) :: forall j | 0 <= j < |g.items| ::
        g.items[j].action == g.action && g.items[j].entryType == g.model
      ensures queue.rows == if out.Pass? then Flushed(Claimed(old(queue.rows))) else Claimed(old(queue.rows))
    {
      var selected;
      batch, selected := queue.GetBatch();
      GroupsPartition(batch);
      GroupsHomogeneous(batch);
      assert forall e :: e in Concat(Values(batch)) <==> e in multiset(selected);
      out := DispatchBatch(batch);
      if out.Pass? {
        queue.FlushBatch();
      }
    }
  }
}
