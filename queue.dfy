/** `Queue`: the table of pending index changes. A row is keyed by the
    triple (`entry_id`, `entry_type`, `action`) and carries a status and the
    time it was queued. `push` upserts a row as waiting, `getBatch` claims
    every waiting row and returns all running rows grouped by action, and
    `flushBatch` deletes the running rows. Each operation is one statement
    run against the table on its own; nothing here is atomic. */
module Queues {
  import opened Wrappers
  import opened Collections

  /** The two statuses a row can have. */
  const StatusWaiting := 0
  const StatusRunning := 1

  /** The key of a row, and the projection `getBatch` selects. */
  datatype Entry = Entry(entryId: string, entryType: string, action: string)

  datatype Row = Row(status: int, createdAt: int)

  type Table = map<Entry, Row>

  /** Every row has one of the two statuses. */
  predicate WellFormed(t: Table) {
    forall e | e in t :: t[e].status == StatusWaiting || t[e].status == StatusRunning
  }

  /** The table after `push`: the row for `e`, new or not, waiting since `now`. */
  function Pushed(t: Table, e: Entry, now: int): (r: Table)
    ensures r.Keys == t.Keys + {e} && r[e] == Row(StatusWaiting, now)
    ensures forall x | x in t && x != e :: r[x] == t[x]
  {
    t[e := Row(StatusWaiting, now)]
  }

  /** The table after the `UPDATE` of `getBatch`: waiting rows become running. */
  function Claimed(t: Table): (r: Table)
    ensures r.Keys == t.Keys
    ensures forall e | e in r :: r[e].status != StatusWaiting && r[e].createdAt == t[e].createdAt
    ensures forall e | e in t && t[e].status != StatusWaiting :: r[e] == t[e]
  {
    map e | e in t :: if t[e].status == StatusWaiting then t[e].(status := StatusRunning) else t[e]
  }

  /** The keys of the running rows. */
  function Running(t: Table): set<Entry> {
    set e | e in t && t[e].status == StatusRunning
  }

  /** The table after `flushBatch`: the running rows deleted. */
  function Flushed(t: Table): (r: Table)
    ensures r.Keys == t.Keys - Running(t)
    ensures forall e | e in r :: r[e] == t[e]
  {
    map e | e in t && t[e].status != StatusRunning :: t[e]
  }

  /** After a claim nothing is waiting: every row that was waiting, and every
      row left running by an earlier batch, is running; timestamps and keys
      are untouched. */
  lemma ClaimRunsAll(t: Table)
    requires WellFormed(t)
    ensures WellFormed(Claimed(t))
    ensures Running(Claimed(t)) == t.Keys
    ensures forall e | e in t :: Claimed(t)[e].createdAt == t[e].createdAt
  {
    assert forall e | e in t :: e in Running(Claimed(t));
  }

  /** A flush deletes exactly the running rows and leaves every other row,
      timestamp included, as it was. */
  lemma FlushKeepsWaiting(t: Table)
    requires WellFormed(t)
    ensures Flushed(t).Keys == t.Keys - Running(t)
    ensures forall e | e in Flushed(t) :: Flushed(t)[e] == t[e] && t[e].status == StatusWaiting
  {
  }

  /** A row pushed again while its batch runs is waiting once more, so the
      flush that ends the batch keeps it for the next one. */
  lemma RepushSurvivesFlush(t: Table, e: Entry, now: int)
    requires e in Running(t)
    ensures e !in Flushed(t)
    ensures e in Flushed(Pushed(t, e, now)) && Flushed(Pushed(t, e, now))[e] == Row(StatusWaiting, now)
  {
  }

  /** One call on the queue. */
  datatype Call = Push(entry: Entry, now: int) | GetBatch | FlushBatch

  function Step(t: Table, c: Call): Table {
    match c
    case Push(e, now) => Pushed(t, e, now)
    case GetBatch => Claimed(t)
    case FlushBatch => Flushed(t)
  }

  /** The life of a row: it is created waiting, only a claim makes it
      running, only a push makes a running row waiting again, and the
      statuses stay the two known ones. */
  lemma StatusTransitions(t: Table, c: Call, e: Entry)
    requires WellFormed(t)
    ensures WellFormed(Step(t, c))
    ensures e !in t && e in Step(t, c) ==> Step(t, c)[e].status == StatusWaiting && c.Push?
    ensures e in t && e in Step(t, c) && t[e].status == StatusWaiting && Step(t, c)[e].status == StatusRunning ==> c.GetBatch?
    ensures e in t && e in Step(t, c) && t[e].status == StatusRunning && Step(t, c)[e].status == StatusWaiting ==> c.Push?
    ensures e in t && e !in Step(t, c) ==> c.FlushBatch? && t[e].status == StatusRunning
  {
  }

  /** The rows of a `SELECT`, in whatever order the database returns them:
      every key once. */
  method Enumerate(s: set<Entry>) returns (xs: seq<Entry>)
    ensures forall e :: e in xs <==> e in s
    ensures forall i, j | 0 <= i < j < |xs| :: xs[i] != xs[j]
  {
    xs := [];
    var rest := s;
    while rest != {}
      invariant rest !! set e | e in xs
      invariant forall e :: e in s <==> e in xs || e in rest
      invariant forall i, j | 0 <= i < j < |xs| :: xs[i] != xs[j]
      decreases |rest|
    {
      var e :| e in rest;
      xs := xs + [e];
      rest := rest - {e};
    }
  }

  function ActionOf(e: Entry): string {
    e.action
  }

  class Queue {
    var rows: Table

    constructor ()
      ensures rows == map[]
    {
      rows := map[];
    }

    /** `push`: `updateOrInsert` on the key, waiting since `now`. */
    method Push(action: string, entryId: string, entryType: string, now: int)
      modifies this
      ensures rows == Pushed(old(rows), Entry(entryId, entryType, action), now)
    {
      rows := rows[Entry(entryId, entryType, action) := Row(StatusWaiting, now)];
    }

    /** `getBatch`: claim the waiting rows, select every running row (in
        the database's order, `selected`) and group the selection by action. */
    method GetBatch() returns (batch: OMap<string, seq<Entry>>, selected: seq<Entry>)
      modifies this
      ensures rows == Claimed(old(rows))
      ensures forall e :: e in selected <==> e in Running(rows)
      ensures forall i, j | 0 <= i < j < |selected| :: selected[i] != selected[j]
      ensures batch == GroupBy(selected, ActionOf)
      ensures DistinctKeys(batch)
      ensures forall i, j | 0 <= i < |batch| && 0 <= j < |batch[i].1| :: batch[i].1[j].action == batch[i].0
      ensures multiset(Concat(Values(batch))) == multiset(selected)
    {
      rows := map e | e in rows :: if rows[e].status == StatusWaiting then rows[e].(status := StatusRunning) else rows[e];
      var running := set e | e in rows && rows[e].status == StatusRunning;
      selected := Enumerate(running);
      batch := GroupBy(selected, ActionOf);
      GroupByDistinct(selected, ActionOf);
      GroupByHomogeneous(selected, ActionOf);
      GroupByPartition(selected, ActionOf);
    }

    /** `flushBatch`: delete the running rows. */
    method FlushBatch()
      modifies this
      ensures rows == Flushed(old(rows))
    {
      rows := map e | e in rows && rows[e].status != StatusRunning :: rows[e];
    }
  }
}
