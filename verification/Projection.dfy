/**
  Differential saving: what a save stores about each collection, the plan the next save derives from it, and why
  carrying out the plans leaves the same tables as writing everything.
 */
module Projection {
  import opened Prelude

  /** One element of a persisted collection; the rest of its columns are one value here. */
  datatype Item = Item(id: string, content: string)

  datatype Mode = HashMode | AppendMode | UnknownMode

  datatype CollectionSpec = CollectionSpec(attribute: string, mode: Mode)

  const COLLECTIONS: map<string, CollectionSpec> := map[
    "human_actions" := CollectionSpec("pending_actions", HashMode),
    "action_resolution_logs" := CollectionSpec("action_resolution_logs", AppendMode),
    "llm_traces" := CollectionSpec("llm_traces", AppendMode),
    "audit_events" := CollectionSpec("audit_events", AppendMode),
    "evidence_sources" := CollectionSpec("evidence_sources", HashMode),
    "safety_findings" := CollectionSpec("safety_findings", HashMode),
    "report_artifacts" := CollectionSpec("report_artifacts", HashMode),
    "eval_cases" := CollectionSpec("eval_cases", HashMode),
    "eval_runs" := CollectionSpec("eval_runs", HashMode),
    "eval_judgments" := CollectionSpec("eval_judgments", HashMode),
    "human_calibrations" := CollectionSpec("human_calibrations", HashMode),
    "eval_datasets" := CollectionSpec("eval_datasets", HashMode),
    "eval_experiments" := CollectionSpec("eval_experiments", HashMode),
    "redteam_cases" := CollectionSpec("redteam_cases", HashMode),
    "interrupt_records" := CollectionSpec("interrupt_records", HashMode)]

  type Data = map<string, seq<Item>>

  /** A JSON value where an identifier is expected. */
  datatype IdValue = NoId | Id(id: string) | OtherValue

  /**
    What is stored about a collection: anything that is not an object, or an object whose fields have the
    expected type or not. The digest is injective, so it is modelled as the list it is taken of.
   */
  datatype Prior = NotAnObject | Entry(mode: Mode, hash: Option<seq<Item>>, count: Option<int>, lastId: IdValue)

  datatype Plan = Plan(skip: bool, start: nat)

  const FULL_SYNC := Plan(false, 0)

  function Items(data: Data, spec: CollectionSpec): seq<Item>
  {
    if spec.attribute in data then data[spec.attribute] else []
  }

  function LastId(items: seq<Item>): IdValue
  {
    if items == [] then NoId else Id(items[|items| - 1].id)
  }

  function StateOf(mode: Mode, items: seq<Item>): Prior
  {
    if mode == AppendMode then Entry(mode, None, Some(|items|), LastId(items))
    else Entry(HashMode, Some(items), Some(|items|), NoId)
  }

  function PlanOne(mode: Mode, prior: Prior, current: Prior, items: seq<Item>): Plan
  {
    if prior.NotAnObject? || prior.mode != mode then FULL_SYNC
    else if mode == HashMode then
      if prior.hash.Some? && current.Entry? && prior.hash == current.hash then Plan(true, 0) else FULL_SYNC
    else if prior.count.None? || !(0 <= prior.count.value <= |items|) then FULL_SYNC
    else if prior.lastId != LastId(items[..prior.count.value]) then FULL_SYNC
    else if prior.count.value >= |items| then Plan(true, 0)
    else Plan(false, prior.count.value)
  }

  // ----- the two loops of the planner --------------------------------------------------------

  function StateAt(data: Data, key: string): Prior
    requires key in COLLECTIONS
  {
    StateOf(COLLECTIONS[key].mode, Items(data, COLLECTIONS[key]))
  }

  function PriorAt(stored: Option<map<string, Prior>>, key: string): Prior
  {
    if stored.Some? && key in stored.value then stored.value[key] else NotAnObject
  }

  function PlanAt(stored: Option<map<string, Prior>>, data: Data, key: string): Plan
    requires key in COLLECTIONS
  {
    PlanOne(COLLECTIONS[key].mode, PriorAt(stored, key), StateAt(data, key), Items(data, COLLECTIONS[key]))
  }

  method ComputeState(data: Data) returns (state: map<string, Prior>)
    ensures state.Keys == COLLECTIONS.Keys
    ensures forall key :: key in COLLECTIONS ==> state[key] == StateAt(data, key)
  {
    state := map[];
    var left := COLLECTIONS.Keys;
    while left != {}
      invariant left <= COLLECTIONS.Keys && state.Keys == COLLECTIONS.Keys - left
      invariant forall key :: key in state ==> key in COLLECTIONS && state[key] == StateAt(data, key)
      decreases |left|
    {
      var key :| key in left;
      var spec := COLLECTIONS[key];
      var items := Items(data, spec);
      if spec.mode == AppendMode {
        state := state[key := Entry(AppendMode, None, Some(|items|), LastId(items))];
      } else {
        state := state[key := Entry(HashMode, Some(items), Some(|items|), NoId)];
      }
      left := left - {key};
    }
  }

  method PlanSync(stored: Option<map<string, Prior>>, current: map<string, Prior>, data: Data) returns (plans: map<string, Plan>)
    requires current.Keys == COLLECTIONS.Keys && forall key :: key in COLLECTIONS ==> current[key] == StateAt(data, key)
    ensures plans.Keys == COLLECTIONS.Keys
    ensures forall key :: key in COLLECTIONS ==> plans[key] == PlanAt(stored, data, key)
  {
    plans := map[];
    var left := COLLECTIONS.Keys;
    while left != {}
      invariant left <= COLLECTIONS.Keys && plans.Keys == COLLECTIONS.Keys - left
      invariant forall key :: key in plans ==> key in COLLECTIONS && plans[key] == PlanAt(stored, data, key)
      decreases |left|
    {
      var key :| key in left;
      plans := plans[key := PlanOne(COLLECTIONS[key].mode, PriorAt(stored, key), current[key], Items(data, COLLECTIONS[key]))];
      left := left - {key};
    }
  }

  // ----- carrying out a plan -----------------------------------------------------------------------

  /** The contract of a plan: skip, write the table anew, or insert the elements from `start` on. */
  function Execute(table: seq<Item>, plan: Plan, items: seq<Item>): seq<Item>
  {
    if plan.skip || plan.start > |items| then table
    else if plan.start == 0 then items
    else table + items[plan.start..]
  }

  ghost predicate DistinctIds(items: seq<Item>)
  {
    forall i, j :: 0 <= i < j < |items| ==> items[i].id != items[j].id
  }

  /** The last `|later| - |kept|` elements are new, the others the end of the earlier list. */
  ghost predicate IsSplit(earlier: seq<Item>, later: seq<Item>, k: nat)
  {
    && k <= |earlier| && |earlier| - k <= |later|
    && later[..|earlier| - k] == earlier[k..]
    && forall i, j :: |earlier| - k <= i < |later| && 0 <= j < |earlier| ==> later[i].id != earlier[j].id
  }

  /** A log-like collection changes only by dropping a front block and appending fresh elements. */
  ghost predicate Follows(earlier: seq<Item>, later: seq<Item>)
  {
    DistinctIds(later) && exists k: nat :: IsSplit(earlier, later, k)
  }

  ghost predicate IllFormed(mode: Mode, prior: Prior)
  {
    prior.NotAnObject? || prior.mode != mode || (mode == HashMode && prior.hash.None?) ||
    (mode == AppendMode && (prior.count.None? || prior.count.value < 0))
  }

  /** The stored entry is useless or tells the truth about the table. */
  ghost predicate Trusted(mode: Mode, prior: Prior, table: seq<Item>)
  {
    IllFormed(mode, prior) || prior == StateOf(mode, table)
  }

  lemma LastKept(earlier: seq<Item>, later: seq<Item>, k: nat)
    requires IsSplit(earlier, later, k) && k < |earlier|
    ensures later[|earlier| - 1 - k] == earlier[|earlier| - 1]
  {
    assert later[..|earlier| - k][|earlier| - 1 - k] == earlier[k..][|earlier| - 1 - k];
  }

  /** The shortcut of a log-like collection is taken only when the earlier list is a prefix of the later. */
  lemma ShortcutOnlyForPrefix(earlier: seq<Item>, later: seq<Item>)
    requires Follows(earlier, later)
    requires PlanOne(AppendMode, StateOf(AppendMode, earlier), StateOf(AppendMode, later), later) != FULL_SYNC
    ensures |earlier| <= |later| && later[..|earlier|] == earlier
  {
    var k: nat :| IsSplit(earlier, later, k);
    var n := |earlier|;
    if n > 0 {
      assert later[n - 1].id == earlier[n - 1].id;
      // the same element sits in two places unless nothing was dropped
      if k < n { LastKept(earlier, later, k); }
      assert k == 0 && earlier[0..] == earlier;
    }
  }

  /** Carrying out the plan yields the collection whatever was stored, as long as it is not a lie. */
  lemma PlannedSaveIsFullSave(mode: Mode, prior: Prior, table: seq<Item>, items: seq<Item>)
    requires mode != UnknownMode && Trusted(mode, prior, table)
    requires mode == AppendMode ==> Follows(table, items)
    ensures Execute(table, PlanOne(mode, prior, StateOf(mode, items), items), items) == items
  {
    if mode == AppendMode && !IllFormed(mode, prior) {
      if PlanOne(mode, prior, StateOf(mode, items), items) != FULL_SYNC {
        ShortcutOnlyForPrefix(table, items);
        assert items == items[..|table|] + items[|table|..];
      }
    }
  }

  /** Without that discipline the shortcut is right exactly when the earlier list is a prefix. */
  lemma ShortcutIsRightIffPrefix(table: seq<Item>, items: seq<Item>)
    ensures var plan := PlanOne(AppendMode, StateOf(AppendMode, table), StateOf(AppendMode, items), items);
      Execute(table, plan, items) == items <==> plan == FULL_SYNC || table <= items
  {
    var plan := PlanOne(AppendMode, StateOf(AppendMode, table), StateOf(AppendMode, items), items);
    if plan != FULL_SYNC {
      assert |table| <= |items|;
      assert items == items[..|table|] + items[|table|..];
      if plan.skip { assert items[..|table|] == items; }
      if Execute(table, plan, items) == items {
        assert Execute(table, plan, items)[..|table|] == table;
        assert items[..|table|] == table;
      }
    }
  }

  /**
    The plan writes no more than what is new: nothing of an unchanged collection, the new tail of a grown log, and the
    whole of what changed otherwise.
   */
  lemma PlanWritesOnlyWhatIsNew(mode: Mode, earlier: seq<Item>, items: seq<Item>)
    requires mode != UnknownMode && (mode == AppendMode ==> Follows(earlier, items))
    ensures PlanOne(mode, StateOf(mode, earlier), StateOf(mode, items), items) ==
      if items == earlier then Plan(true, 0)
      else if mode == AppendMode && earlier <= items then Plan(false, |earlier|)
      else FULL_SYNC
  {
    var plan := PlanOne(mode, StateOf(mode, earlier), StateOf(mode, items), items);
    if mode == AppendMode {
      if earlier <= items {
        assert items[..|earlier|] == earlier;
      } else if plan != FULL_SYNC {
        ShortcutOnlyForPrefix(earlier, items);
      }
    }
  }

  // ----- whole histories of saves --------------------------------------------------------------------

  datatype Database = Database(tables: map<string, seq<Item>>, stored: Option<map<string, Prior>>)

  datatype SaveStep =
    | Save(data: Data)
    | Damage(stored: Option<map<string, Prior>>)

  function SaveAll(db: Database, data: Data): Database
    requires db.tables.Keys == COLLECTIONS.Keys
  {
    Database(
      map key | key in COLLECTIONS :: Execute(db.tables[key], PlanAt(db.stored, data, key), Items(data, COLLECTIONS[key])),
      Some(map key | key in COLLECTIONS :: StateAt(data, key)))
  }

  function TakeSave(db: Database, s: SaveStep): (r: Database)
    requires db.tables.Keys == COLLECTIONS.Keys
    ensures r.tables.Keys == COLLECTIONS.Keys
  {
    match s
    case Save(data) => SaveAll(db, data)
    case Damage(stored) => db.(stored := stored)
  }

  /** Log-like collections follow their discipline; damage loses or spoils entries but does not forge them. */
  ghost predicate Honest(db: Database, s: SaveStep)
    requires db.tables.Keys == COLLECTIONS.Keys
  {
    match s
    case Save(data) =>
      forall key :: key in COLLECTIONS && COLLECTIONS[key].mode == AppendMode ==>
        Follows(db.tables[key], Items(data, COLLECTIONS[key]))
    case Damage(stored) =>
      forall key :: key in COLLECTIONS ==>
        PriorAt(stored, key) == PriorAt(db.stored, key) || IllFormed(COLLECTIONS[key].mode, PriorAt(stored, key))
  }

  function AfterSaves(db: Database, steps: seq<SaveStep>): (r: Database)
    requires db.tables.Keys == COLLECTIONS.Keys
    ensures r.tables.Keys == COLLECTIONS.Keys
  {
    if steps == [] then db else TakeSave(AfterSaves(db, steps[..|steps| - 1]), steps[|steps| - 1])
  }

  ghost predicate AllHonest(db: Database, steps: seq<SaveStep>)
    requires db.tables.Keys == COLLECTIONS.Keys
  {
    steps != [] ==> AllHonest(db, steps[..|steps| - 1]) && Honest(AfterSaves(db, steps[..|steps| - 1]), steps[|steps| - 1])
  }

  ghost predicate AllTrusted(db: Database)
    requires db.tables.Keys == COLLECTIONS.Keys
  {
    forall key :: key in COLLECTIONS ==> Trusted(COLLECTIONS[key].mode, PriorAt(db.stored, key), db.tables[key])
  }

  ghost predicate Mirrors(db: Database, data: Data)
    requires db.tables.Keys == COLLECTIONS.Keys
  {
    forall key :: key in COLLECTIONS ==> db.tables[key] == Items(data, COLLECTIONS[key])
  }

  lemma EveryModeIsKnown(key: string)
    requires key in COLLECTIONS
    ensures COLLECTIONS[key].mode != UnknownMode
  {
  }

  lemma SaveMirrors(db: Database, data: Data)
    requires db.tables.Keys == COLLECTIONS.Keys && AllTrusted(db) && Honest(db, Save(data))
    ensures Mirrors(SaveAll(db, data), data) && AllTrusted(SaveAll(db, data))
  {
    forall key | key in COLLECTIONS
      ensures SaveAll(db, data).tables[key] == Items(data, COLLECTIONS[key])
    {
      EveryModeIsKnown(key);
      assert Trusted(COLLECTIONS[key].mode, PriorAt(db.stored, key), db.tables[key]);
      PlannedSaveIsFullSave(COLLECTIONS[key].mode, PriorAt(db.stored, key), db.tables[key], Items(data, COLLECTIONS[key]));
    }
  }

  /**
    Over every honest history of saves and of losses or damage of the stored state, each save leaves every table
    equal to its collection, as a full rewrite would.
   */
  lemma {:induction false} DifferentialSavesMirror(db: Database, steps: seq<SaveStep>)
    requires db.tables.Keys == COLLECTIONS.Keys && AllTrusted(db) && AllHonest(db, steps)
    ensures AllTrusted(AfterSaves(db, steps))
    ensures steps != [] && steps[|steps| - 1].Save? ==> Mirrors(AfterSaves(db, steps), steps[|steps| - 1].data)
  {
    if steps != [] {
      var before, last := AfterSaves(db, steps[..|steps| - 1]), steps[|steps| - 1];
      DifferentialSavesMirror(db, steps[..|steps| - 1]);
      match last
      case Save(data) => SaveMirrors(before, data);
      case Damage(stored) =>
        forall key | key in COLLECTIONS
          ensures Trusted(COLLECTIONS[key].mode, PriorAt(stored, key), before.tables[key])
        {
          assert Trusted(COLLECTIONS[key].mode, PriorAt(before.stored, key), before.tables[key]);
        }
    }
  }

  /** A save right after a save of the same data writes nothing, whatever was stored before the first. */
  lemma SecondSaveWritesNothing(db: Database, data: Data, key: string)
    requires db.tables.Keys == COLLECTIONS.Keys && key in COLLECTIONS
    ensures PlanAt(SaveAll(db, data).stored, data, key).skip
  {
    EveryModeIsKnown(key);
    var items := Items(data, COLLECTIONS[key]);
    assert items[..|items|] == items;
  }

  // ----- what the SQL writer leaves behind ------------------------------------------------------------

  /** A table by primary key. */
  type Table = map<string, string>

  /** Insert-or-replace, in order: a later element with the same identifier wins; nothing is deleted. */
  function Upsert(t: Table, items: seq<Item>): Table
  {
    if items == [] then t else Upsert(t, items[..|items| - 1])[items[|items| - 1].id := items[|items| - 1].content]
  }

  /** Insert-or-ignore, in order: a row that exists is left as it is. */
  function InsertMissing(t: Table, items: seq<Item>): Table
  {
    if items == [] then t
    else
      var q, last := InsertMissing(t, items[..|items| - 1]), items[|items| - 1];
      if last.id in q then q else q[last.id := last.content]
  }

  function FullWrite(mode: Mode, t: Table, items: seq<Item>): Table
  {
    if mode == AppendMode then InsertMissing(t, items) else Upsert(t, items)
  }

  function PlannedWrite(mode: Mode, t: Table, plan: Plan, items: seq<Item>): Table
  {
    if plan.skip || plan.start > |items| then t else FullWrite(mode, t, items[plan.start..])
  }

  function LastContent(items: seq<Item>, id: string): Option<string>
  {
    if items == [] then None
    else if items[|items| - 1].id == id then Some(items[|items| - 1].content)
    else LastContent(items[..|items| - 1], id)
  }

  lemma {:induction false} UpsertLookup(t: Table, items: seq<Item>, id: string)
    ensures var c := LastContent(items, id);
      && (id in Upsert(t, items) <==> id in t || c.Some?)
      && (id in Upsert(t, items) ==> Upsert(t, items)[id] == if c.Some? then c.value else t[id])
      && (c.Some? <==> exists x :: x in items && x.id == id)
  {
    if items != [] {
      UpsertLookup(t, items[..|items| - 1], id);
      assert items == items[..|items| - 1] + [items[|items| - 1]];
    }
  }

  /** Writing the same elements twice is writing them once, even with repeated identifiers. */
  lemma UpsertTwice(t: Table, items: seq<Item>)
    ensures Upsert(Upsert(t, items), items) == Upsert(t, items)
  {
    forall id: string
      ensures id in Upsert(Upsert(t, items), items) <==> id in Upsert(t, items)
      ensures id in Upsert(t, items) ==> Upsert(Upsert(t, items), items)[id] == Upsert(t, items)[id]
    {
      UpsertLookup(t, items, id);
      UpsertLookup(Upsert(t, items), items, id);
    }
  }

  lemma {:induction false} InsertMissingKeys(t: Table, items: seq<Item>, id: string)
    ensures id in InsertMissing(t, items) <==> id in t || exists x :: x in items && x.id == id
    ensures id in t ==> InsertMissing(t, items)[id] == t[id]
  {
    if items != [] {
      InsertMissingKeys(t, items[..|items| - 1], id);
      assert items == items[..|items| - 1] + [items[|items| - 1]];
    }
  }

  lemma {:induction false} NothingMissing(t: Table, items: seq<Item>)
    requires forall x :: x in items ==> x.id in t
    ensures InsertMissing(t, items) == t
  {
    if items != [] { NothingMissing(t, items[..|items| - 1]); }
  }

  lemma {:induction false} InsertMissingInParts(t: Table, a: seq<Item>, b: seq<Item>)
    ensures InsertMissing(t, a + b) == InsertMissing(InsertMissing(t, a), b)
  {
    if b == [] {
      assert a + b == a;
    } else {
      InsertMissingInParts(t, a, b[..|b| - 1]);
      assert (a + b)[..|a + b| - 1] == a + b[..|b| - 1];
    }
  }

  /** Starting at `start` is as good as starting at the front exactly when the front is in the table already. */
  lemma TailWriteIsFullWriteIffFrontPresent(t: Table, items: seq<Item>, start: nat)
    requires start <= |items| && DistinctIds(items)
    ensures InsertMissing(t, items[start..]) == InsertMissing(t, items) <==> forall x :: x in items[..start] ==> x.id in t
  {
    assert items == items[..start] + items[start..];
    if forall x :: x in items[..start] ==> x.id in t {
      NothingMissing(t, items[..start]);
      InsertMissingInParts(t, items[..start], items[start..]);
    } else {
      var x :| x in items[..start] && x.id !in t;
      InsertMissingKeys(t, items, x.id);
      InsertMissingKeys(t, items[start..], x.id);
      assert x in items;
    }
  }

  ghost predicate IdsIn(items: seq<Item>, t: Table)
  {
    forall x :: x in items ==> x.id in t
  }

  /** The stored entry is useless, or the table already holds what it describes. */
  ghost predicate Written(mode: Mode, prior: Prior, t: Table)
  {
    || IllFormed(mode, prior)
    || (mode == HashMode && prior.hash.Some? && Upsert(t, prior.hash.value) == t)
    || (mode == AppendMode && exists earlier :: prior == StateOf(AppendMode, earlier) && IdsIn(earlier, t))
  }

  /**
    The writer with a plan leaves the table the writer without one would leave; for a log-like collection, given
    that it followed its discipline since the list the stored entry describes.
   */
  lemma PlannedWriteIsFullWrite(mode: Mode, prior: Prior, t: Table, items: seq<Item>)
    requires mode != UnknownMode && Written(mode, prior, t)
    requires mode == AppendMode ==> forall earlier :: prior == StateOf(AppendMode, earlier) && IdsIn(earlier, t) ==> Follows(earlier, items)
    ensures PlannedWrite(mode, t, PlanOne(mode, prior, StateOf(mode, items), items), items) == FullWrite(mode, t, items)
  {
    var plan := PlanOne(mode, prior, StateOf(mode, items), items);
    if plan == FULL_SYNC {
      assert items[0..] == items;
    } else if mode == AppendMode {
      var earlier :| prior == StateOf(AppendMode, earlier) && IdsIn(earlier, t);
      ShortcutOnlyForPrefix(earlier, items);
      TailWriteIsFullWriteIffFrontPresent(t, items, |earlier|);
      assert plan.skip ==> items[|earlier|..] == [];
    }
  }

  /** After a write the entry stored for it describes what the table holds. */
  lemma WriteKeepsWritten(mode: Mode, t: Table, items: seq<Item>)
    requires mode != UnknownMode
    ensures Written(mode, StateOf(mode, items), FullWrite(mode, t, items))
  {
    if mode == HashMode {
      UpsertTwice(t, items);
    } else {
      forall x | x in items ensures x.id in InsertMissing(t, items) { InsertMissingKeys(t, items, x.id); }
      assert IdsIn(items, InsertMissing(t, items));
    }
  }

  /** One collection written by plan and, beside it, written in full each time; and what is stored about it. */
  datatype Twin = Twin(planned: Table, full: Table, prior: Prior)

  datatype WriteStep = WriteItems(items: seq<Item>) | SpoilEntry(prior: Prior)

  function TakeWrite(mode: Mode, w: Twin, s: WriteStep): Twin
  {
    match s
    case WriteItems(items) =>
      var state := StateOf(mode, items);
      Twin(PlannedWrite(mode, w.planned, PlanOne(mode, w.prior, state, items), items), FullWrite(mode, w.full, items), state)
    case SpoilEntry(prior) => w.(prior := prior)
  }

  function AfterWrites(mode: Mode, w: Twin, steps: seq<WriteStep>): Twin
  {
    if steps == [] then w else TakeWrite(mode, AfterWrites(mode, w, steps[..|steps| - 1]), steps[|steps| - 1])
  }

  /** A log-like collection follows what the entry describes; an entry is kept or spoilt. */
  ghost predicate HonestWrite(mode: Mode, w: Twin, s: WriteStep)
  {
    match s
    case WriteItems(items) =>
      mode == AppendMode ==>
        forall earlier :: w.prior == StateOf(AppendMode, earlier) && IdsIn(earlier, w.planned) ==> Follows(earlier, items)
    case SpoilEntry(prior) => prior == w.prior || IllFormed(mode, prior)
  }

  ghost predicate AllHonestWrites(mode: Mode, w: Twin, steps: seq<WriteStep>)
  {
    steps != [] ==>
      AllHonestWrites(mode, w, steps[..|steps| - 1]) &&
      HonestWrite(mode, AfterWrites(mode, w, steps[..|steps| - 1]), steps[|steps| - 1])
  }

  /** Over every such history the planned table is the one that full writes would have left. */
  lemma {:induction false} PlannedTableIsFullTable(mode: Mode, w: Twin, steps: seq<WriteStep>)
    requires mode != UnknownMode && w.planned == w.full && Written(mode, w.prior, w.planned)
    requires AllHonestWrites(mode, w, steps)
    ensures var e := AfterWrites(mode, w, steps); e.planned == e.full && Written(mode, e.prior, e.planned)
  {
    if steps != [] {
      var before, last := AfterWrites(mode, w, steps[..|steps| - 1]), steps[|steps| - 1];
      PlannedTableIsFullTable(mode, w, steps[..|steps| - 1]);
      if last.WriteItems? {
        PlannedWriteIsFullWrite(mode, before.prior, before.planned, last.items);
        WriteKeepsWritten(mode, before.planned, last.items);
      }
    }
  }

  /**
    The writer never deletes, so a table equals its collection exactly when no row of it was ever removed from
    the collection.
   */
  lemma TableIsCollectionIffNothingRemoved(t: Table, items: seq<Item>)
    ensures Upsert(t, items) == Upsert(map[], items) <==> forall id :: id in t ==> exists x :: x in items && x.id == id
  {
    forall id: string ensures id in Upsert(t, items) <==> id in t || exists x :: x in items && x.id == id {
      UpsertLookup(t, items, id);
    }
    forall id: string
      ensures id in Upsert(map[], items) <==> exists x :: x in items && x.id == id
      ensures id in Upsert(map[], items) ==> Upsert(map[], items)[id] == Upsert(t, items)[id]
    {
      UpsertLookup(t, items, id);
      UpsertLookup(map[], items, id);
    }
  }
}
