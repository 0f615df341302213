/**
  Durable retry of resumes: rows of an outbox are claimed, the session is loaded, the resume is consumed, and only
  then the session is saved. What the engine was sent and which sends a failed save forgot are kept for the proofs.
 */
module ResumeOutbox {
  import opened Prelude
  import opened Timestamps
  import opened Models
  import opened Lineage
  import opened Interrupts
  import opened Resumes

  datatype RowStatus = RowPending | RowProcessing(claimedAt: int) | RowFailed | RowCompleted

  /** A row of the outbox: its interrupt is the primary key, and its action is unique too. */
  datatype Row = Row(interruptId: string, actionId: string, status: RowStatus)

  /** Which record of which session a row stands for. */
  datatype Item = Item(interruptId: string, session: string, actionId: string)

  datatype Key = Key(session: string, interruptId: string)

  datatype Store = Store(saved: map<string, Board>, rows: seq<Row>, sent: seq<Key>, lost: seq<Key>)

  /** Where the process dies during a retry, if it does: its row then stays claimed. */
  datatype Death = Survives | DiesAfterClaim | DiesAfterSend | DiesAfterSave

  /** What the surroundings do to one retry: the engine's reply, whether the save and what follows go through, a crash. */
  datatype Fate = Fate(engine: EngineReply, saves: bool, finishes: bool, death: Death, env: Env)

  datatype Summary = Summary(found: nat, claimed: nat, completed: nat, failed: nat)

  // ----- rows -------------------------------------------------------------------------------

  const CLAIM_TIMEOUT := 300

  /** A row in processing is given up if the text of its claim time is less than the text of the time five minutes ago. */
  predicate IsAbandoned(claimedAt: int, now: int)
  {
    TextLess(DatabaseText(claimedAt), ServiceText(now - CLAIM_TIMEOUT))
  }

  /**
    Because the blank is less than the letter, the comparison of the texts is one of days: it never keeps a claim for
    longer than the timeout, but gives it up early exactly if five minutes ago was the same day.
   */
  lemma AbandonedIsADayComparison(claimedAt: nat, now: nat)
    requires claimedAt <= now && CLAIM_TIMEOUT <= now && DateOf(Day(now)).year < 10000
    ensures IsAbandoned(claimedAt, now) <==> Day(claimedAt) <= Day(now - CLAIM_TIMEOUT)
    ensures claimedAt < now - CLAIM_TIMEOUT ==> IsAbandoned(claimedAt, now)
    ensures claimedAt >= now - CLAIM_TIMEOUT ==> (IsAbandoned(claimedAt, now) <==> Day(claimedAt) == Day(now - CLAIM_TIMEOUT))
  {
    DatesNotLater(Day(claimedAt), Day(now));
    DatesNotLater(Day(now - CLAIM_TIMEOUT), Day(now));
    TextsCompareDays(claimedAt, now - CLAIM_TIMEOUT);
  }

  function RowIndex(rows: seq<Row>, interruptId: string): (i: nat)
    ensures i <= |rows|
    ensures i < |rows| ==> rows[i].interruptId == interruptId
    ensures forall j :: 0 <= j < i ==> rows[j].interruptId != interruptId
  {
    FirstIndex(rows, (r: Row) => r.interruptId == interruptId)
  }

  function ActionRow(rows: seq<Row>, actionId: string): (i: nat)
    ensures i <= |rows|
    ensures i < |rows| ==> rows[i].actionId == actionId
    ensures forall j :: 0 <= j < i ==> rows[j].actionId != actionId
  {
    FirstIndex(rows, (r: Row) => r.actionId == actionId)
  }

  predicate Claimable(rows: seq<Row>, interruptId: string, now: int)
  {
    var i := RowIndex(rows, interruptId);
    i < |rows| && match rows[i].status
                  case RowPending => true
                  case RowFailed => true
                  case RowProcessing(at) => IsAbandoned(at, now)
                  case RowCompleted => false
  }

  function SetStatus(rows: seq<Row>, interruptId: string, status: RowStatus): (r: seq<Row>)
    ensures |r| == |rows|
  {
    var i := RowIndex(rows, interruptId);
    if i < |rows| then rows[i := rows[i].(status := status)] else rows
  }

  datatype QueueError = InterruptQueuedForAnotherAction

  /** Queueing an action again reopens its row unless it is completed; its interrupt stays the one queued first. */
  function Enqueue(rows: seq<Row>, interruptId: string, actionId: string): Result<seq<Row>, QueueError>
  {
    var i := ActionRow(rows, actionId);
    if i < |rows| then
      Ok(rows[i := rows[i].(status := if rows[i].status == RowCompleted then RowCompleted else RowPending)])
    else if RowIndex(rows, interruptId) < |rows| then Err(InterruptQueuedForAnotherAction)
    else Ok(rows + [Row(interruptId, actionId, RowPending)])
  }

  ghost predicate RowsSound(rows: seq<Row>)
  {
    forall i, j :: 0 <= i < j < |rows| ==> rows[i].interruptId != rows[j].interruptId && rows[i].actionId != rows[j].actionId
  }

  /** Both keys stay unique, and a completed row stays completed. */
  lemma QueueKeepsRowsSound(rows: seq<Row>, interruptId: string, actionId: string)
    requires RowsSound(rows) && Enqueue(rows, interruptId, actionId).Ok?
    ensures var after := Enqueue(rows, interruptId, actionId).value;
      && RowsSound(after) && |rows| <= |after|
      && forall i :: 0 <= i < |rows| ==>
           after[i].interruptId == rows[i].interruptId && (rows[i].status == RowCompleted ==> after[i] == rows[i])
  {
  }

  /** What queueing does: it is refused exactly for a new action under a queued interrupt, and else opens the action's row. */
  lemma QueueLeadsTo(rows: seq<Row>, interruptId: string, actionId: string)
    ensures var queued := exists r :: r in rows && r.actionId == actionId;
      match Enqueue(rows, interruptId, actionId)
      case Err(_) => !queued && exists r :: r in rows && r.interruptId == interruptId
      case Ok(after) =>
        if queued then
          var i := ActionRow(rows, actionId);
          i < |rows| &&
          after == rows[i := Row(rows[i].interruptId, actionId, if rows[i].status.RowCompleted? then RowCompleted else RowPending)]
        else
          (forall r :: r in rows ==> r.interruptId != interruptId) && after == rows + [Row(interruptId, actionId, RowPending)]
  {
    var i, j := ActionRow(rows, actionId), RowIndex(rows, interruptId);
    if i < |rows| { assert rows[i] in rows; }
    if j < |rows| { assert rows[j] in rows; }
  }

  // ----- one retry ----------------------------------------------------------------------------

  function ConsumedIn(records: seq<InterruptRecord>, interruptId: string): bool
  {
    var i := IndexById(records, interruptId);
    i < |records| && records[i].consumedAt.Some?
  }

  datatype Attempt = Skipped(store: Store) | Done(store: Store) | Undone(store: Store) | Died(store: Store)

  function Retry(s: Store, item: Item, fate: Fate): Attempt
  {
    if !Claimable(s.rows, item.interruptId, fate.env.now) then Skipped(s)
    else
      var claimed := SetStatus(s.rows, item.interruptId, RowProcessing(fate.env.now));
      if fate.death == DiesAfterClaim then Died(s.(rows := claimed))
      else if item.session !in s.saved then Undone(s.(rows := SetStatus(s.rows, item.interruptId, RowFailed)))
      else Delivered(s, claimed, item, fate)
  }

  /** From the engine call on. */
  function Delivered(s: Store, claimed: seq<Row>, item: Item, fate: Fate): Attempt
    requires item.session in s.saved
  {
    var b := s.saved[item.session];
    var c := Consume(b, item.actionId, fate.env, fate.engine);
    var news := NewKeys(item.session, b.log, c.log);
    var failed, completed := SetStatus(claimed, item.interruptId, RowFailed), SetStatus(claimed, item.interruptId, RowCompleted);
    var forgotten := s.(sent := s.sent + news, lost := s.lost + news);
    var remembered := s.(saved := s.saved[item.session := c], sent := s.sent + news);
    if fate.death == DiesAfterSend then Died(forgotten.(rows := claimed))
    else if !ConsumedIn(c.records, item.interruptId) || !fate.saves then Undone(forgotten.(rows := failed))
    else if fate.death == DiesAfterSave then Died(remembered.(rows := claimed))
    else if !fate.finishes then Undone(remembered.(rows := failed))
    else Done(remembered.(rows := completed))
  }

  /** The record the row stands for is consumed by what this retry sends. */
  predicate ConsumesItsRecord(s: Store, item: Item, fate: Fate)
  {
    && item.session in s.saved
    && ConsumedIn(Consume(s.saved[item.session], item.actionId, fate.env, fate.engine).records, item.interruptId)
  }

  /** The row of an item can be claimed: it is there, not completed, and not freshly claimed. */
  predicate IsOpen(s: Store, item: Item, now: int)
  {
    var i := RowIndex(s.rows, item.interruptId);
    i < |s.rows| && !s.rows[i].status.RowCompleted? &&
    (s.rows[i].status.RowProcessing? ==> IsAbandoned(s.rows[i].status.claimedAt, now))
  }

  /** The retry gets as far as saving the consumed session, and that works. */
  predicate SavesConsumed(s: Store, item: Item, fate: Fate)
  {
    ConsumesItsRecord(s, item, fate) && fate.saves && fate.death in {Survives, DiesAfterSave}
  }

  /** The session is saved as consumed, or nothing is saved. */
  lemma RetrySavesIff(s: Store, item: Item, fate: Fate)
    ensures Retry(s, item, fate).store.saved ==
      if IsOpen(s, item, fate.env.now) && SavesConsumed(s, item, fate)
      then s.saved[item.session := Consume(s.saved[item.session], item.actionId, fate.env, fate.engine)] else s.saved
  {
  }

  lemma RetrySetsItsRow(s: Store, item: Item, fate: Fate)
    ensures var a, i := Retry(s, item, fate), RowIndex(s.rows, item.interruptId);
      a.store.rows == if !IsOpen(s, item, fate.env.now) then s.rows else s.rows[i := s.rows[i].(status :=
        if a.Done? then RowCompleted else if a.Died? then RowProcessing(fate.env.now) else RowFailed)]
  {
    if RowIndex(s.rows, item.interruptId) < |s.rows| {
      SetStatusIsFound(s.rows, item.interruptId, RowProcessing(fate.env.now));
    }
  }

  /**
    What one retry leads to: it is skipped exactly for a row that is missing, completed or freshly claimed; it completes
    its row exactly if nothing fails on the way, and then the session is saved as consumed; a row that was claimed but
    not completed is open to the next retry, or still claimed if the process died.
   */
  lemma RetryLeadsTo(s: Store, item: Item, fate: Fate)
    ensures var a, i, now := Retry(s, item, fate), RowIndex(s.rows, item.interruptId), fate.env.now;
      var open, saves := IsOpen(s, item, now), SavesConsumed(s, item, fate);
      && (a.Skipped? <==> !open)
      && (a.Done? <==> open && saves && fate.finishes && fate.death == Survives)
      && (a.Died? <==> open && match fate.death
                       case Survives => false
                       case DiesAfterClaim => true
                       case DiesAfterSend => item.session in s.saved
                       case DiesAfterSave => saves)
      && a.store.rows == (if !open then s.rows else s.rows[i := s.rows[i].(status :=
           if a.Done? then RowCompleted else if a.Died? then RowProcessing(now) else RowFailed)])
      && a.store.saved == (if open && saves
           then s.saved[item.session := Consume(s.saved[item.session], item.actionId, fate.env, fate.engine)] else s.saved)
  {
    RetrySetsItsRow(s, item, fate);
    RetrySavesIff(s, item, fate);
  }

  function KeysOf(session: string, entries: seq<Acknowledgement>): (r: seq<Key>)
    ensures |r| == |entries|
  {
    seq(|entries|, i requires 0 <= i < |entries| => Key(session, IdOf(entries[i])))
  }

  /** The resumes that a log has gained. */
  function NewKeys(session: string, before: seq<Acknowledgement>, after: seq<Acknowledgement>): seq<Key>
  {
    if |before| <= |after| then KeysOf(session, after[|before|..]) else []
  }

  function Counted(sum: Summary, a: Attempt): Summary
  {
    match a
    case Skipped(_) => sum
    case Done(_) => sum.(claimed := sum.claimed + 1, completed := sum.completed + 1)
    case Undone(_) => sum.(claimed := sum.claimed + 1, failed := sum.failed + 1)
    case Died(_) => sum.(claimed := sum.claimed + 1)
  }

  datatype Sweep = Sweep(store: Store, summary: Summary, died: bool)

  function SweepFrom(s: Store, sum: Summary, items: seq<Item>, fates: seq<Fate>, k: nat): Sweep
    requires |items| == |fates| && k <= |items|
    decreases |items| - k
  {
    if k == |items| then Sweep(s, sum, false)
    else
      var a := Retry(s, items[k], fates[k]);
      if a.Died? then Sweep(a.store, Counted(sum, a), true)
      else SweepFrom(a.store, Counted(sum, a), items, fates, k + 1)
  }

  function Reconcile(s: Store, items: seq<Item>, fates: seq<Fate>): Sweep
    requires |items| == |fates|
  {
    SweepFrom(s, Summary(|items|, 0, 0, 0), items, fates, 0)
  }

  /** Every claim ends as completed or failed, but the one during which the process dies. */
  lemma {:induction false} SweepBalances(s: Store, sum: Summary, items: seq<Item>, fates: seq<Fate>, k: nat)
    requires |items| == |fates| && k <= |items|
    requires sum.claimed == sum.completed + sum.failed && sum.claimed <= k && sum.found == |items|
    ensures var r := SweepFrom(s, sum, items, fates, k);
      && r.summary.found == |items| && r.summary.claimed <= r.summary.found
      && r.summary.claimed == r.summary.completed + r.summary.failed + if r.died then 1 else 0
    decreases |items| - k
  {
    if k < |items| {
      var a := Retry(s, items[k], fates[k]);
      if !a.Died? { SweepBalances(a.store, Counted(sum, a), items, fates, k + 1); }
    }
  }

  /** The attempts of a sweep, up to the one during which the process dies. */
  function Attempts(s: Store, items: seq<Item>, fates: seq<Fate>, k: nat): seq<Attempt>
    requires |items| == |fates| && k <= |items|
    decreases |items| - k
  {
    if k == |items| then []
    else
      var a := Retry(s, items[k], fates[k]);
      [a] + if a.Died? then [] else Attempts(a.store, items, fates, k + 1)
  }

  predicate WasClaimed(a: Attempt) { !a.Skipped? }

  predicate WasCompleted(a: Attempt) { a.Done? }

  predicate HasFailed(a: Attempt) { a.Undone? }

  function Number(attempts: seq<Attempt>, kind: Attempt -> bool): nat { |Filter(attempts, kind)| }

  lemma NumberWithFirst(a: Attempt, rest: seq<Attempt>, kind: Attempt -> bool)
    ensures Number([a] + rest, kind) == (if kind(a) then 1 else 0) + Number(rest, kind)
  {
    assert ([a] + rest)[1..] == rest;
  }

  /** The summary counts the attempts: all that were claimed, those completed, those that failed. */
  lemma {:induction false} SummaryCountsAttempts(s: Store, sum: Summary, items: seq<Item>, fates: seq<Fate>, k: nat)
    requires |items| == |fates| && k <= |items|
    ensures var r, all := SweepFrom(s, sum, items, fates, k), Attempts(s, items, fates, k);
      && r.summary.found == sum.found
      && r.summary.claimed == sum.claimed + Number(all, WasClaimed)
      && r.summary.completed == sum.completed + Number(all, WasCompleted)
      && r.summary.failed == sum.failed + Number(all, HasFailed)
      && r.store == (if all == [] then s else all[|all| - 1].store)
      && r.died == (all != [] && all[|all| - 1].Died?)
    decreases |items| - k
  {
    if k < |items| {
      var a := Retry(s, items[k], fates[k]);
      var rest := if a.Died? then [] else Attempts(a.store, items, fates, k + 1);
      NumberWithFirst(a, rest, WasClaimed);
      NumberWithFirst(a, rest, WasCompleted);
      NumberWithFirst(a, rest, HasFailed);
      if !a.Died? { SummaryCountsAttempts(a.store, Counted(sum, a), items, fates, k + 1); }
    }
  }

  // ----- how often a resume is sent ---------------------------------------------------------

  function Times(keys: seq<Key>, key: Key): nat
  {
    if keys == [] then 0 else Times(keys[..|keys| - 1], key) + if keys[|keys| - 1] == key then 1 else 0
  }

  lemma {:induction false} TimesAdd(a: seq<Key>, b: seq<Key>, key: Key)
    ensures Times(a + b, key) == Times(a, key) + Times(b, key)
  {
    if b == [] {
      assert a + b == a;
    } else {
      TimesAdd(a, b[..|b| - 1], key);
      assert (a + b)[..|a + b| - 1] == a + b[..|b| - 1];
    }
  }

  lemma {:induction false} NewKeysCount(session: string, before: seq<Acknowledgement>, after: seq<Acknowledgement>, key: Key)
    requires before <= after
    ensures Times(NewKeys(session, before, after), key) ==
      if key.session == session then Count(after, key.interruptId) - Count(before, key.interruptId) else 0
    decreases |after|
  {
    if |after| > |before| {
      var shorter := after[..|after| - 1];
      NewKeysCount(session, before, shorter, key);
      var news := NewKeys(session, before, after);
      assert news[..|news| - 1] == NewKeys(session, before, shorter);
    } else {
      assert after == before;
    }
  }

  /** Every send is either remembered by the saved session or was lost with what sent it. */
  ghost predicate Balanced(s: Store)
  {
    forall key: Key :: key.session in s.saved ==>
      Times(s.sent, key) == Count(s.saved[key.session].log, key.interruptId) + Times(s.lost, key)
  }

  /** Sending and then remembering or losing what was sent keeps the balance. */
  lemma SendKeepsBalance(s: Store, session: string, after: Board, rows: seq<Row>)
    requires Balanced(s) && session in s.saved && s.saved[session].log <= after.log
    ensures var news := NewKeys(session, s.saved[session].log, after.log);
      && Balanced(s.(saved := s.saved[session := after], sent := s.sent + news, rows := rows))
      && Balanced(s.(sent := s.sent + news, lost := s.lost + news, rows := rows))
  {
    var news := NewKeys(session, s.saved[session].log, after.log);
    forall key: Key | key.session in s.saved
      ensures Times(s.sent + news, key) == Times(s.sent, key) + Times(news, key)
      ensures Times(s.lost + news, key) == Times(s.lost, key) + Times(news, key)
      ensures Times(news, key) ==
        if key.session == session then Count(after.log, key.interruptId) - Count(s.saved[session].log, key.interruptId) else 0
    {
      TimesAdd(s.sent, news, key);
      TimesAdd(s.lost, news, key);
      NewKeysCount(session, s.saved[session].log, after.log, key);
    }
  }

  lemma ConsumeExtendsLog(b: Board, actionId: string, env: Env, engine: EngineReply)
    ensures b.log <= Consume(b, actionId, env, engine).log && |Consume(b, actionId, env, engine).log| <= |b.log| + 1
  {
  }

  lemma RetryKeepsBalance(s: Store, item: Item, fate: Fate)
    requires Balanced(s)
    ensures Balanced(Retry(s, item, fate).store)
  {
    if Claimable(s.rows, item.interruptId, fate.env.now) && item.session in s.saved {
      ConsumeExtendsLog(s.saved[item.session], item.actionId, fate.env, fate.engine);
      SendKeepsBalance(s, item.session, Consume(s.saved[item.session], item.actionId, fate.env, fate.engine),
                       Retry(s, item, fate).store.rows);
    }
  }

  // ----- sweeps and other work on the same sessions ----------------------------------------------

  /** A sweep, another service working on a session, which may save or not, and an action queued. */
  datatype Change =
    | SweepChange(items: seq<Item>, fates: seq<Fate>)
    | ServiceChange(session: string, steps: seq<ExecStep>, saved: bool)
    | QueueChange(interruptId: string, actionId: string)

  function Served(s: Store, session: string, steps: seq<ExecStep>, saved: bool): Store
    requires session in s.saved
  {
    var c := AfterExec(s.saved[session], steps);
    var news := NewKeys(session, s.saved[session].log, c.log);
    if saved then s.(saved := s.saved[session := c], sent := s.sent + news)
    else s.(sent := s.sent + news, lost := s.lost + news)
  }

  function TakeChange(s: Store, c: Change): Store
  {
    match c
    case SweepChange(items, fates) => if |items| == |fates| then Reconcile(s, items, fates).store else s
    case ServiceChange(session, steps, saved) => if session in s.saved then Served(s, session, steps, saved) else s
    case QueueChange(interruptId, actionId) =>
      (match Enqueue(s.rows, interruptId, actionId) case Ok(rows) => s.(rows := rows) case Err(_) => s)
  }

  function AfterChanges(s: Store, changes: seq<Change>): Store
  {
    if changes == [] then s else TakeChange(AfterChanges(s, changes[..|changes| - 1]), changes[|changes| - 1])
  }

  /** Each session draws its interrupt identifiers from its own supply. */
  ghost predicate Draws(c: Change, ids: string -> nat -> string)
  {
    match c
    case SweepChange(items, fates) => |items| == |fates| ==> DrawFrom(items, fates, ids)
    case ServiceChange(session, steps, _) => forall s :: s in steps ==> DrawsFrom(s, ids(session))
    case QueueChange(_, _) => true
  }

  ghost predicate DrawFrom(items: seq<Item>, fates: seq<Fate>, ids: string -> nat -> string)
    requires |items| == |fates|
  {
    forall k :: 0 <= k < |items| ==> fates[k].env.ids == ids(items[k].session)
  }

  ghost predicate SessionsSound(saved: map<string, Board>, ids: string -> nat -> string)
  {
    forall session :: session in saved ==> ExecInvariant(saved[session], ids(session))
  }

  ghost predicate BooksKept(s: Store, ids: string -> nat -> string)
  {
    Balanced(s) && SessionsSound(s.saved, ids)
  }

  lemma RetryKeepsBooks(s: Store, item: Item, fate: Fate, ids: string -> nat -> string)
    requires BooksKept(s, ids) && fate.env.ids == ids(item.session) && Injective(ids(item.session))
    ensures BooksKept(Retry(s, item, fate).store, ids)
  {
    RetryKeepsBalance(s, item, fate);
    RetrySavesIff(s, item, fate);
    if item.session in s.saved {
      ConsumeKeepsInvariant(s.saved[item.session], item.actionId, fate.env, fate.engine);
      SessionsStaySound(s.saved, item.session, Consume(s.saved[item.session], item.actionId, fate.env, fate.engine), ids);
    }
  }

  lemma SessionsStaySound(saved: map<string, Board>, session: string, after: Board, ids: string -> nat -> string)
    requires SessionsSound(saved, ids) && ExecInvariant(after, ids(session))
    ensures SessionsSound(saved[session := after], ids)
  {
  }

  lemma {:induction false} SweepKeepsBooks(s: Store, sum: Summary, items: seq<Item>, fates: seq<Fate>, k: nat,
                                           ids: string -> nat -> string)
    requires |items| == |fates| && k <= |items| && BooksKept(s, ids) && DrawFrom(items, fates, ids)
    requires forall session :: Injective(ids(session))
    ensures BooksKept(SweepFrom(s, sum, items, fates, k).store, ids)
    decreases |items| - k
  {
    if k < |items| {
      RetryKeepsBooks(s, items[k], fates[k], ids);
      var a := Retry(s, items[k], fates[k]);
      if !a.Died? { SweepKeepsBooks(a.store, Counted(sum, a), items, fates, k + 1, ids); }
    }
  }

  lemma {:induction false} HistoryExtendsLog(b: Board, steps: seq<ExecStep>)
    ensures b.log <= AfterExec(b, steps).log
  {
    if steps != [] {
      var before, last := AfterExec(b, steps[..|steps| - 1]), steps[|steps| - 1];
      HistoryExtendsLog(b, steps[..|steps| - 1]);
      if last.ConsumeStep? { ConsumeExtendsLog(before, last.actionId, last.env, last.engine); }
    }
  }

  lemma ServiceKeepsBooks(s: Store, session: string, steps: seq<ExecStep>, saved: bool, ids: string -> nat -> string)
    requires BooksKept(s, ids) && session in s.saved && Injective(ids(session))
    requires forall x :: x in steps ==> DrawsFrom(x, ids(session))
    ensures BooksKept(Served(s, session, steps, saved), ids)
  {
    HistoryExtendsLog(s.saved[session], steps);
    HistoriesOnlyGrow(s.saved[session], steps, ids(session));
    SendKeepsBalance(s, session, AfterExec(s.saved[session], steps), s.rows);
  }

  lemma {:induction false} BooksAreKept(s: Store, changes: seq<Change>, ids: string -> nat -> string)
    requires BooksKept(s, ids) && forall session :: Injective(ids(session))
    requires forall c :: c in changes ==> Draws(c, ids)
    ensures BooksKept(AfterChanges(s, changes), ids)
  {
    if changes != [] {
      BooksAreKept(s, changes[..|changes| - 1], ids);
      var e, c := AfterChanges(s, changes[..|changes| - 1]), changes[|changes| - 1];
      assert Draws(c, ids);
      match c
      case SweepChange(items, fates) =>
        if |items| == |fates| { SweepKeepsBooks(e, Summary(|items|, 0, 0, 0), items, fates, 0, ids); }
      case ServiceChange(session, steps, saved) =>
        if session in e.saved { ServiceKeepsBooks(e, session, steps, saved, ids); }
      case QueueChange(_, _) =>
    }
  }

  /**
    Over any number of sweeps, crashes and other work, a record was acknowledged once if the saved record is consumed,
    plus once for every acknowledgement that was not saved, whatever the reason; so a consumed record was resumed exactly
    once if and only if none was lost. When that is, the guards further down say.
   */
  lemma SendsAreConsumptionsPlusLostSaves(s: Store, changes: seq<Change>, ids: string -> nat -> string,
                                          session: string, n: nat)
    requires BooksKept(s, ids) && forall session :: Injective(ids(session))
    requires forall c :: c in changes ==> Draws(c, ids)
    requires session in AfterChanges(s, changes).saved && n < |AfterChanges(s, changes).saved[session].records|
    ensures var e, key := AfterChanges(s, changes), Key(session, ids(session)(n));
      var consumed := e.saved[session].records[n].consumedAt.Some?;
      && Times(e.sent, key) == (if consumed then 1 else 0) + Times(e.lost, key)
      && (consumed ==> (Times(e.sent, key) == 1 <==> Times(e.lost, key) == 0))
  {
    BooksAreKept(s, changes, ids);
    assert LogMatches(AfterChanges(s, changes).saved[session].records, AfterChanges(s, changes).saved[session].log, ids(session));
  }

  // ----- when a send is lost ---------------------------------------------------------------------

  /** The engine acknowledges this retry. */
  predicate Sends(s: Store, item: Item, fate: Fate)
  {
    && Claimable(s.rows, item.interruptId, fate.env.now) && fate.death != DiesAfterClaim && item.session in s.saved
    && Consume(s.saved[item.session], item.actionId, fate.env, fate.engine).log != s.saved[item.session].log
  }

  /** The three guards by which an acknowledged retry is not remembered: a crash, a failed save, a row for another record. */
  predicate IsForgotten(s: Store, item: Item, fate: Fate)
    requires item.session in s.saved
  {
    || fate.death == DiesAfterSend
    || !fate.saves
    || !ConsumedIn(Consume(s.saved[item.session], item.actionId, fate.env, fate.engine).records, item.interruptId)
  }

  predicate Loses(s: Store, item: Item, fate: Fate) { Sends(s, item, fate) && IsForgotten(s, item, fate) }

  /** One retry loses a send exactly by one of these guards, and then one. */
  lemma RetryLosesIff(s: Store, item: Item, fate: Fate)
    ensures var after := Retry(s, item, fate).store;
      && (after.lost != s.lost <==> Loses(s, item, fate))
      && |after.lost| == |s.lost| + (if Loses(s, item, fate) then 1 else 0)
      && |after.sent| == |s.sent| + (if Sends(s, item, fate) then 1 else 0)
      && s.lost <= after.lost && s.saved.Keys == after.saved.Keys
      && (Known(s) ==> Known(Retry(s, item, fate).store))
  {
    if Claimable(s.rows, item.interruptId, fate.env.now) && item.session in s.saved {
      ConsumeExtendsLog(s.saved[item.session], item.actionId, fate.env, fate.engine);
    }
  }

  ghost predicate Known(s: Store) { forall key :: key in s.lost ==> key.session in s.saved }

  predicate SweepLoses(s: Store, items: seq<Item>, fates: seq<Fate>, k: nat)
    requires |items| == |fates| && k <= |items|
    decreases |items| - k
  {
    k < |items| &&
    (|| Loses(s, items[k], fates[k])
     || var a := Retry(s, items[k], fates[k]);
        !a.Died? && SweepLoses(a.store, items, fates, k + 1))
  }

  lemma {:induction false} SweepLosesIff(s: Store, sum: Summary, items: seq<Item>, fates: seq<Fate>, k: nat)
    requires |items| == |fates| && k <= |items|
    ensures var after := SweepFrom(s, sum, items, fates, k).store;
      && s.lost <= after.lost && (after.lost != s.lost <==> SweepLoses(s, items, fates, k))
      && (Known(s) ==> Known(after))
    decreases |items| - k
  {
    if k < |items| {
      var a := Retry(s, items[k], fates[k]);
      RetryLosesIff(s, items[k], fates[k]);
      if !a.Died? { SweepLosesIff(a.store, Counted(sum, a), items, fates, k + 1); }
    }
  }

  /** A change loses a send if a retry of its sweep does, or if what a service sent is not saved. */
  predicate ChangeLoses(s: Store, c: Change)
  {
    match c
    case SweepChange(items, fates) => |items| == |fates| && SweepLoses(s, items, fates, 0)
    case ServiceChange(session, steps, saved) =>
      session in s.saved && !saved && AfterExec(s.saved[session], steps).log != s.saved[session].log
    case QueueChange(_, _) => false
  }

  lemma ChangeLosesIff(s: Store, c: Change)
    ensures var after := TakeChange(s, c);
      s.lost <= after.lost && (after.lost != s.lost <==> ChangeLoses(s, c)) && (Known(s) ==> Known(after))
  {
    match c
    case SweepChange(items, fates) =>
      if |items| == |fates| { SweepLosesIff(s, Summary(|items|, 0, 0, 0), items, fates, 0); }
    case ServiceChange(session, steps, saved) =>
      if session in s.saved { HistoryExtendsLog(s.saved[session], steps); }
    case QueueChange(_, _) =>
  }

  ghost predicate NothingLost(s: Store, changes: seq<Change>)
  {
    forall n :: 0 <= n < |changes| ==> !ChangeLoses(AfterChanges(s, changes[..n]), changes[n])
  }

  lemma NothingLostMore(s: Store, changes: seq<Change>)
    requires changes != []
    ensures var n := |changes| - 1;
      NothingLost(s, changes) <==> NothingLost(s, changes[..n]) && !ChangeLoses(AfterChanges(s, changes[..n]), changes[n])
  {
    var n := |changes| - 1;
    if NothingLost(s, changes) {
      forall m | 0 <= m < n ensures !ChangeLoses(AfterChanges(s, changes[..n][..m]), changes[..n][m]) {
        assert changes[..n][..m] == changes[..m];
      }
    } else {
      var m :| 0 <= m <= n && ChangeLoses(AfterChanges(s, changes[..m]), changes[m]);
      if m < n { assert changes[..n][..m] == changes[..m]; }
    }
  }

  lemma {:induction false} LostIff(s: Store, changes: seq<Change>)
    ensures s.lost <= AfterChanges(s, changes).lost
    ensures AfterChanges(s, changes).lost == s.lost <==> NothingLost(s, changes)
    ensures Known(s) ==> Known(AfterChanges(s, changes))
  {
    if changes != [] {
      var n := |changes| - 1;
      LostIff(s, changes[..n]);
      ChangeLosesIff(AfterChanges(s, changes[..n]), changes[n]);
      NothingLostMore(s, changes);
    }
  }

  /**
    Exactly once: from books without a loss, every resume was acknowledged as often as the saved sessions remember,
    which is once if its record is consumed and else never, if and only if no change met one of the guards.
   */
  lemma SentAsRememberedIffNoGuardFails(s: Store, changes: seq<Change>, ids: string -> nat -> string)
    requires BooksKept(s, ids) && s.lost == [] && forall session :: Injective(ids(session))
    requires forall c :: c in changes ==> Draws(c, ids)
    ensures var e := AfterChanges(s, changes);
      && (NothingLost(s, changes) <==>
            forall key: Key :: key.session in e.saved ==>
              Times(e.sent, key) == Count(e.saved[key.session].log, key.interruptId))
      && (forall session, n: nat :: session in e.saved && n < |e.saved[session].records| ==>
            Count(e.saved[session].log, ids(session)(n)) == if e.saved[session].records[n].consumedAt.Some? then 1 else 0)
  {
    var e := AfterChanges(s, changes);
    BooksAreKept(s, changes, ids);
    LostIff(s, changes);
    if e.lost != [] {
      var key := e.lost[0];
      assert key in e.lost;
      OccursOnce(e.lost, 0);
      assert Times(e.sent, key) == Count(e.saved[key.session].log, key.interruptId) + Times(e.lost, key);
    }
    forall session, n: nat | session in e.saved && n < |e.saved[session].records|
      ensures Count(e.saved[session].log, ids(session)(n)) == if e.saved[session].records[n].consumedAt.Some? then 1 else 0
    {
      assert LogMatches(e.saved[session].records, e.saved[session].log, ids(session));
    }
  }

  lemma {:induction false} OccursOnce(keys: seq<Key>, i: nat)
    requires i < |keys|
    ensures Times(keys, keys[i]) > 0
  {
    if i < |keys| - 1 { OccursOnce(keys[..|keys| - 1], i); }
  }

  // ----- each of the guards --------------------------------------------------------------------------

  function Retries(s: Store, item: Item, fates: seq<Fate>): Store
    decreases |fates|
  {
    if fates == [] then s else Retries(Retry(s, item, fates[0]).store, item, fates[1..])
  }

  /** Queueing an action under another interrupt keeps the interrupt it was queued with first. */
  lemma RequeuedRowKeepsItsInterrupt(rows: seq<Row>, interruptId: string, actionId: string)
    requires ActionRow(rows, actionId) < |rows|
    ensures var i := ActionRow(rows, actionId);
      Enqueue(rows, interruptId, actionId).Ok? && Enqueue(rows, interruptId, actionId).value[i].interruptId == rows[i].interruptId
  {
  }

  /**
    A row whose interrupt is not the one its action's record consumes is never completed: every retry sends again,
    however many there are and although every save works, and nothing is ever saved.
   */
  lemma {:induction false} MismatchedRowSendsEveryTime(s: Store, item: Item, fates: seq<Fate>)
    requires item.session in s.saved && (fates != [] ==> Claimable(s.rows, item.interruptId, fates[0].env.now))
    requires forall f :: f in fates ==> f.death == Survives && f.saves && f.finishes
    requires forall f :: f in fates ==>
      var c := Consume(s.saved[item.session], item.actionId, f.env, f.engine);
      c.log != s.saved[item.session].log && !ConsumedIn(c.records, item.interruptId)
    ensures var e := Retries(s, item, fates);
      |e.sent| == |s.sent| + |fates| && |e.lost| == |s.lost| + |fates| && e.saved == s.saved
    decreases |fates|
  {
    if fates != [] {
      var first := Retry(s, item, fates[0]).store;
      RetryLosesIff(s, item, fates[0]);
      SetStatusIsFound(s.rows, item.interruptId, RowProcessing(fates[0].env.now));
      SetStatusIsFound(SetStatus(s.rows, item.interruptId, RowProcessing(fates[0].env.now)), item.interruptId, RowFailed);
      forall f | f in fates[1..] ensures f in fates {}
      MismatchedRowSendsEveryTime(first, item, fates[1..]);
    }
  }

  /** A save that fails after a successful resume makes the next retry resume the engine a second time. */
  lemma LostSaveIsResumedAgain(s: Store, item: Item, fate: Fate)
    requires Claimable(s.rows, item.interruptId, fate.env.now) && item.session in s.saved
    requires fate.saves && fate.death == Survives
    requires Consume(s.saved[item.session], item.actionId, fate.env, fate.engine).log != s.saved[item.session].log
    ensures var first := Retry(s, item, fate.(saves := false)).store;
      var second := Retry(first, item, fate).store;
      |second.sent| == |s.sent| + 2 && second.sent[|s.sent|] == second.sent[|s.sent| + 1]
  {
    ConsumeExtendsLog(s.saved[item.session], item.actionId, fate.env, fate.engine);
    SetStatusIsFound(s.rows, item.interruptId, RowProcessing(fate.env.now));
    SetStatusIsFound(SetStatus(s.rows, item.interruptId, RowProcessing(fate.env.now)), item.interruptId, RowFailed);
  }

  lemma SetStatusIsFound(rows: seq<Row>, interruptId: string, status: RowStatus)
    requires RowIndex(rows, interruptId) < |rows|
    ensures var after := SetStatus(rows, interruptId, status);
      RowIndex(after, interruptId) == RowIndex(rows, interruptId) && after[RowIndex(rows, interruptId)].status == status
  {
    var after, i := SetStatus(rows, interruptId, status), RowIndex(rows, interruptId);
    assert after[i].interruptId == interruptId;
    forall j | 0 <= j < i ensures after[j].interruptId != interruptId { assert after[j] == rows[j]; }
  }

  /** A crash after the send leaves the row claimed, and once the claim is given up the engine is resumed again. */
  lemma CrashAfterSendIsResumedAgain(s: Store, item: Item, fate: Fate, later: Fate)
    requires Claimable(s.rows, item.interruptId, fate.env.now) && item.session in s.saved
    requires IsAbandoned(fate.env.now, later.env.now) && later.saves && later.death == Survives
    requires Consume(s.saved[item.session], item.actionId, fate.env, fate.engine).log != s.saved[item.session].log
    requires Consume(s.saved[item.session], item.actionId, later.env, later.engine).log != s.saved[item.session].log
    ensures var first := Retry(s, item, fate.(death := DiesAfterSend));
      && first.Died? && |first.store.sent| == |s.sent| + 1
      && |Retry(first.store, item, later).store.sent| == |s.sent| + 2
  {
    var first := Retry(s, item, fate.(death := DiesAfterSend));
    RetryLosesIff(s, item, fate.(death := DiesAfterSend));
    SetStatusIsFound(s.rows, item.interruptId, RowProcessing(fate.env.now));
    RetryLosesIff(first.store, item, later);
  }

  /** Once a row is completed, neither queueing nor retrying touches it or sends anything for it. */
  lemma CompletedRowIsLeftAlone(s: Store, item: Item, fate: Fate)
    requires var i := RowIndex(s.rows, item.interruptId);
      i < |s.rows| && s.rows[i].status == RowCompleted && s.rows[i].actionId == item.actionId
    requires RowsSound(s.rows)
    ensures Retry(s, item, fate) == Skipped(s)
    ensures Enqueue(s.rows, item.interruptId, item.actionId) == Ok(s.rows)
  {
    var i := RowIndex(s.rows, item.interruptId);
    assert ActionRow(s.rows, item.actionId) == i;
    assert s.rows[i := s.rows[i].(status := RowCompleted)] == s.rows;
  }

  class ResumeService {
    var store: Store

    constructor (store: Store)
      ensures this.store == store
    {
      this.store := store;
    }

    /** If the process dies there is no answer; `died` tells the two outcomes apart. */
    method ReconcilePendingInterruptResumes(items: seq<Item>, fates: seq<Fate>, limit: nat)
      returns (summary: Summary, died: bool)
      requires |items| == |fates| && |items| <= limit
      modifies this
      ensures Sweep(store, summary, died) == Reconcile(old(store), items, fates)
      ensures !died ==> summary.claimed == summary.completed + summary.failed <= summary.found <= limit
    {
      SweepBalances(store, Summary(|items|, 0, 0, 0), items, fates, 0);
      summary := Summary(|items|, 0, 0, 0);
      for k := 0 to |items|
        invariant SweepFrom(store, summary, items, fates, k) == Reconcile(old(store), items, fates)
      {
        var a := Retry(store, items[k], fates[k]);
        store := a.store;
        match a {
          case Skipped(_) =>
          case Done(_) => summary := summary.(claimed := summary.claimed + 1, completed := summary.completed + 1);
          case Undone(_) => summary := summary.(claimed := summary.claimed + 1, failed := summary.failed + 1);
          case Died(_) =>
            summary := summary.(claimed := summary.claimed + 1);
            return summary, true;
        }
      }
      died := false;
    }
  }
}
