/**
 Several workers draining one outbox at once, each in its own transaction.

 A worker locks rows no other worker holds (`FOR UPDATE SKIP LOCKED`), hands
 them one by one to the receiver, and commits all verdicts together.  It may
 crash anywhere before the commit, after the receiver has already accepted some
 rows.  `accepted` and `lost` count, per row, what the receiver took and what was
 taken in a batch that never committed.
 */
module DeliveryProtocol {
  import opened Delivery

  type Worker = nat

  /** `locks` says which open transaction holds a row, `verdicts` what came of attempting it there. */
  datatype State = State(
    table: Table, locks: map<Id, Worker>, verdicts: map<Id, bool>,
    used: set<Id>, accepted: multiset<Id>, lost: multiset<Id>)

  datatype Step =
    | Enqueue(id: Id, item: Item)
    | Begin(w: Worker, ids: set<Id>)
    | Attempt(id: Id, ok: bool)
    | Commit(w: Worker)
    | Crash(w: Worker)
    | Replay(dead: Id, id: Id, item: Item)

  ghost predicate Fresh(s: State, id: Id, item: Item)
  {
    id !in s.used && item.tries == 0 && !item.delivered
  }

  ghost predicate Enabled(cfg: Config, s: State, step: Step)
  {
    match step
    case Enqueue(id, item) => Fresh(s, id, item)
    case Begin(w, ids) =>
      && w !in s.locks.Values && |ids| <= cfg.batchSize
      && forall id :: id in ids ==> Waiting(s.table, id) && id !in s.locks
    case Attempt(id, _) => id in s.locks && id !in s.verdicts
    case Commit(w) => forall id :: id in s.locks && s.locks[id] == w ==> id in s.verdicts
    case Crash(_) => true
    case Replay(dead, id, item) => dead in s.table.dead && Fresh(s, id, item)
  }

  /** The verdicts of one worker's transaction. */
  ghost function Mine(s: State, w: Worker): map<Id, bool>
  {
    map id | id in s.verdicts && id in s.locks && s.locks[id] == w :: s.verdicts[id]
  }

  /** The state with that transaction's locks gone. */
  ghost function Released(s: State, w: Worker): State
  {
    s.(locks := map id | id in s.locks && s.locks[id] != w :: s.locks[id],
       verdicts := map id | id in s.verdicts && id in s.locks && s.locks[id] != w :: s.verdicts[id])
  }

  ghost function Taken(verdicts: map<Id, bool>): set<Id>
  {
    set id | id in verdicts && verdicts[id]
  }

  ghost function Do(cfg: Config, s: State, step: Step): State
  {
    if !Enabled(cfg, s, step) then s
    else
      match step
      case Enqueue(id, item) => s.(table := s.table.(live := s.table.live[id := item]), used := s.used + {id})
      case Begin(w, ids) => s.(locks := map id | id in s.locks.Keys + ids :: if id in ids then w else s.locks[id])
      case Attempt(id, ok) =>
        s.(verdicts := s.verdicts[id := ok], accepted := if ok then s.accepted + multiset{id} else s.accepted)
      case Commit(w) => Released(s, w).(table := Settle(cfg, s.table, Mine(s, w)))
      case Crash(w) => Released(s, w).(lost := s.lost + multiset(Taken(Mine(s, w))))
      case Replay(dead, id, item) =>
        s.(table := Table(s.table.live[id := item], map x | x in s.table.dead && x != dead :: s.table.dead[x]), used := s.used + {id})
  }

  ghost function Run(cfg: Config, s: State, steps: seq<Step>): State
  {
    if steps == [] then s else Do(cfg, Run(cfg, s, steps[..|steps| - 1]), steps[|steps| - 1])
  }

  const START := State(Table(map[], map[]), map[], map[], {}, multiset{}, multiset{})

  // ------------------------------------------------ the invariant

  ghost predicate LocksHold(s: State)
  {
    s.verdicts.Keys <= s.locks.Keys && forall id :: id in s.locks ==> Waiting(s.table, id)
  }

  /** An open transaction has had the row accepted. */
  ghost predicate InFlight(s: State, id: Id)
  {
    id in s.verdicts && s.verdicts[id]
  }

  ghost predicate Delivered(s: State, id: Id)
  {
    id in s.table.live && s.table.live[id].delivered
  }

  ghost function Count(b: bool): nat { if b then 1 else 0 }

  /** Every acceptance is accounted for: committed as delivered, in an open transaction, or lost with a crash. */
  ghost predicate Accounted(s: State, id: Id)
  {
    s.accepted[id] == s.lost[id] + Count(Delivered(s, id)) + Count(InFlight(s, id))
  }

  ghost predicate Inv(cfg: Config, s: State)
  {
    && TriesBounded(cfg, s.table)
    && s.table.live.Keys + s.table.dead.Keys <= s.used
    && LocksHold(s)
    && (forall id :: Accounted(s, id))
    && (forall id :: id !in s.used ==> s.accepted[id] == 0)
  }

  // ------------------------------------------------ proofs

  lemma DoKeepsBounds(cfg: Config, s: State, step: Step)
    requires Inv(cfg, s) && cfg.maxTries > 0 && Enabled(cfg, s, step)
    ensures TriesBounded(cfg, Do(cfg, s, step).table)
    ensures var t := Do(cfg, s, step); t.table.live.Keys + t.table.dead.Keys <= t.used
  {
    if step.Commit? {
      SettleKeepsBounds(cfg, s.table, Mine(s, step.w));
    }
  }

  lemma DoKeepsLocks(cfg: Config, s: State, step: Step)
    requires Inv(cfg, s) && Enabled(cfg, s, step)
    ensures LocksHold(Do(cfg, s, step))
  {
    var t := Do(cfg, s, step);
    forall id | id in t.locks ensures Waiting(t.table, id) {
      if step.Begin? && id in step.ids { assert Waiting(s.table, id); } else { assert id in s.locks; }
    }
  }

  lemma DoKeepsAccounts(cfg: Config, s: State, step: Step, id: Id)
    requires Inv(cfg, s) && Enabled(cfg, s, step)
    ensures Accounted(Do(cfg, s, step), id)
    ensures id !in Do(cfg, s, step).used ==> Do(cfg, s, step).accepted[id] == 0
  {
    assert Accounted(s, id);
    if id in s.locks { assert Waiting(s.table, id); }
  }

  lemma DoKeepsInv(cfg: Config, s: State, step: Step)
    requires Inv(cfg, s) && cfg.maxTries > 0
    ensures Inv(cfg, Do(cfg, s, step))
  {
    if Enabled(cfg, s, step) {
      DoKeepsBounds(cfg, s, step);
      DoKeepsLocks(cfg, s, step);
      forall id { DoKeepsAccounts(cfg, s, step, id); }
    }
  }

  lemma {:induction false} EveryRunSafe(cfg: Config, steps: seq<Step>)
    requires cfg.maxTries > 0
    ensures Inv(cfg, Run(cfg, START, steps))
  {
    if steps != [] {
      EveryRunSafe(cfg, steps[..|steps| - 1]);
      DoKeepsInv(cfg, Run(cfg, START, steps[..|steps| - 1]), steps[|steps| - 1]);
    }
  }

  // ------------------------------------------------ what follows

  /**
   In every state of every run a row is in at most one place: waiting below the
   limit, delivered, or dead at exactly the limit.  A delivered row was accepted
   at least once, and acceptances beyond one are exactly those lost in crashes;
   with no transaction open a row is delivered exactly when one acceptance was
   not lost.
   */
  lemma DeliveryIsAtLeastOnce(cfg: Config, steps: seq<Step>, id: Id)
    requires cfg.maxTries > 0
    ensures var s := Run(cfg, START, steps);
            && !(id in s.table.live && id in s.table.dead)
            && (Waiting(s.table, id) ==> s.table.live[id].tries < cfg.maxTries)
            && (id in s.table.dead ==> s.table.dead[id] == cfg.maxTries)
            && (Delivered(s, id) ==> s.accepted[id] >= 1)
            && s.lost[id] <= s.accepted[id] <= s.lost[id] + 1
            && (id !in s.locks ==> (Delivered(s, id) <==> s.accepted[id] == s.lost[id] + 1))
  {
    EveryRunSafe(cfg, steps);
    var s := Run(cfg, START, steps);
    assert Accounted(s, id);
    if InFlight(s, id) { assert Waiting(s.table, id); }
  }

  /** The ids in use, live or dead. */
  ghost function Rows(s: State): set<Id>
  {
    s.table.live.Keys + s.table.dead.Keys
  }

  /** Only an enqueue adds a row; a replay puts a fresh row in the place of the dead letter. */
  ghost function RowsNext(s: State, step: Step): set<Id>
  {
    match step
    case Enqueue(id, _) => Rows(s) + {id}
    case Replay(dead, id, _) => Rows(s) - {dead} + {id}
    case _ => Rows(s)
  }

  lemma EnqueueRows(cfg: Config, s: State, step: Step)
    requires step.Enqueue? && Enabled(cfg, s, step)
    ensures Rows(Do(cfg, s, step)) == Rows(s) + {step.id}
  {
    assert s.table.live[step.id := step.item].Keys == s.table.live.Keys + {step.id};
  }

  lemma CommitRows(cfg: Config, s: State, step: Step)
    requires step.Commit? && Enabled(cfg, s, step)
    ensures Rows(Do(cfg, s, step)) == Rows(s)
  {
    SettleKeepsRows(cfg, s.table, Mine(s, step.w));
  }

  lemma OtherRows(cfg: Config, s: State, step: Step)
    requires step.Begin? || step.Attempt? || step.Crash?
    ensures Rows(Do(cfg, s, step)) == Rows(s)
  {
  }

  lemma {:induction false} RowsAfter(cfg: Config, s: State, step: Step)
    requires s.table.live.Keys !! s.table.dead.Keys && Rows(s) <= s.used && Enabled(cfg, s, step)
    ensures Rows(Do(cfg, s, step)) == RowsNext(s, step)
  {
    match step
    case Enqueue(_, _) => EnqueueRows(cfg, s, step);
    case Commit(_) => CommitRows(cfg, s, step);
    case Replay(dead, id, item) => ReplayRows(s.table, dead, id, item);
    case _ => OtherRows(cfg, s, step);
  }

  lemma ReplayRows(t: Table, dead: Id, id: Id, item: Item)
    requires t.live.Keys !! t.dead.Keys && dead in t.dead && id !in t.live && id !in t.dead
    ensures var rest := map x | x in t.dead && x != dead :: t.dead[x];
            t.live[id := item].Keys + rest.Keys == t.live.Keys + t.dead.Keys - {dead} + {id}
  {
    var rest := map x | x in t.dead && x != dead :: t.dead[x];
    assert rest.Keys == t.dead.Keys - {dead};
    assert t.live[id := item].Keys == t.live.Keys + {id};
  }

  /** Live rows and dead letters together grow by one with each enqueue and otherwise stay as many. */
  lemma TotalConserved(cfg: Config, s: State, step: Step)
    requires Inv(cfg, s) && cfg.maxTries > 0
    ensures var t := Do(cfg, s, step).table;
            |t.live| + |t.dead| == |s.table.live| + |s.table.dead| + Count(step.Enqueue? && Enabled(cfg, s, step))
  {
    DoKeepsInv(cfg, s, step);
    RowsAreBoth(cfg, s);
    RowsAreBoth(cfg, Do(cfg, s, step));
    if Enabled(cfg, s, step) {
      RowsAfter(cfg, s, step);
    }
  }

  lemma RowsAreBoth(cfg: Config, s: State)
    requires TriesBounded(cfg, s.table)
    ensures |Rows(s)| == |s.table.live| + |s.table.dead|
  {
    assert |s.table.live.Keys| == |s.table.live| && |s.table.dead.Keys| == |s.table.dead|;
  }

  /** Rows a run has enqueued. */
  ghost function Enqueued(cfg: Config, steps: seq<Step>): nat
  {
    if steps == [] then 0
    else var prior, last := steps[..|steps| - 1], steps[|steps| - 1];
         Enqueued(cfg, prior) + Count(last.Enqueue? && Enabled(cfg, Run(cfg, START, prior), last))
  }

  /** Over every run, replays included, each enqueued row is still one row: waiting, delivered or dead. */
  lemma {:induction false} EveryRowIsSomewhere(cfg: Config, steps: seq<Step>)
    requires cfg.maxTries > 0
    ensures var t := Run(cfg, START, steps).table;
            |t.live| + |t.dead| == Enqueued(cfg, steps) && t.live.Keys !! t.dead.Keys
  {
    EveryRunSafe(cfg, steps);
    if steps != [] {
      EveryRowIsSomewhere(cfg, steps[..|steps| - 1]);
      EveryRunSafe(cfg, steps[..|steps| - 1]);
      TotalConserved(cfg, Run(cfg, START, steps[..|steps| - 1]), steps[|steps| - 1]);
    }
  }

  /** Without replays nothing that was ever enqueued disappears. */
  lemma {:induction false} NothingDisappears(cfg: Config, steps: seq<Step>)
    requires cfg.maxTries > 0
    requires forall i :: 0 <= i < |steps| ==> !steps[i].Replay?
    ensures var s := Run(cfg, START, steps); Rows(s) == s.used
  {
    if steps != [] {
      NothingDisappears(cfg, steps[..|steps| - 1]);
      EveryRunSafe(cfg, steps[..|steps| - 1]);
      var s, step := Run(cfg, START, steps[..|steps| - 1]), steps[|steps| - 1];
      assert !step.Replay?;
      if Enabled(cfg, s, step) { RowsAfter(cfg, s, step); }
    }
  }
}
