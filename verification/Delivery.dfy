/**
 At-least-once delivery out of a table, as `workers/outbox/projector.py` and
 `workers/email/flusher.py` both do it: a batch of the oldest waiting rows is
 attempted one by one, a failure counts a try, and the last allowed failure moves
 the row to the dead letters.
 */
module Delivery {
  import opened Common

  type Id = nat

  /** A row of an outbox; `notBefore` delays it, None means at once. */
  datatype Item = Item(createdAt: int, notBefore: Option<int>, tries: nat, delivered: bool)

  /** The live rows, and the tries recorded with each dead letter. */
  datatype Table = Table(live: map<Id, Item>, dead: map<Id, nat>)

  /** Tries before a row is dead-lettered, and rows a batch may hold. */
  datatype Config = Config(maxTries: nat, batchSize: nat)

  // ------------------------------------------------ one pass

  function Handle(item: Item, ok: bool): Item
  {
    if ok then item.(delivered := true) else item.(tries := item.tries + 1)
  }

  predicate Dies(cfg: Config, item: Item, ok: bool)
  {
    !ok && item.tries + 1 >= cfg.maxTries
  }

  /** The live rows after a committed batch; `verdicts` says of each of its rows whether the receiver took it. */
  function LiveAfter(cfg: Config, live: map<Id, Item>, verdicts: map<Id, bool>): map<Id, Item>
  {
    map id | id in live && !(id in verdicts && Dies(cfg, live[id], verdicts[id]))
      :: if id in verdicts then Handle(live[id], verdicts[id]) else live[id]
  }

  function Buried(cfg: Config, live: map<Id, Item>, verdicts: map<Id, bool>): map<Id, nat>
  {
    map id | id in live && id in verdicts && Dies(cfg, live[id], verdicts[id]) :: live[id].tries + 1
  }

  function Settle(cfg: Config, t: Table, verdicts: map<Id, bool>): Table
  {
    Table(LiveAfter(cfg, t.live, verdicts), t.dead + Buried(cfg, t.live, verdicts))
  }

  predicate Waiting(t: Table, id: Id)
  {
    id in t.live && !t.live[id].delivered
  }

  predicate Eligible(t: Table, now: int, id: Id)
  {
    Waiting(t, id) && (t.live[id].notBefore.None? || t.live[id].notBefore.value <= now)
  }

  /** The query: the oldest eligible rows, as many as fit; equal times may come in any order. */
  ghost predicate IsBatch(cfg: Config, t: Table, now: int, batch: set<Id>)
  {
    && (forall id :: id in batch ==> Eligible(t, now, id))
    && |batch| <= cfg.batchSize
    && (forall id, other :: id in batch && Eligible(t, now, other) && other !in batch ==> t.live[id].createdAt <= t.live[other].createdAt)
    && (forall other :: Eligible(t, now, other) && other !in batch ==> |batch| == cfg.batchSize)
  }

  /** What the loop does to the table for one row of the batch. */
  function SettleOne(cfg: Config, t: Table, id: Id, ok: bool): Table
    requires id in t.live
  {
    if Dies(cfg, t.live[id], ok) then Table(t.live - {id}, t.dead[id := t.live[id].tries + 1])
    else Table(t.live[id := Handle(t.live[id], ok)], t.dead)
  }

  lemma LiveOneMore(cfg: Config, live: map<Id, Item>, verdicts: map<Id, bool>, id: Id, ok: bool)
    requires id in live && id !in verdicts
    ensures var sofar := LiveAfter(cfg, live, verdicts);
            && id in sofar && sofar[id] == live[id]
            && LiveAfter(cfg, live, verdicts[id := ok]) == if Dies(cfg, live[id], ok) then sofar - {id} else sofar[id := Handle(live[id], ok)]
  {
  }

  lemma BuriedOneMore(cfg: Config, live: map<Id, Item>, verdicts: map<Id, bool>, id: Id, ok: bool)
    requires id in live && id !in verdicts
    ensures var sofar := Buried(cfg, live, verdicts);
            Buried(cfg, live, verdicts[id := ok]) == if Dies(cfg, live[id], ok) then sofar[id := live[id].tries + 1] else sofar
  {
  }

  lemma AddsOne(dead: map<Id, nat>, buried: map<Id, nat>, id: Id, tries: nat)
    ensures (dead + buried)[id := tries] == dead + buried[id := tries]
  {
  }

  /** Row by row or all at once: the loop computes `Settle`. */
  lemma SettleOneMore(cfg: Config, t: Table, verdicts: map<Id, bool>, id: Id, ok: bool)
    requires id in t.live && id !in verdicts
    ensures id in Settle(cfg, t, verdicts).live && Settle(cfg, t, verdicts).live[id] == t.live[id]
    ensures SettleOne(cfg, Settle(cfg, t, verdicts), id, ok) == Settle(cfg, t, verdicts[id := ok])
  {
    LiveOneMore(cfg, t.live, verdicts, id, ok);
    BuriedOneMore(cfg, t.live, verdicts, id, ok);
    AddsOne(t.dead, Buried(cfg, t.live, verdicts), id, t.live[id].tries + 1);
  }

  /** The verdicts on the rows of a batch. */
  ghost function Said(batch: seq<Id>, says: Id -> bool): map<Id, bool>
  {
    map id | id in batch :: says(id)
  }

  /** How many of them were accepted. */
  function CountAccepted(batch: seq<Id>, says: Id -> bool): nat
  {
    if batch == [] then 0
    else CountAccepted(batch[..|batch| - 1], says) + if says(batch[|batch| - 1]) then 1 else 0
  }

  ghost predicate Distinct(batch: seq<Id>)
  {
    forall i, j :: 0 <= i < j < |batch| ==> batch[i] != batch[j]
  }

  /** Rows a loop may settle one by one. */
  ghost predicate Takes(t: Table, batch: seq<Id>)
  {
    Distinct(batch) && t.live.Keys !! t.dead.Keys && forall id :: id in batch ==> id in t.live && !t.live[id].delivered
  }

  lemma NoRowYet(cfg: Config, t: Table, says: Id -> bool)
    ensures Settle(cfg, t, Said([], says)) == t
  {
    assert LiveAfter(cfg, t.live, Said([], says)) == t.live;
    assert Buried(cfg, t.live, Said([], says)) == map[];
  }

  lemma CountOneMore(batch: seq<Id>, i: nat, says: Id -> bool)
    requires i < |batch|
    ensures CountAccepted(batch[..i + 1], says) == CountAccepted(batch[..i], says) + if says(batch[i]) then 1 else 0
  {
    assert batch[..i + 1][..i] == batch[..i];
  }

  /** One more turn of the loop over a batch. */
  lemma NextRow(cfg: Config, t: Table, batch: seq<Id>, i: nat, says: Id -> bool)
    requires Takes(t, batch) && i < |batch|
    ensures var sofar := Settle(cfg, t, Said(batch[..i], says)); var id := batch[i];
            && id in sofar.live && sofar.live[id] == t.live[id] && id !in sofar.dead
            && SettleOne(cfg, sofar, id, says(id)) == Settle(cfg, t, Said(batch[..i + 1], says))
    ensures CountAccepted(batch[..i + 1], says) == CountAccepted(batch[..i], says) + if says(batch[i]) then 1 else 0
  {
    var id, before, after := batch[i], batch[..i], batch[..i + 1];
    assert after == before + [id];
    assert after[..|after| - 1] == before;
    assert id !in before;
    assert Said(after, says) == Said(before, says)[id := says(id)];
    SettleOneMore(cfg, t, Said(before, says), id, says(id));
  }

  /** Among the eligible rows outside `batch`, one that no other is older than. */
  method OldestOutside(t: Table, now: int, batch: set<Id>) returns (found: bool, oldest: Id)
    ensures found ==> Eligible(t, now, oldest) && oldest !in batch
    ensures found ==> forall id :: Eligible(t, now, id) && id !in batch ==> t.live[oldest].createdAt <= t.live[id].createdAt
    ensures !found ==> forall id :: Eligible(t, now, id) ==> id in batch
  {
    var rest := t.live.Keys - batch;
    found, oldest := false, 0;
    while rest != {}
      invariant rest <= t.live.Keys - batch
      invariant found ==> Eligible(t, now, oldest) && oldest !in batch
      invariant forall id :: Eligible(t, now, id) && id !in batch && id !in rest ==> found && t.live[oldest].createdAt <= t.live[id].createdAt
    {
      var id :| id in rest;
      rest := rest - {id};
      if Eligible(t, now, id) && (!found || t.live[id].createdAt < t.live[oldest].createdAt) {
        found, oldest := true, id;
      }
    }
  }

  function Chosen(batch: seq<Id>): set<Id>
  {
    set id | id in batch
  }

  /** `ORDER BY created_at LIMIT n` over the eligible rows. */
  method SelectBatch(cfg: Config, t: Table, now: int) returns (batch: seq<Id>)
    ensures Distinct(batch) && IsBatch(cfg, t, now, Chosen(batch)) && |Chosen(batch)| == |batch|
  {
    batch := [];
    ghost var chosen: set<Id> := {};
    while |batch| < cfg.batchSize
      invariant chosen == Chosen(batch) && |chosen| == |batch| <= cfg.batchSize
      invariant Distinct(batch)
      invariant forall id :: id in chosen ==> Eligible(t, now, id)
      invariant forall id, other :: id in chosen && Eligible(t, now, other) && other !in chosen ==> t.live[id].createdAt <= t.live[other].createdAt
    {
      var found, oldest := OldestOutside(t, now, Chosen(batch));
      if !found { return; }
      batch := batch + [oldest];
      assert Chosen(batch) == chosen + {oldest};
      chosen := chosen + {oldest};
    }
  }

  lemma BatchTakes(cfg: Config, t: Table, now: int, batch: seq<Id>)
    requires IsBatch(cfg, t, now, Chosen(batch)) && Distinct(batch) && t.live.Keys !! t.dead.Keys
    ensures Takes(t, batch)
  {
    assert forall id :: id in batch ==> id in Chosen(batch) && Eligible(t, now, id);
  }

  // ------------------------------------------------ a pass, row by row

  /** What an attempt leaves of a waiting row that may be refused `spare` times and be kept. */
  ghost predicate AfterAttempt(before: map<Id, Item>, live: map<Id, Item>, dead: map<Id, nat>, id: Id, accepted: bool, spare: nat)
    requires id in before
  {
    var item := before[id];
    if accepted then id in live && live[id] == item.(delivered := true)
    else if item.tries < spare then id in live && live[id] == item.(tries := item.tries + 1)
    else id !in live && id in dead && dead[id] == spare + 1
  }

  /** The rows of two tables that are not in the batch are the same. */
  ghost predicate SameOutside<T>(before: map<Id, T>, after: map<Id, T>, batch: seq<Id>)
  {
    forall id :: id !in batch ==> (id in before <==> id in after) && (id in before ==> after[id] == before[id])
  }

  /** The batch holds the oldest waiting rows that are due: at most `limit`, and fewer only when all are taken. */
  ghost predicate OldestDue(before: map<Id, Item>, now: int, batch: seq<Id>, limit: nat)
  {
    && |batch| <= limit && Distinct(batch)
    && (forall id :: id in batch ==> DueIn(before, now, id))
    && (forall other :: DueIn(before, now, other) && other !in batch ==>
          |batch| == limit && forall id :: id in batch ==> before[id].createdAt <= before[other].createdAt)
  }

  ghost predicate DueIn(rows: map<Id, Item>, now: int, id: Id)
  {
    id in rows && !rows[id].delivered && (rows[id].notBefore.Some? ==> rows[id].notBefore.value <= now)
  }

  lemma SettledRow(cfg: Config, t: Table, batch: seq<Id>, says: Id -> bool, id: Id)
    requires TriesBounded(cfg, t) && cfg.maxTries > 0 && id in batch && Waiting(t, id)
    ensures var settled := Settle(cfg, t, Said(batch, says));
            AfterAttempt(t.live, settled.live, settled.dead, id, says(id), cfg.maxTries - 1)
  {
    assert Said(batch, says)[id] == says(id);
  }

  lemma SettledOutside(cfg: Config, t: Table, batch: seq<Id>, says: Id -> bool)
    ensures var settled := Settle(cfg, t, Said(batch, says));
            SameOutside(t.live, settled.live, batch) && SameOutside(t.dead, settled.dead, batch)
  {
  }

  lemma BatchIsOldestDue(cfg: Config, t: Table, now: int, batch: seq<Id>)
    requires IsBatch(cfg, t, now, Chosen(batch)) && Distinct(batch) && |Chosen(batch)| == |batch|
    ensures OldestDue(t.live, now, batch, cfg.batchSize)
  {
    forall id | id in batch ensures DueIn(t.live, now, id) {
      assert id in Chosen(batch) && Eligible(t, now, id);
    }
    forall other | DueIn(t.live, now, other) && other !in batch
      ensures |batch| == cfg.batchSize && forall id :: id in batch ==> t.live[id].createdAt <= t.live[other].createdAt
    {
      assert Eligible(t, now, other) && other !in Chosen(batch);
      assert forall id :: id in batch ==> id in Chosen(batch);
    }
  }

  /**
   What a committed pass leaves: each row of the batch as its own attempt left it, every
   other row as it was.
   */
  ghost predicate PassLeaves(before: Table, after: Table, now: int, batch: seq<Id>, says: Id -> bool, spare: nat, limit: nat)
  {
    && OldestDue(before.live, now, batch, limit)
    && (forall id :: id in batch ==> id in before.live && AfterAttempt(before.live, after.live, after.dead, id, says(id), spare))
    && SameOutside(before.live, after.live, batch) && SameOutside(before.dead, after.dead, batch)
  }

  lemma SettleLeaves(cfg: Config, t: Table, now: int, batch: seq<Id>, says: Id -> bool)
    requires TriesBounded(cfg, t) && cfg.maxTries > 0
    requires IsBatch(cfg, t, now, Chosen(batch)) && Distinct(batch) && |Chosen(batch)| == |batch|
    ensures PassLeaves(t, Settle(cfg, t, Said(batch, says)), now, batch, says, cfg.maxTries - 1, cfg.batchSize)
  {
    var settled := Settle(cfg, t, Said(batch, says));
    BatchIsOldestDue(cfg, t, now, batch);
    forall id | id in batch ensures id in t.live && AfterAttempt(t.live, settled.live, settled.dead, id, says(id), cfg.maxTries - 1) {
      assert DueIn(t.live, now, id);
      SettledRow(cfg, t, batch, says, id);
    }
    SettledOutside(cfg, t, batch, says);
  }

  // ------------------------------------------------ bounded progress

  /** Tries the rows of `S` still have. */
  ghost function TriesLeft(cfg: Config, live: map<Id, Item>, S: set<Id>): int
    requires S <= live.Keys
  {
    if S == {} then 0 else var id :| id in S; (cfg.maxTries - live[id].tries) + TriesLeft(cfg, live, S - {id})
  }

  lemma {:induction false} TriesLeftAny(cfg: Config, live: map<Id, Item>, S: set<Id>, id: Id)
    requires S <= live.Keys && id in S
    ensures TriesLeft(cfg, live, S) == (cfg.maxTries - live[id].tries) + TriesLeft(cfg, live, S - {id})
    decreases S
  {
    var x :| x in S && TriesLeft(cfg, live, S) == (cfg.maxTries - live[x].tries) + TriesLeft(cfg, live, S - {x});
    if x != id {
      TriesLeftAny(cfg, live, S - {x}, id);
      TriesLeftAny(cfg, live, S - {id}, x);
      assert S - {x} - {id} == S - {id} - {x};
    }
  }

  lemma {:induction false} TriesLeftAtMost(cfg: Config, live: map<Id, Item>, S: set<Id>)
    requires S <= live.Keys
    ensures TriesLeft(cfg, live, S) <= |S| * cfg.maxTries
  {
    if S != {} {
      var id :| id in S && TriesLeft(cfg, live, S) == (cfg.maxTries - live[id].tries) + TriesLeft(cfg, live, S - {id});
      TriesLeftAtMost(cfg, live, S - {id});
      var item: Item := live[id];
      assert item.tries >= 0;
      var n := |S - {id}|;
      assert |S| == n + 1;
      assert |S| * cfg.maxTries == n * cfg.maxTries + cfg.maxTries;
    } else {
      assert |S| == 0;
    }
  }

  /** A row of the batch either leaves `S` or has one try less. */
  lemma {:induction false} TriesLeftDrops(cfg: Config, live: map<Id, Item>, S: set<Id>, live': map<Id, Item>, S': set<Id>, batch: set<Id>)
    requires S <= live.Keys && S' <= live'.Keys && S' <= S && batch <= S
    requires S - S' <= batch
    requires forall id :: id in S ==> live[id].tries < cfg.maxTries
    requires forall id :: id in S' ==> live'[id].tries == live[id].tries + if id in batch then 1 else 0
    ensures TriesLeft(cfg, live', S') <= TriesLeft(cfg, live, S) - |batch|
    decreases S
  {
    if S != {} {
      var id :| id in S;
      TriesLeftAny(cfg, live, S, id);
      if id in S' { TriesLeftAny(cfg, live', S', id); }
      TriesLeftDrops(cfg, live, S - {id}, live', S' - {id}, batch - {id});
      assert id !in S' ==> S' - {id} == S';
    }
  }

  ghost predicate TriesBounded(cfg: Config, t: Table)
  {
    && t.live.Keys !! t.dead.Keys
    && (forall id :: Waiting(t, id) ==> t.live[id].tries < cfg.maxTries)
    && (forall id :: id in t.dead ==> t.dead[id] == cfg.maxTries)
  }

  /** A pass, under which `target` is due if it is still there, followed by arrivals that are newer than `born`. */
  ghost predicate Pass(cfg: Config, before: Table, after: Table, target: Id, born: int)
  {
    exists now, batch, verdicts: map<Id, bool> :: PassWith(cfg, before, after, target, born, now, batch, verdicts)
  }

  ghost predicate PassWith(cfg: Config, before: Table, after: Table, target: Id, born: int, now: int, batch: set<Id>, verdicts: map<Id, bool>)
  {
    var settled := Settle(cfg, before, verdicts);
    && (target in before.live && before.live[target].notBefore.Some? ==> before.live[target].notBefore.value <= now)
    && IsBatch(cfg, before, now, batch) && verdicts.Keys == batch
    && after.dead == settled.dead && settled.live.Keys <= after.live.Keys
    && (forall id :: id in settled.live ==> after.live[id] == settled.live[id])
    && (forall id :: id in after.live && id !in settled.live ==>
          id !in before.live && id !in after.dead && after.live[id].tries == 0 && after.live[id].createdAt > born)
  }

  /** The other waiting rows that are at least as old as `target`. */
  ghost function Ahead(t: Table, target: Id): (S: set<Id>)
    requires target in t.live
    ensures S <= t.live.Keys
  {
    set id | id in t.live && Waiting(t, id) && id != target && t.live[id].createdAt <= t.live[target].createdAt
  }

  /** Passes that can still leave `target` waiting: full batches of older rows, then its own tries. */
  ghost function Patience(cfg: Config, t: Table, target: Id): int
    requires target in t.live && cfg.batchSize > 0
  {
    TriesLeft(cfg, t.live, Ahead(t, target)) / cfg.batchSize + (cfg.maxTries - t.live[target].tries)
  }

  lemma SettleKeepsBounds(cfg: Config, t: Table, verdicts: map<Id, bool>)
    requires TriesBounded(cfg, t) && cfg.maxTries > 0
    requires forall id :: id in verdicts ==> Waiting(t, id)
    ensures TriesBounded(cfg, Settle(cfg, t, verdicts))
  {
  }

  /** Settling a batch moves rows to the dead letters but loses none. */
  lemma SettleKeepsRows(cfg: Config, t: Table, verdicts: map<Id, bool>)
    ensures var after := Settle(cfg, t, verdicts);
            after.live.Keys + after.dead.Keys == t.live.Keys + t.dead.Keys
  {
  }

  /** Rows that arrive with no try spent keep the bounds. */
  lemma ArrivalsKeepBounds(cfg: Config, settled: Table, after: Table)
    requires TriesBounded(cfg, settled) && cfg.maxTries > 0
    requires after.dead == settled.dead && forall id :: id in settled.live ==> id in after.live && after.live[id] == settled.live[id]
    requires forall id :: id in after.live && id !in settled.live ==> id !in after.dead && after.live[id].tries == 0
    ensures TriesBounded(cfg, after)
  {
    forall id | Waiting(after, id) ensures after.live[id].tries < cfg.maxTries {
      if id in settled.live { assert Waiting(settled, id); }
    }
  }

  lemma PassKeepsBounds(cfg: Config, before: Table, after: Table, target: Id, born: int)
    requires TriesBounded(cfg, before) && cfg.maxTries > 0 && Pass(cfg, before, after, target, born)
    ensures TriesBounded(cfg, after)
  {
    var now, batch, verdicts: map<Id, bool> :| PassWith(cfg, before, after, target, born, now, batch, verdicts);
    SettleKeepsBounds(cfg, before, verdicts);
    ArrivalsKeepBounds(cfg, Settle(cfg, before, verdicts), after);
  }

  lemma SettledOrDead(cfg: Config, t: Table, verdicts: map<Id, bool>, id: Id)
    requires id in t.live
    ensures var settled := Settle(cfg, t, verdicts);
            id in settled.dead || (id in settled.live && settled.live[id].createdAt == t.live[id].createdAt)
  {
  }

  /** A row that is there before a pass is there after it with the same age, or is dead. */
  lemma StaysOrDies(cfg: Config, before: Table, after: Table, target: Id, born: int)
    requires Pass(cfg, before, after, target, born) && target in before.live
    ensures target in after.dead || (target in after.live && after.live[target].createdAt == before.live[target].createdAt)
  {
    var now, batch, verdicts: map<Id, bool> :| PassWith(cfg, before, after, target, born, now, batch, verdicts);
    SettledOrDead(cfg, before, verdicts, target);
  }

  lemma DeadAfterPass(cfg: Config, before: Table, after: Table, target: Id, born: int)
    requires Pass(cfg, before, after, target, born) && target in before.dead
    ensures target in after.dead
  {
  }

  lemma {:induction false} IsSomewhere(cfg: Config, tables: seq<Table>, target: Id, born: int, i: nat)
    requires i < |tables| && target in tables[0].live
    requires forall i :: 0 <= i < |tables| - 1 ==> Pass(cfg, tables[i], tables[i + 1], target, born)
    ensures target in tables[i].live || target in tables[i].dead
  {
    if i > 0 {
      IsSomewhere(cfg, tables, target, born, i - 1);
      assert Pass(cfg, tables[i - 1], tables[i - 1 + 1], target, born);
      if target in tables[i - 1].live {
        StaysOrDies(cfg, tables[i - 1], tables[i], target, born);
      } else {
        DeadAfterPass(cfg, tables[i - 1], tables[i], target, born);
      }
    }
  }

  lemma {:induction false} DeadStaysDead(cfg: Config, tables: seq<Table>, target: Id, born: int)
    requires tables != [] && TriesBounded(cfg, tables[0]) && cfg.maxTries > 0 && target in tables[0].dead
    requires forall i :: 0 <= i < |tables| - 1 ==> Pass(cfg, tables[i], tables[i + 1], target, born)
    ensures target in tables[|tables| - 1].dead && target !in tables[|tables| - 1].live
    decreases |tables|
  {
    if |tables| > 1 {
      assert Pass(cfg, tables[0], tables[0 + 1], target, born);
      PassKeepsBounds(cfg, tables[0], tables[1], target, born);
      PassesOfRest(cfg, tables, target, born);
      DeadStaysDead(cfg, tables[1..], target, born);
    }
  }

  lemma PassesOfRest(cfg: Config, tables: seq<Table>, target: Id, born: int)
    requires |tables| > 1 && forall i :: 0 <= i < |tables| - 1 ==> Pass(cfg, tables[i], tables[i + 1], target, born)
    ensures var rest := tables[1..]; forall i :: 0 <= i < |rest| - 1 ==> Pass(cfg, rest[i], rest[i + 1], target, born)
  {
    var rest := tables[1..];
    forall i | 0 <= i < |rest| - 1 ensures Pass(cfg, rest[i], rest[i + 1], target, born) {
      assert Pass(cfg, tables[i + 1], tables[i + 1 + 1], target, born);
    }
  }

  /** A row still waiting after the pass was waiting before, with a try less if it was in the batch. */
  lemma StillWaiting(cfg: Config, before: Table, after: Table, target: Id, born: int, now: int, batch: set<Id>, verdicts: map<Id, bool>, id: Id)
    requires PassWith(cfg, before, after, target, born, now, batch, verdicts) && Waiting(after, id) && id in before.live
    ensures Waiting(before, id) && after.live[id].createdAt == before.live[id].createdAt
    ensures after.live[id].tries == before.live[id].tries + if id in batch then 1 else 0
  {
    var settled := Settle(cfg, before, verdicts);
    assert id in settled.live;
  }

  lemma AheadShrinks(cfg: Config, before: Table, after: Table, target: Id, born: int, now: int, batch: set<Id>, verdicts: map<Id, bool>)
    requires PassWith(cfg, before, after, target, born, now, batch, verdicts) && Waiting(after, target)
    requires target in before.live && before.live[target].createdAt == born
    ensures Waiting(before, target) && after.live[target].tries == before.live[target].tries + if target in batch then 1 else 0
    ensures var S, S' := Ahead(before, target), Ahead(after, target);
            && S' <= S && S - S' <= batch
            && forall id :: id in S' ==> after.live[id].tries == before.live[id].tries + if id in batch then 1 else 0
  {
    StillWaiting(cfg, before, after, target, born, now, batch, verdicts, target);
    var S, S' := Ahead(before, target), Ahead(after, target);
    forall id | id in S' ensures id in S && after.live[id].tries == before.live[id].tries + if id in batch then 1 else 0 {
      if id in before.live {
        StillWaiting(cfg, before, after, target, born, now, batch, verdicts, id);
      }
    }
    forall id | id in S && id !in batch ensures id in S' {
      var settled := Settle(cfg, before, verdicts);
      assert id in settled.live;
    }
  }

  lemma FullBatchIsAhead(cfg: Config, t: Table, now: int, batch: set<Id>, target: Id)
    requires IsBatch(cfg, t, now, batch) && Eligible(t, now, target) && target !in batch
    ensures batch <= Ahead(t, target) && |batch| == cfg.batchSize
  {
  }

  lemma PassAdvances(cfg: Config, before: Table, after: Table, target: Id, born: int)
    requires TriesBounded(cfg, before) && cfg.maxTries > 0 && cfg.batchSize > 0
    requires target in before.live && before.live[target].createdAt == born
    requires Pass(cfg, before, after, target, born) && Waiting(after, target)
    ensures Waiting(before, target) && Patience(cfg, after, target) <= Patience(cfg, before, target) - 1
  {
    var now, batch, verdicts: map<Id, bool> :| PassWith(cfg, before, after, target, born, now, batch, verdicts);
    AheadShrinks(cfg, before, after, target, born, now, batch, verdicts);
    LeftDrops(cfg, before, after, target, batch);
    if target !in batch { FullBatchIsAhead(cfg, before, now, batch, target); }
    PatienceDrops(cfg, before, after, target, batch);
  }

  lemma PatienceDrops(cfg: Config, before: Table, after: Table, target: Id, batch: set<Id>)
    requires cfg.batchSize > 0 && target in before.live && target in after.live
    requires after.live[target].tries == before.live[target].tries + if target in batch then 1 else 0
    requires TriesLeft(cfg, after.live, Ahead(after, target)) <= TriesLeft(cfg, before.live, Ahead(before, target)) - |batch * Ahead(before, target)|
    requires target !in batch ==> batch <= Ahead(before, target) && |batch| == cfg.batchSize
    ensures Patience(cfg, after, target) <= Patience(cfg, before, target) - 1
  {
    var left, left' := TriesLeft(cfg, before.live, Ahead(before, target)), TriesLeft(cfg, after.live, Ahead(after, target));
    if target !in batch {
      assert batch * Ahead(before, target) == batch;
      DivDrops(left', left, cfg.batchSize);
    } else {
      DivMonotone(left', left, cfg.batchSize);
    }
  }

  lemma LeftDrops(cfg: Config, before: Table, after: Table, target: Id, batch: set<Id>)
    requires target in before.live && target in after.live && TriesBounded(cfg, before)
    requires var S, S' := Ahead(before, target), Ahead(after, target);
             && S' <= S && S - S' <= batch
             && forall id :: id in S' ==> after.live[id].tries == before.live[id].tries + if id in batch then 1 else 0
    ensures TriesLeft(cfg, after.live, Ahead(after, target)) <= TriesLeft(cfg, before.live, Ahead(before, target)) - |batch * Ahead(before, target)|
  {
    var S, S' := Ahead(before, target), Ahead(after, target);
    TriesLeftDrops(cfg, before.live, S, after.live, S', batch * S);
  }

  lemma MulMonotone(d: nat, x: int, y: int)
    requires x <= y
    ensures d * x <= d * y
  {
    assert d * y - d * x == d * (y - x);
  }

  lemma DivMonotone(a: int, b: int, d: int)
    requires d > 0 && a <= b
    ensures a / d <= b / d
  {
    assert d * (b / d + 1) == d * (b / d) + d;
    if a / d > b / d {
      MulMonotone(d, b / d + 1, a / d);
    }
  }

  lemma DivDrops(a: int, b: int, d: int)
    requires d > 0 && a <= b - d
    ensures a / d <= b / d - 1
  {
    DivMonotone(a + d, b, d);
    DivPlus(a, d);
  }

  lemma DivPlus(a: int, d: int)
    requires d > 0
    ensures (a + d) / d == a / d + 1
  {
    var k := (a + d) / d - a / d - 1;
    assert d * ((a + d) / d) == d * (a / d) + d + d * k by {
      assert (a + d) / d == a / d + 1 + k;
      assert d * (a / d + 1 + k) == d * (a / d) + d + d * k;
    }
    if k > 0 { MulMonotone(d, 1, k); }
    if k < 0 { MulMonotone(d, k, -1); }
  }

  lemma {:induction false} PassesSpendPatience(cfg: Config, tables: seq<Table>, target: Id, born: int)
    requires tables != [] && TriesBounded(cfg, tables[0]) && cfg.maxTries > 0 && cfg.batchSize > 0
    requires target in tables[0].live && tables[0].live[target].createdAt == born
    requires forall i :: 0 <= i < |tables| - 1 ==> Pass(cfg, tables[i], tables[i + 1], target, born)
    requires Waiting(tables[|tables| - 1], target)
    ensures Waiting(tables[0], target) && TriesBounded(cfg, tables[|tables| - 1])
    ensures Patience(cfg, tables[|tables| - 1], target) <= Patience(cfg, tables[0], target) - (|tables| - 1)
    decreases |tables|
  {
    if |tables| > 1 {
      assert Pass(cfg, tables[0], tables[0 + 1], target, born);
      PassKeepsBounds(cfg, tables[0], tables[1], target, born);
      PassesOfRest(cfg, tables, target, born);
      NotDeadYet(cfg, tables, target, born);
      PassesSpendPatience(cfg, tables[1..], target, born);
      PassAdvances(cfg, tables[0], tables[1], target, born);
    }
  }

  /** A row that waits at the end did not die on the way. */
  lemma NotDeadYet(cfg: Config, tables: seq<Table>, target: Id, born: int)
    requires |tables| > 1 && TriesBounded(cfg, tables[0]) && cfg.maxTries > 0
    requires target in tables[0].live && tables[0].live[target].createdAt == born
    requires forall i :: 0 <= i < |tables| - 1 ==> Pass(cfg, tables[i], tables[i + 1], target, born)
    requires Waiting(tables[|tables| - 1], target)
    ensures target in tables[1].live && tables[1].live[target].createdAt == born
  {
    assert Pass(cfg, tables[0], tables[0 + 1], target, born);
    PassKeepsBounds(cfg, tables[0], tables[1], target, born);
    StaysOrDies(cfg, tables[0], tables[1], target, born);
    if target in tables[1].dead {
      PassesOfRest(cfg, tables, target, born);
      DeadStaysDead(cfg, tables[1..], target, born);
    }
  }

  lemma {:induction false} TriesLeftNonNegative(cfg: Config, live: map<Id, Item>, S: set<Id>)
    requires S <= live.Keys && forall id :: id in S ==> live[id].tries < cfg.maxTries
    ensures TriesLeft(cfg, live, S) >= 0
  {
    if S != {} {
      var id :| id in S && TriesLeft(cfg, live, S) == (cfg.maxTries - live[id].tries) + TriesLeft(cfg, live, S - {id});
      TriesLeftNonNegative(cfg, live, S - {id});
    }
  }

  /**
   Bounded progress.  A waiting row with p older ones ahead is delivered or dead
   after p * max / size + max passes, whatever the receiver refuses and whatever
   newer rows arrive.
   */
  lemma BoundedProgress(cfg: Config, tables: seq<Table>, target: Id)
    requires tables != [] && TriesBounded(cfg, tables[0]) && cfg.maxTries > 0 && cfg.batchSize > 0
    requires target in tables[0].live
    requires forall i :: 0 <= i < |tables| - 1 ==> Pass(cfg, tables[i], tables[i + 1], target, tables[0].live[target].createdAt)
    requires |tables| - 1 >= (|Ahead(tables[0], target)| * cfg.maxTries) / cfg.batchSize + cfg.maxTries
    ensures var last := tables[|tables| - 1]; target in last.dead || (target in last.live && last.live[target].delivered)
  {
    IsSomewhere(cfg, tables, target, tables[0].live[target].createdAt, |tables| - 1);
    var last := tables[|tables| - 1];
    if Waiting(last, target) {
      PassesSpendPatience(cfg, tables, target, tables[0].live[target].createdAt);
      TriesLeftNonNegative(cfg, last.live, Ahead(last, target));
      DivMonotone(0, TriesLeft(cfg, last.live, Ahead(last, target)), cfg.batchSize);
      TriesLeftAtMost(cfg, tables[0].live, Ahead(tables[0], target));
      DivMonotone(TriesLeft(cfg, tables[0].live, Ahead(tables[0], target)), |Ahead(tables[0], target)| * cfg.maxTries, cfg.batchSize);
    }
  }
}
