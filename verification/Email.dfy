/**
 The email outbox: enqueueing, replay and resend of
 `domains/notifications/service.py` and the flusher `workers/email/flusher.py`.
 */
module Email {
  import opened Common
  import opened Delivery

  /** `EMAIL_MAX_RETRIES` and `_BATCH_SIZE`. */
  const EMAIL := Config(5, 25)

  datatype Status = Pending | Sent | Failed

  datatype Row = Row(
    toEmail: string, key: string, status: Status, attempts: nat, scheduledFor: Option<int>, createdAt: int)

  datatype DeadLetter = DeadLetter(toEmail: string, key: string, attempts: nat)

  /** What the flusher's query and bookkeeping see of a row. */
  function ItemOf(row: Row): Item
  {
    Item(row.createdAt, row.scheduledFor, row.attempts, row.status == Sent)
  }

  predicate KeyInUse(rows: map<Id, Row>, key: string)
  {
    exists id :: id in rows && rows[id].key == key
  }

  ghost function TableOf(rows: map<Id, Row>, deadLetters: map<Id, DeadLetter>): Table
  {
    Table(map id | id in rows :: ItemOf(rows[id]), map id | id in deadLetters :: deadLetters[id].attempts)
  }

  /** The status tells whether a row has failed before, and no two live rows share a key. */
  ghost predicate RowsHold(rows: map<Id, Row>)
  {
    && (forall id :: id in rows && rows[id].status != Sent ==> (rows[id].status == Pending <==> rows[id].attempts == 0))
    && (forall i, j :: i in rows && j in rows && rows[i].key == rows[j].key ==> i == j)
  }

  ghost predicate Holds(rows: map<Id, Row>, deadLetters: map<Id, DeadLetter>)
  {
    TriesBounded(EMAIL, TableOf(rows, deadLetters)) && RowsHold(rows)
  }

  lemma FreshRowHolds(rows: map<Id, Row>, deadLetters: map<Id, DeadLetter>, id: Id, row: Row)
    requires Holds(rows, deadLetters) && id !in rows && id !in deadLetters
    requires row.status == Pending && row.attempts == 0 && !KeyInUse(rows, row.key)
    ensures Holds(rows[id := row], deadLetters)
  {
    var t, u := TableOf(rows, deadLetters), TableOf(rows[id := row], deadLetters);
    assert forall x :: Waiting(u, x) && x != id ==> Waiting(t, x) && u.live[x] == t.live[x];
  }

  lemma FewerDeadHolds(rows: map<Id, Row>, deadLetters: map<Id, DeadLetter>, dead: Id)
    requires Holds(rows, deadLetters)
    ensures Holds(rows, deadLetters - {dead})
  {
    var t, u := TableOf(rows, deadLetters), TableOf(rows, deadLetters - {dead});
    assert t.live == u.live;
    assert forall x :: x in u.dead ==> x in t.dead && u.dead[x] == t.dead[x];
  }

  /** A row after one attempt. */
  function Attempted(row: Row, ok: bool): Row
  {
    if ok then row.(status := Sent) else row.(attempts := row.attempts + 1, status := Failed)
  }

  lemma RewriteOneRow(rows: map<Id, Row>, deadLetters: map<Id, DeadLetter>, id: Id, ok: bool)
    requires id in rows && rows[id].status != Sent && RowsHold(rows)
    ensures TableOf(rows[id := Attempted(rows[id], ok)], deadLetters).live == TableOf(rows, deadLetters).live[id := Handle(ItemOf(rows[id]), ok)]
    ensures TableOf(rows[id := Attempted(rows[id], ok)], deadLetters).dead == TableOf(rows, deadLetters).dead
    ensures RowsHold(rows[id := Attempted(rows[id], ok)])
  {
    assert ItemOf(Attempted(rows[id], ok)) == Handle(ItemOf(rows[id]), ok);
  }

  lemma BuryOneRow(rows: map<Id, Row>, deadLetters: map<Id, DeadLetter>, id: Id, letter: DeadLetter)
    requires id in rows && RowsHold(rows)
    ensures TableOf(rows - {id}, deadLetters[id := letter]).live == TableOf(rows, deadLetters).live - {id}
    ensures TableOf(rows - {id}, deadLetters[id := letter]).dead == TableOf(rows, deadLetters).dead[id := letter.attempts]
    ensures RowsHold(rows - {id})
  {
  }

  /** The row that gives up has used its last attempt. */
  predicate GivesUp(row: Row, ok: bool)
  {
    !ok && row.attempts + 1 >= EMAIL.maxTries
  }

  /** The two tables after one attempt. */
  function RowsAfter(rows: map<Id, Row>, id: Id, ok: bool): map<Id, Row>
    requires id in rows
  {
    if GivesUp(rows[id], ok) then rows - {id} else rows[id := Attempted(rows[id], ok)]
  }

  function LettersAfter(rows: map<Id, Row>, deadLetters: map<Id, DeadLetter>, id: Id, ok: bool): map<Id, DeadLetter>
    requires id in rows
  {
    if GivesUp(rows[id], ok) then deadLetters[id := DeadLetter(rows[id].toEmail, rows[id].key, rows[id].attempts + 1)] else deadLetters
  }

  /** One attempt on the mail tables is one step of `Settle`. */
  lemma AttemptSettlesOne(rows: map<Id, Row>, deadLetters: map<Id, DeadLetter>, id: Id, ok: bool)
    requires id in rows && rows[id].status != Sent && RowsHold(rows)
    ensures id in TableOf(rows, deadLetters).live
    ensures TableOf(RowsAfter(rows, id, ok), LettersAfter(rows, deadLetters, id, ok)) == SettleOne(EMAIL, TableOf(rows, deadLetters), id, ok)
    ensures RowsHold(RowsAfter(rows, id, ok))
  {
    if GivesUp(rows[id], ok) {
      BuryOneRow(rows, deadLetters, id, DeadLetter(rows[id].toEmail, rows[id].key, rows[id].attempts + 1));
    } else {
      RewriteOneRow(rows, deadLetters, id, ok);
    }
  }

  /** The two tables after the verdicts on a batch. */
  function RowsSettled(rows: map<Id, Row>, verdicts: map<Id, bool>): map<Id, Row>
  {
    map id | id in rows && !(id in verdicts && GivesUp(rows[id], verdicts[id]))
      :: if id in verdicts then Attempted(rows[id], verdicts[id]) else rows[id]
  }

  function MailBuried(rows: map<Id, Row>, verdicts: map<Id, bool>): map<Id, DeadLetter>
  {
    map id | id in rows && id in verdicts && GivesUp(rows[id], verdicts[id]) :: DeadLetter(rows[id].toEmail, rows[id].key, rows[id].attempts + 1)
  }

  function LettersSettled(rows: map<Id, Row>, deadLetters: map<Id, DeadLetter>, verdicts: map<Id, bool>): map<Id, DeadLetter>
  {
    deadLetters + MailBuried(rows, verdicts)
  }

  lemma NoMailYet(rows: map<Id, Row>, deadLetters: map<Id, DeadLetter>, send: Id -> bool)
    ensures RowsSettled(rows, Said([], send)) == rows && LettersSettled(rows, deadLetters, Said([], send)) == deadLetters
  {
  }

  lemma RowsOneMore(rows: map<Id, Row>, verdicts: map<Id, bool>, id: Id, ok: bool)
    requires id in rows && id !in verdicts
    ensures var sofar := RowsSettled(rows, verdicts);
            id in sofar && sofar[id] == rows[id] && RowsAfter(sofar, id, ok) == RowsSettled(rows, verdicts[id := ok])
  {
  }

  lemma MailBuriedOneMore(rows: map<Id, Row>, verdicts: map<Id, bool>, id: Id, ok: bool)
    requires id in rows && id !in verdicts
    ensures var sofar := MailBuried(rows, verdicts);
            MailBuried(rows, verdicts[id := ok]) ==
              if GivesUp(rows[id], ok) then sofar[id := DeadLetter(rows[id].toEmail, rows[id].key, rows[id].attempts + 1)] else sofar
  {
  }

  lemma AddsLetter(deadLetters: map<Id, DeadLetter>, buried: map<Id, DeadLetter>, id: Id, letter: DeadLetter)
    ensures (deadLetters + buried)[id := letter] == deadLetters + buried[id := letter]
  {
  }

  lemma LettersOneMore(rows: map<Id, Row>, deadLetters: map<Id, DeadLetter>, verdicts: map<Id, bool>, sofar: map<Id, Row>, id: Id, ok: bool)
    requires id in rows && id !in verdicts && id in sofar && sofar[id] == rows[id]
    ensures LettersAfter(sofar, LettersSettled(rows, deadLetters, verdicts), id, ok) == LettersSettled(rows, deadLetters, verdicts[id := ok])
  {
    MailBuriedOneMore(rows, verdicts, id, ok);
    AddsLetter(deadLetters, MailBuried(rows, verdicts), id, DeadLetter(rows[id].toEmail, rows[id].key, rows[id].attempts + 1));
  }

  lemma NextMail(rows: map<Id, Row>, deadLetters: map<Id, DeadLetter>, batch: seq<Id>, i: nat, send: Id -> bool)
    requires Distinct(batch) && i < |batch| && batch[i] in rows && batch[i] !in deadLetters
    ensures var r, l := RowsSettled(rows, Said(batch[..i], send)), LettersSettled(rows, deadLetters, Said(batch[..i], send));
            && batch[i] in r && r[batch[i]] == rows[batch[i]] && batch[i] !in l
            && RowsAfter(r, batch[i], send(batch[i])) == RowsSettled(rows, Said(batch[..i + 1], send))
            && LettersAfter(r, l, batch[i], send(batch[i])) == LettersSettled(rows, deadLetters, Said(batch[..i + 1], send))
  {
    var id, before, after := batch[i], batch[..i], batch[..i + 1];
    assert after == before + [id] && id !in before;
    assert Said(after, send) == Said(before, send)[id := send(id)];
    RowsOneMore(rows, Said(before, send), id, send(id));
    LettersOneMore(rows, deadLetters, Said(before, send), RowsSettled(rows, Said(before, send)), id, send(id));
  }

  /** The mail tables after the first `i` verdicts of a batch are the delivery model's. */
  lemma {:induction false} MailSettles(rows: map<Id, Row>, deadLetters: map<Id, DeadLetter>, batch: seq<Id>, i: nat, send: Id -> bool)
    requires i <= |batch| && Takes(TableOf(rows, deadLetters), batch) && RowsHold(rows)
    ensures var r, l := RowsSettled(rows, Said(batch[..i], send)), LettersSettled(rows, deadLetters, Said(batch[..i], send));
            RowsHold(r) && TableOf(r, l) == Settle(EMAIL, TableOf(rows, deadLetters), Said(batch[..i], send))
  {
    var t := TableOf(rows, deadLetters);
    if i == 0 {
      assert batch[..0] == [];
      NoMailYet(rows, deadLetters, send);
      NoRowYet(EMAIL, t, send);
    } else {
      MailSettles(rows, deadLetters, batch, i - 1, send);
      NextMailSettles(rows, deadLetters, batch, i - 1, send);
    }
  }

  lemma NextMailSettles(rows: map<Id, Row>, deadLetters: map<Id, DeadLetter>, batch: seq<Id>, i: nat, send: Id -> bool)
    requires i < |batch| && Takes(TableOf(rows, deadLetters), batch)
    requires var r, l := RowsSettled(rows, Said(batch[..i], send)), LettersSettled(rows, deadLetters, Said(batch[..i], send));
             RowsHold(r) && TableOf(r, l) == Settle(EMAIL, TableOf(rows, deadLetters), Said(batch[..i], send))
    ensures var r, l := RowsSettled(rows, Said(batch[..i + 1], send)), LettersSettled(rows, deadLetters, Said(batch[..i + 1], send));
            RowsHold(r) && TableOf(r, l) == Settle(EMAIL, TableOf(rows, deadLetters), Said(batch[..i + 1], send))
  {
    var t := TableOf(rows, deadLetters);
    assert batch[i] in batch && batch[i] in t.live && !t.live[batch[i]].delivered;
    NextRow(EMAIL, t, batch, i, send);
    NextMail(rows, deadLetters, batch, i, send);
    AttemptSettlesOne(RowsSettled(rows, Said(batch[..i], send)), LettersSettled(rows, deadLetters, Said(batch[..i], send)), batch[i], send(batch[i]));
  }

  /** What an attempt leaves of a mail row that may fail `spare` times and be kept. */
  ghost predicate AfterSending(before: map<Id, Row>, rows: map<Id, Row>, deadLetters: map<Id, DeadLetter>, id: Id, sent: bool, spare: nat)
    requires id in before
  {
    var row := before[id];
    if sent then id in rows && rows[id] == row.(status := Sent)
    else if row.attempts < spare then id in rows && rows[id] == row.(status := Failed, attempts := row.attempts + 1)
    else id !in rows && id in deadLetters && deadLetters[id] == DeadLetter(row.toEmail, row.key, spare + 1)
  }

  /** What a committed flush leaves, mail by mail, with the address and key of each row. */
  ghost predicate FlushLeaves(rows: map<Id, Row>, deadLetters: map<Id, DeadLetter>, rows': map<Id, Row>, deadLetters': map<Id, DeadLetter>,
      now: int, batch: seq<Id>, send: Id -> bool, spare: nat, limit: nat)
  {
    && OldestDue(TableOf(rows, deadLetters).live, now, batch, limit)
    && (forall id :: id in batch ==> id in rows && rows[id].status != Sent && AfterSending(rows, rows', deadLetters', id, send(id), spare))
    && SameOutside(rows, rows', batch) && SameOutside(deadLetters, deadLetters', batch)
  }

  lemma MailSettled(rows: map<Id, Row>, deadLetters: map<Id, DeadLetter>, batch: seq<Id>, send: Id -> bool, id: Id)
    requires id in batch && id in rows && rows[id].attempts < EMAIL.maxTries
    ensures AfterSending(rows, RowsSettled(rows, Said(batch, send)), LettersSettled(rows, deadLetters, Said(batch, send)), id, send(id), EMAIL.maxTries - 1)
  {
    assert Said(batch, send)[id] == send(id);
  }

  lemma OtherMailStays(rows: map<Id, Row>, deadLetters: map<Id, DeadLetter>, batch: seq<Id>, send: Id -> bool)
    ensures SameOutside(rows, RowsSettled(rows, Said(batch, send)), batch)
    ensures SameOutside(deadLetters, LettersSettled(rows, deadLetters, Said(batch, send)), batch)
  {
  }

  lemma SettledMailLeaves(rows: map<Id, Row>, deadLetters: map<Id, DeadLetter>, now: int, batch: seq<Id>, send: Id -> bool)
    requires TriesBounded(EMAIL, TableOf(rows, deadLetters))
    requires IsBatch(EMAIL, TableOf(rows, deadLetters), now, Chosen(batch)) && Distinct(batch) && |Chosen(batch)| == |batch|
    ensures FlushLeaves(rows, deadLetters, RowsSettled(rows, Said(batch, send)), LettersSettled(rows, deadLetters, Said(batch, send)),
                        now, batch, send, EMAIL.maxTries - 1, EMAIL.batchSize)
  {
    var t := TableOf(rows, deadLetters);
    BatchIsOldestDue(EMAIL, t, now, batch);
    forall id | id in batch
      ensures id in rows && rows[id].status != Sent
      ensures AfterSending(rows, RowsSettled(rows, Said(batch, send)), LettersSettled(rows, deadLetters, Said(batch, send)), id, send(id), EMAIL.maxTries - 1)
    {
      assert DueIn(t.live, now, id) && Waiting(t, id);
      MailSettled(rows, deadLetters, batch, send, id);
    }
    OtherMailStays(rows, deadLetters, batch, send);
  }

  class EmailOutbox {
    var rows: map<Id, Row>
    var deadLetters: map<Id, DeadLetter>

    ghost function View(): Table
      reads this
    {
      TableOf(rows, deadLetters)
    }

    ghost predicate Valid()
      reads this
    {
      Holds(rows, deadLetters)
    }

    ghost predicate Unused(id: Id)
      reads this
    {
      id !in rows && id !in deadLetters
    }

    constructor ()
      ensures Valid() && rows == map[] && deadLetters == map[]
    {
      rows, deadLetters := map[], map[];
    }

    /**
     `enqueue_email`.  A key is refused exactly while a live row carries it: once
     the row is dead-lettered the same logical mail is enqueued again.
     */
    method Enqueue(toEmail: Option<string>, suppressed: bool, key: string, scheduledFor: Option<int>, now: int, id: Id)
      returns (enqueued: bool)
      requires Valid() && Unused(id)
      modifies this
      ensures Valid()
      ensures enqueued <==> toEmail.Some? && toEmail.value != "" && !suppressed && !KeyInUse(old(rows), key)
      ensures rows == if enqueued then old(rows)[id := Row(toEmail.value, key, Pending, 0, scheduledFor, now)] else old(rows)
      ensures deadLetters == old(deadLetters)
    {
      if toEmail.None? || toEmail.value == "" { return false; }
      if suppressed { return false; }
      if exists x :: x in rows && rows[x].key == key { return false; }
      FreshRowHolds(rows, deadLetters, id, Row(toEmail.value, key, Pending, 0, scheduledFor, now));
      rows := rows[id := Row(toEmail.value, key, Pending, 0, scheduledFor, now)];
      return true;
    }

    /** `replay_dead_letter`: a fresh row with a fresh key takes the dead letter's place. */
    method ReplayDeadLetter(dead: Id, id: Id, freshKey: string, now: int) returns (found: bool)
      requires Valid() && Unused(id) && !KeyInUse(rows, freshKey)
      modifies this
      ensures Valid()
      ensures found <==> dead in old(deadLetters)
      ensures !found ==> rows == old(rows) && deadLetters == old(deadLetters)
      ensures found ==> rows == old(rows)[id := Row(old(deadLetters)[dead].toEmail, freshKey, Pending, 0, None, now)]
                        && deadLetters == old(deadLetters) - {dead}
      ensures |rows| + |deadLetters| == old(|rows| + |deadLetters|)
    {
      if dead !in deadLetters { return false; }
      var dl := deadLetters[dead];
      ghost var before := deadLetters;
      FreshRowHolds(rows, deadLetters, id, Row(dl.toEmail, freshKey, Pending, 0, None, now));
      rows := rows[id := Row(dl.toEmail, freshKey, Pending, 0, None, now)];
      FewerDeadHolds(rows, deadLetters, dead);
      deadLetters := deadLetters - {dead};
      assert before.Keys == deadLetters.Keys + {dead};
      return true;
    }

    /** `resend`: the source row stays, a fresh row joins it. */
    method Resend(source: Id, id: Id, freshKey: string, now: int) returns (found: bool)
      requires Valid() && Unused(id) && !KeyInUse(rows, freshKey)
      modifies this`rows
      ensures Valid()
      ensures found <==> source in old(rows)
      ensures rows == if found then old(rows)[id := Row(old(rows)[source].toEmail, freshKey, Pending, 0, None, now)] else old(rows)
    {
      if source !in rows { return false; }
      FreshRowHolds(rows, deadLetters, id, Row(rows[source].toEmail, freshKey, Pending, 0, None, now));
      rows := rows[id := Row(rows[source].toEmail, freshKey, Pending, 0, None, now)];
      return true;
    }

    /** The body of the loop: one mail, sent or not. */
    method HandleRow(id: Id, ok: bool) returns (outcome: Status, buried: bool)
      requires id in rows
      modifies this
      ensures rows == RowsAfter(old(rows), id, ok)
      ensures deadLetters == LettersAfter(old(rows), old(deadLetters), id, ok)
      ensures buried <==> GivesUp(old(rows)[id], ok)
      ensures outcome == if ok then Sent else Failed
    {
      var row := rows[id];
      if !ok {
        row := row.(attempts := row.attempts + 1);
        if row.attempts >= EMAIL.maxTries {
          deadLetters := deadLetters[id := DeadLetter(row.toEmail, row.key, row.attempts)];
          rows := rows - {id};
          return Failed, true;
        }
        rows := rows[id := row.(status := Failed)];
        return Failed, false;
      }
      rows := rows[id := row.(status := Sent)];
      return Sent, false;
    }

    /** The loop over a batch. */
    method SendAll(batch: seq<Id>, send: Id -> bool) returns (sent: nat, failed: nat, deadLettered: nat)
      requires Distinct(batch) && forall id :: id in batch ==> id in rows && id !in deadLetters
      modifies this
      ensures rows == RowsSettled(old(rows), Said(batch, send)) && deadLetters == LettersSettled(old(rows), old(deadLetters), Said(batch, send))
      ensures sent == CountAccepted(batch, send) && sent + failed + deadLettered == |batch|
      ensures |deadLetters| == |old(deadLetters)| + deadLettered
    {
      ghost var rows0, letters0 := rows, deadLetters;
      sent, failed, deadLettered := 0, 0, 0;
      assert batch[..0] == [];
      NoMailYet(rows0, letters0, send);
      for i := 0 to |batch|
        invariant rows == RowsSettled(rows0, Said(batch[..i], send)) && deadLetters == LettersSettled(rows0, letters0, Said(batch[..i], send))
        invariant sent == CountAccepted(batch[..i], send) && sent + failed + deadLettered == i
        invariant |deadLetters| == |letters0| + deadLettered
      {
        NextMail(rows0, letters0, batch, i, send);
        CountOneMore(batch, i, send);
        var outcome, buried := HandleRow(batch[i], send(batch[i]));
        if buried {
          deadLettered := deadLettered + 1;
        } else if outcome == Failed {
          failed := failed + 1;
        } else {
          sent := sent + 1;
        }
      }
      assert batch[..|batch|] == batch;
    }

    /** The same, seen on the table of items. */
    method Drain(batch: seq<Id>, send: Id -> bool) returns (sent: nat, failed: nat, deadLettered: nat)
      requires Takes(View(), batch) && RowsHold(rows)
      modifies this
      ensures View() == Settle(EMAIL, old(View()), Said(batch, send)) && RowsHold(rows)
      ensures rows == RowsSettled(old(rows), Said(batch, send)) && deadLetters == LettersSettled(old(rows), old(deadLetters), Said(batch, send))
      ensures sent == CountAccepted(batch, send) && sent + failed + deadLettered == |batch|
      ensures |deadLetters| == |old(deadLetters)| + deadLettered
    {
      MailSettles(rows, deadLetters, batch, |batch|, send);
      assert batch[..|batch|] == batch;
      forall id | id in batch ensures id in rows && id !in deadLetters {
        assert id in View().live;
      }
      sent, failed, deadLettered := SendAll(batch, send);
    }

    /** `flush_once`, run to its commit; `send` says for each row whether the mail goes out. */
    method FlushOnce(now: int, send: Id -> bool)
      returns (sent: nat, failed: nat, deadLettered: nat, batch: seq<Id>)
      requires Valid()
      modifies this
      ensures Valid()
      ensures IsBatch(EMAIL, old(View()), now, Chosen(batch)) && Distinct(batch)
      ensures View() == Settle(EMAIL, old(View()), Said(batch, send))
      ensures sent == CountAccepted(batch, send) && sent + failed + deadLettered == |batch|
      ensures |deadLetters| == |old(deadLetters)| + deadLettered
      ensures FlushLeaves(old(rows), old(deadLetters), rows, deadLetters, now, batch, send, 4, 25)
    {
      ghost var t := View();
      batch := SelectBatch(EMAIL, Table(map id | id in rows :: ItemOf(rows[id]), map id | id in deadLetters :: deadLetters[id].attempts), now);
      BatchTakes(EMAIL, t, now, batch);
      SettledMailLeaves(rows, deadLetters, now, batch, send);
      sent, failed, deadLettered := Drain(batch, send);
      SettleKeepsBounds(EMAIL, t, Said(batch, send));
    }
  }
}
