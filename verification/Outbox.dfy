/** The event outbox and its projector: `workers/outbox/projector.py`. */
module Outbox {
  import opened Delivery

  /** `OUTBOX_MAX_RETRIES` and the query's limit. */
  const OUTBOX := Config(5, 100)

  class OutboxTable {
    var events: map<Id, Item>
    var deadLetters: map<Id, nat>

    ghost function View(): Table
      reads this
    {
      Table(events, deadLetters)
    }

    /** Events are never delayed. */
    ghost predicate Valid()
      reads this
    {
      TriesBounded(OUTBOX, View()) && forall id :: id in events ==> events[id].notBefore.None?
    }

    constructor ()
      ensures Valid() && View() == Table(map[], map[])
    {
      events, deadLetters := map[], map[];
    }

    /** The body of the loop: one event, accepted or refused. */
    method HandleEvent(id: Id, accepted: bool)
      requires id in events
      modifies this
      ensures View() == SettleOne(OUTBOX, old(View()), id, accepted)
      ensures old(events)[id].tries < 5 ==> AfterAttempt(old(events), events, deadLetters, id, accepted, 4)
      ensures SameOutside(old(events), events, [id]) && SameOutside(old(deadLetters), deadLetters, [id])
    {
      var event := events[id];
      if !accepted {
        event := event.(tries := event.tries + 1);
        if event.tries >= OUTBOX.maxTries {
          deadLetters := deadLetters[id := event.tries];
          events := events - {id};
        } else {
          events := events[id := event];
        }
        return;
      }
      events := events[id := event.(delivered := true)];
    }

    /** The loop: one refused event leaves its batch-mates untouched. */
    method Drain(batch: seq<Id>, publish: Id -> bool) returns (published: nat)
      requires Takes(View(), batch)
      modifies this
      ensures View() == Settle(OUTBOX, old(View()), Said(batch, publish))
      ensures published == CountAccepted(batch, publish)
    {
      ghost var t := View();
      published := 0;
      NoRowYet(OUTBOX, t, publish);
      assert batch[..0] == [];
      for i := 0 to |batch|
        invariant View() == Settle(OUTBOX, t, Said(batch[..i], publish))
        invariant published == CountAccepted(batch[..i], publish)
      {
        NextRow(OUTBOX, t, batch, i, publish);
        HandleEvent(batch[i], publish(batch[i]));
        if publish(batch[i]) { published := published + 1; }
      }
      assert batch[..|batch|] == batch;
    }

    /** `project_once`, run to its commit; `publish` says for each event whether the broker accepts it. */
    method ProjectOnce(publish: Id -> bool) returns (published: nat, batch: seq<Id>)
      requires Valid()
      modifies this
      ensures Valid()
      ensures IsBatch(OUTBOX, old(View()), 0, Chosen(batch)) && Distinct(batch)
      ensures View() == Settle(OUTBOX, old(View()), Said(batch, publish))
      ensures published == CountAccepted(batch, publish)
      ensures PassLeaves(old(View()), View(), 0, batch, publish, 4, 100)
    {
      ghost var t := View();
      batch := SelectBatch(OUTBOX, Table(events, deadLetters), 0);
      BatchTakes(OUTBOX, t, 0, batch);
      published := Drain(batch, publish);
      SettleLeaves(OUTBOX, t, 0, batch, publish);
      SettleKeepsBounds(OUTBOX, t, Said(batch, publish));
    }
  }

  /**
   With the shipped settings: an event with p older ones waiting is published or
   dead-lettered after p * 5 / 100 + 5 committed passes.
   */
  lemma EventLeavesInTime(tables: seq<Table>, event: Id)
    requires tables != [] && TriesBounded(OUTBOX, tables[0]) && event in tables[0].live
    requires forall i :: 0 <= i < |tables| - 1 ==> Pass(OUTBOX, tables[i], tables[i + 1], event, tables[0].live[event].createdAt)
    requires |tables| - 1 >= |Ahead(tables[0], event)| * 5 / 100 + 5
    ensures var last := tables[|tables| - 1]; event in last.dead || (event in last.live && last.live[event].delivered)
  {
    BoundedProgress(OUTBOX, tables, event);
  }
}
