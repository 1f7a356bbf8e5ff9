/**
 The invoice event fold: `finance/events.py`.

 An append-only log is replayed in `sequence` order into an `InvoiceState`.
 `FoldSpec` is the function the `Fold` method computes; the lemmas say what the
 function means: it has a closed form, it does not depend on the order of its
 input, and it can be resumed from a serialised snapshot.
 */
module InvoiceEvents {
  import opened Common
  import SnapshotText

  datatype InvoiceStatus = Draft | Sent | Paid | PartiallyPaid | Overdue | Cancelled

  datatype EventType = InvoiceIssued | PaymentApplied | CreditNoteApplied | InvoiceCancelled

  /** Microseconds since the epoch. */
  type Instant = int

  /** One row of the log; `amount` is in cents. */
  datatype InvoiceEvent = InvoiceEvent(sequence: int, eventType: EventType, amount: int, occurredAt: Instant)

  datatype InvoiceState = InvoiceState(
    total: int, amountPaid: int, credited: int, balanceDue: int,
    paymentStatus: Option<InvoiceStatus>, paidAt: Option<Instant>,
    issued: bool, cancelled: bool, eventCount: int,
    lastPaymentAt: Option<Instant>, sequence: int)

  /** The value of the mutable accumulator. */
  datatype Tally = Tally(
    total: int, amountPaid: int, credited: int, lastPaymentAt: Option<Instant>,
    issued: bool, cancelled: bool, count: int, sequence: int)

  const EMPTY_TALLY := Tally(0, 0, 0, None, false, false, 0, 0)

  // ---------------------------------------------------------------- the fold

  function Step(t: Tally, e: InvoiceEvent): Tally
  {
    var t1 := t.(count := t.count + 1, sequence := if t.sequence < e.sequence then e.sequence else t.sequence);
    if t.cancelled then t1
    else
      match e.eventType
      case InvoiceIssued => t1.(total := e.amount, issued := true)
      case PaymentApplied => t1.(amountPaid := t.amountPaid + e.amount, lastPaymentAt := Some(e.occurredAt))
      case CreditNoteApplied => t1.(credited := t.credited + e.amount)
      case InvoiceCancelled => t1.(cancelled := true)
  }

  function FoldFrom(t: Tally, es: seq<InvoiceEvent>): Tally
  {
    if es == [] then t else Step(FoldFrom(t, es[..|es| - 1]), es[|es| - 1])
  }

  function Finalize(t: Tally): InvoiceState
  {
    var balance := t.total - t.credited - t.amountPaid;
    var (status, paidAt) :=
      if t.cancelled then (Some(Cancelled), None)
      else if t.amountPaid <= 0 then (None, None)
      else if balance <= 0 then (Some(Paid), t.lastPaymentAt)
      else (Some(PartiallyPaid), None);
    InvoiceState(t.total, t.amountPaid, t.credited, balance, status, paidAt,
                 t.issued, t.cancelled, t.count, t.lastPaymentAt, t.sequence)
  }

  function TallyOf(base: Option<InvoiceState>): Tally
  {
    match base
    case None => EMPTY_TALLY
    case Some(s) => Tally(s.total, s.amountPaid, s.credited, s.lastPaymentAt, s.issued, s.cancelled, s.eventCount, s.sequence)
  }

  /** Stable insertion sort on `sequence`: the value of Python's `sorted`. */
  function Sorted(es: seq<InvoiceEvent>): seq<InvoiceEvent>
  {
    if es == [] then [] else Insert(es[0], Sorted(es[1..]))
  }

  /** `e` goes before the first event that does not sort below it. */
  function Insert(e: InvoiceEvent, es: seq<InvoiceEvent>): seq<InvoiceEvent>
  {
    if es == [] || e.sequence <= es[0].sequence then [e] + es else [es[0]] + Insert(e, es[1..])
  }

  function FoldSpec(base: Option<InvoiceState>, es: seq<InvoiceEvent>): InvoiceState
  {
    Finalize(FoldFrom(TallyOf(base), Sorted(es)))
  }

  /** The accumulator object that the fold threads through the log. */
  class Accumulator {
    var total: int
    var amountPaid: int
    var credited: int
    var lastPaymentAt: Option<Instant>
    var issued: bool
    var cancelled: bool
    var count: int
    var sequence: int

    ghost function View(): Tally
      reads this
    {
      Tally(total, amountPaid, credited, lastPaymentAt, issued, cancelled, count, sequence)
    }

    constructor (base: Option<InvoiceState>)
      ensures View() == TallyOf(base)
    {
      total, amountPaid, credited, lastPaymentAt := 0, 0, 0, None;
      issued, cancelled, count, sequence := false, false, 0, 0;
      match base
      case None =>
      case Some(s) =>
        total, amountPaid, credited, lastPaymentAt := s.total, s.amountPaid, s.credited, s.lastPaymentAt;
        issued, cancelled, count, sequence := s.issued, s.cancelled, s.eventCount, s.sequence;
    }

    method Apply(e: InvoiceEvent)
      modifies this
      ensures View() == Step(old(View()), e)
    {
      count := count + 1;
      if sequence < e.sequence { sequence := e.sequence; }
      if cancelled { return; }
      match e.eventType {
        case InvoiceIssued => total := e.amount; issued := true;
        case PaymentApplied => amountPaid := amountPaid + e.amount; lastPaymentAt := Some(e.occurredAt);
        case CreditNoteApplied => credited := credited + e.amount;
        case InvoiceCancelled => cancelled := true;
      }
    }
  }

  method Fold(base: Option<InvoiceState>, events: seq<InvoiceEvent>) returns (state: InvoiceState)
    ensures state == FoldSpec(base, events)
  {
    var acc := new Accumulator(base);
    var ordered := Sorted(events);
    for i := 0 to |ordered|
      invariant acc.View() == FoldFrom(TallyOf(base), ordered[..i])
    {
      acc.Apply(ordered[i]);
      assert ordered[..i + 1][..i] == ordered[..i];
    }
    assert ordered[..|ordered|] == ordered;
    state := Finalize(Tally(acc.total, acc.amountPaid, acc.credited, acc.lastPaymentAt,
                            acc.issued, acc.cancelled, acc.count, acc.sequence));
  }

  // ------------------------------------------------------- closed form

  ghost predicate Ordered(es: seq<InvoiceEvent>)
  {
    forall i, j :: 0 <= i < j < |es| ==> es[i].sequence <= es[j].sequence
  }

  ghost predicate DistinctSequences(es: seq<InvoiceEvent>)
  {
    forall i, j :: 0 <= i < j < |es| ==> es[i].sequence != es[j].sequence
  }

  /** Sum of the amounts of the events of one type. */
  function SumOf(kind: EventType, es: seq<InvoiceEvent>): int
  {
    if es == [] then 0
    else SumOf(kind, es[..|es| - 1]) + if es[|es| - 1].eventType == kind then es[|es| - 1].amount else 0
  }

  predicate HasCancel(es: seq<InvoiceEvent>)
  {
    exists i :: 0 <= i < |es| && es[i].eventType == InvoiceCancelled
  }

  /** The events that come before the first cancellation. */
  function BeforeCancel(es: seq<InvoiceEvent>): seq<InvoiceEvent>
  {
    if es == [] then []
    else
      var init := es[..|es| - 1];
      var r := BeforeCancel(init);
      if r != init || es[|es| - 1].eventType == InvoiceCancelled then r else es
  }

  /** `BeforeCancel` is the longest prefix without a cancellation. */
  lemma {:induction false} BeforeCancelIsPrefix(es: seq<InvoiceEvent>)
    ensures var r := BeforeCancel(es);
            && |r| <= |es| && r == es[..|r|] && !HasCancel(r)
            && (HasCancel(es) ==> |r| < |es| && es[|r|].eventType == InvoiceCancelled)
            && (!HasCancel(es) ==> r == es)
  {
    if es != [] {
      var init := es[..|es| - 1];
      BeforeCancelIsPrefix(init);
      var r, last := BeforeCancel(init), es[|es| - 1];
      assert init + [last] == es;
      if HasCancel(init) {
        assert init[|r|] == es[|r|];
        assert HasCancel(es);
      } else if last.eventType == InvoiceCancelled {
        assert es[|es| - 1].eventType == InvoiceCancelled;
        assert HasCancel(es);
      } else {
        forall i | 0 <= i < |es| ensures es[i].eventType != InvoiceCancelled {
          if i < |init| { assert init[i] == es[i]; }
        }
      }
    }
  }

  /** The amount of the last issue event, 0 if there is none. */
  function LastIssued(es: seq<InvoiceEvent>): int
  {
    if es == [] then 0
    else if es[|es| - 1].eventType == InvoiceIssued then es[|es| - 1].amount
    else LastIssued(es[..|es| - 1])
  }

  function LastPayment(es: seq<InvoiceEvent>): Option<Instant>
  {
    if es == [] then None
    else if es[|es| - 1].eventType == PaymentApplied then Some(es[|es| - 1].occurredAt)
    else LastPayment(es[..|es| - 1])
  }

  function MaxSequence(es: seq<InvoiceEvent>): nat
  {
    if es == [] then 0
    else
      var m, e := MaxSequence(es[..|es| - 1]), es[|es| - 1];
      if m < e.sequence then e.sequence else m
  }

  lemma HasCancelSnoc(es: seq<InvoiceEvent>)
    requires es != []
    ensures HasCancel(es) <==> HasCancel(es[..|es| - 1]) || es[|es| - 1].eventType == InvoiceCancelled
  {
    var init := es[..|es| - 1];
    assert forall i :: 0 <= i < |init| ==> init[i] == es[i];
    if es[|es| - 1].eventType == InvoiceCancelled { assert HasCancel(es); }
    if HasCancel(init) {
      var i :| 0 <= i < |init| && init[i].eventType == InvoiceCancelled;
      assert es[i].eventType == InvoiceCancelled;
    }
  }

  /** The counters and the cancelled flag run over the whole log. */
  lemma {:induction false} FoldCounts(es: seq<InvoiceEvent>)
    ensures var t := FoldFrom(EMPTY_TALLY, es);
            t.cancelled == HasCancel(es) && t.count == |es| && t.sequence == MaxSequence(es)
  {
    if es != [] {
      FoldCounts(es[..|es| - 1]);
      HasCancelSnoc(es);
    }
  }

  /**
   What the fold of an ordered log is: payments and credit notes are summed, and
   the total and last payment taken, over the events before the first
   cancellation.
   */
  lemma {:induction false} FoldClosedForm(es: seq<InvoiceEvent>)
    ensures var t := FoldFrom(EMPTY_TALLY, es); var live := BeforeCancel(es);
            && t.amountPaid == SumOf(PaymentApplied, live)
            && t.credited == SumOf(CreditNoteApplied, live)
            && t.total == LastIssued(live)
            && t.lastPaymentAt == LastPayment(live)
  {
    if es != [] {
      var init := es[..|es| - 1];
      FoldClosedForm(init);
      FoldCounts(init);
      BeforeCancelIsPrefix(init);
    }
  }

  /**
   The state of an ordered log in terms of its events alone: what is due, the status
   the log dictates and the date it was settled.
   */
  lemma FoldedState(es: seq<InvoiceEvent>)
    ensures var state, live := Finalize(FoldFrom(EMPTY_TALLY, es)), BeforeCancel(es);
            var paid, credited, due := SumOf(PaymentApplied, live), SumOf(CreditNoteApplied, live),
                LastIssued(live) - SumOf(CreditNoteApplied, live) - SumOf(PaymentApplied, live);
            && state.total == LastIssued(live) && state.amountPaid == paid && state.credited == credited && state.balanceDue == due
            && state.cancelled == HasCancel(es) && state.eventCount == |es| && state.sequence == MaxSequence(es)
            && (HasCancel(es) ==> state.paymentStatus == Some(Cancelled) && state.paidAt == None)
            && (!HasCancel(es) && paid <= 0 ==> state.paymentStatus == None && state.paidAt == None)
            && (!HasCancel(es) && paid > 0 && due <= 0 ==> state.paymentStatus == Some(Paid) && state.paidAt == LastPayment(live))
            && (!HasCancel(es) && paid > 0 && due > 0 ==> state.paymentStatus == Some(PartiallyPaid) && state.paidAt == None)
  {
    FoldClosedForm(es);
    FoldCounts(es);
  }


  /** Once cancelled, nothing that is appended moves the money, the status or the payment date. */
  lemma {:induction false} CancelIsTerminal(t: Tally, more: seq<InvoiceEvent>)
    requires t.cancelled
    ensures var after := Finalize(FoldFrom(t, more));
            after == Finalize(t).(eventCount := after.eventCount, sequence := after.sequence)
  {
    if more != [] {
      CancelIsTerminal(t, more[..|more| - 1]);
    }
  }

  // ------------------------------------------------------- input order

  lemma {:induction false} InsertRows(e: InvoiceEvent, es: seq<InvoiceEvent>)
    ensures multiset(Insert(e, es)) == multiset(es) + multiset{e}
  {
    if !(es == [] || e.sequence <= es[0].sequence) {
      InsertRows(e, es[1..]);
      assert es == [es[0]] + es[1..];
    }
  }

  /** Sorting keeps the rows. */
  lemma {:induction false} SortedRows(es: seq<InvoiceEvent>)
    ensures multiset(Sorted(es)) == multiset(es)
  {
    if es != [] {
      SortedRows(es[1..]);
      InsertRows(es[0], Sorted(es[1..]));
      assert es == [es[0]] + es[1..];
    }
  }

  lemma {:induction false} InsertOrdered(e: InvoiceEvent, es: seq<InvoiceEvent>)
    requires Ordered(es)
    ensures Ordered(Insert(e, es))
  {
    if !(es == [] || e.sequence <= es[0].sequence) {
      assert Ordered(es[1..]);
      InsertOrdered(e, es[1..]);
      var rest := Insert(e, es[1..]);
      InsertRows(e, es[1..]);
      forall x | x in rest ensures es[0].sequence <= x.sequence {
        assert x in multiset(rest);
        assert x in multiset(es[1..]) || x == e;
      }
    }
  }

  lemma {:induction false} SortedOrdered(es: seq<InvoiceEvent>)
    ensures Ordered(Sorted(es))
  {
    if es != [] {
      SortedOrdered(es[1..]);
      InsertOrdered(es[0], Sorted(es[1..]));
    }
  }

  lemma {:induction false} OrderedIsSorted(es: seq<InvoiceEvent>)
    requires Ordered(es)
    ensures Sorted(es) == es
  {
    if es != [] {
      assert Ordered(es[1..]);
      OrderedIsSorted(es[1..]);
      if |es| > 1 {
        assert es[0].sequence <= es[1].sequence;
      }
    }
  }

  lemma OrderedSameHead(a: seq<InvoiceEvent>, b: seq<InvoiceEvent>)
    requires Ordered(a) && Ordered(b) && DistinctSequences(a)
    requires multiset(a) == multiset(b) && a != [] && b != []
    ensures a[0] == b[0]
  {
    assert a[0] in multiset(b) && b[0] in multiset(a);
    var i :| 0 <= i < |a| && a[i] == b[0];
    var j :| 0 <= j < |b| && b[j] == a[0];
    assert b[0].sequence <= b[j].sequence == a[0].sequence;
    if i > 0 {
      assert false;
    }
  }

  lemma SameTail<T>(a: seq<T>, b: seq<T>)
    requires a != [] && b != [] && a[0] == b[0] && multiset(a) == multiset(b)
    ensures multiset(a[1..]) == multiset(b[1..])
  {
    assert a == [a[0]] + a[1..] && b == [b[0]] + b[1..];
    assert multiset(a[1..]) == multiset(a) - multiset{a[0]};
    assert multiset(b[1..]) == multiset(b) - multiset{b[0]};
  }

  /** Two ordered logs with the same rows and no repeated sequence are the same log. */
  lemma {:induction false} OrderedUnique(a: seq<InvoiceEvent>, b: seq<InvoiceEvent>)
    requires Ordered(a) && Ordered(b) && DistinctSequences(a)
    requires multiset(a) == multiset(b)
    ensures a == b
  {
    assert |a| == |multiset(a)| && |b| == |multiset(b)|;
    if a != [] {
      OrderedSameHead(a, b);
      SameTail(a, b);
      OrderedUnique(a[1..], b[1..]);
      assert a == [a[0]] + a[1..] && b == [b[0]] + b[1..];
    }
  }

  lemma DistinctUnderPermutation(a: seq<InvoiceEvent>, b: seq<InvoiceEvent>)
    requires DistinctSequences(a) && multiset(a) == multiset(b)
    ensures DistinctSequences(b)
  {
    forall i, j | 0 <= i < j < |b| ensures b[i].sequence != b[j].sequence {
      if b[i].sequence == b[j].sequence {
        assert b[i] in multiset(a) && b[j] in multiset(a);
        var k :| 0 <= k < |a| && a[k] == b[i];
        var l :| 0 <= l < |a| && a[l] == b[j];
        assert k == l;
        TwiceInSequence(b, i, j);
        OnceInSequence(a, k);
        assert false;
      }
    }
  }

  lemma TwiceInSequence(b: seq<InvoiceEvent>, i: nat, j: nat)
    requires i < j < |b| && b[i] == b[j]
    ensures multiset(b)[b[i]] >= 2
  {
    assert b == b[..j] + [b[j]] + b[j + 1..];
    assert b[i] == b[..j][i];
    assert b[i] in b[..j];
  }

  lemma OnceInSequence(a: seq<InvoiceEvent>, k: nat)
    requires k < |a| && DistinctSequences(a)
    ensures multiset(a)[a[k]] == 1
  {
    assert a == a[..k] + [a[k]] + a[k + 1..];
    assert a[k] !in a[..k] && a[k] !in a[k + 1..];
  }

  /** The fold does not depend on the order in which the rows are handed to it. */
  lemma FoldIgnoresInputOrder(base: Option<InvoiceState>, a: seq<InvoiceEvent>, b: seq<InvoiceEvent>)
    requires DistinctSequences(a)
    requires multiset(a) == multiset(b)
    ensures FoldSpec(base, a) == FoldSpec(base, b)
  {
    SortedOrdered(a);
    SortedOrdered(b);
    SortedRows(a);
    SortedRows(b);
    DistinctUnderPermutation(a, Sorted(a));
    OrderedUnique(Sorted(a), Sorted(b));
  }

  /** Without distinct sequences the order does matter: the sort is stable, so the later row wins. */
  lemma EqualSequencesMakeOrderMatter()
    ensures exists a, b :: multiset(a) == multiset(b) && FoldSpec(None, a) != FoldSpec(None, b)
  {
    var x, y := InvoiceEvent(1, InvoiceIssued, 5, 0), InvoiceEvent(1, InvoiceIssued, 7, 0);
    var a, b := [x, y], [y, x];
    assert multiset(a) == multiset(b);
    assert Ordered(a) && Ordered(b);
    OrderedIsSorted(a);
    OrderedIsSorted(b);
    FoldFromConcat(EMPTY_TALLY, [x], [y]);
    FoldFromConcat(EMPTY_TALLY, [y], [x]);
    assert FoldSpec(None, a).total == 7;
    assert FoldSpec(None, b).total == 5;
  }

  /** Two events that may be folded in either order. */
  predicate Commute(a: InvoiceEvent, b: InvoiceEvent)
  {
    match (a.eventType, b.eventType)
    case (InvoiceIssued, InvoiceIssued) => a.amount == b.amount
    case (PaymentApplied, PaymentApplied) => a.occurredAt == b.occurredAt
    case (InvoiceCancelled, InvoiceCancelled) => true
    case (InvoiceCancelled, CreditNoteApplied) => b.amount == 0
    case (CreditNoteApplied, InvoiceCancelled) => a.amount == 0
    case (InvoiceCancelled, _) => false
    case (_, InvoiceCancelled) => false
    case _ => true
  }

  lemma CommutingSteps(a: InvoiceEvent, b: InvoiceEvent, t: Tally)
    requires Commute(a, b)
    ensures Step(Step(t, a), b) == Step(Step(t, b), a)
  {
    if !t.cancelled {
      match a.eventType
      case InvoiceIssued => case PaymentApplied => case CreditNoteApplied => case InvoiceCancelled =>
    }
  }

  lemma OtherStepsDiffer(a: InvoiceEvent, b: InvoiceEvent)
    requires !Commute(a, b)
    ensures Step(Step(EMPTY_TALLY, a), b) != Step(Step(EMPTY_TALLY, b), a)
  {
    match a.eventType
    case InvoiceIssued => case PaymentApplied => case CreditNoteApplied => case InvoiceCancelled =>
  }

  /** Swapping two neighbours leaves every fold as it was exactly when they are such a pair. */
  lemma NeighboursCommuteExactly(a: InvoiceEvent, b: InvoiceEvent)
    ensures Commute(a, b) <==> forall t :: Step(Step(t, a), b) == Step(Step(t, b), a)
  {
    if Commute(a, b) {
      forall t ensures Step(Step(t, a), b) == Step(Step(t, b), a) { CommutingSteps(a, b, t); }
    } else {
      OtherStepsDiffer(a, b);
    }
  }

  // ------------------------------------------------------- resuming

  function UpTo(k: int, es: seq<InvoiceEvent>): seq<InvoiceEvent>
  {
    if es == [] then [] else (if es[0].sequence <= k then [es[0]] else []) + UpTo(k, es[1..])
  }

  /** `list_after_sequence`: the rows with a larger sequence. */
  function After(k: int, es: seq<InvoiceEvent>): seq<InvoiceEvent>
  {
    if es == [] then [] else (if es[0].sequence > k then [es[0]] else []) + After(k, es[1..])
  }

  lemma {:induction false} UpToWithin(k: int, es: seq<InvoiceEvent>)
    ensures forall e :: e in UpTo(k, es) ==> e.sequence <= k
    ensures forall e :: e in After(k, es) ==> e.sequence > k
  {
    if es != [] {
      UpToWithin(k, es[1..]);
    }
  }

  lemma {:induction false} InsertLow(e: InvoiceEvent, a: seq<InvoiceEvent>, b: seq<InvoiceEvent>)
    requires forall x :: x in b ==> e.sequence <= x.sequence
    ensures Insert(e, a + b) == Insert(e, a) + b
  {
    if a == [] {
      assert a + b == b;
    } else if e.sequence > a[0].sequence {
      assert (a + b)[1..] == a[1..] + b;
      InsertLow(e, a[1..], b);
    } else {
      assert [e] + (a + b) == ([e] + a) + b;
    }
  }

  lemma {:induction false} InsertHigh(e: InvoiceEvent, a: seq<InvoiceEvent>, b: seq<InvoiceEvent>)
    requires forall x :: x in a ==> x.sequence < e.sequence
    ensures Insert(e, a + b) == a + Insert(e, b)
  {
    if a == [] {
      assert a + b == b;
    } else {
      assert (a + b)[1..] == a[1..] + b;
      InsertHigh(e, a[1..], b);
    }
  }

  lemma SortedMembers(es: seq<InvoiceEvent>)
    ensures forall e :: e in Sorted(es) <==> e in es
  {
    SortedRows(es);
    forall e ensures e in Sorted(es) <==> e in es {
      assert e in multiset(Sorted(es)) <==> e in multiset(es);
    }
  }

  /** Sorting commutes with cutting the log at a sequence number. */
  lemma {:induction false} SortedSplits(k: int, es: seq<InvoiceEvent>)
    ensures Sorted(es) == Sorted(UpTo(k, es)) + Sorted(After(k, es))
  {
    if es != [] {
      var e, rest := es[0], es[1..];
      SortedSplits(k, rest);
      UpToWithin(k, rest);
      SortedMembers(UpTo(k, rest));
      SortedMembers(After(k, rest));
      if e.sequence <= k {
        InsertLow(e, Sorted(UpTo(k, rest)), Sorted(After(k, rest)));
        CutCons(k, e, rest);
      } else {
        InsertHigh(e, Sorted(UpTo(k, rest)), Sorted(After(k, rest)));
        CutCons(k, e, rest);
      }
      assert es == [e] + rest;
    }
  }

  lemma CutCons(k: int, e: InvoiceEvent, rest: seq<InvoiceEvent>)
    ensures Sorted([e] + rest) == Insert(e, Sorted(rest))
    ensures e.sequence <= k ==> Sorted(UpTo(k, [e] + rest)) == Insert(e, Sorted(UpTo(k, rest))) && After(k, [e] + rest) == After(k, rest)
    ensures e.sequence > k ==> Sorted(After(k, [e] + rest)) == Insert(e, Sorted(After(k, rest))) && UpTo(k, [e] + rest) == UpTo(k, rest)
  {
    assert ([e] + rest)[1..] == rest;
    assert ([e] + UpTo(k, rest))[1..] == UpTo(k, rest);
    assert ([e] + After(k, rest))[1..] == After(k, rest);
  }

  lemma {:induction false} FoldFromConcat(t: Tally, a: seq<InvoiceEvent>, b: seq<InvoiceEvent>)
    ensures FoldFrom(t, a + b) == FoldFrom(FoldFrom(t, a), b)
  {
    if b == [] {
      assert a + b == a;
    } else {
      assert (a + b)[..|a + b| - 1] == a + b[..|b| - 1];
      FoldFromConcat(t, a, b[..|b| - 1]);
    }
  }

  // ------------------------------------------------------- snapshots

  /** The JSON document of `to_snapshot`: numbers and instants as text. */
  datatype SnapshotDoc = SnapshotDoc(
    total: string, amountPaid: string, credited: string, balanceDue: string,
    paymentStatus: Option<string>, paidAt: Option<string>,
    issued: bool, cancelled: bool, eventCount: int,
    lastPaymentAt: Option<string>, sequence: int)

  function StatusText(s: InvoiceStatus): string
  {
    match s
    case Draft => "draft"
    case Sent => "sent"
    case Paid => "paid"
    case PartiallyPaid => "partially_paid"
    case Overdue => "overdue"
    case Cancelled => "cancelled"
  }

  function ParseStatus(s: string): Option<InvoiceStatus>
  {
    if s == "draft" then Some(Draft)
    else if s == "sent" then Some(Sent)
    else if s == "paid" then Some(Paid)
    else if s == "partially_paid" then Some(PartiallyPaid)
    else if s == "overdue" then Some(Overdue)
    else if s == "cancelled" then Some(Cancelled)
    else None
  }

  function InstantText(i: Option<Instant>): Option<string>
  {
    match i
    case None => None
    case Some(at) => Some(SnapshotText.IntText(at))
  }

  /** `_parse_dt`: a missing or empty text is no instant; None is the exception of a malformed one. */
  function ParseInstant(s: Option<string>): Option<Option<Instant>>
  {
    match s
    case None => Some(None)
    case Some(text) =>
      if text == "" then Some(None)
      else match SnapshotText.ParseInt(text)
           case Some(at) => Some(Some(at))
           case None => None
  }

  function ToSnapshot(s: InvoiceState): SnapshotDoc
  {
    SnapshotDoc(
      SnapshotText.IntText(s.total), SnapshotText.IntText(s.amountPaid),
      SnapshotText.IntText(s.credited), SnapshotText.IntText(s.balanceDue),
      StatusTextOf(s.paymentStatus),
      InstantText(s.paidAt), s.issued, s.cancelled, s.eventCount,
      InstantText(s.lastPaymentAt), s.sequence)
  }

  function StatusTextOf(p: Option<InvoiceStatus>): Option<string>
  {
    match p
    case None => None
    case Some(status) => Some(StatusText(status))
  }

  function ParseStatusOf(s: Option<string>): Option<Option<InvoiceStatus>>
  {
    match s
    case None => Some(None)
    case Some(text) =>
      if text == "" then Some(None)
      else match ParseStatus(text)
           case Some(p) => Some(Some(p))
           case None => None
  }

  /** None stands for the exception a malformed document raises. */
  function FromSnapshot(d: SnapshotDoc): Option<InvoiceState>
  {
    match (SnapshotText.ParseInt(d.total), SnapshotText.ParseInt(d.amountPaid),
           SnapshotText.ParseInt(d.credited), SnapshotText.ParseInt(d.balanceDue),
           ParseStatusOf(d.paymentStatus), ParseInstant(d.paidAt), ParseInstant(d.lastPaymentAt))
    case (Some(total), Some(paid), Some(credited), Some(balance), Some(status), Some(paidAt), Some(last)) =>
      Some(InvoiceState(total, paid, credited, balance, status, paidAt, d.issued, d.cancelled, d.eventCount, last, d.sequence))
    case _ => None
  }

  lemma StatusRoundTrip(p: Option<InvoiceStatus>)
    ensures ParseStatusOf(StatusTextOf(p)) == Some(p)
  {
  }

  lemma InstantRoundTrip(i: Option<Instant>)
    ensures ParseInstant(InstantText(i)) == Some(i)
  {
    if i.Some? { SnapshotText.IntTextRoundTrip(i.value); }
  }

  /** `from_snapshot` undoes `to_snapshot`, for every state whatever. */
  lemma SnapshotRoundTrip(s: InvoiceState)
    ensures FromSnapshot(ToSnapshot(s)) == Some(s)
  {
    SnapshotText.IntTextRoundTrip(s.total);
    SnapshotText.IntTextRoundTrip(s.amountPaid);
    SnapshotText.IntTextRoundTrip(s.credited);
    SnapshotText.IntTextRoundTrip(s.balanceDue);
    StatusRoundTrip(s.paymentStatus);
    InstantRoundTrip(s.paidAt);
    InstantRoundTrip(s.lastPaymentAt);
  }

  /**
   Resuming equals replaying.  Cut any log at any sequence number, store the
   fold of the lower part as text, read it back and fold the upper part onto it:
   every field equals that of the full replay.  Sequences may even repeat.
   */
  lemma ResumeEqualsReplay(es: seq<InvoiceEvent>, k: int)
    ensures var stored := ToSnapshot(FoldSpec(None, UpTo(k, es)));
            && FromSnapshot(stored).Some?
            && FoldSpec(FromSnapshot(stored), After(k, es)) == FoldSpec(None, es)
  {
    var prefix := FoldSpec(None, UpTo(k, es));
    SnapshotRoundTrip(prefix);
    SortedSplits(k, es);
    FoldFromConcat(EMPTY_TALLY, Sorted(UpTo(k, es)), Sorted(After(k, es)));
    assert TallyOf(Some(prefix)) == FoldFrom(EMPTY_TALLY, Sorted(UpTo(k, es)));
  }
}
