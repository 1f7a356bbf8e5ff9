/**
 The invoice commands of `finance/service.py` and the projection that keeps the
 `invoices` row, its snapshots and its payments in step with the event log.

 Each command holds the invoice row `FOR UPDATE`, so it is one atomic step on
 one `Book`.  The functions below say what a command does by replaying the whole
 log; the class does it the way the service does, resuming from the latest
 snapshot, and is proved equal.
 */
module InvoiceBook {
  import opened Common
  import opened InvoiceEvents

  const SNAPSHOT_INTERVAL := 50

  datatype Payment = Payment(amount: int, vault: Vault, date: Instant)

  datatype SnapshotRow = SnapshotRow(sequence: int, state: SnapshotDoc)

  /** One invoice row with its log, snapshots and payments. */
  datatype Book = Book(
    status: InvoiceStatus, total: int, amountPaid: int, amountCredited: int, balanceDue: int,
    paidAt: Option<Instant>,
    events: seq<InvoiceEvent>, snapshots: seq<SnapshotRow>, payments: seq<Payment>)

  datatype Command =
    | Send
    | CashPayment(amount: int, date: Instant)
    | MarkPaid(vault: Vault, now: Instant)
    | CreditNote(amount: int, now: Instant)
    | Cancel(now: Instant)
    | Reconcile(amount: int, vault: Vault, occurredAt: Instant)
    | Patch(status: Option<InvoiceStatus>, paidAt: Option<Instant>)

  datatype Outcome = Done | AlreadySettled | Refused

  // ------------------------------------------------ what a command does

  /** The whole log folded in the order it was appended. */
  function Replay(es: seq<InvoiceEvent>): InvoiceState
  {
    Finalize(FoldFrom(EMPTY_TALLY, es))
  }

  /** The book with its row rewritten from the whole log. */
  function Projected(b: Book): Book
  {
    var state := Replay(b.events);
    var row := b.(amountPaid := state.amountPaid, amountCredited := state.credited, balanceDue := state.balanceDue);
    var dated := if state.paymentStatus.Some? then row.(status := state.paymentStatus.value, paidAt := state.paidAt) else row;
    dated.(snapshots := SnapshotsAfter(b.snapshots, b.events))
  }

  /** One more snapshot when the log has reached a multiple of the interval. */
  function SnapshotsAfter(rows: seq<SnapshotRow>, es: seq<InvoiceEvent>): seq<SnapshotRow>
  {
    if es != [] && |es| % SNAPSHOT_INTERVAL == 0 then rows + [SnapshotRow(|es|, ToSnapshot(Replay(es)))] else rows
  }

  function Append(b: Book, kind: EventType, amount: int, at: Instant): Book
  {
    Projected(b.(events := b.events + [InvoiceEvent(|b.events| + 1, kind, amount, at)]))
  }

  function Pay(b: Book, amount: int, vault: Vault, at: Instant): Book
  {
    Append(b.(payments := b.payments + [Payment(amount, vault, at)]), PaymentApplied, amount, at)
  }

  function Min(a: int, b: int): int { if a < b then a else b }

  /** What a command decides to do, before anything is written. */
  datatype Effect =
    | Refusal
    | Settled
    | Restatus(status: InvoiceStatus, paidAt: Option<Instant>)
    | Entry(kind: EventType, amount: int, at: Instant)
    | Receipt(amount: int, vault: Vault, at: Instant)

  function Decide(b: Book, c: Command): (f: Effect)
    ensures f.Receipt? ==> 0 < f.amount <= b.balanceDue
    ensures f.Entry? ==> f.kind == InvoiceCancelled || (f.kind == CreditNoteApplied && 0 < f.amount <= b.balanceDue)
  {
    match c
    case Send => if b.status != Draft then Refusal else Restatus(Sent, b.paidAt)
    case CashPayment(amount, date) =>
      if amount <= 0 || b.balanceDue < amount then Refusal else Receipt(amount, Cash, date)
    case MarkPaid(vault, now) =>
      if b.balanceDue > 0 then Receipt(b.balanceDue, vault, now) else Settled
    case CreditNote(amount, now) =>
      if amount <= 0 || b.status == Cancelled || amount > b.balanceDue then Refusal
      else Entry(CreditNoteApplied, amount, now)
    case Cancel(now) =>
      if b.status == Cancelled || b.status == Paid then Refusal else Entry(InvoiceCancelled, 0, now)
    case Reconcile(amount, vault, occurredAt) =>
      var applied := Min(amount, b.balanceDue);
      if applied <= 0 then Settled else Receipt(applied, vault, occurredAt)
    case Patch(status, paidAt) =>
      Restatus(if status.Some? then status.value else b.status, if paidAt.Some? then paidAt else b.paidAt)
  }

  function Perform(b: Book, f: Effect): Book
  {
    match f
    case Refusal => b
    case Settled => b
    case Restatus(status, paidAt) => b.(status := status, paidAt := paidAt)
    case Entry(kind, amount, at) => Append(b, kind, amount, at)
    case Receipt(amount, vault, at) => Pay(b, amount, vault, at)
  }

  function Exec(b: Book, c: Command): Book
  {
    Perform(b, Decide(b, c))
  }

  function OutcomeOf(f: Effect): Outcome
  {
    match f
    case Refusal => Refused
    case Settled => AlreadySettled
    case _ => Done
  }

  /** The schema asks for a positive subtotal and a non-negative tax. */
  function Created(subtotal: int, tax: int, at: Instant): Option<Book>
  {
    if subtotal <= 0 || tax < 0 then None
    else
      var total := subtotal + tax;
      Some(Book(Draft, total, 0, 0, total, None, [InvoiceEvent(1, InvoiceIssued, total, at)], [], []))
  }

  function Run(b: Book, cs: seq<Command>): Book
  {
    if cs == [] then b else Exec(Run(b, cs[..|cs| - 1]), cs[|cs| - 1])
  }

  function PaymentsTotal(ps: seq<Payment>): int
  {
    if ps == [] then 0 else PaymentsTotal(ps[..|ps| - 1]) + ps[|ps| - 1].amount
  }

  // ------------------------------------------------ what every command keeps

  /** Sequences 1..n, one issue event at the front, positive payments and credit notes. */
  ghost predicate WellFormedLog(es: seq<InvoiceEvent>)
  {
    && es != []
    && es[0].eventType == InvoiceIssued && es[0].amount > 0
    && (forall i :: 0 <= i < |es| ==> es[i].sequence == i + 1)
    && (forall i :: 1 <= i < |es| ==> es[i].eventType != InvoiceIssued)
    && (forall i :: 0 <= i < |es| && (es[i].eventType == PaymentApplied || es[i].eventType == CreditNoteApplied) ==> es[i].amount > 0)
  }

  ghost predicate RowIsReplay(b: Book)
  {
    var state := Replay(b.events);
    && b.total == state.total && b.amountPaid == state.amountPaid
    && b.amountCredited == state.credited && b.balanceDue == state.balanceDue
  }

  /** A snapshot at every multiple of the interval, and nowhere else, each holding the replay of its prefix. */
  ghost predicate SnapshotsAreReplays(rows: seq<SnapshotRow>, es: seq<InvoiceEvent>)
  {
    && |rows| == |es| / SNAPSHOT_INTERVAL
    && forall i :: 0 <= i < |rows| ==>
         && rows[i].sequence == SNAPSHOT_INTERVAL * (i + 1) <= |es|
         && FromSnapshot(rows[i].state) == Some(Replay(es[..rows[i].sequence]))
  }

  ghost predicate MoneyHolds(b: Book)
  {
    && b.balanceDue == b.total - b.amountCredited - b.amountPaid
    && b.total > 0 && b.amountCredited >= 0 && b.amountPaid >= 0 && b.balanceDue >= 0
  }

  /** Every payment event has its payment row. */
  ghost predicate PaymentsAreEvents(b: Book)
  {
    PaymentsTotal(b.payments) == SumOf(PaymentApplied, b.events)
  }

  ghost predicate Valid(b: Book)
  {
    WellFormedLog(b.events) && RowIsReplay(b) && SnapshotsAreReplays(b.snapshots, b.events) && MoneyHolds(b) && PaymentsAreEvents(b)
  }

  /** The status is the one the log dictates, and one of the manual ones when it dictates none. */
  ghost predicate StatusFollowsLog(b: Book)
  {
    match Replay(b.events).paymentStatus
    case Some(p) => b.status == p
    case None => b.status == Draft || b.status == Sent
  }

  // ------------------------------------------------ proofs

  /** The log is appended in sequence order, so replaying it is `fold_invoice_events`. */
  lemma ReplayIsFold(es: seq<InvoiceEvent>)
    requires forall i :: 0 <= i < |es| ==> es[i].sequence == i + 1
    ensures FoldSpec(None, es) == Replay(es)
  {
    OrderedIsSorted(es);
  }

  lemma ReplayAppend(es: seq<InvoiceEvent>, e: InvoiceEvent)
    ensures Replay(es + [e]) == Finalize(Step(FoldFrom(EMPTY_TALLY, es), e))
  {
    assert (es + [e])[..|es|] == es;
  }

  lemma SumOfAppend(kind: EventType, es: seq<InvoiceEvent>, e: InvoiceEvent)
    ensures SumOf(kind, es + [e]) == SumOf(kind, es) + if e.eventType == kind then e.amount else 0
  {
    assert (es + [e])[..|es|] == es;
  }

  lemma SnapshotsAppend(rows: seq<SnapshotRow>, es: seq<InvoiceEvent>, e: InvoiceEvent)
    requires SnapshotsAreReplays(rows, es)
    ensures SnapshotsAreReplays(SnapshotsAfter(rows, es + [e]), es + [e])
  {
    var after := es + [e];
    forall i | 0 <= i < |rows|
      ensures rows[i].sequence == SNAPSHOT_INTERVAL * (i + 1) <= |after|
      ensures FromSnapshot(rows[i].state) == Some(Replay(after[..rows[i].sequence]))
    {
      assert es[..rows[i].sequence] == after[..rows[i].sequence];
    }
    if |after| % SNAPSHOT_INTERVAL == 0 {
      SnapshotRoundTrip(Replay(after));
      assert after[..|after|] == after;
    }
  }

  lemma AppendIsProjection(b: Book, kind: EventType, amount: int, at: Instant)
    ensures Append(b, kind, amount, at) == Projected(b.(events := b.events + [InvoiceEvent(|b.events| + 1, kind, amount, at)]))
  {
  }

  /** What an append does to each field, with the log's running tally one step further. */
  lemma AppendFields(b: Book, kind: EventType, amount: int, at: Instant)
    ensures var e := InvoiceEvent(|b.events| + 1, kind, amount, at);
            var state := Finalize(Step(FoldFrom(EMPTY_TALLY, b.events), e));
            var after := Append(b, kind, amount, at);
            && after.events == b.events + [e] && Replay(after.events) == state
            && after.total == b.total && after.payments == b.payments
            && after.amountPaid == state.amountPaid && after.amountCredited == state.credited
            && after.balanceDue == state.balanceDue
            && after.status == (if state.paymentStatus.Some? then state.paymentStatus.value else b.status)
            && after.paidAt == (if state.paymentStatus.Some? then state.paidAt else b.paidAt)
  {
    ReplayAppend(b.events, InvoiceEvent(|b.events| + 1, kind, amount, at));
  }

  lemma AppendKeepsLog(b: Book, kind: EventType, amount: int, at: Instant)
    requires WellFormedLog(b.events)
    requires kind == PaymentApplied || kind == CreditNoteApplied ==> 0 < amount
    requires kind != InvoiceIssued
    ensures WellFormedLog(b.events + [InvoiceEvent(|b.events| + 1, kind, amount, at)])
  {
  }

  lemma AppendKeepsMoney(b: Book, kind: EventType, amount: int, at: Instant)
    requires WellFormedLog(b.events) && RowIsReplay(b) && MoneyHolds(b)
    requires kind == PaymentApplied || kind == CreditNoteApplied ==> 0 < amount <= b.balanceDue
    requires kind != InvoiceIssued
    ensures RowIsReplay(Append(b, kind, amount, at)) && MoneyHolds(Append(b, kind, amount, at))
  {
    AppendFields(b, kind, amount, at);
  }

  /**
   Appending a payment or credit note of at most the balance, or a cancellation,
   keeps the row, the snapshots and the money in step with the log.
   */
  lemma AppendKeeps(b: Book, kind: EventType, amount: int, at: Instant)
    requires Valid(b)
    requires kind == PaymentApplied || kind == CreditNoteApplied ==> 0 < amount <= b.balanceDue
    requires kind != InvoiceIssued
    ensures var after := Append(b, kind, amount, at);
            && WellFormedLog(after.events) && RowIsReplay(after) && SnapshotsAreReplays(after.snapshots, after.events) && MoneyHolds(after)
            && SumOf(PaymentApplied, after.events) == SumOf(PaymentApplied, b.events) + if kind == PaymentApplied then amount else 0
  {
    var e := InvoiceEvent(|b.events| + 1, kind, amount, at);
    AppendFields(b, kind, amount, at);
    AppendKeepsLog(b, kind, amount, at);
    AppendKeepsMoney(b, kind, amount, at);
    SnapshotsAppend(b.snapshots, b.events, e);
    SumOfAppend(PaymentApplied, b.events, e);
  }

  /** The payment rows do not enter the projection. */
  lemma PayIsAppendPlusRow(b: Book, amount: int, vault: Vault, at: Instant)
    ensures Pay(b, amount, vault, at)
         == Append(b, PaymentApplied, amount, at).(payments := b.payments + [Payment(amount, vault, at)])
  {
  }

  lemma PayKeepsValid(b: Book, amount: int, vault: Vault, at: Instant)
    requires Valid(b) && 0 < amount <= b.balanceDue
    ensures Valid(Pay(b, amount, vault, at))
  {
    PayIsAppendPlusRow(b, amount, vault, at);
    AppendKeeps(b, PaymentApplied, amount, at);
    var p := Payment(amount, vault, at);
    assert (b.payments + [p])[..|b.payments|] == b.payments;
  }

  lemma PlainAppendKeepsValid(b: Book, kind: EventType, amount: int, at: Instant)
    requires Valid(b)
    requires kind == InvoiceCancelled || (kind == CreditNoteApplied && 0 < amount <= b.balanceDue)
    ensures Valid(Append(b, kind, amount, at))
  {
    AppendKeeps(b, kind, amount, at);
    AppendFields(b, kind, amount, at);
  }

  lemma RestatusKeepsValid(b: Book, status: InvoiceStatus, paidAt: Option<Instant>)
    requires Valid(b)
    ensures Valid(b.(status := status, paidAt := paidAt))
  {
  }

  lemma PerformKeepsValid(b: Book, f: Effect)
    requires Valid(b)
    requires f.Receipt? ==> 0 < f.amount <= b.balanceDue
    requires f.Entry? ==> f.kind == InvoiceCancelled || (f.kind == CreditNoteApplied && 0 < f.amount <= b.balanceDue)
    ensures Valid(Perform(b, f))
  {
    if f.Restatus? {
      RestatusKeepsValid(b, f.status, f.paidAt);
    } else if f.Entry? {
      PlainAppendKeepsValid(b, f.kind, f.amount, f.at);
    } else if f.Receipt? {
      PayKeepsValid(b, f.amount, f.vault, f.at);
    }
  }

  lemma ExecKeepsValid(b: Book, c: Command)
    requires Valid(b)
    ensures Valid(Exec(b, c))
  {
    PerformKeepsValid(b, Decide(b, c));
  }

  lemma CreatedValid(subtotal: int, tax: int, at: Instant)
    requires Created(subtotal, tax, at).Some?
    ensures Valid(Created(subtotal, tax, at).value) && StatusFollowsLog(Created(subtotal, tax, at).value)
  {
    var e := InvoiceEvent(1, InvoiceIssued, subtotal + tax, at);
    ReplayAppend([], e);
    SumOfAppend(PaymentApplied, [], e);
    assert [] + [e] == [e];
  }

  /**
   In every state reached from creation by any commands, PATCH included: the
   log is well formed, the row equals the full replay, the snapshots are exactly
   the replays at the multiples of 50, the balance identity holds with no
   negative term, and every payment event has its payment row.
   */
  lemma {:induction false} EveryRunValid(subtotal: int, tax: int, at: Instant, cs: seq<Command>)
    requires Created(subtotal, tax, at).Some?
    ensures Valid(Run(Created(subtotal, tax, at).value, cs))
  {
    if cs == [] {
      CreatedValid(subtotal, tax, at);
    } else {
      EveryRunValid(subtotal, tax, at, cs[..|cs| - 1]);
      ExecKeepsValid(Run(Created(subtotal, tax, at).value, cs[..|cs| - 1]), cs[|cs| - 1]);
    }
  }

  ghost predicate PatchesStatus(c: Command)
  {
    c.Patch? && c.status.Some?
  }

  lemma AppendSetsStatus(b: Book, kind: EventType, amount: int, at: Instant)
    requires Valid(b) && StatusFollowsLog(b)
    requires kind == PaymentApplied ==> amount > 0
    ensures StatusFollowsLog(Append(b, kind, amount, at))
  {
    AppendFields(b, kind, amount, at);
  }

  lemma RestatusKeepsStatus(b: Book, status: InvoiceStatus, paidAt: Option<Instant>)
    requires StatusFollowsLog(b) && (status == b.status || (b.status == Draft && status == Sent))
    ensures StatusFollowsLog(b.(status := status, paidAt := paidAt))
  {
  }

  lemma PaySetsStatus(b: Book, amount: int, vault: Vault, at: Instant)
    requires Valid(b) && StatusFollowsLog(b) && amount > 0
    ensures StatusFollowsLog(Pay(b, amount, vault, at))
  {
    AppendSetsStatus(b, PaymentApplied, amount, at);
    PayIsAppendPlusRow(b, amount, vault, at);
  }

  lemma RestatusIsSend(b: Book, c: Command)
    requires !PatchesStatus(c) && Decide(b, c).Restatus?
    ensures var status := Decide(b, c).status; status == b.status || (b.status == Draft && status == Sent)
  {
  }

  lemma PerformKeepsStatus(b: Book, f: Effect)
    requires Valid(b) && StatusFollowsLog(b)
    requires f.Restatus? ==> f.status == b.status || (b.status == Draft && f.status == Sent)
    requires f.Receipt? ==> f.amount > 0
    requires f.Entry? ==> f.kind != PaymentApplied
    ensures StatusFollowsLog(Perform(b, f))
  {
    match f
    case Refusal =>
    case Settled =>
    case Restatus(status, paidAt) => RestatusKeepsStatus(b, status, paidAt);
    case Entry(kind, amount, at) => AppendSetsStatus(b, kind, amount, at);
    case Receipt(amount, vault, at) => PaySetsStatus(b, amount, vault, at);
  }

  lemma ExecKeepsStatus(b: Book, c: Command)
    requires Valid(b) && StatusFollowsLog(b) && !PatchesStatus(c)
    ensures StatusFollowsLog(Exec(b, c))
  {
    var f := Decide(b, c);
    if f.Restatus? { RestatusIsSend(b, c); }
    PerformKeepsStatus(b, f);
  }

  /** Without a status PATCH the status is at every moment the one the log dictates. */
  lemma {:induction false} UnpatchedStatusFollowsLog(subtotal: int, tax: int, at: Instant, cs: seq<Command>)
    requires Created(subtotal, tax, at).Some?
    requires forall i :: 0 <= i < |cs| ==> !PatchesStatus(cs[i])
    ensures var b := Run(Created(subtotal, tax, at).value, cs);
            StatusFollowsLog(b) && (b.status == Cancelled <==> HasCancel(b.events))
  {
    var b0 := Created(subtotal, tax, at).value;
    EveryRunValid(subtotal, tax, at, cs);
    CreatedValid(subtotal, tax, at);
    if cs != [] {
      UnpatchedStatusFollowsLog(subtotal, tax, at, cs[..|cs| - 1]);
      EveryRunValid(subtotal, tax, at, cs[..|cs| - 1]);
      ExecKeepsStatus(Run(b0, cs[..|cs| - 1]), cs[|cs| - 1]);
    }
    CancelledExactlyByEvent(Run(b0, cs));
  }

  lemma CancelledExactlyByEvent(b: Book)
    requires Valid(b) && StatusFollowsLog(b)
    ensures b.status == Cancelled <==> HasCancel(b.events)
  {
    FoldCounts(b.events);
  }

  /** The projection after the next event folds at most 50 events onto the latest snapshot. */
  lemma {:induction false} TailIsShort(b: Book)
    requires Valid(b)
    ensures |b.events| + 1 - 50 * |b.snapshots| <= 50
    ensures b.snapshots != [] ==> b.snapshots[|b.snapshots| - 1].sequence == 50 * (|b.events| / 50)
  {
  }

  // ------------------------------------------------ payments against the row

  lemma {:induction false} SumOfSplit(kind: EventType, es: seq<InvoiceEvent>, k: nat)
    requires k <= |es|
    ensures SumOf(kind, es) == SumOf(kind, es[..k]) + SumOf(kind, es[k..])
  {
    if k == |es| {
      assert es[..k] == es;
    } else {
      SumOfSplit(kind, es[..|es| - 1], k);
      assert es[..|es| - 1][..k] == es[..k];
      assert es[k..][..|es| - k - 1] == es[..|es| - 1][k..];
    }
  }

  /** The payment events that come after the first cancellation. */
  function LatePayments(es: seq<InvoiceEvent>): seq<InvoiceEvent>
  {
    BeforeCancelIsPrefix(es);
    es[|BeforeCancel(es)|..]
  }

  /**
   The payment rows exceed the row's `amount_paid` by exactly the payments taken
   after the first cancellation, which the fold ignores and the payment paths do
   not refuse.
   */
  lemma PaymentsAgainstRow(b: Book)
    requires Valid(b)
    ensures PaymentsTotal(b.payments) == b.amountPaid + SumOf(PaymentApplied, LatePayments(b.events))
    ensures PaymentsTotal(b.payments) >= b.amountPaid
    ensures !HasCancel(b.events) ==> PaymentsTotal(b.payments) == b.amountPaid
  {
    FoldClosedForm(b.events);
    BeforeCancelIsPrefix(b.events);
    SumOfSplit(PaymentApplied, b.events, |BeforeCancel(b.events)|);
    var late := LatePayments(b.events);
    forall i | 0 <= i < |late| && late[i].eventType == PaymentApplied ensures late[i].amount > 0 {
      assert late[i] == b.events[|BeforeCancel(b.events)| + i];
    }
    PositiveSum(late);
  }

  lemma {:induction false} PositiveSum(es: seq<InvoiceEvent>)
    requires forall i :: 0 <= i < |es| && es[i].eventType == PaymentApplied ==> es[i].amount > 0
    ensures SumOf(PaymentApplied, es) >= 0
    ensures SumOf(PaymentApplied, es) == 0 <==> forall i :: 0 <= i < |es| ==> es[i].eventType != PaymentApplied
  {
    if es != [] {
      var init := es[..|es| - 1];
      PositiveSum(init);
      assert es[|es| - 1] == es[|init|];
      assert forall i :: 0 <= i < |init| ==> init[i] == es[i];
    }
  }

  /** What a payment does to the row: it counts only while the log holds no cancellation. */
  lemma PayMoves(b: Book, amount: int, vault: Vault, at: Instant)
    requires RowIsReplay(b)
    ensures Pay(b, amount, vault, at).amountPaid == b.amountPaid + if HasCancel(b.events) then 0 else amount
    ensures PaymentsTotal(Pay(b, amount, vault, at).payments) == PaymentsTotal(b.payments) + amount
  {
    PayIsAppendPlusRow(b, amount, vault, at);
    AppendFields(b, PaymentApplied, amount, at);
    FoldCounts(b.events);
    var p := Payment(amount, vault, at);
    assert (b.payments + [p])[..|b.payments|] == b.payments;
  }

  /**
   A payment that goes through keeps the payment rows equal to `amount_paid`
   exactly when the log held no cancellation before the call.
   */
  lemma PaymentStaysBackedIffNotCancelled(b: Book, c: Command)
    requires Valid(b) && PaymentsTotal(b.payments) == b.amountPaid
    requires Decide(b, c).Receipt?
    ensures PaymentsTotal(Exec(b, c).payments) == Exec(b, c).amountPaid <==> !HasCancel(b.events)
  {
    var f := Decide(b, c);
    PayMoves(b, f.amount, f.vault, f.at);
  }

  // ------------------------------------------------ the service

  /** `latest`: the row with the highest sequence. */
  function Latest(rows: seq<SnapshotRow>): (r: Option<SnapshotRow>)
    ensures rows == [] <==> r == None
    ensures r.Some? ==> r.value in rows && forall x :: x in rows ==> x.sequence <= r.value.sequence
  {
    if rows == [] then None
    else
      var last := rows[|rows| - 1];
      assert forall x :: x in rows ==> x in rows[..|rows| - 1] || x == last;
      match Latest(rows[..|rows| - 1])
      case None => Some(last)
      case Some(best) => if best.sequence < last.sequence then Some(last) else Some(best)
  }

  lemma {:induction false} LatestIsLast(rows: seq<SnapshotRow>, es: seq<InvoiceEvent>)
    requires SnapshotsAreReplays(rows, es) && rows != []
    ensures Latest(rows) == Some(rows[|rows| - 1])
  {
    var r := Latest(rows).value;
    var last := rows[|rows| - 1];
    var i :| 0 <= i < |rows| && rows[i] == r;
    assert last in rows;
  }

  lemma {:induction false} CutIsPrefix(es: seq<InvoiceEvent>, from: int, k: int)
    requires forall i :: 0 <= i < |es| ==> es[i].sequence == from + i + 1
    requires from <= k <= from + |es|
    ensures UpTo(k, es) == es[..k - from] && After(k, es) == es[k - from..]
  {
    if es != [] {
      if from < k {
        CutIsPrefix(es[1..], from + 1, k);
        assert es[..k - from] == [es[0]] + es[1..][..k - from - 1];
      } else {
        AllAfter(es, k);
      }
    }
  }

  lemma {:induction false} AllAfter(es: seq<InvoiceEvent>, k: int)
    requires forall i :: 0 <= i < |es| ==> es[i].sequence > k
    ensures UpTo(k, es) == [] && After(k, es) == es
  {
    if es != [] {
      AllAfter(es[1..], k);
      assert es == [es[0]] + es[1..];
    }
  }

  /** Folding the tail onto a snapshot is the full replay. */
  lemma TailOnSnapshot(es: seq<InvoiceEvent>, row: SnapshotRow)
    requires forall i :: 0 <= i < |es| ==> es[i].sequence == i + 1
    requires 0 <= row.sequence <= |es|
    requires FromSnapshot(row.state) == Some(Replay(es[..row.sequence]))
    ensures FoldSpec(FromSnapshot(row.state), After(row.sequence, es)) == Replay(es)
    ensures |After(row.sequence, es)| == |es| - row.sequence
  {
    CutIsPrefix(es, 0, row.sequence);
    ReplayIsFold(es);
    ReplayIsFold(es[..row.sequence]);
    ResumeEqualsReplay(es, row.sequence);
    SnapshotRoundTrip(Replay(es[..row.sequence]));
  }

  lemma {:induction false} MaxSequenceIsLength(es: seq<InvoiceEvent>)
    requires forall i :: 0 <= i < |es| ==> es[i].sequence == i + 1
    ensures MaxSequence(es) == |es|
  {
    if es != [] { MaxSequenceIsLength(es[..|es| - 1]); }
  }

  // ------------------------------------------------ what a command leaves, field by field

  /**
   A payment was taken: its row, its event, and, unless the log held a cancellation,
   the money and the status that follow from it.
   */
  ghost predicate Took(before: Book, after: Book, amount: int, vault: Vault, at: Instant)
  {
    && after.payments == before.payments + [Payment(amount, vault, at)]
    && after.events == before.events + [InvoiceEvent(|before.events| + 1, PaymentApplied, amount, at)]
    && after.total == before.total && after.amountCredited == before.amountCredited
    && if HasCancel(before.events) then
         && after.amountPaid == before.amountPaid && after.balanceDue == before.balanceDue
         && after.status == Cancelled && after.paidAt == None
       else
         && after.amountPaid == before.amountPaid + amount && after.balanceDue == before.balanceDue - amount
         && (after.balanceDue == 0 ==> after.status == Paid && after.paidAt == Some(at))
         && (after.balanceDue > 0 ==> after.status == PartiallyPaid && after.paidAt == None)
  }

  /** A credit note was applied; only an invoice that has been paid something changes its status by it. */
  ghost predicate Credited(before: Book, after: Book, amount: int, at: Instant)
  {
    && after.payments == before.payments && after.total == before.total && after.amountPaid == before.amountPaid
    && after.events == before.events + [InvoiceEvent(|before.events| + 1, CreditNoteApplied, amount, at)]
    && if HasCancel(before.events) then
         && after.amountCredited == before.amountCredited && after.balanceDue == before.balanceDue
         && after.status == Cancelled && after.paidAt == None
       else
         && after.amountCredited == before.amountCredited + amount && after.balanceDue == before.balanceDue - amount
         && (after.amountPaid == 0 ==> after.status == before.status && after.paidAt == before.paidAt)
         && (after.amountPaid > 0 && after.balanceDue == 0 ==> after.status == Paid && after.paidAt == LastPayment(before.events))
         && (after.amountPaid > 0 && after.balanceDue > 0 ==> after.status == PartiallyPaid && after.paidAt == None)
  }

  /** The invoice was cancelled: the money stays as it stood. */
  ghost predicate Voided(before: Book, after: Book, at: Instant)
  {
    && after.payments == before.payments && after.total == before.total && after.amountPaid == before.amountPaid
    && after.amountCredited == before.amountCredited && after.balanceDue == before.balanceDue
    && after.events == before.events + [InvoiceEvent(|before.events| + 1, InvoiceCancelled, 0, at)]
    && after.status == Cancelled && after.paidAt == None
  }

  lemma PayTakes(b: Book, amount: int, vault: Vault, at: Instant)
    requires Valid(b) && 0 < amount <= b.balanceDue
    ensures Took(b, Pay(b, amount, vault, at), amount, vault, at)
  {
    PayIsAppendPlusRow(b, amount, vault, at);
    AppendFields(b, PaymentApplied, amount, at);
    FoldCounts(b.events);
  }

  lemma LastPaymentAlive(es: seq<InvoiceEvent>)
    ensures !HasCancel(es) ==> FoldFrom(EMPTY_TALLY, es).lastPaymentAt == LastPayment(es)
  {
    FoldClosedForm(es);
    BeforeCancelIsPrefix(es);
  }

  lemma CreditCredits(b: Book, amount: int, at: Instant)
    requires Valid(b) && 0 < amount <= b.balanceDue
    ensures Credited(b, Append(b, CreditNoteApplied, amount, at), amount, at)
  {
    AppendFields(b, CreditNoteApplied, amount, at);
    FoldCounts(b.events);
    LastPaymentAlive(b.events);
  }

  lemma CancelVoids(b: Book, at: Instant)
    requires Valid(b)
    ensures Voided(b, Append(b, InvoiceCancelled, 0, at), at)
  {
    AppendFields(b, InvoiceCancelled, 0, at);
  }

  class InvoiceAccount {
    var status: InvoiceStatus
    var total: int
    var amountPaid: int
    var amountCredited: int
    var balanceDue: int
    var paidAt: Option<Instant>
    var events: seq<InvoiceEvent>
    var snapshots: seq<SnapshotRow>
    var payments: seq<Payment>

    ghost function View(): Book
      reads this
    {
      Book(status, total, amountPaid, amountCredited, balanceDue, paidAt, events, snapshots, payments)
    }

    /** `create_invoice`, after the schema has accepted the request. */
    constructor Create(subtotal: int, tax: int, at: Instant)
      requires subtotal > 0 && tax >= 0
      ensures Some(View()) == Created(subtotal, tax, at)
      ensures Valid(View())
      ensures status == Draft && total == balanceDue == subtotal + tax && amountPaid == amountCredited == 0 && paidAt == None
      ensures events == [InvoiceEvent(1, InvoiceIssued, subtotal + tax, at)] && payments == [] && snapshots == []
    {
      status, total, amountPaid, amountCredited := Draft, subtotal + tax, 0, 0;
      balanceDue, paidAt := subtotal + tax, None;
      events := [InvoiceEvent(1, InvoiceIssued, subtotal + tax, at)];
      snapshots, payments := [], [];
      new;
      CreatedValid(subtotal, tax, at);
    }

    /**
     The read side of `_project_invoice_from_events`: fold the tail onto the
     latest snapshot, or the whole log when there is none.  It runs just after an
     append, so the snapshots cover the log without its last event.
     */
    method Resume() returns (state: InvoiceState, folded: nat)
      requires events != [] && (forall i :: 0 <= i < |events| ==> events[i].sequence == i + 1)
      requires SnapshotsAreReplays(snapshots, events[..|events| - 1])
      ensures state == Replay(events)
      ensures folded <= 50
    {
      ghost var before := events[..|events| - 1];
      var latest := Latest(snapshots);
      if latest.None? {
        ReplayIsFold(events);
        state := Fold(None, events);
        folded := |events|;
      } else {
        LatestIsLast(snapshots, before);
        var row := latest.value;
        assert before[..row.sequence] == events[..row.sequence];
        TailOnSnapshot(events, row);
        var base := FromSnapshot(row.state);
        var tail := After(row.sequence, events);
        state := Fold(base, tail);
        folded := |tail|;
      }
    }

    /** `_maybe_snapshot` */
    method MaybeSnapshot(state: InvoiceState)
      requires events != [] && (forall i :: 0 <= i < |events| ==> events[i].sequence == i + 1)
      requires state == Replay(events)
      requires forall row :: row in snapshots ==> row.sequence < |events|
      modifies this`snapshots
      ensures snapshots == SnapshotsAfter(old(snapshots), events)
      ensures |events| % 50 != 0 ==> snapshots == old(snapshots)
      ensures |events| % 50 == 0 ==>
                |snapshots| == |old(snapshots)| + 1 && snapshots[..|old(snapshots)|] == old(snapshots)
                && snapshots[|old(snapshots)|].sequence == |events| && FromSnapshot(snapshots[|old(snapshots)|].state) == Some(state)
    {
      SnapshotRoundTrip(state);
      FoldCounts(events);
      MaxSequenceIsLength(events);
      if state.eventCount == 0 || state.eventCount % SNAPSHOT_INTERVAL != 0 { return; }
      var latest := Latest(snapshots);
      if latest.Some? && latest.value.sequence >= state.sequence { return; }
      snapshots := snapshots + [SnapshotRow(state.sequence, ToSnapshot(state))];
    }

    /** `_project_invoice_from_events`; `b` is the book just before. */
    method Project(ghost b: Book)
      requires View() == b
      requires events != [] && (forall i :: 0 <= i < |events| ==> events[i].sequence == i + 1)
      requires SnapshotsAreReplays(snapshots, events[..|events| - 1])
      modifies this
      ensures View() == Projected(b)
    {
      var state, _ := Resume();
      amountPaid := state.amountPaid;
      amountCredited := state.credited;
      balanceDue := state.balanceDue;
      if state.paymentStatus.Some? {
        status := state.paymentStatus.value;
        paidAt := state.paidAt;
      }
      MaybeSnapshot(state);
    }

    /** `next_sequence`, the append and the projection, as every monetary command does them. */
    method AppendEvent(kind: EventType, amount: int, at: Instant)
      requires forall i :: 0 <= i < |events| ==> events[i].sequence == i + 1
      requires SnapshotsAreReplays(snapshots, events)
      modifies this
      ensures View() == Append(old(View()), kind, amount, at)
    {
      ghost var before := View();
      MaxSequenceIsLength(events);
      var sequence := MaxSequence(events) + 1;
      events := events + [InvoiceEvent(sequence, kind, amount, at)];
      assert events[..|events| - 1] == before.events;
      Project(before.(events := before.events + [InvoiceEvent(|before.events| + 1, kind, amount, at)]));
      AppendIsProjection(before, kind, amount, at);
    }

    /** The payment row, the payment event and the projection, as each payment path writes them. */
    method TakePayment(amount: int, vault: Vault, at: Instant)
      requires forall i :: 0 <= i < |events| ==> events[i].sequence == i + 1
      requires SnapshotsAreReplays(snapshots, events)
      modifies this
      ensures View() == Pay(old(View()), amount, vault, at)
    {
      payments := payments + [Payment(amount, vault, at)];
      AppendEvent(PaymentApplied, amount, at);
    }

    method SendInvoice() returns (outcome: Outcome)
      requires Valid(View())
      modifies this
      ensures var c := Send;
              View() == Exec(old(View()), c) && outcome == OutcomeOf(Decide(old(View()), c))
      ensures Valid(View())
      ensures outcome == if old(status) == Draft then Done else Refused
      ensures View() == if old(status) == Draft then old(View()).(status := Sent) else old(View())
    {
      if status != Draft { return Refused; }
      status := Sent;
      return Done;
    }

    /** `record_cash_payment`; the schema refuses an amount that is not positive. */
    method RecordCashPayment(amount: int, date: Instant) returns (outcome: Outcome)
      requires Valid(View())
      modifies this
      ensures var c := CashPayment(amount, date);
              View() == Exec(old(View()), c) && outcome == OutcomeOf(Decide(old(View()), c))
      ensures Valid(View())
      ensures outcome == if 0 < amount <= old(balanceDue) then Done else Refused
      ensures if outcome == Done then Took(old(View()), View(), amount, Cash, date) else View() == old(View())
    {
      ExecKeepsValid(View(), CashPayment(amount, date));
      if amount <= 0 || balanceDue < amount { return Refused; }
      PayTakes(View(), amount, Cash, date);
      TakePayment(amount, Cash, date);
      return Done;
    }

    method MarkInvoicePaid(vault: Vault, now: Instant) returns (outcome: Outcome)
      requires Valid(View())
      modifies this
      ensures var c := MarkPaid(vault, now);
              View() == Exec(old(View()), c) && outcome == OutcomeOf(Decide(old(View()), c))
      ensures Valid(View())
      ensures outcome == if old(balanceDue) > 0 then Done else AlreadySettled
      ensures if outcome == Done then Took(old(View()), View(), old(balanceDue), vault, now) else View() == old(View())
      ensures old(balanceDue) > 0 && !HasCancel(old(events)) ==> balanceDue == 0 && status == Paid && paidAt == Some(now)
    {
      ExecKeepsValid(View(), MarkPaid(vault, now));
      var remaining := balanceDue;
      if remaining > 0 {
        PayTakes(View(), remaining, vault, now);
        TakePayment(remaining, vault, now);
        return Done;
      }
      return AlreadySettled;
    }

    method ApplyCreditNote(amount: int, now: Instant) returns (outcome: Outcome)
      requires Valid(View())
      modifies this
      ensures var c := CreditNote(amount, now);
              View() == Exec(old(View()), c) && outcome == OutcomeOf(Decide(old(View()), c))
      ensures Valid(View())
      ensures outcome == if 0 < amount <= old(balanceDue) && old(status) != Cancelled then Done else Refused
      ensures if outcome == Done then Credited(old(View()), View(), amount, now) else View() == old(View())
    {
      ExecKeepsValid(View(), CreditNote(amount, now));
      if amount <= 0 { return Refused; }
      if status == Cancelled { return Refused; }
      if amount > balanceDue { return Refused; }
      CreditCredits(View(), amount, now);
      AppendEvent(CreditNoteApplied, amount, now);
      return Done;
    }

    method CancelInvoice(now: Instant) returns (outcome: Outcome)
      requires Valid(View())
      modifies this
      ensures var c := Cancel(now);
              View() == Exec(old(View()), c) && outcome == OutcomeOf(Decide(old(View()), c))
      ensures Valid(View())
      ensures outcome == if old(status) != Cancelled && old(status) != Paid then Done else Refused
      ensures if outcome == Done then Voided(old(View()), View(), now) else View() == old(View())
    {
      ExecKeepsValid(View(), Cancel(now));
      if status == Cancelled { return Refused; }
      if status == Paid { return Refused; }
      CancelVoids(View(), now);
      AppendEvent(InvoiceCancelled, 0, now);
      return Done;
    }

    method ApplyReconciledPayment(amount: int, vault: Vault, occurredAt: Instant) returns (outcome: Outcome)
      requires Valid(View())
      modifies this
      ensures var c := Reconcile(amount, vault, occurredAt);
              View() == Exec(old(View()), c) && outcome == OutcomeOf(Decide(old(View()), c))
      ensures Valid(View())
      ensures outcome == if amount > 0 && old(balanceDue) > 0 then Done else AlreadySettled
      ensures outcome != Done ==> View() == old(View())
      ensures outcome == Done && amount <= old(balanceDue) ==> Took(old(View()), View(), amount, vault, occurredAt)
      ensures outcome == Done && amount > old(balanceDue) ==> Took(old(View()), View(), old(balanceDue), vault, occurredAt)
    {
      ExecKeepsValid(View(), Reconcile(amount, vault, occurredAt));
      var applied := Min(amount, balanceDue);
      if applied <= 0 { return AlreadySettled; }
      PayTakes(View(), applied, vault, occurredAt);
      TakePayment(applied, vault, occurredAt);
      return Done;
    }

    method UpdateInvoice(newStatus: Option<InvoiceStatus>, newPaidAt: Option<Instant>)
      requires Valid(View())
      modifies this
      ensures View() == Exec(old(View()), Patch(newStatus, newPaidAt))
      ensures Valid(View())
      ensures status == (if newStatus.Some? then newStatus.value else old(status)) && paidAt == if newPaidAt.Some? then newPaidAt else old(paidAt)
      ensures View() == old(View()).(status := status, paidAt := paidAt)
    {
      ExecKeepsValid(View(), Patch(newStatus, newPaidAt));
      if newStatus.Some? { status := newStatus.value; }
      if newPaidAt.Some? { paidAt := newPaidAt; }
    }
  }
}
