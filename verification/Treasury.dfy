/**
 Vault balances and transfers: `create_vault_transfer` and `get_vault_balances` of
 `domains/finance/service.py`.  A transfer holds the advisory lock of its source
 vault only, and reads the four aggregates one after another while other payments,
 expenses and transfers keep committing.
 */
module Treasury {
  import opened Common

  type Worker = nat

  /** A committed payment or expense. */
  datatype Entry = Entry(vault: Vault, amount: int)

  datatype Transfer = Transfer(source: Vault, target: Vault, amount: int, fee: int)

  /** The committed rows; an expense counts from the moment it is signed off, and fees are expenses. */
  datatype Books = Books(payments: seq<Entry>, spends: seq<Entry>, fees: seq<Entry>, transfers: seq<Transfer>)

  /** A transfer under way: what it will move, and the aggregates it has read so far. */
  datatype Progress = Progress(transfer: Transfer, seen: seq<int>)

  datatype State = State(books: Books, locks: map<Vault, Worker>, running: map<Worker, Progress>)

  datatype Step =
    | Pay(vault: Vault, amount: int)
    | Spend(vault: Vault, amount: int)
    | Begin(worker: Worker, transfer: Transfer)
    | Read(worker: Worker)
    | Commit(worker: Worker)
    | Refuse(worker: Worker)
    | Crash(worker: Worker)

  // ------------------------------------------------ aggregates

  function Total(rows: seq<Entry>, vault: Vault): int
  {
    if rows == [] then 0
    else Total(rows[..|rows| - 1], vault) + if rows[|rows| - 1].vault == vault then rows[|rows| - 1].amount else 0
  }

  function Ins(transfers: seq<Transfer>, vault: Vault): int
  {
    if transfers == [] then 0
    else var last := transfers[|transfers| - 1];
         Ins(transfers[..|transfers| - 1], vault) + if last.target == vault then last.amount else 0
  }

  function Outs(transfers: seq<Transfer>, vault: Vault): int
  {
    if transfers == [] then 0
    else var last := transfers[|transfers| - 1];
         Outs(transfers[..|transfers| - 1], vault) + if last.source == vault then last.amount else 0
  }

  /** The aggregates in the order they are queried. */
  function Aggregate(b: Books, vault: Vault, which: nat): int
    requires which < 4
  {
    match which
    case 0 => Total(b.payments, vault)
    case 1 => Total(b.spends, vault) + Total(b.fees, vault)
    case 2 => Ins(b.transfers, vault)
    case _ => Outs(b.transfers, vault)
  }

  function Balance(b: Books, vault: Vault): int
  {
    Aggregate(b, vault, 0) + Aggregate(b, vault, 2) - Aggregate(b, vault, 1) - Aggregate(b, vault, 3)
  }

  /** All the money there is. */
  function TotalCash(b: Books): int
  {
    Balance(b, Mpesa) + Balance(b, Cash) + Balance(b, Bank)
  }

  // ------------------------------------------------ the protocol

  /** The request model: a positive amount, a fee that is not negative, two different vaults. */
  predicate WellFormed(t: Transfer)
  {
    t.amount > 0 && t.fee >= 0 && t.source != t.target
  }

  /** The overdraw guard on the aggregates as they were read. */
  predicate Covers(p: Progress)
  {
    |p.seen| == 4 && p.transfer.amount + p.transfer.fee <= p.seen[0] + p.seen[2] - p.seen[1] - p.seen[3]
  }

  /** The rows a transfer commits: itself, and its fee when there is one. */
  function Booked(b: Books, t: Transfer): Books
  {
    b.(transfers := b.transfers + [t], fees := if t.fee > 0 then b.fees + [Entry(t.source, t.fee)] else b.fees)
  }

  /** The transaction is over and its lock released. */
  function Ended(s: State, worker: Worker): State
    requires worker in s.running
  {
    s.(locks := s.locks - {s.running[worker].transfer.source}, running := s.running - {worker})
  }

  /** Steps that are not possible change nothing. */
  function Do(s: State, step: Step): State
  {
    match step
    case Pay(vault, amount) =>
      if amount <= 0 then s else s.(books := s.books.(payments := s.books.payments + [Entry(vault, amount)]))
    case Spend(vault, amount) =>
      if amount <= 0 then s else s.(books := s.books.(spends := s.books.spends + [Entry(vault, amount)]))
    case Begin(worker, t) =>
      if worker in s.running || t.source in s.locks || !WellFormed(t) then s
      else s.(locks := s.locks[t.source := worker], running := s.running[worker := Progress(t, [])])
    case Read(worker) =>
      if worker !in s.running || |s.running[worker].seen| >= 4 then s
      else
        var p := s.running[worker];
        s.(running := s.running[worker := p.(seen := p.seen + [Aggregate(s.books, p.transfer.source, |p.seen|)])])
    case Commit(worker) =>
      if worker !in s.running || !Covers(s.running[worker]) then s
      else Ended(s, worker).(books := Booked(s.books, s.running[worker].transfer))
    case Refuse(worker) =>
      if worker !in s.running || |s.running[worker].seen| < 4 || Covers(s.running[worker]) then s else Ended(s, worker)
    case Crash(worker) =>
      if worker !in s.running then s else Ended(s, worker)
  }

  function Run(s: State, steps: seq<Step>): State
  {
    if steps == [] then s else Do(Run(s, steps[..|steps| - 1]), steps[|steps| - 1])
  }

  // ------------------------------------------------ what every run keeps

  ghost predicate RowsHold(b: Books)
  {
    && (forall i :: 0 <= i < |b.payments| ==> b.payments[i].amount > 0)
    && (forall i :: 0 <= i < |b.spends| ==> b.spends[i].amount > 0)
    && (forall i :: 0 <= i < |b.fees| ==> b.fees[i].amount > 0)
    && (forall i :: 0 <= i < |b.transfers| ==> WellFormed(b.transfers[i]))
  }

  /** Each running transfer holds its source's lock. */
  ghost predicate LocksHold(s: State)
  {
    && (forall w :: w in s.running ==> var v := s.running[w].transfer.source; v in s.locks && s.locks[v] == w)
    && (forall v :: v in s.locks ==> s.locks[v] in s.running && s.running[s.locks[v]].transfer.source == v)
  }

  /** What a reader may still rely on: stale reads only err on the safe side, save for expenses signed off since. */
  ghost predicate ReadsHold(b: Books, p: Progress)
  {
    var v := p.transfer.source;
    && WellFormed(p.transfer) && |p.seen| <= 4
    && (|p.seen| > 0 ==> p.seen[0] <= Total(b.payments, v))
    && (|p.seen| > 1 ==> Total(b.fees, v) <= p.seen[1])
    && (|p.seen| > 2 ==> p.seen[2] <= Ins(b.transfers, v))
    && (|p.seen| > 3 ==> p.seen[3] == Outs(b.transfers, v))
  }

  /** No vault is below zero by more than its own expenses. */
  ghost predicate Backed(b: Books)
  {
    forall v :: Balance(b, v) >= -Total(b.spends, v)
  }

  ghost predicate Inv(s: State)
  {
    && RowsHold(s.books) && LocksHold(s) && Backed(s.books)
    && forall w :: w in s.running ==> ReadsHold(s.books, s.running[w])
  }

  lemma TotalOneMore(rows: seq<Entry>, row: Entry, vault: Vault)
    ensures Total(rows + [row], vault) == Total(rows, vault) + if row.vault == vault then row.amount else 0
  {
    assert (rows + [row])[..|rows|] == rows;
  }

  lemma {:induction false} TotalNonNegative(rows: seq<Entry>, vault: Vault)
    requires forall i :: 0 <= i < |rows| ==> rows[i].amount > 0
    ensures Total(rows, vault) >= 0
  {
    if rows != [] { TotalNonNegative(rows[..|rows| - 1], vault); }
  }

  lemma TransfersOneMore(transfers: seq<Transfer>, t: Transfer, vault: Vault)
    ensures Ins(transfers + [t], vault) == Ins(transfers, vault) + if t.target == vault then t.amount else 0
    ensures Outs(transfers + [t], vault) == Outs(transfers, vault) + if t.source == vault then t.amount else 0
  {
    assert (transfers + [t])[..|transfers|] == transfers;
  }

  /** More payments and more expenses keep what a reader has seen usable. */
  lemma EntryKeepsReads(b: Books, row: Entry, p: Progress)
    requires ReadsHold(b, p) && row.amount > 0
    ensures ReadsHold(b.(payments := b.payments + [row]), p)
    ensures ReadsHold(b.(spends := b.spends + [row]), p)
  {
    TotalOneMore(b.payments, row, p.transfer.source);
  }

  lemma PaymentKeepsBacked(b: Books, row: Entry)
    requires Backed(b) && row.amount > 0
    ensures Backed(b.(payments := b.payments + [row]))
  {
    var after := b.(payments := b.payments + [row]);
    forall v ensures Balance(after, v) >= -Total(after.spends, v) {
      TotalOneMore(b.payments, row, v);
      assert Balance(b, v) >= -Total(b.spends, v);
    }
  }

  lemma SpendKeepsBacked(b: Books, row: Entry)
    requires Backed(b) && row.amount > 0
    ensures Backed(b.(spends := b.spends + [row]))
  {
    var after := b.(spends := b.spends + [row]);
    forall v ensures Balance(after, v) >= -Total(after.spends, v) {
      TotalOneMore(b.spends, row, v);
      assert Balance(b, v) >= -Total(b.spends, v);
    }
  }

  lemma PayKeeps(s: State, vault: Vault, amount: int)
    requires Inv(s)
    ensures Inv(Do(s, Pay(vault, amount)))
  {
    if amount > 0 {
      PaymentKeepsBacked(s.books, Entry(vault, amount));
      forall w | w in s.running ensures ReadsHold(Do(s, Pay(vault, amount)).books, s.running[w]) {
        EntryKeepsReads(s.books, Entry(vault, amount), s.running[w]);
      }
    }
  }

  lemma SpendKeeps(s: State, vault: Vault, amount: int)
    requires Inv(s)
    ensures Inv(Do(s, Spend(vault, amount)))
  {
    if amount > 0 {
      SpendKeepsBacked(s.books, Entry(vault, amount));
      forall w | w in s.running ensures ReadsHold(Do(s, Spend(vault, amount)).books, s.running[w]) {
        EntryKeepsReads(s.books, Entry(vault, amount), s.running[w]);
      }
    }
  }

  lemma BeginKeeps(s: State, worker: Worker, t: Transfer)
    requires Inv(s)
    ensures Inv(Do(s, Begin(worker, t)))
  {
  }

  lemma ReadKeeps(s: State, worker: Worker)
    requires Inv(s)
    ensures Inv(Do(s, Read(worker)))
  {
    if worker in s.running {
      var p := s.running[worker];
      TotalNonNegative(s.books.spends, p.transfer.source);
      if |p.seen| < 4 {
        var next := p.(seen := p.seen + [Aggregate(s.books, p.transfer.source, |p.seen|)]);
        assert ReadsHold(s.books, next);
        assert LocksHold(Do(s, Read(worker)));
      }
    }
  }

  lemma EndedHolds(s: State, worker: Worker)
    requires LocksHold(s) && worker in s.running
    ensures LocksHold(Ended(s, worker))
    ensures forall w :: w in Ended(s, worker).running ==>
              w in s.running && Ended(s, worker).running[w] == s.running[w] && s.running[w].transfer.source != s.running[worker].transfer.source
  {
  }

  lemma BookedRows(b: Books, t: Transfer)
    requires RowsHold(b) && WellFormed(t)
    ensures RowsHold(Booked(b, t))
  {
  }

  /** What a booking does to the aggregates of every vault. */
  lemma BookedAggregates(b: Books, t: Transfer, vault: Vault)
    requires WellFormed(t)
    ensures var after := Booked(b, t);
            && after.payments == b.payments && after.spends == b.spends
            && Total(after.fees, vault) == Total(b.fees, vault) + (if vault == t.source then t.fee else 0)
            && Ins(after.transfers, vault) == Ins(b.transfers, vault) + (if vault == t.target then t.amount else 0)
            && Outs(after.transfers, vault) == Outs(b.transfers, vault) + (if vault == t.source then t.amount else 0)
  {
    TotalOneMore(b.fees, Entry(t.source, t.fee), vault);
    TransfersOneMore(b.transfers, t, vault);
  }

  /** The guard on stale aggregates still protects the balance of the moment. */
  lemma {:induction false} CommitBacked(b: Books, p: Progress)
    requires RowsHold(b) && Backed(b) && ReadsHold(b, p) && Covers(p)
    ensures Backed(Booked(b, p.transfer))
  {
    var after := Booked(b, p.transfer);
    forall v ensures Balance(after, v) >= -Total(after.spends, v) {
      BookedAggregates(b, p.transfer, v);
      TotalNonNegative(b.spends, v);
    }
  }

  /** Another worker's booking keeps what this one has read usable: its own source's outflows are locked. */
  lemma {:induction false} BookedReads(b: Books, t: Transfer, p: Progress)
    requires WellFormed(t) && ReadsHold(b, p) && p.transfer.source != t.source
    ensures ReadsHold(Booked(b, t), p)
  {
    BookedAggregates(b, t, p.transfer.source);
  }

  lemma CommitKeeps(s: State, worker: Worker)
    requires Inv(s)
    ensures Inv(Do(s, Commit(worker)))
  {
    if worker in s.running && Covers(s.running[worker]) {
      var p := s.running[worker];
      var after := Do(s, Commit(worker));
      EndedHolds(s, worker);
      BookedRows(s.books, p.transfer);
      CommitBacked(s.books, p);
      forall w | w in after.running ensures ReadsHold(after.books, after.running[w]) {
        BookedReads(s.books, p.transfer, s.running[w]);
      }
    }
  }

  lemma DoKeeps(s: State, step: Step)
    requires Inv(s)
    ensures Inv(Do(s, step))
  {
    match step
    case Pay(vault, amount) => PayKeeps(s, vault, amount);
    case Spend(vault, amount) => SpendKeeps(s, vault, amount);
    case Begin(worker, t) => BeginKeeps(s, worker, t);
    case Read(worker) => ReadKeeps(s, worker);
    case Commit(worker) => CommitKeeps(s, worker);
    case Refuse(worker) => if worker in s.running { EndedHolds(s, worker); }
    case Crash(worker) => if worker in s.running { EndedHolds(s, worker); }
  }

  const EMPTY := State(Books([], [], [], []), map[], map[])

  lemma {:induction false} EveryRunKeeps(steps: seq<Step>)
    ensures Inv(Run(EMPTY, steps))
  {
    if steps != [] {
      EveryRunKeeps(steps[..|steps| - 1]);
      DoKeeps(Run(EMPTY, steps[..|steps| - 1]), steps[|steps| - 1]);
    }
  }

  lemma {:induction false} SpendsComeFromSpend(steps: seq<Step>)
    requires forall i :: 0 <= i < |steps| ==> !steps[i].Spend?
    ensures Run(EMPTY, steps).books.spends == []
  {
    if steps != [] { SpendsComeFromSpend(steps[..|steps| - 1]); }
  }

  /**
   Vault safety under every interleaving of transfers, payments, expenses, refusals
   and crashes: no vault falls below zero by more than its own signed-off expenses,
   so none falls below zero when only transfers and their fees take money out.
   */
  lemma VaultsStayBacked(steps: seq<Step>, vault: Vault)
    ensures var b := Run(EMPTY, steps).books; Balance(b, vault) >= -Total(b.spends, vault)
    ensures (forall i :: 0 <= i < |steps| ==> !steps[i].Spend?) ==> Balance(Run(EMPTY, steps).books, vault) >= 0
  {
    EveryRunKeeps(steps);
    if forall i :: 0 <= i < |steps| ==> !steps[i].Spend? { SpendsComeFromSpend(steps); }
  }

  /** A committed transfer moves its amount between two vaults and takes exactly its fee out of the total. */
  lemma {:induction false} TransferCostsItsFee(b: Books, t: Transfer)
    requires WellFormed(t)
    ensures TotalCash(Booked(b, t)) == TotalCash(b) - t.fee
    ensures Balance(Booked(b, t), t.source) == Balance(b, t.source) - t.amount - t.fee
    ensures Balance(Booked(b, t), t.target) == Balance(b, t.target) + t.amount
    ensures forall v :: v != t.source && v != t.target ==> Balance(Booked(b, t), v) == Balance(b, v)
  {
    BookedAggregates(b, t, Mpesa);
    BookedAggregates(b, t, Cash);
    BookedAggregates(b, t, Bank);
  }

  function Amounts(rows: seq<Entry>): int
  {
    if rows == [] then 0 else Amounts(rows[..|rows| - 1]) + rows[|rows| - 1].amount
  }

  /** Transfers only move money: the total is payments in less expenses and fees out, whatever has been transferred. */
  lemma CashIsPaymentsLessExpenses(b: Books)
    ensures TotalCash(b) == Amounts(b.payments) - Amounts(b.spends) - Amounts(b.fees)
  {
    OverVaults(b.payments);
    OverVaults(b.spends);
    OverVaults(b.fees);
    MovesCancel(b.transfers);
  }

  lemma {:induction false} OverVaults(rows: seq<Entry>)
    ensures Total(rows, Mpesa) + Total(rows, Cash) + Total(rows, Bank) == Amounts(rows)
  {
    if rows != [] { OverVaults(rows[..|rows| - 1]); }
  }

  lemma {:induction false} MovesCancel(transfers: seq<Transfer>)
    ensures Ins(transfers, Mpesa) + Ins(transfers, Cash) + Ins(transfers, Bank) ==
            Outs(transfers, Mpesa) + Outs(transfers, Cash) + Outs(transfers, Bank)
  {
    if transfers != [] { MovesCancel(transfers[..|transfers| - 1]); }
  }

  /** A payment raises its own vault's balance by its amount and no other's. */
  lemma {:induction false} PaymentMovesItsVault(s: State, vault: Vault, amount: int, other: Vault)
    requires amount > 0
    ensures Balance(Do(s, Pay(vault, amount)).books, other) == Balance(s.books, other) + if other == vault then amount else 0
  {
    TotalOneMore(s.books.payments, Entry(vault, amount), other);
  }

  /** An expense lowers it the same way. */
  lemma {:induction false} ExpenseMovesItsVault(s: State, vault: Vault, amount: int, other: Vault)
    requires amount > 0
    ensures Balance(Do(s, Spend(vault, amount)).books, other) == Balance(s.books, other) - if other == vault then amount else 0
  {
    TotalOneMore(s.books.spends, Entry(vault, amount), other);
  }

  // ------------------------------------------------ one transfer, with nobody else about

  /** A worker's four reads. */
  function ReadAll(s: State, worker: Worker): State
  {
    Do(Do(Do(Do(s, Read(worker)), Read(worker)), Read(worker)), Read(worker))
  }

  function Having(s: State, worker: Worker, t: Transfer, seen: seq<int>): State
  {
    s.(running := s.running[worker := Progress(t, seen)])
  }

  lemma ReadOne(s: State, worker: Worker, t: Transfer, seen: seq<int>)
    requires |seen| < 4
    ensures Do(Having(s, worker, t, seen), Read(worker)) == Having(s, worker, t, seen + [Aggregate(s.books, t.source, |seen|)])
  {
    var next := Progress(t, seen + [Aggregate(s.books, t.source, |seen|)]);
    assert s.running[worker := Progress(t, seen)][worker := next] == s.running[worker := next];
  }

  lemma ReadAloneSeesBooks(s: State, worker: Worker, t: Transfer)
    requires worker in s.running && s.running[worker] == Progress(t, [])
    ensures var b, v := s.books, t.source;
            ReadAll(s, worker) == Having(s, worker, t, [Aggregate(b, v, 0), Aggregate(b, v, 1), Aggregate(b, v, 2), Aggregate(b, v, 3)])
  {
    var b, v := s.books, t.source;
    var x0, x1, x2, x3 := Aggregate(b, v, 0), Aggregate(b, v, 1), Aggregate(b, v, 2), Aggregate(b, v, 3);
    assert s.running == s.running[worker := Progress(t, [])];
    ReadOne(s, worker, t, []);
    assert [] + [x0] == [x0] && [x0] + [x1] == [x0, x1] && [x0, x1] + [x2] == [x0, x1, x2] && [x0, x1, x2] + [x3] == [x0, x1, x2, x3];
    ReadOne(s, worker, t, [x0]);
    ReadOne(s, worker, t, [x0, x1]);
    ReadOne(s, worker, t, [x0, x1, x2]);
  }

  lemma EndRestores(s: State, worker: Worker, t: Transfer, seen: seq<int>)
    requires worker !in s.running && t.source !in s.locks
    ensures Ended(Having(s.(locks := s.locks[t.source := worker]), worker, t, seen), worker) == s
  {
    assert s.locks[t.source := worker] - {t.source} == s.locks;
    assert s.running[worker := Progress(t, seen)] - {worker} == s.running;
  }

  /** With nobody else about, the protocol is `CreateVaultTransfer` below. */
  lemma {:induction false} AloneIsSequential(s: State, worker: Worker, t: Transfer)
    requires worker !in s.running && t.source !in s.locks && WellFormed(t)
    ensures var read := ReadAll(Do(s, Begin(worker, t)), worker);
            Do(Do(read, Commit(worker)), Refuse(worker)) ==
              s.(books := if t.amount + t.fee <= Balance(s.books, t.source) then Booked(s.books, t) else s.books)
  {
    var begun := Do(s, Begin(worker, t));
    ReadAloneSeesBooks(begun, worker, t);
    var seen := ReadAll(begun, worker).running[worker].seen;
    assert begun.running[worker := Progress(t, seen)] == s.running[worker := Progress(t, seen)];
    EndRestores(s, worker, t, seen);
  }

  class TreasuryService {
    var payments: seq<Entry>
    var spends: seq<Entry>
    var fees: seq<Entry>
    var transfers: seq<Transfer>

    ghost function View(): Books
      reads this
    {
      Books(payments, spends, fees, transfers)
    }

    constructor ()
      ensures View() == EMPTY.books
    {
      payments, spends, fees, transfers := [], [], [], [];
    }

    /** `get_vault_balances`: every vault is listed, with the total. */
    method GetVaultBalances() returns (balances: seq<(Vault, int)>, total: int)
      ensures |balances| == 3 && total == TotalCash(View())
      ensures balances[0].0 == Mpesa && balances[1].0 == Cash && balances[2].0 == Bank
      ensures forall i :: 0 <= i < 3 ==> balances[i].1 == Balance(View(), balances[i].0)
      ensures forall i :: 0 <= i < 3 ==>
                var v := balances[i].0;
                balances[i].1 == Total(payments, v) + Ins(transfers, v) - Total(spends, v) - Total(fees, v) - Outs(transfers, v)
      ensures total == balances[0].1 + balances[1].1 + balances[2].1
    {
      var vaults := [Mpesa, Cash, Bank];
      balances, total := [], 0;
      for i := 0 to 3
        invariant |balances| == i
        invariant forall k :: 0 <= k < i ==> balances[k] == (vaults[k], Balance(View(), vaults[k]))
        invariant total == (if i > 0 then Balance(View(), Mpesa) else 0) + (if i > 1 then Balance(View(), Cash) else 0)
                           + (if i > 2 then Balance(View(), Bank) else 0)
      {
        var v := vaults[i];
        var balance := Total(payments, v) + Ins(transfers, v) - (Total(spends, v) + Total(fees, v)) - Outs(transfers, v);
        balances := balances + [(v, balance)];
        total := total + balance;
      }
    }

    /** `create_vault_transfer`: refused exactly when the source does not hold amount and fee. */
    method CreateVaultTransfer(t: Transfer) returns (ok: bool)
      requires WellFormed(t)
      modifies this
      ensures ok <==> t.amount + t.fee <= Balance(old(View()), t.source)
      ensures View() == if ok then Booked(old(View()), t) else old(View())
      ensures payments == old(payments) && spends == old(spends)
      ensures transfers == if ok then old(transfers) + [t] else old(transfers)
      ensures fees == if ok && t.fee > 0 then old(fees) + [Entry(t.source, t.fee)] else old(fees)
      ensures ok ==> TotalCash(View()) == TotalCash(old(View())) - t.fee
    {
      var balances, total := GetVaultBalances();
      var fromBalance := 0;
      var i := 0;
      while i < |balances| && balances[i].0 != t.source
        invariant 0 <= i <= |balances|
        invariant forall k :: 0 <= k < i ==> balances[k].0 != t.source
      {
        i := i + 1;
      }
      if i < |balances| { fromBalance := balances[i].1; }
      if t.amount + t.fee > fromBalance { return false; }
      TransferCostsItsFee(View(), t);
      transfers := transfers + [t];
      if t.fee > 0 { fees := fees + [Entry(t.source, t.fee)]; }
      return true;
    }
  }
}
