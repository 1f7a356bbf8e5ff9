/**
 Expenses, the approval queue and budget burn-down of `domains/finance/service.py`.
 */
module Payables {
  import opened Common

  type UserId = nat

  datatype Status = Draft | PendingReview | Approved | Rejected | Scheduled

  /** An expense row; a fee is booked by a vault transfer. */
  datatype Expense = Expense(
    category: string, amount: int, vault: Vault, fee: bool, status: Status,
    submittedBy: Option<UserId>, reviewedBy: Option<UserId>, scheduledFor: Option<int>)

  /** `firstEvent` is how many expense events had been emitted when the budget was created. */
  datatype Budget = Budget(category: string, periodStart: int, periodEnd: int, spent: int, firstEvent: nat)

  /** The `expenses.created` event in the outbox. */
  datatype Event = Event(expense: nat, category: string, amount: int, vault: Vault, at: int)

  datatype State = State(expenses: seq<Expense>, budgets: seq<Budget>, events: seq<Event>)

  datatype Command =
    | CreateExpense(category: string, amount: int, vault: Vault, at: int)
    | CreatePayable(category: string, amount: int, vault: Vault, submitter: UserId)
    | BookFee(amount: int, vault: Vault)
    | Transition(expense: nat, user: UserId, target: Status, due: Option<int>, at: int)
    | CreateBudget(category: string, periodStart: int, periodEnd: int)

  /** What the bill form accepts as a category. */
  predicate NameFits(category: string)
  {
    1 <= |category| <= 100
  }

  /** `_PAYABLE_TRANSITIONS`. */
  predicate Edge(before: Status, after: Status)
  {
    match before
    case Draft => after == PendingReview
    case PendingReview => after == Approved || after == Rejected
    case Approved => after == Scheduled
    case _ => false
  }

  /** `_REVIEW_DECISIONS`. */
  predicate IsDecision(status: Status)
  {
    status == Approved || status == Rejected
  }

  /** Cash out: what the vault balances count. */
  predicate SignedOff(status: Status)
  {
    status == Approved || status == Scheduled
  }

  predicate Burns(budget: Budget, event: Event)
  {
    budget.category == event.category && budget.periodStart <= event.at <= budget.periodEnd
  }

  function Burned(budgets: seq<Budget>, event: Event): seq<Budget>
  {
    seq(|budgets|, i requires 0 <= i < |budgets| =>
      if Burns(budgets[i], event) then budgets[i].(spent := budgets[i].spent + event.amount) else budgets[i])
  }

  /** `_apply_expense_side_effects` for the expense at an index. */
  function Fired(s: State, i: nat, at: int): State
    requires i < |s.expenses|
  {
    var e := s.expenses[i];
    var event := Event(i, e.category, e.amount, e.vault, at);
    s.(budgets := Burned(s.budgets, event), events := s.events + [event])
  }

  predicate MayMove(e: Expense, user: UserId, target: Status)
  {
    Edge(e.status, target) && !(IsDecision(target) && e.submittedBy == Some(user))
  }

  function Moved(e: Expense, user: UserId, target: Status, due: Option<int>, at: int): Expense
  {
    e.(status := target,
       reviewedBy := if IsDecision(target) then Some(user) else e.reviewedBy,
       scheduledFor := if target == Scheduled then Some(if due.Some? then due.value else at) else e.scheduledFor)
  }

  function Do(s: State, c: Command): State
  {
    match c
    case CreateExpense(category, amount, vault, at) =>
      if amount <= 0 then s
      else Fired(s.(expenses := s.expenses + [Expense(category, amount, vault, false, Approved, None, None, None)]), |s.expenses|, at)
    case CreatePayable(category, amount, vault, submitter) =>
      if amount <= 0 || !NameFits(category) then s
      else s.(expenses := s.expenses + [Expense(category, amount, vault, false, PendingReview, Some(submitter), None, None)])
    case BookFee(amount, vault) =>
      if amount <= 0 then s
      else s.(expenses := s.expenses + [Expense("Transfer fee", amount, vault, true, Approved, None, None, None)])
    case Transition(i, user, target, due, at) =>
      if i >= |s.expenses| || !MayMove(s.expenses[i], user, target) then s
      else
        var moved := s.(expenses := s.expenses[i := Moved(s.expenses[i], user, target, due, at)]);
        if target == Approved then Fired(moved, i, at) else moved
    case CreateBudget(category, periodStart, periodEnd) =>
      s.(budgets := s.budgets + [Budget(category, periodStart, periodEnd, 0, |s.events|)])
  }

  const EMPTY := State([], [], [])

  function Run(s: State, commands: seq<Command>): State
  {
    if commands == [] then s else Do(Run(s, commands[..|commands| - 1]), commands[|commands| - 1])
  }

  // ------------------------------------------------ readings of the state

  /** How often an expense has fired its side effects. */
  function Times(events: seq<Event>, i: nat): nat
  {
    if events == [] then 0
    else Times(events[..|events| - 1], i) + if events[|events| - 1].expense == i then 1 else 0
  }

  /** What burned in a budget's category and period since its creation. */
  function Burnt(budget: Budget, events: seq<Event>): int
    requires budget.firstEvent <= |events|
    decreases |events|
  {
    if |events| == budget.firstEvent then 0
    else var last := events[|events| - 1];
         Burnt(budget, events[..|events| - 1]) + if Burns(budget, last) then last.amount else 0
  }

  /** `totals_by_vault`: signed-off expenses of a vault. */
  function CashOut(expenses: seq<Expense>, vault: Vault): int
  {
    if expenses == [] then 0
    else var last := expenses[|expenses| - 1];
         CashOut(expenses[..|expenses| - 1], vault) + if SignedOff(last.status) && last.vault == vault then last.amount else 0
  }

  function Fees(expenses: seq<Expense>, vault: Vault): int
  {
    if expenses == [] then 0
    else var last := expenses[|expenses| - 1];
         Fees(expenses[..|expenses| - 1], vault) + if last.fee && last.vault == vault then last.amount else 0
  }

  function Announced(events: seq<Event>, vault: Vault): int
  {
    if events == [] then 0
    else var last := events[|events| - 1];
         Announced(events[..|events| - 1], vault) + if last.vault == vault then last.amount else 0
  }

  // ------------------------------------------------ what every run keeps

  ghost predicate FiredOnce(s: State)
  {
    forall i: nat :: Times(s.events, i) == if i < |s.expenses| && !s.expenses[i].fee && SignedOff(s.expenses[i].status) then 1 else 0
  }

  ghost predicate BudgetsAgree(s: State)
  {
    forall b :: 0 <= b < |s.budgets| ==>
      s.budgets[b].firstEvent <= |s.events| && s.budgets[b].spent == Burnt(s.budgets[b], s.events)
  }

  ghost predicate CashAgrees(s: State)
  {
    forall v: Vault :: CashOut(s.expenses, v) == Announced(s.events, v) + Fees(s.expenses, v)
  }

  /** Fees are born approved; a decision is never the submitter's own. */
  ghost predicate RowsHold(s: State)
  {
    forall i :: 0 <= i < |s.expenses| ==>
      var e := s.expenses[i];
      && e.amount > 0 && (e.fee ==> SignedOff(e.status))
      && (e.reviewedBy.Some? ==> e.submittedBy != e.reviewedBy)
      && (e.submittedBy.Some? ==> (e.reviewedBy.Some? <==> e.status != PendingReview && e.status != Draft))
  }

  ghost predicate Inv(s: State)
  {
    FiredOnce(s) && BudgetsAgree(s) && CashAgrees(s) && RowsHold(s)
  }

  lemma {:induction false} BurntIgnoresSpent(budget: Budget, spent: int, events: seq<Event>)
    requires budget.firstEvent <= |events|
    ensures Burnt(budget.(spent := spent), events) == Burnt(budget, events)
    decreases |events|
  {
    if |events| > budget.firstEvent { BurntIgnoresSpent(budget, spent, events[..|events| - 1]); }
  }

  lemma EventOneMore(events: seq<Event>, event: Event, i: nat, vault: Vault)
    ensures Times(events + [event], i) == Times(events, i) + if event.expense == i then 1 else 0
    ensures Announced(events + [event], vault) == Announced(events, vault) + if event.vault == vault then event.amount else 0
  {
    assert (events + [event])[..|events|] == events;
  }

  lemma ExpenseOneMore(expenses: seq<Expense>, e: Expense, vault: Vault)
    ensures CashOut(expenses + [e], vault) == CashOut(expenses, vault) + if SignedOff(e.status) && e.vault == vault then e.amount else 0
    ensures Fees(expenses + [e], vault) == Fees(expenses, vault) + if e.fee && e.vault == vault then e.amount else 0
  {
    assert (expenses + [e])[..|expenses|] == expenses;
  }

  /** Rewriting one row's status changes the cash out by that row alone. */
  lemma {:induction false} ExpenseRewritten(expenses: seq<Expense>, i: nat, e: Expense, vault: Vault)
    requires i < |expenses| && e.fee == expenses[i].fee && e.vault == expenses[i].vault && e.amount == expenses[i].amount
    ensures Fees(expenses[i := e], vault) == Fees(expenses, vault)
    ensures CashOut(expenses[i := e], vault) == CashOut(expenses, vault)
              + (if e.vault == vault then (if SignedOff(e.status) then e.amount else 0) - (if SignedOff(expenses[i].status) then e.amount else 0) else 0)
  {
    var n := |expenses| - 1;
    var after := expenses[i := e];
    if i == n {
      assert after[..n] == expenses[..n];
    } else {
      ExpenseRewritten(expenses[..n], i, e, vault);
      assert after[..n] == expenses[..n][i := e];
    }
  }

  /** Firing burns every matching budget by the event's amount, and keeps all of them in step with the events. */
  lemma FiringKeepsBudgets(s: State, event: Event)
    requires BudgetsAgree(s)
    ensures BudgetsAgree(s.(budgets := Burned(s.budgets, event), events := s.events + [event]))
  {
    var budgets, events := Burned(s.budgets, event), s.events + [event];
    forall b | 0 <= b < |budgets| ensures budgets[b].firstEvent <= |events| && budgets[b].spent == Burnt(budgets[b], events) {
      BurntIgnoresSpent(s.budgets[b], budgets[b].spent, events);
      assert events[..|events| - 1] == s.events;
      assert s.budgets[b].firstEvent < |events|;
    }
  }

  /** Expense `i` has just been signed off and has yet to fire. */
  ghost predicate Owes(s: State, i: nat)
  {
    && i < |s.expenses| && !s.expenses[i].fee && SignedOff(s.expenses[i].status)
    && (forall j: nat :: Times(s.events, j) == if j != i && j < |s.expenses| && !s.expenses[j].fee && SignedOff(s.expenses[j].status) then 1 else 0)
    && (forall v: Vault :: CashOut(s.expenses, v) ==
          Announced(s.events, v) + Fees(s.expenses, v) + if v == s.expenses[i].vault then s.expenses[i].amount else 0)
    && BudgetsAgree(s) && RowsHold(s)
  }

  lemma FiringSettles(s: State, i: nat, at: int)
    requires Owes(s, i)
    ensures Inv(Fired(s, i, at))
  {
    var e := s.expenses[i];
    var event := Event(i, e.category, e.amount, e.vault, at);
    FiringKeepsBudgets(s, event);
    forall j: nat, v: Vault
      ensures Times(s.events + [event], j) == Times(s.events, j) + if i == j then 1 else 0
      ensures Announced(s.events + [event], v) == Announced(s.events, v) + if e.vault == v then e.amount else 0
    {
      EventOneMore(s.events, event, j, v);
    }
  }

  lemma AppendAggregates(s: State, e: Expense)
    ensures forall v: Vault :: CashOut(s.expenses + [e], v) == CashOut(s.expenses, v) + if SignedOff(e.status) && e.vault == v then e.amount else 0
    ensures forall v: Vault :: Fees(s.expenses + [e], v) == Fees(s.expenses, v) + if e.fee && e.vault == v then e.amount else 0
  {
    forall v: Vault
      ensures CashOut(s.expenses + [e], v) == CashOut(s.expenses, v) + if SignedOff(e.status) && e.vault == v then e.amount else 0
      ensures Fees(s.expenses + [e], v) == Fees(s.expenses, v) + if e.fee && e.vault == v then e.amount else 0
    {
      ExpenseOneMore(s.expenses, e, v);
    }
  }

  lemma AppendQuiet(s: State, e: Expense)
    requires Inv(s) && RowsHold(s.(expenses := s.expenses + [e])) && (e.fee <==> SignedOff(e.status))
    ensures Inv(s.(expenses := s.expenses + [e]))
  {
    AppendAggregates(s, e);
  }

  lemma AppendOwes(s: State, e: Expense)
    requires Inv(s) && RowsHold(s.(expenses := s.expenses + [e])) && !e.fee && SignedOff(e.status)
    ensures Owes(s.(expenses := s.expenses + [e]), |s.expenses|)
  {
    AppendAggregates(s, e);
  }

  lemma RewriteAggregates(s: State, i: nat, e: Expense)
    requires i < |s.expenses| && e.fee == s.expenses[i].fee && e.vault == s.expenses[i].vault && e.amount == s.expenses[i].amount
    ensures forall v: Vault :: Fees(s.expenses[i := e], v) == Fees(s.expenses, v)
    ensures forall v: Vault :: CashOut(s.expenses[i := e], v) == CashOut(s.expenses, v)
              + (if e.vault == v then (if SignedOff(e.status) then e.amount else 0) - (if SignedOff(s.expenses[i].status) then e.amount else 0) else 0)
  {
    forall v: Vault
      ensures Fees(s.expenses[i := e], v) == Fees(s.expenses, v)
      ensures CashOut(s.expenses[i := e], v) == CashOut(s.expenses, v)
                + (if e.vault == v then (if SignedOff(e.status) then e.amount else 0) - (if SignedOff(s.expenses[i].status) then e.amount else 0) else 0)
    {
      ExpenseRewritten(s.expenses, i, e, v);
    }
  }

  lemma MovedRows(s: State, i: nat, user: UserId, target: Status, due: Option<int>, at: int)
    requires RowsHold(s) && i < |s.expenses| && MayMove(s.expenses[i], user, target)
    ensures RowsHold(s.(expenses := s.expenses[i := Moved(s.expenses[i], user, target, due, at)]))
    ensures target == Approved ==> !s.expenses[i].fee && !SignedOff(s.expenses[i].status)
    ensures target != Approved ==> (SignedOff(target) <==> SignedOff(s.expenses[i].status))
  {
  }

  lemma TransitionKeeps(s: State, i: nat, user: UserId, target: Status, due: Option<int>, at: int)
    requires Inv(s) && i < |s.expenses| && MayMove(s.expenses[i], user, target)
    ensures Inv(Do(s, Transition(i, user, target, due, at)))
  {
    var e := Moved(s.expenses[i], user, target, due, at);
    var mid := s.(expenses := s.expenses[i := e]);
    MovedRows(s, i, user, target, due, at);
    RewriteAggregates(s, i, e);
    if target == Approved {
      assert Owes(mid, i);
      FiringSettles(mid, i, at);
    }
  }

  lemma NewBudgetKeeps(s: State, category: string, periodStart: int, periodEnd: int)
    requires Inv(s)
    ensures Inv(Do(s, CreateBudget(category, periodStart, periodEnd)))
  {
    var added := Budget(category, periodStart, periodEnd, 0, |s.events|);
    assert Burnt(added, s.events) == 0;
  }

  lemma DoKeeps(s: State, c: Command)
    requires Inv(s)
    ensures Inv(Do(s, c))
  {
    match c
    case CreateExpense(category, amount, vault, at) =>
      if amount > 0 {
        var e := Expense(category, amount, vault, false, Approved, None, None, None);
        AppendOwes(s, e);
        FiringSettles(s.(expenses := s.expenses + [e]), |s.expenses|, at);
      }
    case CreatePayable(category, amount, vault, submitter) =>
      if amount > 0 { AppendQuiet(s, Expense(category, amount, vault, false, PendingReview, Some(submitter), None, None)); }
    case BookFee(amount, vault) =>
      if amount > 0 { AppendQuiet(s, Expense("Transfer fee", amount, vault, true, Approved, None, None, None)); }
    case Transition(i, user, target, due, at) =>
      if i < |s.expenses| && MayMove(s.expenses[i], user, target) { TransitionKeeps(s, i, user, target, due, at); }
    case CreateBudget(category, periodStart, periodEnd) => NewBudgetKeeps(s, category, periodStart, periodEnd);
  }

  lemma {:induction false} EveryRunKeeps(commands: seq<Command>)
    ensures Inv(Run(EMPTY, commands))
  {
    if commands != [] {
      EveryRunKeeps(commands[..|commands| - 1]);
      DoKeeps(Run(EMPTY, commands[..|commands| - 1]), commands[|commands| - 1]);
    }
  }

  /**
   Budget burn-down over every run.  An expense that is not a fee has fired its side
   effects once if it is approved or scheduled and never otherwise; a fee never
   fires; and a budget has spent exactly what fired in its category and period
   since it was created.
   */
  lemma BurnedExactlyOnce(commands: seq<Command>)
    ensures var s := Run(EMPTY, commands);
            && (forall i :: 0 <= i < |s.expenses| ==>
                  Times(s.events, i) == if !s.expenses[i].fee && SignedOff(s.expenses[i].status) then 1 else 0)
            && (forall b :: 0 <= b < |s.budgets| ==>
                  s.budgets[b].firstEvent <= |s.events| && s.budgets[b].spent == Burnt(s.budgets[b], s.events))
  {
    EveryRunKeeps(commands);
  }

  /** What the vaults count as gone is what has burned plus the transfer fees. */
  lemma CashOutIsBurnedPlusFees(commands: seq<Command>, vault: Vault)
    ensures var s := Run(EMPTY, commands); CashOut(s.expenses, vault) == Announced(s.events, vault) + Fees(s.expenses, vault)
  {
    EveryRunKeeps(commands);
  }

  /** Maker and checker differ on every reviewed bill, and a submitted bill is decided exactly when somebody reviewed it. */
  lemma {:induction false} MakerIsNotChecker(commands: seq<Command>, i: nat)
    requires i < |Run(EMPTY, commands).expenses| && Run(EMPTY, commands).expenses[i].submittedBy.Some?
    ensures var e := Run(EMPTY, commands).expenses[i];
            && e.reviewedBy != e.submittedBy
            && (e.reviewedBy.Some? <==> e.status != PendingReview && e.status != Draft)
  {
    EveryRunKeeps(commands);
  }

  /** The event is about its expense: the same category, amount and vault. */
  ghost predicate Tells(event: Event, expenses: seq<Expense>)
  {
    && event.expense < |expenses|
    && var e := expenses[event.expense]; event.category == e.category && event.amount == e.amount && event.vault == e.vault
  }

  ghost predicate EventsTell(s: State)
  {
    forall k :: 0 <= k < |s.events| ==> Tells(s.events[k], s.expenses)
  }

  lemma DoKeepsTelling(s: State, c: Command)
    requires EventsTell(s)
    ensures EventsTell(Do(s, c))
  {
    var after := Do(s, c);
    forall k | 0 <= k < |after.events| ensures Tells(after.events[k], after.expenses) {
      if k < |s.events| {
        assert Tells(s.events[k], s.expenses);
        OneMove(s, c, s.events[k].expense);
      }
    }
  }

  /** In every run each event carries the category, the amount and the vault of its expense, so the right budgets burned. */
  lemma {:induction false} EventsTellTheirExpense(commands: seq<Command>)
    ensures EventsTell(Run(EMPTY, commands))
  {
    if commands != [] {
      EventsTellTheirExpense(commands[..|commands| - 1]);
      DoKeepsTelling(Run(EMPTY, commands[..|commands| - 1]), commands[|commands| - 1]);
    }
  }

  // ------------------------------------------------ a bill's life

  /** Steps from submission; rejection and scheduling are the ends. */
  function Stage(status: Status): nat
  {
    match status case Draft => 0 case PendingReview => 1 case Approved => 2 case Rejected => 3 case Scheduled => 3
  }

  /** Where a bill may be later, from where it is now. */
  predicate Onward(before: Expense, after: Expense)
  {
    && after.amount == before.amount && after.vault == before.vault && after.category == before.category && after.fee == before.fee
    && after.submittedBy == before.submittedBy
    && Stage(before.status) <= Stage(after.status)
    && (Stage(before.status) == Stage(after.status) ==> after == before)
    && (before.status == Approved ==> after.status != Rejected && after.reviewedBy == before.reviewedBy)
  }

  /** Bills only move on: a decision is never revised, and nothing but status and review fields changes. */
  lemma {:induction false} BillsOnlyMoveOn(s: State, commands: seq<Command>, i: nat)
    requires i < |s.expenses|
    ensures i < |Run(s, commands).expenses| && Onward(s.expenses[i], Run(s, commands).expenses[i])
  {
    if commands != [] {
      var prior := commands[..|commands| - 1];
      BillsOnlyMoveOn(s, prior, i);
      OneMove(Run(s, prior), commands[|commands| - 1], i);
      OnwardChains(s.expenses[i], Run(s, prior).expenses[i], Run(s, commands).expenses[i]);
    }
  }

  lemma OnwardChains(a: Expense, b: Expense, c: Expense)
    requires Onward(a, b) && Onward(b, c)
    ensures Onward(a, c)
  {
  }

  lemma OneMove(s: State, c: Command, i: nat)
    requires i < |s.expenses|
    ensures i < |Do(s, c).expenses| && Onward(s.expenses[i], Do(s, c).expenses[i])
  {
  }

  // ------------------------------------------------ the service

  /** The side effects of one expense at a moment: one event that tells it, and its amount on every open budget of its category. */
  ghost predicate SideEffects(before: State, after: State, i: nat, at: int)
    requires i < |after.expenses|
  {
    var e := after.expenses[i];
    && after.events == before.events + [Event(i, e.category, e.amount, e.vault, at)]
    && |after.budgets| == |before.budgets|
    && forall b :: 0 <= b < |before.budgets| ==>
         var budget := before.budgets[b];
         var hit := budget.category == e.category && budget.periodStart <= at <= budget.periodEnd;
         after.budgets[b] == if hit then budget.(spent := budget.spent + e.amount) else budget
  }

  ghost predicate NoSideEffects(before: State, after: State)
  {
    after.events == before.events && after.budgets == before.budgets
  }

  class PayablesService {
    var expenses: seq<Expense>
    var budgets: seq<Budget>
    var events: seq<Event>

    ghost function View(): State
      reads this
    {
      State(expenses, budgets, events)
    }

    constructor ()
      ensures View() == EMPTY
    {
      expenses, budgets, events := [], [], [];
    }

    /** `_apply_expense_side_effects`: the budget update, then the outbox event. */
    method ApplySideEffects(i: nat, at: int)
      requires i < |expenses|
      modifies this`budgets, this`events
      ensures View() == Fired(old(View()), i, at)
      ensures expenses == old(expenses) && SideEffects(old(View()), View(), i, at)
    {
      var e := expenses[i];
      var event := Event(i, e.category, e.amount, e.vault, at);
      for b := 0 to |budgets|
        invariant |budgets| == |old(budgets)| && events == old(events)
        invariant forall k :: b <= k < |budgets| ==> budgets[k] == old(budgets)[k]
        invariant forall k :: 0 <= k < b ==> budgets[k] == Burned(old(budgets), event)[k]
      {
        if budgets[b].category == e.category && budgets[b].periodStart <= at && budgets[b].periodEnd >= at {
          budgets := budgets[b := budgets[b].(spent := budgets[b].spent + e.amount)];
        }
      }
      assert budgets == Burned(old(budgets), event);
      events := events + [event];
    }

    /** `create_expense`, and `create_receipt_expense` alike. */
    method CreateExpense(category: string, amount: int, vault: Vault, at: int) returns (ok: bool)
      modifies this
      ensures View() == Do(old(View()), Command.CreateExpense(category, amount, vault, at))
      ensures ok <==> amount > 0
      ensures !ok ==> View() == old(View())
      ensures ok ==>
                && expenses == old(expenses) + [Expense(category, amount, vault, false, Approved, None, None, None)]
                && SideEffects(old(View()), View(), |old(expenses)|, at)
    {
      if amount <= 0 { return false; }
      expenses := expenses + [Expense(category, amount, vault, false, Approved, None, None, None)];
      ApplySideEffects(|expenses| - 1, at);
      return true;
    }

    /** `create_payable`: no side effects. */
    method CreatePayable(category: string, amount: int, vault: Vault, submitter: UserId) returns (ok: bool)
      modifies this`expenses
      ensures View() == Do(old(View()), Command.CreatePayable(category, amount, vault, submitter))
      ensures ok <==> amount > 0 && 1 <= |category| <= 100
      ensures NoSideEffects(old(View()), View())
      ensures expenses == if ok then old(expenses) + [Expense(category, amount, vault, false, PendingReview, Some(submitter), None, None)]
                          else old(expenses)
    {
      if amount <= 0 || !NameFits(category) { return false; }
      expenses := expenses + [Expense(category, amount, vault, false, PendingReview, Some(submitter), None, None)];
      return true;
    }

    /** The fee row of `create_vault_transfer`: cash out of its vault at once, and no budget or event ever sees it. */
    method BookFee(amount: int, vault: Vault)
      requires Inv(View())
      modifies this`expenses
      ensures Inv(View()) && View() == Do(old(View()), Command.BookFee(amount, vault))
      ensures budgets == old(budgets) && events == old(events)
      ensures expenses == if amount > 0 then old(expenses) + [Expense("Transfer fee", amount, vault, true, Approved, None, None, None)]
                          else old(expenses)
      ensures amount > 0 ==> Times(events, |old(expenses)|) == 0
      ensures forall v :: CashOut(expenses, v) == CashOut(old(expenses), v) + if v == vault && amount > 0 then amount else 0
      ensures forall v :: Announced(events, v) == CashOut(expenses, v) - Fees(expenses, v)
    {
      DoKeeps(View(), Command.BookFee(amount, vault));
      if amount > 0 {
        AppendAggregates(View(), Expense("Transfer fee", amount, vault, true, Approved, None, None, None));
        expenses := expenses + [Expense("Transfer fee", amount, vault, true, Approved, None, None, None)];
      }
    }

    /** `transition_payable`, with the row held for update. */
    method TransitionPayable(i: nat, user: UserId, target: Status, due: Option<int>, at: int) returns (ok: bool)
      modifies this
      ensures View() == Do(old(View()), Transition(i, user, target, due, at))
      ensures ok <==>
                && i < |old(expenses)| && var e := old(expenses)[i];
                && ((e.status == Draft && target == PendingReview) || (e.status == PendingReview && target == Approved)
                    || (e.status == PendingReview && target == Rejected) || (e.status == Approved && target == Scheduled))
                && (target == Approved || target == Rejected ==> e.submittedBy != Some(user))
      ensures !ok ==> View() == old(View())
      ensures ok ==>
                var e := old(expenses)[i];
                && |expenses| == |old(expenses)| && expenses == old(expenses)[i := expenses[i]]
                && expenses[i] == e.(status := target,
                                     reviewedBy := if target == Approved || target == Rejected then Some(user) else e.reviewedBy,
                                     scheduledFor := if target == Scheduled then Some(if due.Some? then due.value else at) else e.scheduledFor)
                && if target == Approved then SideEffects(old(View()), View(), i, at) else NoSideEffects(old(View()), View())
    {
      if i >= |expenses| { return false; }
      var e := expenses[i];
      if !Edge(e.status, target) { return false; }
      if IsDecision(target) && e.submittedBy == Some(user) { return false; }
      e := e.(status := target);
      if IsDecision(target) { e := e.(reviewedBy := Some(user)); }
      if target == Scheduled { e := e.(scheduledFor := Some(if due.Some? then due.value else at)); }
      expenses := expenses[i := e];
      if target == Approved { ApplySideEffects(i, at); }
      return true;
    }

    /** `create_budget`: whatever has fired before, the new budget owes nothing to it, and the others are as they were. */
    method CreateBudget(category: string, periodStart: int, periodEnd: int)
      requires Inv(View())
      modifies this`budgets
      ensures Inv(View()) && View() == Do(old(View()), Command.CreateBudget(category, periodStart, periodEnd))
      ensures budgets == old(budgets) + [Budget(category, periodStart, periodEnd, 0, |events|)]
      ensures var added := budgets[|old(budgets)|]; added.firstEvent == |events| && added.spent == Burnt(added, events) == 0
    {
      DoKeeps(View(), Command.CreateBudget(category, periodStart, periodEnd));
      budgets := budgets + [Budget(category, periodStart, periodEnd, 0, |events|)];
    }
  }
}
