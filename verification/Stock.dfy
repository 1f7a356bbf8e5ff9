/**
 The stock ledger of one product: `InventoryService` of
 `domains/inventory/service.py`, in thousandths of a unit and in cents.
 */
module Stock {
  import opened Common
  import opened Alerts

  datatype MovementType = Receipt | Issue | Sale | ReturnIn | Adjustment | Transfer

  /** A ledger row.  The quantity is unsigned. */
  datatype Movement = Movement(
    sequence: int, kind: MovementType, quantity: int, unitCost: Option<int>, balanceAfter: int, reference: Option<nat>)

  predicate Inbound(kind: MovementType)
  {
    kind == Receipt || kind == ReturnIn
  }

  predicate Stamped(kind: MovementType)
  {
    kind == Sale || kind == Issue
  }

  /** A costed arrival, the only kind of row that moves the average. */
  predicate Costed(row: Movement)
  {
    Inbound(row.kind) && row.unitCost.Some?
  }

  // ------------------------------------------------ rounding

  /** n / d to the nearest integer, ties to the even one, as `Decimal.quantize` rounds by default. */
  function RoundHalfEven(n: int, d: int): (r: int)
    requires d > 0
    ensures -d <= 2 * (n - r * d) <= d
    ensures 2 * (n - r * d) == d || 2 * (n - r * d) == -d ==> r % 2 == 0
  {
    var q, rest := n / d, n % d;
    assert n == q * d + rest;
    assert (q + 1) * d == q * d + d;
    if 2 * rest < d || (2 * rest == d && q % 2 == 0) then q else q + 1
  }

  lemma MulMonotone(d: int, x: int, y: int)
    requires d > 0 && x <= y
    ensures x * d <= y * d
  {
    assert y * d == x * d + (y - x) * d;
  }

  lemma MulOrder(d: int, x: int, y: int)
    requires d > 0
    ensures x <= y <==> x * d <= y * d
  {
    if x <= y {
      MulMonotone(d, x, y);
    } else {
      MulMonotone(d, y + 1, x);
      Distributes(y, 1, d);
    }
  }

  /** Rounding never passes an integer bound of the exact quotient. */
  lemma RoundWithin(n: int, d: int, low: int, high: int)
    requires d > 0 && low * d <= n <= high * d
    ensures low <= RoundHalfEven(n, d) <= high
  {
    var r := RoundHalfEven(n, d);
    MulOrder(d, r + 1, low);
    MulOrder(d, high + 1, r);
    assert (r + 1) * d == r * d + d && (high + 1) * d == high * d + d;
  }

  /** `_weighted_avg`. */
  function WeightedAverage(quantity: int, average: int, arriving: int, cost: int): int
  {
    var total := quantity + arriving;
    if total <= 0 then cost else RoundHalfEven(quantity * average + arriving * cost, total)
  }

  // ------------------------------------------------ reading the ledger back

  function BalanceOf(ledger: seq<Movement>): int
  {
    if ledger == [] then 0 else ledger[|ledger| - 1].balanceAfter
  }

  /**
   The signed change an unsigned row stands for: its type says the direction, an
   adjustment shows it by the balance it left.
   */
  function RowDelta(before: int, row: Movement): int
  {
    if Inbound(row.kind) then row.quantity
    else if row.kind == Adjustment && row.balanceAfter >= before then row.quantity
    else -row.quantity
  }

  /** On-hand stock from the unsigned rows alone. */
  function Replay(ledger: seq<Movement>): int
  {
    if ledger == [] then 0
    else var prior := ledger[..|ledger| - 1];
         Replay(prior) + RowDelta(BalanceOf(prior), ledger[|ledger| - 1])
  }

  /** The average cost the costed arrivals add up to. */
  function AverageOf(ledger: seq<Movement>): int
  {
    if ledger == [] then 0
    else var prior, row := ledger[..|ledger| - 1], ledger[|ledger| - 1];
         if Costed(row) then WeightedAverage(Replay(prior), AverageOf(prior), row.quantity, row.unitCost.value)
         else AverageOf(prior)
  }

  /** What the stock cost, exactly: arrivals at their own price, everything else at the average of the moment. */
  function ExactValue(ledger: seq<Movement>): int
  {
    if ledger == [] then 0
    else var prior, row := ledger[..|ledger| - 1], ledger[|ledger| - 1];
         ExactValue(prior) + if Costed(row) then row.quantity * row.unitCost.value else RowDelta(BalanceOf(prior), row) * AverageOf(prior)
  }

  /** The stock held after each costed arrival, added up: each may lose half a cent per unit to rounding. */
  function Slack(ledger: seq<Movement>): int
  {
    if ledger == [] then 0
    else var row := ledger[|ledger| - 1];
         Slack(ledger[..|ledger| - 1]) + if Costed(row) then row.balanceAfter else 0
  }

  /** Rows numbered 1..n, each leaving a balance that its own change explains and that is never negative. */
  ghost predicate LedgerHolds(ledger: seq<Movement>)
  {
    ledger != [] ==>
      var prior, row := ledger[..|ledger| - 1], ledger[|ledger| - 1];
      && LedgerHolds(prior)
      && row.sequence == |ledger| && row.quantity > 0
      && row.balanceAfter == BalanceOf(prior) + RowDelta(BalanceOf(prior), row) >= 0
  }

  lemma {:induction false} ReplayIsBalance(ledger: seq<Movement>)
    requires LedgerHolds(ledger)
    ensures Replay(ledger) == BalanceOf(ledger) >= 0
  {
    if ledger != [] { ReplayIsBalance(ledger[..|ledger| - 1]); }
  }

  /** Every row's balance is the replay of the rows up to it. */
  lemma {:induction false} EveryBalanceReplays(ledger: seq<Movement>, i: nat)
    requires LedgerHolds(ledger) && i < |ledger|
    ensures ledger[i].sequence == i + 1 && ledger[i].quantity > 0
    ensures ledger[i].balanceAfter == Replay(ledger[..i + 1]) >= 0
  {
    var prior := ledger[..|ledger| - 1];
    if i == |ledger| - 1 {
      assert ledger[..i + 1] == ledger;
      ReplayIsBalance(ledger);
    } else {
      EveryBalanceReplays(prior, i);
      assert prior[..i + 1] == ledger[..i + 1];
    }
  }

  /** One costed arrival adds at most half a cent per unit held to the error. */
  lemma CostedStep(held: int, average: int, arriving: int, cost: int, exact: int, slack: int)
    requires held + arriving > 0 && -slack <= 2 * (held * average - exact) <= slack
    ensures var total, product := held + arriving, arriving * cost;
            var updated := WeightedAverage(held, average, arriving, cost);
            -(slack + total) <= 2 * (total * updated - (exact + product)) <= slack + total
  {
    var total := held + arriving;
    var value := held * average + arriving * cost;
    var updated := RoundHalfEven(value, total);
    assert total * updated == updated * total;
  }

  lemma Distributes(x: int, y: int, z: int)
    ensures (x + y) * z == x * z + y * z
  {
  }

  /** Value is conserved: held stock at the average differs from its exact cost by at most half a cent per unit per costed arrival. */
  lemma {:induction false} ValueConserved(ledger: seq<Movement>)
    requires LedgerHolds(ledger)
    ensures -Slack(ledger) <= 2 * (Replay(ledger) * AverageOf(ledger) - ExactValue(ledger)) <= Slack(ledger)
  {
    if ledger != [] {
      var prior, row := ledger[..|ledger| - 1], ledger[|ledger| - 1];
      ValueConserved(prior);
      ReplayIsBalance(prior);
      var held, average := Replay(prior), AverageOf(prior);
      if Costed(row) {
        CostedStep(held, average, row.quantity, row.unitCost.value, ExactValue(prior), Slack(prior));
      } else {
        Distributes(held, RowDelta(held, row), average);
      }
    }
  }

  lemma MixBounds(quantity: int, low: int, arriving: int, high: int)
    requires quantity >= 0 && arriving >= 0 && low <= high
    ensures low * (quantity + arriving) <= quantity * low + arriving * high <= high * (quantity + arriving)
  {
    var gap := high - low;
    assert arriving * gap >= 0 && quantity * gap >= 0;
    assert high == low + gap;
    assert arriving * high == arriving * low + arriving * gap;
    assert high * (quantity + arriving) == low * (quantity + arriving) + quantity * gap + arriving * gap;
  }

  /** With stock in hand the new average lies between the old one and the arriving cost; without, it is that cost. */
  lemma AverageInBetween(quantity: int, average: int, arriving: int, cost: int)
    requires quantity >= 0 && arriving > 0
    ensures var updated := WeightedAverage(quantity, average, arriving, cost);
            && (average <= cost ==> average <= updated <= cost)
            && (cost <= average ==> cost <= updated <= average)
            && (quantity == 0 ==> updated == cost)
  {
    var total, value := quantity + arriving, quantity * average + arriving * cost;
    if average <= cost {
      MixBounds(quantity, average, arriving, cost);
      RoundWithin(value, total, average, cost);
    } else {
      MixBounds(arriving, cost, quantity, average);
      RoundWithin(value, total, cost, average);
    }
    if quantity == 0 { RoundWithin(value, total, cost, cost); }
  }

  // ------------------------------------------------ cost of goods sold

  /** What left by sale or issue, at the cost stamped on the row. */
  function LeftAtCost(ledger: seq<Movement>): int
  {
    if ledger == [] then 0
    else var row := ledger[|ledger| - 1];
         LeftAtCost(ledger[..|ledger| - 1]) + if Stamped(row.kind) && row.unitCost.Some? then row.quantity * row.unitCost.value else 0
  }

  function Bought(ledger: seq<Movement>): int
  {
    if ledger == [] then 0
    else var row := ledger[|ledger| - 1];
         Bought(ledger[..|ledger| - 1]) + if Costed(row) then row.quantity * row.unitCost.value else 0
  }

  /** Only costed arrivals, and sales and issues stamped with the average of their moment. */
  ghost predicate PlainTrade(ledger: seq<Movement>)
  {
    ledger != [] ==>
      var prior, row := ledger[..|ledger| - 1], ledger[|ledger| - 1];
      PlainTrade(prior) && (Costed(row) || (Stamped(row.kind) && row.unitCost == Some(AverageOf(prior))))
  }

  lemma Negates(x: int, y: int)
    ensures (-x) * y == -(x * y)
  {
  }

  lemma {:induction false} TradeValue(ledger: seq<Movement>)
    requires PlainTrade(ledger)
    ensures ExactValue(ledger) == Bought(ledger) - LeftAtCost(ledger)
  {
    if ledger != [] {
      var prior, row := ledger[..|ledger| - 1], ledger[|ledger| - 1];
      TradeValue(prior);
      if Costed(row) {
        assert LeftAtCost(ledger) == LeftAtCost(prior);
      } else {
        Negates(row.quantity, AverageOf(prior));
        assert LeftAtCost(ledger) == LeftAtCost(prior) + row.quantity * AverageOf(prior);
      }
    }
  }

  /** What was bought is what was sold at cost plus what is still held, up to rounding. */
  lemma BoughtIsSoldPlusHeld(ledger: seq<Movement>)
    requires LedgerHolds(ledger) && PlainTrade(ledger)
    ensures -Slack(ledger) <= 2 * (LeftAtCost(ledger) + Replay(ledger) * AverageOf(ledger) - Bought(ledger)) <= Slack(ledger)
  {
    ValueConserved(ledger);
    TradeValue(ledger);
  }

  // ------------------------------------------------ movements

  /** The product's flag and reorder level, its projected level, its ledger, and its active low-stock alert. */
  datatype State = State(active: bool, reorder: int, onHand: int, average: int, ledger: seq<Movement>, alert: Option<Severity>)

  /** `alerting` is false when the best-effort alert write fails. */
  datatype Command =
    | Record(kind: MovementType, quantity: int, unitCost: Option<int>, reference: Option<nat>, alerting: bool)
    | Adjust(delta: int, hasReason: bool, alerting: bool)
    | Purchase(quantity: int, cost: int, expense: nat, alerting: bool)
    | SetActive(active: bool)

  /** The highest sequence in the ledger, 0 when there is none. */
  function LastSequence(ledger: seq<Movement>): int
  {
    if ledger == [] then 0
    else var rest, last := LastSequence(ledger[..|ledger| - 1]), ledger[|ledger| - 1].sequence;
         if last > rest then last else rest
  }

  /** `_apply`: the level after the movement and the row it appends; None when it is refused. */
  function Applied(s: State, kind: MovementType, quantity: int, delta: int, unitCost: Option<int>, reference: Option<nat>): Option<State>
  {
    if !s.active || s.onHand + delta < 0 then None
    else
      var average := if Inbound(kind) && unitCost.Some? then WeightedAverage(s.onHand, s.average, quantity, unitCost.value) else s.average;
      var stamp := if unitCost.None? && Stamped(kind) then Some(average) else unitCost;
      var row := Movement(LastSequence(s.ledger) + 1, kind, quantity, stamp, s.onHand + delta, reference);
      Some(s.(onHand := s.onHand + delta, average := average, ledger := s.ledger + [row]))
  }

  /** The alert after a committed movement by `delta`. */
  function AlertAfter(alert: Option<Severity>, reorder: int, onHand: int, delta: int): Option<Severity>
  {
    if reorder <= 0 then alert
    else if delta < 0 && onHand <= reorder then
      var grade := if onHand <= 0 then Critical else Warning;
      Some(if alert.Some? then Worse(alert.value, grade) else grade)
    else if delta > 0 && onHand - delta <= reorder < onHand then None
    else alert
  }

  /** `reconcile_low_stock_alert`, which looks at the level only. */
  function Reconciled(alert: Option<Severity>, reorder: int, onHand: int): Option<Severity>
  {
    if reorder > 0 && onHand > reorder then None else alert
  }

  function Moved(s: State, kind: MovementType, quantity: int, delta: int, unitCost: Option<int>, reference: Option<nat>, alerting: bool): State
  {
    match Applied(s, kind, quantity, delta, unitCost, reference)
    case None => s
    case Some(after) => if alerting then after.(alert := AlertAfter(after.alert, after.reorder, after.onHand, delta)) else after
  }

  /** `record_movement` with its request model: positive quantity, no adjustment, a receipt has a cost. */
  predicate Recordable(kind: MovementType, quantity: int, unitCost: Option<int>)
  {
    kind != Adjustment && quantity > 0 && (kind == Receipt ==> unitCost.Some?)
  }

  function Abs(x: int): int
  {
    if x < 0 then -x else x
  }

  function Do(s: State, c: Command): State
  {
    match c
    case Record(kind, quantity, unitCost, reference, alerting) =>
      if !Recordable(kind, quantity, unitCost) then s
      else Moved(s, kind, quantity, if Inbound(kind) then quantity else -quantity, unitCost, reference, alerting)
    case Adjust(delta, hasReason, alerting) =>
      if !hasReason || delta == 0 then s
      else Moved(s, Adjustment, Abs(delta), delta, None, None, alerting)
    case Purchase(quantity, cost, expense, alerting) =>
      if quantity <= 0 || cost <= 0 then s
      else
        (match Applied(s, Receipt, quantity, quantity, Some(cost), Some(expense))
         case None => s
         case Some(after) => if alerting then after.(alert := Reconciled(after.alert, after.reorder, after.onHand)) else after)
    case SetActive(active) => s.(active := active)
  }

  function Run(s: State, commands: seq<Command>): State
  {
    if commands == [] then s else Do(Run(s, commands[..|commands| - 1]), commands[|commands| - 1])
  }

  /** The row and the level agree with the ledger read back. */
  ghost predicate Projects(s: State)
  {
    LedgerHolds(s.ledger) && s.onHand == Replay(s.ledger) && s.average == AverageOf(s.ledger)
  }

  lemma {:induction false} SequencesFromOne(ledger: seq<Movement>)
    requires LedgerHolds(ledger)
    ensures LastSequence(ledger) == |ledger|
  {
    if ledger != [] { SequencesFromOne(ledger[..|ledger| - 1]); }
  }

  /** A change the row it is written into can be read back from. */
  ghost predicate Readable(kind: MovementType, quantity: int, delta: int)
  {
    quantity > 0 && (delta == quantity || delta == -quantity)
    && (kind != Adjustment ==> (delta == quantity <==> Inbound(kind)))
  }

  lemma AppliedProjects(s: State, kind: MovementType, quantity: int, delta: int, unitCost: Option<int>, reference: Option<nat>)
    requires Projects(s) && Readable(kind, quantity, delta)
    ensures var after := Applied(s, kind, quantity, delta, unitCost, reference);
            after.Some? ==> Projects(after.value) && RowDelta(s.onHand, after.value.ledger[|s.ledger|]) == delta
                            && after.value.ledger[..|s.ledger|] == s.ledger && |after.value.ledger| == |s.ledger| + 1
  {
    var after := Applied(s, kind, quantity, delta, unitCost, reference);
    if after.Some? {
      SequencesFromOne(s.ledger);
      ReplayIsBalance(s.ledger);
      assert after.value.ledger[..|after.value.ledger| - 1] == s.ledger;
    }
  }

  lemma MovedProjects(s: State, kind: MovementType, quantity: int, delta: int, unitCost: Option<int>, reference: Option<nat>, alerting: bool)
    requires Projects(s) && Readable(kind, quantity, delta)
    ensures var after := Moved(s, kind, quantity, delta, unitCost, reference, alerting); Projects(after) && after.reorder == s.reorder
  {
    AppliedProjects(s, kind, quantity, delta, unitCost, reference);
  }

  lemma DoProjects(s: State, c: Command)
    requires Projects(s)
    ensures Projects(Do(s, c)) && Do(s, c).reorder == s.reorder
  {
    match c
    case Record(kind, quantity, unitCost, reference, alerting) =>
      if Recordable(kind, quantity, unitCost) {
        MovedProjects(s, kind, quantity, if Inbound(kind) then quantity else -quantity, unitCost, reference, alerting);
      }
    case Adjust(delta, hasReason, alerting) =>
      if delta != 0 { MovedProjects(s, Adjustment, Abs(delta), delta, None, None, alerting); }
    case Purchase(quantity, cost, expense, alerting) =>
      if quantity > 0 { AppliedProjects(s, Receipt, quantity, quantity, Some(cost), Some(expense)); }
    case SetActive(active) =>
  }

  function NewProduct(reorder: int): State
  {
    State(true, reorder, 0, 0, [], None)
  }

  lemma {:induction false} RunProjects(reorder: int, commands: seq<Command>)
    ensures var s := Run(NewProduct(reorder), commands); Projects(s) && s.reorder == reorder
  {
    if commands != [] {
      RunProjects(reorder, commands[..|commands| - 1]);
      DoProjects(Run(NewProduct(reorder), commands[..|commands| - 1]), commands[|commands| - 1]);
    }
  }

  /**
   The stock ledger over whole runs, alert failures or not: on-hand is never
   negative and is the replay of the unsigned rows, sequences are 1..n, the
   average is the ledger's own, and value is conserved up to rounding.
   */
  lemma EveryRunReplays(reorder: int, commands: seq<Command>)
    ensures var s := Run(NewProduct(reorder), commands);
            && s.onHand == Replay(s.ledger) >= 0 && s.average == AverageOf(s.ledger)
            && (forall i :: 0 <= i < |s.ledger| ==> s.ledger[i].sequence == i + 1 && s.ledger[i].quantity > 0
                                                    && s.ledger[i].balanceAfter == Replay(s.ledger[..i + 1]) >= 0)
            && -Slack(s.ledger) <= 2 * (s.onHand * s.average - ExactValue(s.ledger)) <= Slack(s.ledger)
  {
    RunProjects(reorder, commands);
    var s := Run(NewProduct(reorder), commands);
    ReplayIsBalance(s.ledger);
    ValueConserved(s.ledger);
    forall i | 0 <= i < |s.ledger|
      ensures s.ledger[i].sequence == i + 1 && s.ledger[i].quantity > 0 && s.ledger[i].balanceAfter == Replay(s.ledger[..i + 1]) >= 0
    {
      EveryBalanceReplays(s.ledger, i);
    }
  }

  // ------------------------------------------------ the low-stock alert

  /** An outflow at i, and nothing above the reorder level from there on. */
  ghost predicate ShortSince(ledger: seq<Movement>, reorder: int, i: int)
  {
    0 <= i < |ledger| && RowDelta(BalanceOf(ledger[..i]), ledger[i]) < 0
    && forall j :: i <= j < |ledger| ==> ledger[j].balanceAfter <= reorder
  }

  /** Some outflow has happened since on-hand was last above the reorder level. */
  ghost predicate Short(ledger: seq<Movement>, reorder: int)
  {
    exists i :: ShortSince(ledger, reorder, i)
  }

  /** On-hand has been 0 since it was last above the reorder level. */
  ghost predicate RanOut(ledger: seq<Movement>, reorder: int)
  {
    exists i :: 0 <= i < |ledger| && ledger[i].balanceAfter == 0 && forall j :: i <= j < |ledger| ==> ledger[j].balanceAfter <= reorder
  }

  lemma ShortSinceOneMore(ledger: seq<Movement>, row: Movement, reorder: int, i: nat)
    requires i < |ledger|
    ensures ShortSince(ledger + [row], reorder, i) <==> row.balanceAfter <= reorder && ShortSince(ledger, reorder, i)
  {
    var all := ledger + [row];
    assert all[..i] == ledger[..i] && all[|ledger|] == row;
    assert forall j :: i <= j < |ledger| ==> all[j] == ledger[j];
  }

  lemma ShortOneMore(ledger: seq<Movement>, row: Movement, reorder: int)
    ensures Short(ledger + [row], reorder) <==>
            row.balanceAfter <= reorder && (RowDelta(BalanceOf(ledger), row) < 0 || Short(ledger, reorder))
  {
    var all := ledger + [row];
    assert all[..|ledger|] == ledger;
    assert ShortSince(all, reorder, |ledger|) <==> row.balanceAfter <= reorder && RowDelta(BalanceOf(ledger), row) < 0;
    if Short(ledger, reorder) {
      var i :| ShortSince(ledger, reorder, i);
      ShortSinceOneMore(ledger, row, reorder, i);
    }
    if Short(all, reorder) {
      var i :| ShortSince(all, reorder, i);
      assert all[|ledger|] == row;
      if i < |ledger| { ShortSinceOneMore(ledger, row, reorder, i); }
    }
  }

  lemma RanOutOneMore(ledger: seq<Movement>, row: Movement, reorder: int)
    ensures RanOut(ledger + [row], reorder) <==> row.balanceAfter <= reorder && (row.balanceAfter == 0 || RanOut(ledger, reorder))
  {
    var all := ledger + [row];
    assert all[|ledger|] == row;
    if row.balanceAfter <= reorder && RanOut(ledger, reorder) {
      var i :| 0 <= i < |ledger| && ledger[i].balanceAfter == 0 && forall j :: i <= j < |ledger| ==> ledger[j].balanceAfter <= reorder;
      assert all[i].balanceAfter == 0;
      assert forall j :: i <= j < |all| ==> all[j].balanceAfter <= reorder;
    }
    if RanOut(all, reorder) {
      var i :| 0 <= i < |all| && all[i].balanceAfter == 0 && forall j :: i <= j < |all| ==> all[j].balanceAfter <= reorder;
      if i < |ledger| {
        assert forall j :: i <= j < |ledger| ==> ledger[j] == all[j];
      }
    }
  }

  /** The alert the ledger calls for. */
  ghost function Due(ledger: seq<Movement>, reorder: int): Option<Severity>
  {
    if reorder <= 0 || !Short(ledger, reorder) then None
    else if RanOut(ledger, reorder) then Some(Critical)
    else Some(Warning)
  }

  lemma DueOneMore(ledger: seq<Movement>, row: Movement, reorder: int, delta: int)
    requires LedgerHolds(ledger) && LedgerHolds(ledger + [row]) && delta == RowDelta(BalanceOf(ledger), row)
    ensures Due(ledger + [row], reorder) == AlertAfter(Due(ledger, reorder), reorder, row.balanceAfter, delta)
    ensures delta > 0 ==> Due(ledger + [row], reorder) == Reconciled(Due(ledger, reorder), reorder, row.balanceAfter)
  {
    var all := ledger + [row];
    assert all[..|all| - 1] == ledger;
    ReplayIsBalance(ledger);
    ShortOneMore(ledger, row, reorder);
    RanOutOneMore(ledger, row, reorder);
    if Short(ledger, reorder) { ShortMeansLow(ledger, reorder); }
    if RanOut(ledger, reorder) && reorder > 0 { RanOutIsShort(ledger, reorder); }
  }

  lemma ShortMeansLow(ledger: seq<Movement>, reorder: int)
    requires Short(ledger, reorder)
    ensures ledger != [] && BalanceOf(ledger) <= reorder
  {
  }

  lemma {:induction false} LedgerPrefix(ledger: seq<Movement>, n: nat)
    requires LedgerHolds(ledger) && n <= |ledger|
    ensures LedgerHolds(ledger[..n])
  {
    if n < |ledger| {
      LedgerPrefix(ledger[..|ledger| - 1], n);
      assert ledger[..|ledger| - 1][..n] == ledger[..n];
    } else {
      assert ledger[..n] == ledger;
    }
  }

  /** Only an outflow leaves the shelf empty. */
  lemma RanOutIsShort(ledger: seq<Movement>, reorder: int)
    requires LedgerHolds(ledger) && RanOut(ledger, reorder)
    ensures Short(ledger, reorder)
  {
    var i :| 0 <= i < |ledger| && ledger[i].balanceAfter == 0 && forall j :: i <= j < |ledger| ==> ledger[j].balanceAfter <= reorder;
    EveryBalanceReplays(ledger, i);
    var upTo, before := ledger[..i + 1], ledger[..i];
    assert upTo[..i] == before && upTo[|upTo| - 1] == ledger[i];
    if i > 0 {
      EveryBalanceReplays(ledger, i - 1);
      assert ledger[..i - 1 + 1] == before;
    }
    LedgerPrefix(ledger, i + 1);
    assert ShortSince(ledger, reorder, i);
  }

  /** Every alert write got through. */
  ghost predicate AlertsWork(commands: seq<Command>)
  {
    forall i :: 0 <= i < |commands| ==> commands[i].SetActive? || commands[i].alerting
  }

  lemma DoKeepsAlert(s: State, c: Command)
    requires Projects(s) && s.alert == Due(s.ledger, s.reorder) && (c.SetActive? || c.alerting)
    ensures Do(s, c).alert == Due(Do(s, c).ledger, s.reorder)
  {
    match c
    case Record(kind, quantity, unitCost, reference, _) =>
      if Recordable(kind, quantity, unitCost) {
        MovedKeepsAlert(s, kind, quantity, if Inbound(kind) then quantity else -quantity, unitCost, reference);
      }
    case Adjust(delta, hasReason, _) =>
      if delta != 0 { MovedKeepsAlert(s, Adjustment, Abs(delta), delta, None, None); }
    case Purchase(quantity, cost, expense, _) =>
      if quantity > 0 { MovedKeepsAlert(s, Receipt, quantity, quantity, Some(cost), Some(expense)); }
    case SetActive(_) =>
  }

  lemma MovedKeepsAlert(s: State, kind: MovementType, quantity: int, delta: int, unitCost: Option<int>, reference: Option<nat>)
    requires Projects(s) && s.alert == Due(s.ledger, s.reorder) && Readable(kind, quantity, delta)
    ensures var after := Applied(s, kind, quantity, delta, unitCost, reference);
            after.Some? ==>
              var due := Due(after.value.ledger, s.reorder);
              && AlertAfter(s.alert, s.reorder, after.value.onHand, delta) == due
              && (delta > 0 ==> Reconciled(s.alert, s.reorder, after.value.onHand) == due)
  {
    var after := Applied(s, kind, quantity, delta, unitCost, reference);
    if after.Some? {
      AppliedProjects(s, kind, quantity, delta, unitCost, reference);
      ReplayIsBalance(s.ledger);
      ReplayIsBalance(after.value.ledger);
      DueOneMore(s.ledger, after.value.ledger[|s.ledger|], s.reorder, delta);
    }
  }

  lemma {:induction false} RunKeepsAlert(reorder: int, commands: seq<Command>)
    requires AlertsWork(commands)
    ensures var s := Run(NewProduct(reorder), commands); s.alert == Due(s.ledger, reorder)
  {
    RunProjects(reorder, commands);
    if commands != [] {
      var prior := commands[..|commands| - 1];
      assert forall i :: 0 <= i < |prior| ==> prior[i] == commands[i];
      RunKeepsAlert(reorder, prior);
      RunProjects(reorder, prior);
      DoKeepsAlert(Run(NewProduct(reorder), prior), commands[|commands| - 1]);
    }
  }

  /**
   While alert writes succeed, the alert agrees with the stock in every run: it is
   active exactly when stock is at or below a positive reorder level and some
   outflow has happened since it was last above, and critical exactly when it has
   been at 0 since then.
   */
  lemma AlertAgreesWithStock(reorder: int, commands: seq<Command>)
    requires AlertsWork(commands)
    ensures var s := Run(NewProduct(reorder), commands);
            && (s.alert.Some? <==> reorder > 0 && Short(s.ledger, reorder))
            && (s.alert.Some? ==> s.onHand <= reorder)
            && (s.alert == Some(Critical) <==> reorder > 0 && RanOut(s.ledger, reorder))
            && s.alert != Some(Info)
  {
    RunKeepsAlert(reorder, commands);
    RunProjects(reorder, commands);
    var s := Run(NewProduct(reorder), commands);
    ReplayIsBalance(s.ledger);
    if reorder > 0 && RanOut(s.ledger, reorder) { RanOutIsShort(s.ledger, reorder); }
    if Short(s.ledger, reorder) { ShortMeansLow(s.ledger, reorder); }
  }

  ghost predicate SameStock(s: State, t: State)
  {
    s == t.(alert := s.alert)
  }

  lemma SameApplied(s: State, t: State, kind: MovementType, quantity: int, delta: int, unitCost: Option<int>, reference: Option<nat>)
    requires SameStock(s, t)
    ensures match (Applied(s, kind, quantity, delta, unitCost, reference), Applied(t, kind, quantity, delta, unitCost, reference))
            case (Some(a), Some(b)) => SameStock(a, b)
            case (None, None) => true
            case _ => false
  {
  }

  lemma SameStep(s: State, t: State, c: Command, d: Command)
    requires SameStock(s, t) && SameMovement(c, d)
    ensures SameStock(Do(s, c), Do(t, d))
  {
    match c
    case Record(kind, quantity, unitCost, reference, _) =>
      SameApplied(s, t, kind, quantity, if Inbound(kind) then quantity else -quantity, unitCost, reference);
    case Adjust(delta, hasReason, _) => SameApplied(s, t, Adjustment, Abs(delta), delta, None, None);
    case Purchase(quantity, cost, expense, _) => SameApplied(s, t, Receipt, quantity, quantity, Some(cost), Some(expense));
    case SetActive(_) =>
  }

  /** A failing alert write never changes the stock: the same movements give the same level and ledger. */
  lemma {:induction false} AlertFailuresLeaveStock(s: State, commands: seq<Command>, others: seq<Command>)
    requires |commands| == |others| && forall i :: 0 <= i < |commands| ==> SameMovement(commands[i], others[i])
    ensures SameStock(Run(s, commands), Run(s, others))
  {
    if commands != [] {
      var last := |commands| - 1;
      AlertFailuresLeaveStock(s, commands[..last], others[..last]);
      SameStep(Run(s, commands[..last]), Run(s, others[..last]), commands[last], others[last]);
    }
  }

  predicate SameMovement(c: Command, d: Command)
  {
    if c.SetActive? then d == c else !d.SetActive? && d == WithAlerting(c, d.alerting)
  }

  function WithAlerting(c: Command, alerting: bool): Command
    requires !c.SetActive?
  {
    c.(alerting := alerting)
  }

  /** A trade whose sales and issues carry no cost of their own. */
  predicate PlainCommand(c: Command)
  {
    match c
    case Record(kind, _, unitCost, _, _) => (Inbound(kind) && unitCost.Some?) || (Stamped(kind) && unitCost.None?)
    case Adjust(_, _, _) => false
    case Purchase(_, _, _, _) => true
    case SetActive(_) => true
  }

  lemma AppliedTrades(s: State, kind: MovementType, quantity: int, delta: int, unitCost: Option<int>, reference: Option<nat>)
    requires Projects(s) && PlainTrade(s.ledger)
    requires (Inbound(kind) && unitCost.Some?) || (Stamped(kind) && unitCost.None?)
    ensures var after := Applied(s, kind, quantity, delta, unitCost, reference); after.Some? ==> PlainTrade(after.value.ledger)
  {
    var after := Applied(s, kind, quantity, delta, unitCost, reference);
    if after.Some? {
      assert after.value.ledger[..|after.value.ledger| - 1] == s.ledger;
    }
  }

  /** In every run of a plain trade, purchases at cost are goods sold at cost plus stock at the average, up to rounding. */
  lemma {:induction false} EveryTradeBalances(reorder: int, commands: seq<Command>)
    requires forall i :: 0 <= i < |commands| ==> PlainCommand(commands[i])
    ensures var s := Run(NewProduct(reorder), commands);
            && PlainTrade(s.ledger)
            && -Slack(s.ledger) <= 2 * (LeftAtCost(s.ledger) + s.onHand * s.average - Bought(s.ledger)) <= Slack(s.ledger)
  {
    var s := Run(NewProduct(reorder), commands);
    RunProjects(reorder, commands);
    if commands != [] {
      var last := |commands| - 1;
      EveryTradeBalances(reorder, commands[..last]);
      RunProjects(reorder, commands[..last]);
      TradeStep(Run(NewProduct(reorder), commands[..last]), commands[last]);
    }
    BoughtIsSoldPlusHeld(s.ledger);
  }

  lemma TradeStep(s: State, c: Command)
    requires Projects(s) && PlainTrade(s.ledger) && PlainCommand(c)
    ensures PlainTrade(Do(s, c).ledger)
  {
    match c
    case Record(kind, quantity, unitCost, reference, _) =>
      AppliedTrades(s, kind, quantity, if Inbound(kind) then quantity else -quantity, unitCost, reference);
    case Purchase(quantity, cost, expense, _) => AppliedTrades(s, Receipt, quantity, quantity, Some(cost), Some(expense));
    case SetActive(_) =>
  }

  // ------------------------------------------------ the service

  /** One row was added, numbered next, that says what moved, at which cost, what it left and for what. */
  ghost predicate RowAdded(before: seq<Movement>, after: seq<Movement>, kind: MovementType, quantity: int, stamp: Option<int>, balance: int, reference: Option<nat>)
  {
    && |after| == |before| + 1 && after[..|before|] == before
    && after[|before|] == Movement(LastSequence(before) + 1, kind, quantity, stamp, balance, reference)
  }

  /** The value of both lots over their quantity, rounded to the cent. */
  ghost function Averaged(held: int, average: int, arriving: int, cost: int): int
    requires held + arriving > 0
  {
    RoundHalfEven(held * average + arriving * cost, held + arriving)
  }

  /** A product, its level row and its ledger, with the shared alert table. */
  class ProductStock {
    const product: nat
    const reorder: int
    const table: AlertTable
    var active: bool
    var onHand: int
    var average: int
    var ledger: seq<Movement>
    ghost var alert: Option<Severity>

    function Key(): Key
    {
      LowStock(product)
    }

    ghost function View(): State
      reads this
    {
      State(active, reorder, onHand, average, ledger, alert)
    }

    ghost predicate Valid()
      reads this, table
    {
      onHand >= 0 && OneActive(table.alerts, Key()) && Standing(table.alerts, Key(), alert)
    }

    constructor (product: nat, reorder: int, table: AlertTable)
      requires OneActive(table.alerts, LowStock(product)) && Standing(table.alerts, LowStock(product), None)
      ensures Valid() && View() == State(true, reorder, 0, 0, [], None) && View() == NewProduct(reorder) && this.product == product && this.table == table
    {
      this.product, this.reorder, this.table := product, reorder, table;
      active, onHand, average, ledger := true, 0, 0, [];
      alert := None;
    }

    /** `_apply`. */
    method Apply(kind: MovementType, quantity: int, delta: int, unitCost: Option<int>, reference: Option<nat>)
      returns (ok: bool, signal: Option<int>, recovered: bool)
      modifies this`onHand, this`average, this`ledger
      ensures var after := Applied(old(View()), kind, quantity, delta, unitCost, reference);
              && (ok <==> after.Some?)
              && View() == if ok then after.value else old(View())
      ensures ok ==> signal == (if reorder > 0 && delta < 0 && onHand <= reorder then Some(onHand) else None)
                     && (recovered <==> reorder > 0 && delta > 0 && onHand - delta <= reorder < onHand)
    {
      signal, recovered := None, false;
      if !active { return false, None, false; }
      var newOnHand := onHand + delta;
      if newOnHand < 0 && kind != Adjustment { return false, None, false; }
      if newOnHand < 0 { return false, None, false; }
      if Inbound(kind) && unitCost.Some? {
        average := WeightedAverage(onHand, average, quantity, unitCost.value);
      }
      var stamp := unitCost;
      if stamp.None? && (kind == Sale || kind == Issue) { stamp := Some(average); }
      var previous := onHand;
      onHand := newOnHand;
      if reorder > 0 {
        if delta < 0 && newOnHand <= reorder {
          signal := Some(newOnHand);
        } else if delta > 0 && previous <= reorder < newOnHand {
          recovered := true;
        }
      }
      ledger := ledger + [Movement(LastSequence(ledger) + 1, kind, quantity, stamp, newOnHand, reference)];
      ok := true;
    }

    /** `_maybe_raise_low_stock`. */
    method MaybeRaise(signal: Option<int>)
      requires Valid()
      modifies table, this`alert
      ensures signal.None? ==> table.alerts == old(table.alerts)
      ensures Valid() && OthersUntouched(old(table.alerts), table.alerts, Key())
      ensures alert == if signal.None? then old(alert)
                       else var grade := if signal.value <= 0 then Critical else Warning;
                            Some(if old(alert).Some? then Worse(old(alert).value, grade) else grade)
    {
      if signal.None? { return; }
      var grade := if signal.value <= 0 then Critical else Warning;
      table.EscalateOrCreate(Key(), grade);
      alert := Some(if alert.Some? then Worse(alert.value, grade) else grade);
    }

    /** `_maybe_resolve_low_stock`. */
    method MaybeResolve(recovered: bool)
      requires Valid()
      modifies table, this`alert
      ensures !recovered ==> table.alerts == old(table.alerts)
      ensures Valid() && OthersUntouched(old(table.alerts), table.alerts, Key())
      ensures alert == if recovered then None else old(alert)
    {
      if !recovered { return; }
      var resolved := table.ResolveActive(Key());
      alert := None;
    }

    /** What follows the commit of a movement; `alerting` is false when the alert write raises. */
    method Announce(signal: Option<int>, recovered: bool, alerting: bool)
      requires Valid() && (signal.Some? ==> !recovered)
      modifies table, this`alert
      ensures Valid() && OthersUntouched(old(table.alerts), table.alerts, Key())
      ensures !alerting ==> alert == old(alert)
      ensures alerting && signal.None? ==> alert == if recovered then None else old(alert)
      ensures alerting && signal.Some? ==>
                var grade := if signal.value <= 0 then Critical else Warning;
                alert == Some(if old(alert).Some? then Worse(old(alert).value, grade) else grade)
    {
      if !alerting { return; }
      MaybeRaise(signal);
      MaybeResolve(recovered);
    }

    /** `_apply`, commit, then the alert. */
    method Move(kind: MovementType, quantity: int, delta: int, unitCost: Option<int>, reference: Option<nat>, alerting: bool) returns (ok: bool)
      requires Valid()
      modifies this, table
      ensures Valid() && OthersUntouched(old(table.alerts), table.alerts, Key())
      ensures View() == Moved(old(View()), kind, quantity, delta, unitCost, reference, alerting)
      ensures ok <==> old(active) && old(onHand) + delta >= 0
      ensures ok && (Inbound(kind) ==> delta == quantity > 0) ==>
                && onHand == old(onHand) + delta
                && average == (if Inbound(kind) && unitCost.Some? then Averaged(old(onHand), old(average), quantity, unitCost.value) else old(average))
                && RowAdded(old(ledger), ledger, kind, quantity, if unitCost.None? && Stamped(kind) then Some(old(average)) else unitCost, onHand, reference)
      ensures |ledger| == |old(ledger)| + if ok then 1 else 0
      ensures !ok ==> View() == old(View())
    {
      var signal, recovered;
      ok, signal, recovered := Apply(kind, quantity, delta, unitCost, reference);
      if ok { Announce(signal, recovered, alerting); }
    }

    /** `record_movement`. */
    method RecordMovement(kind: MovementType, quantity: int, unitCost: Option<int>, reference: Option<nat>, alerting: bool) returns (ok: bool)
      requires Valid()
      modifies this, table
      ensures Valid() && OthersUntouched(old(table.alerts), table.alerts, Key())
      ensures View() == Do(old(View()), Record(kind, quantity, unitCost, reference, alerting))
      ensures ok <==>
                && kind != Adjustment && quantity > 0 && (kind == Receipt ==> unitCost.Some?)
                && old(active) && (kind != Receipt && kind != ReturnIn ==> quantity <= old(onHand))
      ensures ok ==>
                var arrives := kind == Receipt || kind == ReturnIn;
                var stamp := if unitCost.None? && (kind == Sale || kind == Issue) then Some(old(average)) else unitCost;
                && onHand == old(onHand) + (if arrives then quantity else -quantity)
                && RowAdded(old(ledger), ledger, kind, quantity, stamp, onHand, reference)
                && average == if arrives && unitCost.Some? then Averaged(old(onHand), old(average), quantity, unitCost.value) else old(average)
      ensures !ok ==> View() == old(View())
    {
      if kind == Adjustment || quantity <= 0 || (kind == Receipt && unitCost.None?) { return false; }
      var signed := if Inbound(kind) then quantity else -quantity;
      ok := Move(kind, quantity, signed, unitCost, reference, alerting);
    }

    /** `adjust_stock`. */
    method AdjustStock(delta: int, hasReason: bool, alerting: bool) returns (ok: bool)
      requires Valid()
      modifies this, table
      ensures Valid() && OthersUntouched(old(table.alerts), table.alerts, Key())
      ensures View() == Do(old(View()), Adjust(delta, hasReason, alerting))
      ensures ok <==> hasReason && delta != 0 && old(active) && old(onHand) + delta >= 0
      ensures ok ==>
                && onHand == old(onHand) + delta && average == old(average)
                && RowAdded(old(ledger), ledger, Adjustment, if delta < 0 then -delta else delta, None, onHand, None)
      ensures !ok ==> View() == old(View())
    {
      if !hasReason || delta == 0 { return false; }
      ok := Move(Adjustment, Abs(delta), delta, None, None, alerting);
    }

    /** `reconcile_low_stock_alert`. */
    method ReconcileAlert()
      requires Valid()
      modifies table, this`alert
      ensures Valid() && OthersUntouched(old(table.alerts), table.alerts, Key())
      ensures alert == Reconciled(old(alert), reorder, onHand)
    {
      if reorder > 0 && onHand > reorder { MaybeResolve(true); }
    }

    /** The stock half of `create_stock_purchase`: `record_purchase_receipt`, commit, reconcile. */
    method ReceivePurchase(quantity: int, cost: int, expense: nat, alerting: bool) returns (ok: bool)
      requires Valid()
      modifies this, table
      ensures Valid() && OthersUntouched(old(table.alerts), table.alerts, Key())
      ensures View() == Do(old(View()), Purchase(quantity, cost, expense, alerting))
      ensures ok <==> old(active) && quantity > 0 && cost > 0
      ensures ok ==>
                && onHand == old(onHand) + quantity && average == Averaged(old(onHand), old(average), quantity, cost)
                && RowAdded(old(ledger), ledger, Receipt, quantity, Some(cost), onHand, Some(expense))
      ensures !ok ==> View() == old(View())
    {
      if quantity <= 0 || cost <= 0 { return false; }
      var signal, recovered;
      ok, signal, recovered := Apply(Receipt, quantity, quantity, Some(cost), Some(expense));
      if !ok { return; }
      if alerting { ReconcileAlert(); }
    }

    /** The `is_active` part of `update_product`. */
    method SetActive(active: bool)
      requires Valid()
      modifies this`active
      ensures Valid() && View() == Do(old(View()), Command.SetActive(active))
      ensures this.active == active
    {
      this.active := active;
    }
  }
}
