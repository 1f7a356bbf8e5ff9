/**
 The reconciliation flow of `get_reconciliation_flow` in `domains/finance/service.py`:
 total billed, split by invoice status, split again by the rail each payment came in on.
 */
module Sankey {
  import opened Common
  import opened InvoiceEvents
  import opened InvoiceBook

  /** A row of `status_aggregates`, and one of `rail_aggregates`. */
  datatype StatusRow = StatusRow(status: InvoiceStatus, billed: int, collected: int)

  datatype RailRow = RailRow(status: InvoiceStatus, vault: Vault, amount: int)

  /** The labels of the diagram. */
  datatype Label = TotalBilled | OfStatus(status: InvoiceStatus) | OfRail(vault: Vault)

  datatype Link = Link(source: nat, target: nat, value: int)

  datatype Flow = Flow(nodes: seq<Label>, links: seq<Link>, totalBilled: int, totalCollected: int, reconciled: int)

  /** The statuses of the middle column, in lifecycle order: all but the cancelled one. */
  const COLUMN := [Draft, Sent, Overdue, PartiallyPaid, Paid]

  /** Where a status stands in the column; a cancelled invoice is nowhere in it. */
  function Place(status: InvoiceStatus): nat
  {
    match status case Draft => 0 case Sent => 1 case Overdue => 2 case PartiallyPaid => 3 case Paid => 4 case Cancelled => 5
  }

  // ------------------------------------------------ aggregates over the invoices

  function Billed(books: seq<Book>, status: InvoiceStatus): int
  {
    if books == [] then 0
    else var b := books[|books| - 1]; Billed(books[..|books| - 1], status) + if b.status == status then b.total else 0
  }

  function Collected(books: seq<Book>, status: InvoiceStatus): int
  {
    if books == [] then 0
    else var b := books[|books| - 1]; Collected(books[..|books| - 1], status) + if b.status == status then b.amountPaid else 0
  }

  function OnRail(payments: seq<Payment>, vault: Vault): int
  {
    if payments == [] then 0
    else var p := payments[|payments| - 1]; OnRail(payments[..|payments| - 1], vault) + if p.vault == vault then p.amount else 0
  }

  function Railed(books: seq<Book>, status: InvoiceStatus, vault: Vault): int
  {
    if books == [] then 0
    else var b := books[|books| - 1];
         Railed(books[..|books| - 1], status, vault) + if b.status == status then OnRail(b.payments, vault) else 0
  }

  function AllRails(books: seq<Book>, status: InvoiceStatus): int
  {
    Railed(books, status, Mpesa) + Railed(books, status, Cash) + Railed(books, status, Bank)
  }

  /** A value summed over the first `n` statuses of the column. */
  function OverColumn(value: InvoiceStatus -> int, n: nat): int
    requires n <= 5
  {
    if n == 0 then 0 else OverColumn(value, n - 1) + value(COLUMN[n - 1])
  }

  /** The same over those statuses of the column that are in a set. */
  function OverSeen(value: InvoiceStatus -> int, seen: set<InvoiceStatus>): int
  {
    (if Draft in seen then value(Draft) else 0) + (if Sent in seen then value(Sent) else 0)
    + (if Overdue in seen then value(Overdue) else 0) + (if PartiallyPaid in seen then value(PartiallyPaid) else 0)
    + (if Paid in seen then value(Paid) else 0)
  }

  function BilledBy(books: seq<Book>): InvoiceStatus -> int { s => Billed(books, s) }

  function CollectedBy(books: seq<Book>): InvoiceStatus -> int { s => Collected(books, s) }

  function RailedBy(books: seq<Book>, vault: Vault): InvoiceStatus -> int { s => Railed(books, s, vault) }

  lemma SeenOneMore(value: InvoiceStatus -> int, seen: set<InvoiceStatus>, status: InvoiceStatus)
    requires status != Cancelled && status !in seen
    ensures OverSeen(value, seen + {status}) == OverSeen(value, seen) + value(status)
  {
  }

  lemma SeenAll(value: InvoiceStatus -> int, seen: set<InvoiceStatus>)
    requires forall s :: s != Cancelled && s !in seen ==> value(s) == 0
    ensures OverSeen(value, seen) == OverColumn(value, 5)
  {
    assert OverColumn(value, 5) == OverColumn(value, 3) + value(COLUMN[3]) + value(COLUMN[4]);
    assert OverColumn(value, 3) == OverColumn(value, 1) + value(COLUMN[1]) + value(COLUMN[2]);
  }

  /** Invoices as every run leaves them. */
  ghost predicate Sound(books: seq<Book>)
  {
    forall k :: 0 <= k < |books| ==> Valid(books[k]) && PaymentsPositive(books[k].payments)
  }

  ghost predicate PaymentsPositive(payments: seq<Payment>)
  {
    forall p :: 0 <= p < |payments| ==> payments[p].amount > 0
  }

  lemma {:induction false} BilledPositive(books: seq<Book>, status: InvoiceStatus)
    requires Sound(books)
    ensures Billed(books, status) >= 0
    ensures Billed(books, status) == 0 <==> forall k :: 0 <= k < |books| ==> books[k].status != status
  {
    if books != [] {
      var init := books[..|books| - 1];
      BilledPositive(init, status);
      assert forall k :: 0 <= k < |init| ==> books[k] == init[k];
    }
  }

  lemma {:induction false} CollectedNothing(books: seq<Book>, status: InvoiceStatus)
    requires forall k :: 0 <= k < |books| ==> books[k].status != status
    ensures Collected(books, status) == 0
  {
    if books != [] { CollectedNothing(books[..|books| - 1], status); }
  }

  lemma {:induction false} OnRailPositive(payments: seq<Payment>, vault: Vault)
    requires PaymentsPositive(payments)
    ensures OnRail(payments, vault) >= 0
    ensures OnRail(payments, vault) == 0 <==> forall p :: 0 <= p < |payments| ==> payments[p].vault != vault
  {
    if payments != [] {
      var init := payments[..|payments| - 1];
      OnRailPositive(init, vault);
      assert forall k :: 0 <= k < |init| ==> payments[k] == init[k];
    }
  }

  ghost predicate UsesRail(payments: seq<Payment>, vault: Vault)
  {
    exists p :: 0 <= p < |payments| && payments[p].vault == vault
  }

  ghost predicate RailAt(b: Book, status: InvoiceStatus, vault: Vault)
  {
    b.status == status && UsesRail(b.payments, vault)
  }

  /** Some invoice of the status has a payment on the vault. */
  ghost predicate HasRail(books: seq<Book>, status: InvoiceStatus, vault: Vault)
  {
    exists k :: 0 <= k < |books| && RailAt(books[k], status, vault)
  }

  lemma HasRailOneMore(books: seq<Book>, status: InvoiceStatus, vault: Vault)
    requires books != []
    ensures HasRail(books, status, vault) <==>
            HasRail(books[..|books| - 1], status, vault) || RailAt(books[|books| - 1], status, vault)
  {
    var init := books[..|books| - 1];
    if HasRail(init, status, vault) {
      var k :| 0 <= k < |init| && RailAt(init[k], status, vault);
      assert books[k] == init[k];
    }
    if HasRail(books, status, vault) {
      var k :| 0 <= k < |books| && RailAt(books[k], status, vault);
      if k < |init| { assert init[k] == books[k]; }
    }
  }

  lemma {:induction false} RailedPositive(books: seq<Book>, status: InvoiceStatus, vault: Vault)
    requires forall k :: 0 <= k < |books| ==> PaymentsPositive(books[k].payments)
    ensures Railed(books, status, vault) >= 0
    ensures Railed(books, status, vault) > 0 <==> HasRail(books, status, vault)
  {
    if books != [] {
      RailedPositive(books[..|books| - 1], status, vault);
      HasRailOneMore(books, status, vault);
      OnRailPositive(books[|books| - 1].payments, vault);
    }
  }

  /** The grouped query over invoices that are not cancelled: one row a status, in any order. */
  ghost predicate AreStatusRows(books: seq<Book>, rows: seq<StatusRow>)
  {
    && (forall i :: 0 <= i < |rows| ==> rows[i].status != Cancelled)
    && (forall i :: 0 <= i < |rows| ==> rows[i].billed == Billed(books, rows[i].status) && rows[i].collected == Collected(books, rows[i].status))
    && (forall i, j :: 0 <= i < j < |rows| ==> rows[i].status != rows[j].status)
    && (forall k :: 0 <= k < |books| && books[k].status != Cancelled ==> exists i :: 0 <= i < |rows| && rows[i].status == books[k].status)
  }

  /** The payments of those invoices, grouped by status and vault. */
  ghost predicate AreRailRows(books: seq<Book>, rows: seq<RailRow>)
  {
    && (forall i :: 0 <= i < |rows| ==>
          rows[i].status != Cancelled && HasRail(books, rows[i].status, rows[i].vault)
          && rows[i].amount == Railed(books, rows[i].status, rows[i].vault))
    && (forall i, j :: 0 <= i < j < |rows| ==> rows[i].status != rows[j].status || rows[i].vault != rows[j].vault)
    && (forall s, v :: s != Cancelled && HasRail(books, s, v) ==> exists i :: 0 <= i < |rows| && rows[i].status == s && rows[i].vault == v)
  }

  // ------------------------------------------------ what is read off the diagram

  ghost predicate EndsExist(nodes: seq<Label>, links: seq<Link>)
  {
    forall i :: 0 <= i < |links| ==> links[i].source < |nodes| && links[i].target < |nodes|
  }

  function Out(nodes: seq<Label>, links: seq<Link>, name: Label): int
  {
    if links == [] then 0
    else var l := links[|links| - 1];
         Out(nodes, links[..|links| - 1], name) + if l.source < |nodes| && nodes[l.source] == name then l.value else 0
  }

  function In(nodes: seq<Label>, links: seq<Link>, name: Label): int
  {
    if links == [] then 0
    else var l := links[|links| - 1];
         In(nodes, links[..|links| - 1], name) + if l.target < |nodes| && nodes[l.target] == name then l.value else 0
  }

  ghost predicate NoTwice(nodes: seq<Label>)
  {
    forall i, j :: 0 <= i < j < |nodes| ==> nodes[i] != nodes[j]
  }

  lemma {:induction false} MoreNodes(nodes: seq<Label>, more: seq<Label>, links: seq<Link>, name: Label)
    requires EndsExist(nodes, links)
    ensures Out(nodes + more, links, name) == Out(nodes, links, name)
    ensures In(nodes + more, links, name) == In(nodes, links, name)
  {
    if links != [] { MoreNodes(nodes, more, links[..|links| - 1], name); }
  }

  lemma OneMoreLink(nodes: seq<Label>, links: seq<Link>, l: Link, name: Label)
    requires l.source < |nodes| && l.target < |nodes|
    ensures Out(nodes, links + [l], name) == Out(nodes, links, name) + if nodes[l.source] == name then l.value else 0
    ensures In(nodes, links + [l], name) == In(nodes, links, name) + if nodes[l.target] == name then l.value else 0
  {
    assert (links + [l])[..|links|] == links;
  }

  /** The diagram while it grows, with its index of names. */
  class Diagram {
    var nodes: seq<Label>
    var index: map<Label, nat>
    var links: seq<Link>

    ghost predicate Valid()
      reads this
    {
      && (forall name :: name in index <==> name in nodes)
      && (forall name :: name in index ==> index[name] < |nodes| && nodes[index[name]] == name)
      && NoTwice(nodes) && EndsExist(nodes, links)
    }

    constructor ()
      ensures Valid() && nodes == [] && links == []
    {
      nodes, index, links := [], map[], [];
    }

    /** The local `node`: the place of a label, given one if it has none yet. */
    method Node(name: Label) returns (at: nat)
      requires Valid()
      modifies this`nodes, this`index
      ensures Valid() && at < |nodes| && nodes[at] == name
      ensures old(nodes) <= nodes && forall l :: l in nodes <==> l in old(nodes) || l == name
      ensures forall l :: Out(nodes, links, l) == Out(old(nodes), old(links), l) && In(nodes, links, l) == In(old(nodes), old(links), l)
    {
      if name !in index {
        forall l ensures Out(nodes + [name], links, l) == Out(nodes, links, l) && In(nodes + [name], links, l) == In(nodes, links, l) {
          MoreNodes(nodes, [name], links, l);
        }
        index := index[name := |nodes|];
        nodes := nodes + [name];
      }
      at := index[name];
    }

    method Connect(source: nat, name: Label, value: int)
      requires Valid() && source < |nodes|
      modifies this
      ensures Valid() && old(nodes) <= nodes && forall l :: l in nodes <==> l in old(nodes) || l == name
      ensures forall l :: Out(nodes, links, l) == Out(old(nodes), old(links), l) + if l == old(nodes[source]) then value else 0
      ensures forall l :: In(nodes, links, l) == In(old(nodes), old(links), l) + if l == name then value else 0
    {
      var target := Node(name);
      var link := Link(source, target, value);
      forall l
        ensures Out(nodes, links + [link], l) == Out(nodes, links, l) + if l == nodes[source] then value else 0
        ensures In(nodes, links + [link], l) == In(nodes, links, l) + if l == name then value else 0
      {
        OneMoreLink(nodes, links, link, l);
      }
      links := links + [link];
    }
  }

  // ------------------------------------------------ building the flow

  function Get(amounts: map<InvoiceStatus, int>, status: InvoiceStatus): int
  {
    if status in amounts then amounts[status] else 0
  }

  function RailOf(rails: map<Vault, int>, vault: Vault): int
  {
    if vault in rails then rails[vault] else 0
  }

  function RailsOf(rails: map<InvoiceStatus, map<Vault, int>>, status: InvoiceStatus): map<Vault, int>
  {
    if status in rails then rails[status] else map[]
  }

  lemma NoRowNothing(books: seq<Book>, rows: seq<StatusRow>, status: InvoiceStatus)
    requires Sound(books) && AreStatusRows(books, rows) && status != Cancelled
    requires forall i :: 0 <= i < |rows| ==> rows[i].status != status
    ensures Billed(books, status) == 0 && Collected(books, status) == 0
  {
    forall k | 0 <= k < |books| ensures books[k].status != status {}
    BilledPositive(books, status);
    CollectedNothing(books, status);
  }

  /** What each status row says, and no status twice. */
  ghost predicate RowsSay(rows: seq<StatusRow>, billed: InvoiceStatus -> int, collected: InvoiceStatus -> int)
  {
    && (forall i :: 0 <= i < |rows| ==> rows[i].status != Cancelled && rows[i].billed == billed(rows[i].status) && rows[i].collected == collected(rows[i].status))
    && (forall i, j :: 0 <= i < j < |rows| ==> rows[i].status != rows[j].status)
  }

  /** The dictionary over the status rows, and their totals. */
  method SumRows(rows: seq<StatusRow>, ghost billedBy: InvoiceStatus -> int, ghost collectedBy: InvoiceStatus -> int)
    returns (billed: map<InvoiceStatus, int>, totalBilled: int, totalCollected: int)
    requires RowsSay(rows, billedBy, collectedBy)
    ensures forall s :: s in billed <==> exists k :: 0 <= k < |rows| && rows[k].status == s
    ensures forall s :: s in billed ==> billed[s] == billedBy(s)
    ensures totalBilled == OverSeen(billedBy, billed.Keys) && totalCollected == OverSeen(collectedBy, billed.Keys)
  {
    billed, totalBilled, totalCollected := map[], 0, 0;
    for i := 0 to |rows|
      invariant forall s :: s in billed <==> exists k :: 0 <= k < i && rows[k].status == s
      invariant forall s :: s in billed ==> billed[s] == billedBy(s)
      invariant totalBilled == OverSeen(billedBy, billed.Keys) && totalCollected == OverSeen(collectedBy, billed.Keys)
    {
      SeenOneMore(billedBy, billed.Keys, rows[i].status);
      SeenOneMore(collectedBy, billed.Keys, rows[i].status);
      assert billed[rows[i].status := rows[i].billed].Keys == billed.Keys + {rows[i].status};
      billed := billed[rows[i].status := rows[i].billed];
      totalBilled := totalBilled + rows[i].billed;
      totalCollected := totalCollected + rows[i].collected;
    }
  }

  method Totals(ghost books: seq<Book>, rows: seq<StatusRow>) returns (billed: map<InvoiceStatus, int>, totalBilled: int, totalCollected: int)
    requires Sound(books) && AreStatusRows(books, rows)
    ensures forall s :: s != Cancelled ==> Get(billed, s) == Billed(books, s)
    ensures totalBilled == OverColumn(BilledBy(books), 5) && totalCollected == OverColumn(CollectedBy(books), 5)
  {
    billed, totalBilled, totalCollected := SumRows(rows, BilledBy(books), CollectedBy(books));
    forall s | s != Cancelled && s !in billed ensures Billed(books, s) == 0 && Collected(books, s) == 0 {
      NoRowNothing(books, rows, s);
    }
    SeenAll(BilledBy(books), billed.Keys);
    SeenAll(CollectedBy(books), billed.Keys);
  }

  /** Statuses that have a row for the vault among the first `n`. */
  ghost function SeenOn(rows: seq<RailRow>, vault: Vault, n: nat): set<InvoiceStatus>
    requires n <= |rows|
  {
    set i | 0 <= i < n && rows[i].vault == vault :: rows[i].status
  }

  ghost predicate RailRowsSay(rows: seq<RailRow>, books: seq<Book>)
  {
    && (forall i :: 0 <= i < |rows| ==> rows[i].status != Cancelled && rows[i].amount == Railed(books, rows[i].status, rows[i].vault) > 0)
    && (forall i, j :: 0 <= i < j < |rows| ==> rows[i].status != rows[j].status || rows[i].vault != rows[j].vault)
  }

  lemma SeenOnOneMore(rows: seq<RailRow>, books: seq<Book>, vault: Vault, i: nat)
    requires i < |rows| && RailRowsSay(rows, books)
    ensures rows[i].vault == vault ==> rows[i].status !in SeenOn(rows, vault, i)
    ensures SeenOn(rows, vault, i + 1) == SeenOn(rows, vault, i) + if rows[i].vault == vault then {rows[i].status} else {}
    ensures OverSeen(RailedBy(books, vault), SeenOn(rows, vault, i + 1)) ==
            OverSeen(RailedBy(books, vault), SeenOn(rows, vault, i)) + if rows[i].vault == vault then rows[i].amount else 0
  {
    var before, after := SeenOn(rows, vault, i), SeenOn(rows, vault, i + 1);
    if rows[i].vault == vault {
      assert after == before + {rows[i].status};
      SeenOneMore(RailedBy(books, vault), before, rows[i].status);
    } else {
      assert after == before;
    }
  }

  /** `rail_by_status[status][rail] = rail_by_status[status].get(rail, 0) + amount`. */
  function Added(rails: map<InvoiceStatus, map<Vault, int>>, status: InvoiceStatus, vault: Vault, amount: int): map<InvoiceStatus, map<Vault, int>>
  {
    var inner := RailsOf(rails, status);
    rails[status := inner[vault := RailOf(inner, vault) + amount]]
  }

  lemma AddedAt(rails: map<InvoiceStatus, map<Vault, int>>, status: InvoiceStatus, vault: Vault, amount: int, s: InvoiceStatus, v: Vault)
    ensures RailOf(RailsOf(Added(rails, status, vault, amount), s), v) ==
            RailOf(RailsOf(rails, s), v) + if s == status && v == vault then amount else 0
  {
  }

  /** The nested dictionary after the first `n` rail rows. */
  ghost predicate RailsSay(rails: map<InvoiceStatus, map<Vault, int>>, books: seq<Book>, rows: seq<RailRow>, n: nat)
    requires n <= |rows|
  {
    forall s, v :: RailSays(rails, books, rows, n, s, v)
  }

  ghost predicate RailSays(rails: map<InvoiceStatus, map<Vault, int>>, books: seq<Book>, rows: seq<RailRow>, n: nat, s: InvoiceStatus, v: Vault)
    requires n <= |rows|
  {
    RailOf(RailsOf(rails, s), v) == if s in SeenOn(rows, v, n) then Railed(books, s, v) else 0
  }

  lemma RailSaysOneMore(rails: map<InvoiceStatus, map<Vault, int>>, books: seq<Book>, rows: seq<RailRow>, i: nat, s: InvoiceStatus, v: Vault)
    requires i < |rows| && RailRowsSay(rows, books) && RailSays(rails, books, rows, i, s, v)
    ensures RailSays(Added(rails, rows[i].status, rows[i].vault, rows[i].amount), books, rows, i + 1, s, v)
  {
    SeenOnOneMore(rows, books, v, i);
    AddedAt(rails, rows[i].status, rows[i].vault, rows[i].amount, s, v);
  }

  lemma RailsSayOneMore(rails: map<InvoiceStatus, map<Vault, int>>, books: seq<Book>, rows: seq<RailRow>, i: nat)
    requires i < |rows| && RailRowsSay(rows, books) && RailsSay(rails, books, rows, i)
    ensures RailsSay(Added(rails, rows[i].status, rows[i].vault, rows[i].amount), books, rows, i + 1)
  {
    var added := Added(rails, rows[i].status, rows[i].vault, rows[i].amount);
    var n := i + 1;
    forall s, v ensures RailSays(added, books, rows, n, s, v) {
      RailSaysOneMore(rails, books, rows, i, s, v);
    }
  }

  ghost function ReconciledIn(books: seq<Book>, rows: seq<RailRow>, n: nat): int
    requires n <= |rows|
  {
    OverSeen(RailedBy(books, Mpesa), SeenOn(rows, Mpesa, n)) + OverSeen(RailedBy(books, Bank), SeenOn(rows, Bank, n))
  }

  lemma ReconciledOneMore(books: seq<Book>, rows: seq<RailRow>, i: nat)
    requires i < |rows| && RailRowsSay(rows, books)
    ensures ReconciledIn(books, rows, i + 1) ==
            ReconciledIn(books, rows, i) + if rows[i].vault == Mpesa || rows[i].vault == Bank then rows[i].amount else 0
  {
    SeenOnOneMore(rows, books, Mpesa, i);
    SeenOnOneMore(rows, books, Bank, i);
  }

  method AddRail(rails: map<InvoiceStatus, map<Vault, int>>, row: RailRow) returns (added: map<InvoiceStatus, map<Vault, int>>)
    ensures added == Added(rails, row.status, row.vault, row.amount)
  {
    added := rails;
    if row.status !in added { added := added[row.status := map[]]; }
    var inner := added[row.status];
    added := added[row.status := inner[row.vault := RailOf(inner, row.vault) + row.amount]];
    assert added == Added(rails, row.status, row.vault, row.amount);
  }

  lemma NoRailsYet(books: seq<Book>, rows: seq<RailRow>)
    ensures RailsSay(map[], books, rows, 0) && ReconciledIn(books, rows, 0) == 0
  {
  }

  /** The nested dictionary over the rail rows, and what came in on the reconciled rails. */
  method SplitByRail(ghost books: seq<Book>, rows: seq<RailRow>) returns (rails: map<InvoiceStatus, map<Vault, int>>, reconciled: int)
    requires RailRowsSay(rows, books)
    ensures RailsSay(rails, books, rows, |rows|) && reconciled == ReconciledIn(books, rows, |rows|)
  {
    rails, reconciled := map[], 0;
    NoRailsYet(books, rows);
    for i := 0 to |rows|
      invariant RailsSay(rails, books, rows, i) && reconciled == ReconciledIn(books, rows, i)
    {
      rails, reconciled := TakeRow(books, rows, i, rails, reconciled);
    }
  }

  method TakeRow(ghost books: seq<Book>, rows: seq<RailRow>, i: nat, rails: map<InvoiceStatus, map<Vault, int>>, reconciled: int)
    returns (rails': map<InvoiceStatus, map<Vault, int>>, reconciled': int)
    requires i < |rows| && RailRowsSay(rows, books) && RailsSay(rails, books, rows, i) && reconciled == ReconciledIn(books, rows, i)
    ensures RailsSay(rails', books, rows, i + 1) && reconciled' == ReconciledIn(books, rows, i + 1)
  {
    RailsSayOneMore(rails, books, rows, i);
    ReconciledOneMore(books, rows, i);
    rails', reconciled' := rails, reconciled;
    if rows[i].amount <= 0 { return; }
    rails' := AddRail(rails, rows[i]);
    if rows[i].vault == Mpesa || rows[i].vault == Bank { reconciled' := reconciled + rows[i].amount; }
  }

  // ------------------------------------------------ the three columns

  /** The first column: total billed split over the first `n` statuses. */
  ghost predicate FirstColumn(nodes: seq<Label>, links: seq<Link>, books: seq<Book>, n: nat)
    requires n <= 5
  {
    && Out(nodes, links, TotalBilled) == OverColumn(BilledBy(books), n)
    && (forall s :: In(nodes, links, OfStatus(s)) == if Place(s) < n then Billed(books, s) else 0)
    && (forall s :: Out(nodes, links, OfStatus(s)) == 0) && (forall v :: In(nodes, links, OfRail(v)) == 0)
  }

  method LinkStatus(ghost books: seq<Book>, billed: map<InvoiceStatus, int>, d: Diagram, source: nat, i: nat)
    requires d.Valid() && i < 5 && source < |d.nodes| && d.nodes[source] == TotalBilled && FirstColumn(d.nodes, d.links, books, i)
    requires Get(billed, COLUMN[i]) == Billed(books, COLUMN[i]) >= 0
    modifies d
    ensures d.Valid() && source < |d.nodes| && d.nodes[source] == TotalBilled && FirstColumn(d.nodes, d.links, books, i + 1)
  {
    var status := COLUMN[i];
    assert Place(status) == i && forall s :: Place(s) == i ==> s == status;
    if Get(billed, status) > 0 {
      d.Connect(source, OfStatus(status), Get(billed, status));
    }
  }

  method SplitByStatus(ghost books: seq<Book>, billed: map<InvoiceStatus, int>, d: Diagram)
    requires d.Valid() && d.nodes == [] && d.links == []
    requires forall s :: s != Cancelled ==> Get(billed, s) == Billed(books, s) >= 0
    modifies d
    ensures d.Valid() && d.nodes != [] && FirstColumn(d.nodes, d.links, books, 5)
  {
    var source := d.Node(TotalBilled);
    for i := 0 to 5
      invariant d.Valid() && source < |d.nodes| && d.nodes[source] == TotalBilled
      invariant FirstColumn(d.nodes, d.links, books, i)
    {
      LinkStatus(books, billed, d, source, i);
    }
  }

  function Over(rails: map<Vault, int>, vaults: set<Vault>): int
  {
    (if Mpesa in vaults then RailOf(rails, Mpesa) else 0) + (if Cash in vaults then RailOf(rails, Cash) else 0)
    + (if Bank in vaults then RailOf(rails, Bank) else 0)
  }

  lemma OverOneMore(rails: map<Vault, int>, vaults: set<Vault>, vault: Vault)
    requires vault in rails && vault !in vaults
    ensures Over(rails, vaults + {vault}) == Over(rails, vaults) + rails[vault]
  {
    match vault case Mpesa => case Cash => case Bank =>
  }

  lemma OverAll(rails: map<Vault, int>)
    ensures Over(rails, {}) == 0
    ensures Over(rails, rails.Keys) == RailOf(rails, Mpesa) + RailOf(rails, Cash) + RailOf(rails, Bank)
  {
  }

  /** The flows after a status has been linked to some of its rails. */
  ghost predicate Linked(nodes0: seq<Label>, links0: seq<Link>, nodes: seq<Label>, links: seq<Link>,
      name: Label, rails: map<Vault, int>, done: set<Vault>)
  {
    && (forall l :: Out(nodes, links, l) == Out(nodes0, links0, l) + if l == name then Over(rails, done) else 0)
    && (forall s :: In(nodes, links, OfStatus(s)) == In(nodes0, links0, OfStatus(s)))
    && (forall v :: In(nodes, links, OfRail(v)) == In(nodes0, links0, OfRail(v)) + if v in done then RailOf(rails, v) else 0)
  }

  method LinkRail(rails: map<Vault, int>, d: Diagram, source: nat, vault: Vault,
      ghost nodes0: seq<Label>, ghost links0: seq<Link>, ghost done: set<Vault>)
    requires d.Valid() && source < |d.nodes| && vault in rails && vault !in done
    requires Linked(nodes0, links0, d.nodes, d.links, d.nodes[source], rails, done)
    modifies d
    ensures d.Valid() && old(d.nodes) <= d.nodes && Linked(nodes0, links0, d.nodes, d.links, d.nodes[source], rails, done + {vault})
  {
    OverOneMore(rails, done, vault);
    d.Connect(source, OfRail(vault), rails[vault]);
  }

  /** One status's links to the rails it has. */
  method LinkRails(rails: map<Vault, int>, d: Diagram, source: nat)
    requires d.Valid() && source < |d.nodes|
    modifies d
    ensures d.Valid() && old(d.nodes) <= d.nodes
    ensures Linked(old(d.nodes), old(d.links), d.nodes, d.links, d.nodes[source], rails, rails.Keys)
  {
    var rest := rails.Keys;
    ghost var nodes0, links0 := d.nodes, d.links;
    assert rails.Keys - rest == {};
    OverAll(rails);
    while rest != {}
      invariant rest <= rails.Keys
      invariant d.Valid() && nodes0 <= d.nodes
      invariant Linked(nodes0, links0, d.nodes, d.links, d.nodes[source], rails, rails.Keys - rest)
    {
      var v :| v in rest;
      LinkRail(rails, d, source, v, nodes0, links0, rails.Keys - rest);
      assert rails.Keys - (rest - {v}) == rails.Keys - rest + {v};
      rest := rest - {v};
    }
    assert rails.Keys - rest == rails.Keys;
  }

  /** The last column: what settled on each rail, over the first `n` statuses. */
  ghost predicate LastColumn(nodes: seq<Label>, links: seq<Link>, books: seq<Book>, n: nat)
    requires n <= 5
  {
    && Out(nodes, links, TotalBilled) == OverColumn(BilledBy(books), 5)
    && (forall s :: In(nodes, links, OfStatus(s)) == if Place(s) < 5 then Billed(books, s) else 0)
    && (forall s :: Out(nodes, links, OfStatus(s)) == if Place(s) < n then AllRails(books, s) else 0)
    && (forall v :: In(nodes, links, OfRail(v)) == OverColumn(RailedBy(books, v), n))
  }

  lemma PlaceOf(i: nat, s: InvoiceStatus)
    requires i < 5
    ensures Place(s) == i <==> s == COLUMN[i]
  {
  }

  lemma RailsOneMore(nodes0: seq<Label>, links0: seq<Link>, nodes: seq<Label>, links: seq<Link>,
      books: seq<Book>, rails: map<Vault, int>, i: nat, v: Vault)
    requires i < 5 && In(nodes0, links0, OfRail(v)) == OverColumn(RailedBy(books, v), i)
    requires Linked(nodes0, links0, nodes, links, OfStatus(COLUMN[i]), rails, rails.Keys)
    requires RailOf(rails, v) == Railed(books, COLUMN[i], v)
    ensures In(nodes, links, OfRail(v)) == OverColumn(RailedBy(books, v), i + 1)
  {
    assert RailedBy(books, v)(COLUMN[i]) == RailOf(rails, v);
  }

  lemma LastColumnOneMore(nodes0: seq<Label>, links0: seq<Link>, nodes: seq<Label>, links: seq<Link>,
      books: seq<Book>, rails: map<Vault, int>, i: nat)
    requires i < 5 && LastColumn(nodes0, links0, books, i)
    requires Linked(nodes0, links0, nodes, links, OfStatus(COLUMN[i]), rails, rails.Keys)
    requires forall v :: RailOf(rails, v) == Railed(books, COLUMN[i], v)
    ensures LastColumn(nodes, links, books, i + 1)
  {
    OverAll(rails);
    forall s ensures Out(nodes, links, OfStatus(s)) == if Place(s) < i + 1 then AllRails(books, s) else 0 {
      PlaceOf(i, s);
    }
    forall v ensures In(nodes, links, OfRail(v)) == OverColumn(RailedBy(books, v), i + 1) {
      RailsOneMore(nodes0, links0, nodes, links, books, rails, i, v);
    }
  }

  lemma LinkedToNone(nodes: seq<Label>, links: seq<Link>, name: Label, none: map<Vault, int>)
    requires none == map[]
    ensures Linked(nodes, links, nodes, links, name, none, none.Keys)
  {
    OverAll(none);
  }

  method SettleStatus(ghost books: seq<Book>, billed: map<InvoiceStatus, int>, rails: map<InvoiceStatus, map<Vault, int>>, d: Diagram, i: nat)
    requires d.Valid() && i < 5 && LastColumn(d.nodes, d.links, books, i)
    requires Get(billed, COLUMN[i]) == Billed(books, COLUMN[i])
    requires Billed(books, COLUMN[i]) <= 0 ==> forall v :: Railed(books, COLUMN[i], v) == 0
    requires forall v :: RailOf(RailsOf(rails, COLUMN[i]), v) == Railed(books, COLUMN[i], v)
    modifies d
    ensures d.Valid() && old(d.nodes) <= d.nodes && LastColumn(d.nodes, d.links, books, i + 1)
  {
    var status := COLUMN[i];
    ghost var nodes0, links0 := d.nodes, d.links;
    if Get(billed, status) <= 0 {
      var none: map<Vault, int> := map[];
      LinkedToNone(nodes0, links0, OfStatus(status), none);
      LastColumnOneMore(nodes0, links0, nodes0, links0, books, none, i);
      return;
    }
    var source := d.Node(OfStatus(status));
    assert LastColumn(d.nodes, d.links, books, i);
    ghost var nodes1 := d.nodes;
    LinkRails(RailsOf(rails, status), d, source);
    LastColumnOneMore(nodes1, links0, d.nodes, d.links, books, RailsOf(rails, status), i);
  }

  lemma RailRowsArePositive(books: seq<Book>, rows: seq<RailRow>)
    requires Sound(books) && AreRailRows(books, rows)
    ensures RailRowsSay(rows, books)
  {
    forall i | 0 <= i < |rows| ensures rows[i].amount > 0 {
      RailedPositive(books, rows[i].status, rows[i].vault);
    }
  }

  lemma UnseenIsNothing(books: seq<Book>, rows: seq<RailRow>, status: InvoiceStatus, vault: Vault)
    requires Sound(books) && AreRailRows(books, rows) && status != Cancelled
    ensures status !in SeenOn(rows, vault, |rows|) ==> Railed(books, status, vault) == 0
  {
    RailedPositive(books, status, vault);
  }

  /** The dictionary holds every status's rails, and the reconciled total is the M-Pesa and bank columns. */
  lemma RailsComplete(books: seq<Book>, rows: seq<RailRow>, rails: map<InvoiceStatus, map<Vault, int>>)
    requires Sound(books) && AreRailRows(books, rows) && RailsSay(rails, books, rows, |rows|)
    ensures forall s, v :: s != Cancelled ==> RailOf(RailsOf(rails, s), v) == Railed(books, s, v)
    ensures ReconciledIn(books, rows, |rows|) == OverColumn(RailedBy(books, Mpesa), 5) + OverColumn(RailedBy(books, Bank), 5)
  {
    forall s, v: Vault | s != Cancelled
      ensures RailOf(RailsOf(rails, s), v) == Railed(books, s, v) && (s !in SeenOn(rows, v, |rows|) ==> Railed(books, s, v) == 0)
    {
      UnseenIsNothing(books, rows, s, v);
      assert RailSays(rails, books, rows, |rows|, s, v);
    }
    SeenAll(RailedBy(books, Mpesa), SeenOn(rows, Mpesa, |rows|));
    SeenAll(RailedBy(books, Bank), SeenOn(rows, Bank, |rows|));
  }

  lemma UnbilledUnpaid(books: seq<Book>, status: InvoiceStatus)
    requires Sound(books)
    ensures Billed(books, status) >= 0
    ensures Billed(books, status) == 0 ==> Collected(books, status) == 0 && forall v :: Railed(books, status, v) == 0
  {
    BilledPositive(books, status);
    if Billed(books, status) == 0 { CollectedNothing(books, status); }
    forall v ensures Billed(books, status) == 0 ==> Railed(books, status, v) == 0 {
      RailedPositive(books, status, v);
    }
  }

  /** The totals beside the diagram, and that its labels and links are in order. */
  ghost predicate TotalsHold(flow: Flow, billed: int, collected: int)
  {
    && NoTwice(flow.nodes) && EndsExist(flow.nodes, flow.links)
    && flow.totalBilled == billed == Out(flow.nodes, flow.links, TotalBilled)
    && flow.totalCollected == collected
    && flow.reconciled == In(flow.nodes, flow.links, OfRail(Mpesa)) + In(flow.nodes, flow.links, OfRail(Bank))
  }

  /** The diagram's conservation: each column is what the one before it sends. */
  ghost predicate Conserves(flow: Flow, books: seq<Book>)
  {
    && LastColumn(flow.nodes, flow.links, books, 5)
    && TotalsHold(flow, OverColumn(BilledBy(books), 5), OverColumn(CollectedBy(books), 5))
  }

  lemma ColumnZero(value: InvoiceStatus -> int)
    requires forall s :: s != Cancelled ==> value(s) >= 0
    ensures OverColumn(value, 5) >= 0
    ensures OverColumn(value, 5) == 0 ==> forall s :: s != Cancelled ==> value(s) == 0
    ensures (forall s :: s != Cancelled ==> value(s) == 0) ==> forall n :: 0 <= n <= 5 ==> OverColumn(value, n) == 0
  {
    assert OverColumn(value, 5) == OverColumn(value, 3) + value(COLUMN[3]) + value(COLUMN[4]);
    assert OverColumn(value, 3) == OverColumn(value, 1) + value(COLUMN[1]) + value(COLUMN[2]);
    assert OverColumn(value, 4) == OverColumn(value, 2) + value(COLUMN[2]) + value(COLUMN[3]);
  }

  ghost predicate AllCancelled(books: seq<Book>)
  {
    forall k :: 0 <= k < |books| ==> books[k].status == Cancelled
  }

  lemma CancelledIsUnbilled(books: seq<Book>, s: InvoiceStatus)
    requires Sound(books) && AllCancelled(books) && s != Cancelled
    ensures Billed(books, s) == 0 && Collected(books, s) == 0 && forall v :: Railed(books, s, v) == 0
  {
    BilledPositive(books, s);
    UnbilledUnpaid(books, s);
  }

  lemma UnbilledIsCancelled(books: seq<Book>)
    requires Sound(books) && forall s :: s != Cancelled ==> Billed(books, s) == 0
    ensures AllCancelled(books)
  {
    forall k | 0 <= k < |books| ensures books[k].status == Cancelled {
      BilledPositive(books, books[k].status);
    }
  }

  /** Nothing is billed exactly when every invoice is cancelled. */
  lemma TotalBilledSign(books: seq<Book>)
    requires Sound(books)
    ensures OverColumn(BilledBy(books), 5) >= 0
    ensures OverColumn(BilledBy(books), 5) == 0 <==> AllCancelled(books)
  {
    forall s ensures BilledBy(books)(s) >= 0 {
      UnbilledUnpaid(books, s);
    }
    ColumnZero(BilledBy(books));
    if OverColumn(BilledBy(books), 5) == 0 {
      assert forall s :: s != Cancelled ==> BilledBy(books)(s) == 0;
      UnbilledIsCancelled(books);
    }
    if AllCancelled(books) {
      forall s | s != Cancelled ensures BilledBy(books)(s) == 0 {
        CancelledIsUnbilled(books, s);
      }
    }
  }

  lemma {:induction false} ColumnOfZeros(value: InvoiceStatus -> int, n: nat)
    requires n <= 5 && forall i :: 0 <= i < 5 ==> value(COLUMN[i]) == 0
    ensures OverColumn(value, n) == 0
  {
    if n > 0 { ColumnOfZeros(value, n - 1); }
  }

  lemma CancelledTotals(books: seq<Book>)
    requires Sound(books) && AllCancelled(books)
    ensures OverColumn(BilledBy(books), 5) == 0 && OverColumn(CollectedBy(books), 5) == 0
  {
    forall i | 0 <= i < 5 ensures BilledBy(books)(COLUMN[i]) == 0 && CollectedBy(books)(COLUMN[i]) == 0 {
      CancelledIsUnbilled(books, COLUMN[i]);
    }
    ColumnOfZeros(BilledBy(books), 5);
    ColumnOfZeros(CollectedBy(books), 5);
  }

  lemma CancelledRails(books: seq<Book>, vault: Vault)
    requires Sound(books) && AllCancelled(books)
    ensures OverColumn(RailedBy(books, vault), 5) == 0
  {
    forall i | 0 <= i < 5 ensures RailedBy(books, vault)(COLUMN[i]) == 0 {
      CancelledIsUnbilled(books, COLUMN[i]);
    }
    ColumnOfZeros(RailedBy(books, vault), 5);
  }

  lemma {:induction false} CancelledColumns(books: seq<Book>)
    requires Sound(books) && AllCancelled(books)
    ensures forall v :: OverColumn(RailedBy(books, v), 5) == 0
    ensures forall s :: Place(s) < 5 ==> Billed(books, s) == 0 && AllRails(books, s) == 0
  {
    forall v ensures OverColumn(RailedBy(books, v), 5) == 0 {
      CancelledRails(books, v);
    }
    forall s | Place(s) < 5 ensures Billed(books, s) == 0 && AllRails(books, s) == 0 {
      CancelledIsUnbilled(books, s);
    }
  }

  lemma {:induction false} NoLinksNoFlow(books: seq<Book>)
    requires OverColumn(BilledBy(books), 5) == 0 && forall v :: OverColumn(RailedBy(books, v), 5) == 0
    requires forall s :: Place(s) < 5 ==> Billed(books, s) == 0 && AllRails(books, s) == 0
    ensures LastColumn([], [], books, 5)
  {
  }

  lemma EmptyTotals()
    ensures TotalsHold(Flow([], [], 0, 0, 0), 0, 0)
  {
  }

  /** The third column, from the rail rows. */
  method SettleStatuses(ghost books: seq<Book>, billed: map<InvoiceStatus, int>, rails: map<InvoiceStatus, map<Vault, int>>, d: Diagram)
    requires d.Valid() && d.nodes != [] && LastColumn(d.nodes, d.links, books, 0)
    requires forall s :: s != Cancelled ==> Get(billed, s) == Billed(books, s)
    requires forall s :: s != Cancelled && Billed(books, s) <= 0 ==> forall v :: Railed(books, s, v) == 0
    requires forall s, v :: s != Cancelled ==> RailOf(RailsOf(rails, s), v) == Railed(books, s, v)
    modifies d
    ensures d.Valid() && d.nodes != [] && LastColumn(d.nodes, d.links, books, 5)
  {
    for i := 0 to 5
      invariant d.Valid() && d.nodes != [] && LastColumn(d.nodes, d.links, books, i)
    {
      SettleStatus(books, billed, rails, d, i);
    }
  }

  lemma ColumnsMeet(nodes: seq<Label>, links: seq<Link>, books: seq<Book>)
    requires FirstColumn(nodes, links, books, 5)
    ensures LastColumn(nodes, links, books, 0)
  {
  }

  /** Everything after the empty case. */
  method Draw(ghost books: seq<Book>, billed: map<InvoiceStatus, int>, railRows: seq<RailRow>)
    returns (nodes: seq<Label>, links: seq<Link>, reconciled: int)
    requires Sound(books) && AreRailRows(books, railRows)
    requires forall s :: s != Cancelled ==> Get(billed, s) == Billed(books, s)
    ensures LastColumn(nodes, links, books, 5) && nodes != [] && NoTwice(nodes) && EndsExist(nodes, links)
    ensures reconciled == In(nodes, links, OfRail(Mpesa)) + In(nodes, links, OfRail(Bank))
  {
    forall s ensures Billed(books, s) >= 0 && (Billed(books, s) == 0 ==> forall v :: Railed(books, s, v) == 0) {
      UnbilledUnpaid(books, s);
    }
    RailRowsArePositive(books, railRows);
    var d := new Diagram();
    SplitByStatus(books, billed, d);
    ColumnsMeet(d.nodes, d.links, books);
    var rails;
    rails, reconciled := SplitByRail(books, railRows);
    RailsComplete(books, railRows, rails);
    SettleStatuses(books, billed, rails, d);
    nodes, links := d.nodes, d.links;
  }

  /** `get_reconciliation_flow`, over the two queries' rows in whatever order they come. */
  method ReconciliationFlow(ghost books: seq<Book>, statusRows: seq<StatusRow>, railRows: seq<RailRow>) returns (flow: Flow)
    requires Sound(books) && AreStatusRows(books, statusRows) && AreRailRows(books, railRows)
    ensures Conserves(flow, books)
    ensures flow.nodes == [] <==> AllCancelled(books)
  {
    var billed, totalBilled, totalCollected := Totals(books, statusRows);
    TotalBilledSign(books);
    if totalBilled <= 0 {
      CancelledColumns(books);
      CancelledTotals(books);
      NoLinksNoFlow(books);
      EmptyTotals();
      return Flow([], [], 0, 0, 0);
    }
    var nodes, links, reconciled := Draw(books, billed, railRows);
    flow := Flow(nodes, links, totalBilled, totalCollected, reconciled);
  }

  // ------------------------------------------------ rails against what was collected

  lemma {:induction false} RailsSplitPayments(payments: seq<Payment>)
    ensures OnRail(payments, Mpesa) + OnRail(payments, Cash) + OnRail(payments, Bank) == PaymentsTotal(payments)
  {
    if payments != [] { RailsSplitPayments(payments[..|payments| - 1]); }
  }

  /** What was taken from an invoice after its first cancellation. */
  function Late(b: Book): int
  {
    SumOf(PaymentApplied, LatePayments(b.events))
  }

  lemma LatePositive(b: Book)
    requires Valid(b)
    ensures Late(b) >= 0 && (!HasCancel(b.events) ==> Late(b) == 0)
    ensures PaymentsTotal(b.payments) == b.amountPaid + Late(b)
  {
    PaymentsAgainstRow(b);
  }

  function LateIn(books: seq<Book>, status: InvoiceStatus): int
  {
    if books == [] then 0
    else var b := books[|books| - 1]; LateIn(books[..|books| - 1], status) + if b.status == status then Late(b) else 0
  }

  /** A status's rails carry its collected total and what came in after cancellations. */
  lemma {:induction false} RailsCarryCollectedAndLate(books: seq<Book>, status: InvoiceStatus)
    requires forall k :: 0 <= k < |books| ==> Valid(books[k])
    ensures AllRails(books, status) == Collected(books, status) + LateIn(books, status)
  {
    if books != [] {
      var b := books[|books| - 1];
      RailsCarryCollectedAndLate(books[..|books| - 1], status);
      RailsSplitPayments(b.payments);
      LatePositive(b);
    }
  }

  lemma {:induction false} NoneLate(books: seq<Book>, status: InvoiceStatus)
    requires forall k :: 0 <= k < |books| ==> Late(books[k]) >= 0
    ensures LateIn(books, status) >= 0
    ensures LateIn(books, status) == 0 <==> forall k :: 0 <= k < |books| && books[k].status == status ==> Late(books[k]) == 0
  {
    if books != [] {
      var init := books[..|books| - 1];
      NoneLate(init, status);
      assert forall k :: 0 <= k < |init| ==> init[k] == books[k];
    }
  }

  lemma {:induction false} CollectedWithinBilled(books: seq<Book>, status: InvoiceStatus)
    requires forall k :: 0 <= k < |books| ==> books[k].amountPaid <= books[k].total
    ensures Collected(books, status) <= Billed(books, status)
  {
    if books != [] { CollectedWithinBilled(books[..|books| - 1], status); }
  }

  /**
   What leaves a status node is what its invoices collected exactly when none of
   them was paid after a cancellation; otherwise it is more.
   */
  lemma {:induction false} NodeConservesExactly(flow: Flow, books: seq<Book>, status: InvoiceStatus)
    requires Sound(books) && Conserves(flow, books) && status != Cancelled
    ensures Out(flow.nodes, flow.links, OfStatus(status)) == Collected(books, status) <==>
            forall k :: 0 <= k < |books| && books[k].status == status ==> Late(books[k]) == 0
    ensures Out(flow.nodes, flow.links, OfStatus(status)) >= Collected(books, status)
  {
    RailsCarryCollectedAndLate(books, status);
    forall k | 0 <= k < |books| ensures Late(books[k]) >= 0 {
      LatePositive(books[k]);
    }
    NoneLate(books, status);
  }

  /** An invoice as some run without a status PATCH leaves it. */
  ghost predicate Unpatched(b: Book)
  {
    exists subtotal, tax, at, cs :: LeftBy(b, subtotal, tax, at, cs)
  }

  ghost predicate LeftBy(b: Book, subtotal: int, tax: int, at: Instant, cs: seq<Command>)
  {
    && Created(subtotal, tax, at).Some? && b == Run(Created(subtotal, tax, at).value, cs)
    && forall i :: 0 <= i < |cs| ==> !PatchesStatus(cs[i])
  }

  lemma ExecKeepsPaymentsPositive(b: Book, c: Command)
    requires PaymentsPositive(b.payments)
    ensures PaymentsPositive(Exec(b, c).payments)
  {
    match Decide(b, c)
    case Refusal =>
    case Settled =>
    case Restatus(_, _) =>
    case Entry(kind, amount, at) => AppendFields(b, kind, amount, at);
    case Receipt(amount, vault, at) => PayIsAppendPlusRow(b, amount, vault, at);
  }

  /** Every run leaves a sound invoice, PATCH or not. */
  lemma {:induction false} EveryRunIsSound(subtotal: int, tax: int, at: Instant, cs: seq<Command>)
    requires Created(subtotal, tax, at).Some?
    ensures Sound([Run(Created(subtotal, tax, at).value, cs)])
  {
    EveryRunValid(subtotal, tax, at, cs);
    if cs != [] {
      EveryRunIsSound(subtotal, tax, at, cs[..|cs| - 1]);
      var prior := Run(Created(subtotal, tax, at).value, cs[..|cs| - 1]);
      assert [prior][0] == prior;
      ExecKeepsPaymentsPositive(prior, cs[|cs| - 1]);
    }
  }

  lemma UnpatchedIsSettled(b: Book)
    requires Unpatched(b)
    ensures Valid(b) && PaymentsPositive(b.payments) && b.amountPaid <= b.total
    ensures b.status != Cancelled ==> Late(b) == 0
  {
    var subtotal, tax, at, cs :| LeftBy(b, subtotal, tax, at, cs);
    EveryRunIsSound(subtotal, tax, at, cs);
    assert [b][0] == b;
    UnpatchedStatusFollowsLog(subtotal, tax, at, cs);
    LatePositive(b);
  }

  /**
   The flow conserves in every state reached without a status PATCH: the first
   links add up to the total billed; each status sends on exactly what it
   collected, never more than it received; and what was collected is what arrives
   on the rails.
   */
  lemma UnpatchedFlowConserves(flow: Flow, books: seq<Book>, status: InvoiceStatus)
    requires (forall k :: 0 <= k < |books| ==> Unpatched(books[k])) && Conserves(flow, books) && status != Cancelled
    ensures Sound(books)
    ensures Out(flow.nodes, flow.links, TotalBilled) == flow.totalBilled
    ensures Out(flow.nodes, flow.links, OfStatus(status)) == Collected(books, status) <= In(flow.nodes, flow.links, OfStatus(status))
  {
    forall k | 0 <= k < |books| ensures Valid(books[k]) && PaymentsPositive(books[k].payments) && books[k].amountPaid <= books[k].total
      && (books[k].status != Cancelled ==> Late(books[k]) == 0)
    {
      UnpatchedIsSettled(books[k]);
    }
    NodeConservesExactly(flow, books, status);
    CollectedWithinBilled(books, status);
  }

  /** And all that was collected arrives on the rails. */
  lemma UnpatchedTotalsMeet(flow: Flow, books: seq<Book>)
    requires (forall k :: 0 <= k < |books| ==> Unpatched(books[k])) && Conserves(flow, books)
    ensures flow.totalCollected == In(flow.nodes, flow.links, OfRail(Mpesa)) + In(flow.nodes, flow.links, OfRail(Cash)) + In(flow.nodes, flow.links, OfRail(Bank))
  {
    forall s | s != Cancelled ensures Collected(books, s) == AllRails(books, s) {
      UnpatchedFlowConserves(flow, books, s);
    }
    ColumnsAdd(books, 5);
  }

  lemma {:induction false} ColumnsAdd(books: seq<Book>, n: nat)
    requires n <= 5 && forall s :: s != Cancelled ==> Collected(books, s) == AllRails(books, s)
    ensures OverColumn(CollectedBy(books), n) ==
            OverColumn(RailedBy(books, Mpesa), n) + OverColumn(RailedBy(books, Cash), n) + OverColumn(RailedBy(books, Bank), n)
  {
    if n > 0 {
      ColumnsAdd(books, n - 1);
      assert COLUMN[n - 1] != Cancelled;
    }
  }

  lemma CancelAppends(b: Book, now: Instant)
    requires RowIsReplay(b)
    ensures var after := Append(b, InvoiceCancelled, 0, now);
            && after.amountPaid == b.amountPaid && after.balanceDue == b.balanceDue && after.payments == b.payments
            && HasCancel(after.events)
  {
    AppendFields(b, InvoiceCancelled, 0, now);
    var events := b.events + [InvoiceEvent(|b.events| + 1, InvoiceCancelled, 0, now)];
    assert events[|b.events|].eventType == InvoiceCancelled;
  }

  /** What cancelling an open invoice leaves: the money as it was. */
  ghost predicate IsCancelledFrom(b: Book, after: Book)
  {
    && Valid(after) && HasCancel(after.events)
    && after.amountPaid == b.amountPaid && after.balanceDue == b.balanceDue && after.payments == b.payments
  }

  lemma CancelKeepsMoney(b: Book, now: Instant)
    requires Valid(b) && b.status != Cancelled && b.status != Paid
    ensures IsCancelledFrom(b, Exec(b, Cancel(now)))
  {
    ExecKeepsValid(b, Cancel(now));
    CancelAppends(b, now);
    assert Exec(b, Cancel(now)) == Append(b, InvoiceCancelled, 0, now);
  }

  lemma CancelLeavesNothingLate(b: Book, after: Book)
    requires Valid(b) && !HasCancel(b.events) && IsCancelledFrom(b, after)
    ensures Late(after) == 0
  {
    LatePositive(b);
    LatePositive(after);
  }

  lemma LatePaymentAdds(b: Book, amount: int, date: Instant)
    requires Valid(b) && HasCancel(b.events) && 0 < amount <= b.balanceDue
    ensures var after := Exec(b, CashPayment(amount, date));
            Valid(after) && after.amountPaid == b.amountPaid && Late(after) == Late(b) + amount
  {
    ExecKeepsValid(b, CashPayment(amount, date));
    PayMoves(b, amount, Cash, date);
    LatePositive(b);
    LatePositive(Exec(b, CashPayment(amount, date)));
  }

  lemma RestatusKeepsLate(b: Book, status: InvoiceStatus)
    ensures var after := Exec(b, Patch(Some(status), None));
            after.status == status && after.amountPaid == b.amountPaid && after.events == b.events && Late(after) == Late(b)
  {
  }

  /** Cancelled, paid all the same, and patched back to a status of the column. */
  function CancelledPaidPatched(b: Book, amount: int, date: Instant, now: Instant, status: InvoiceStatus): Book
  {
    Exec(Exec(Exec(b, Cancel(now)), CashPayment(amount, date)), Patch(Some(status), None))
  }

  lemma PatchLeavesLatePayment(b: Book, amount: int, date: Instant, now: Instant, status: InvoiceStatus)
    requires Valid(b) && b.status != Cancelled && b.status != Paid && 0 < amount <= b.balanceDue && !HasCancel(b.events)
    ensures var patched := CancelledPaidPatched(b, amount, date, now, status);
            Valid(patched) && patched.status == status && patched.amountPaid == b.amountPaid && Late(patched) == amount
  {
    var cancelled := Exec(b, Cancel(now));
    CancelKeepsMoney(b, now);
    CancelLeavesNothingLate(b, cancelled);
    LatePaymentAdds(cancelled, amount, date);
    var paid := Exec(cancelled, CashPayment(amount, date));
    RestatusKeepsLate(paid, status);
    ExecKeepsValid(paid, Patch(Some(status), None));
  }

  /**
   A PATCH breaks it: cancel any open invoice, take a payment (which is not
   refused), and PATCH the status back.  In any flow over it and other invoices its
   status sends on more than was collected, by that payment and whatever the
   others took late.
   */
  lemma PatchBreaksTheFlow(b: Book, amount: int, date: Instant, now: Instant, status: InvoiceStatus, others: seq<Book>, flow: Flow)
    requires Valid(b) && b.status != Cancelled && b.status != Paid && 0 < amount <= b.balanceDue && status != Cancelled
    requires !HasCancel(b.events) && forall k :: 0 <= k < |others| ==> Valid(others[k])
    requires Conserves(flow, others + [CancelledPaidPatched(b, amount, date, now, status)])
    ensures var books := others + [CancelledPaidPatched(b, amount, date, now, status)];
            Out(flow.nodes, flow.links, OfStatus(status)) == Collected(books, status) + LateIn(others, status) + amount
  {
    var patched := CancelledPaidPatched(b, amount, date, now, status);
    PatchLeavesLatePayment(b, amount, date, now, status);
    RailsAndLateWith(others, patched);
  }

  lemma RailsAndLateWith(others: seq<Book>, last: Book)
    requires Valid(last) && forall k :: 0 <= k < |others| ==> Valid(others[k])
    ensures var books := others + [last];
            AllRails(books, last.status) == Collected(books, last.status) + LateIn(others, last.status) + Late(last)
  {
    var books := others + [last];
    RailsCarryCollectedAndLate(books, last.status);
    assert books[..|others|] == others;
  }
}
