/**
 The release protocol of `intelligence/proposal_service.py` for one proposal.

 A reviewer's call claims the proposal under the row lock and commits, then runs
 the write, then records its reference; a write that raises un-claims.  Any
 number of calls interleave between commits, and any of them may crash at any
 point.  Ghost counters record what was really written and what went wrong.
 */
module Proposals {
  import opened Common

  const STOCK_ADJUSTMENT := "stock.adjustment"
  const RECONCILIATION_MATCH := "reconciliation.match"

  type User = nat

  /** One approve or reject call, from its first statement to its last. */
  type CallId = nat

  datatype Status = Proposed | Applied | Rejected

  /** The row.  The stored hash of a payload is taken to determine the payload, so it is kept as the payload. */
  datatype Proposal = Proposal(
    actionType: string, payload: string, payloadHash: Option<string>, triggeredBy: Option<User>,
    status: Status, reviewedBy: Option<User>, appliedRef: Option<string>)

  datatype Decision = Approve | Reject

  datatype Verdict = Claimed(payload: string) | Turned | WrongAction | AlreadyDecided | OwnAction | PayloadChanged

  // ------------------------------------------------ what one locked section decides

  function Judge(p: Proposal, reviewer: User, expected: string, d: Decision): Verdict
  {
    if p.actionType != expected then WrongAction
    else if p.status != Proposed then AlreadyDecided
    else if p.triggeredBy == Some(reviewer) then OwnAction
    else if d == Reject then Turned
    else if p.payloadHash.Some? && p.payload != p.payloadHash.value then PayloadChanged
    else Claimed(p.payload)
  }

  function Recorded(p: Proposal, reviewer: User, v: Verdict): Proposal
  {
    match v
    case Claimed(_) => p.(status := Applied, reviewedBy := Some(reviewer))
    case Turned => p.(status := Rejected, reviewedBy := Some(reviewer))
    case _ => p
  }

  function Unclaimed(p: Proposal): Proposal
  {
    p.(status := Proposed, reviewedBy := None)
  }

  /** When an approval or rejection is refused, and why; `p` is the row as it was locked. */
  ghost predicate Refuses(v: Verdict, p: Proposal, reviewer: User, expected: string)
  {
    && (v == WrongAction <==> p.actionType != expected)
    && (v == AlreadyDecided <==> p.actionType == expected && p.status != Proposed)
    && (v == OwnAction <==> p.actionType == expected && p.status == Proposed && p.triggeredBy == Some(reviewer))
  }

  /** The row object the session mutates between commits. */
  class ProposalRow {
    const actionType: string
    const triggeredBy: Option<User>
    const payloadHash: Option<string>
    var payload: string
    var status: Status
    var reviewedBy: Option<User>
    var appliedRef: Option<string>

    ghost function View(): Proposal
      reads this
    {
      Proposal(actionType, payload, payloadHash, triggeredBy, status, reviewedBy, appliedRef)
    }

    /** `create_proposal`: inert, with the hash of the payload alongside. */
    constructor (actionType: string, payload: string, triggeredBy: Option<User>)
      ensures View() == Created(actionType, payload, triggeredBy)
      ensures this.actionType == actionType && this.payload == payload && payloadHash == Some(payload) && this.triggeredBy == triggeredBy
      ensures status == Proposed && reviewedBy == None && appliedRef == None
    {
      this.actionType, this.payload, this.triggeredBy := actionType, payload, triggeredBy;
      payloadHash, status, reviewedBy, appliedRef := Some(payload), Proposed, None, None;
    }

    /** `approve`, from the locked read to the claim's commit. */
    method Claim(reviewer: User, expected: string) returns (v: Verdict)
      modifies this
      ensures v == Judge(old(View()), reviewer, expected, Approve)
      ensures View() == Recorded(old(View()), reviewer, v)
      ensures Refuses(v, old(View()), reviewer, expected) && v != Turned
      ensures var reviewable := actionType == expected && old(status) == Proposed && triggeredBy != Some(reviewer);
              && (v == PayloadChanged <==> reviewable && payloadHash.Some? && payload != payloadHash.value)
              && (v == Claimed(payload) <==> reviewable && (payloadHash.None? || payload == payloadHash.value))
      ensures v.Claimed? ==> v.payload == payload && status == Applied && reviewedBy == Some(reviewer)
      ensures !v.Claimed? ==> status == old(status) && reviewedBy == old(reviewedBy)
      ensures payload == old(payload) && appliedRef == old(appliedRef)
    {
      if actionType != expected { return WrongAction; }
      if status != Proposed { return AlreadyDecided; }
      if triggeredBy.Some? && triggeredBy.value == reviewer { return OwnAction; }
      var captured := payload;
      if payloadHash.Some? && captured != payloadHash.value { return PayloadChanged; }
      status := Applied;
      reviewedBy := Some(reviewer);
      return Claimed(captured);
    }

    /** `reject`, from the locked read to its commit. */
    method Reject(reviewer: User, expected: string) returns (v: Verdict)
      modifies this
      ensures v == Judge(old(View()), reviewer, expected, Decision.Reject)
      ensures View() == Recorded(old(View()), reviewer, v)
      ensures Refuses(v, old(View()), reviewer, expected) && !v.Claimed? && v != PayloadChanged
      ensures v == Turned <==> actionType == expected && old(status) == Proposed && triggeredBy != Some(reviewer)
      ensures v == Turned ==> status == Rejected && reviewedBy == Some(reviewer)
      ensures v != Turned ==> status == old(status) && reviewedBy == old(reviewedBy)
      ensures payload == old(payload) && appliedRef == old(appliedRef)
    {
      if actionType != expected { return WrongAction; }
      if status != Proposed { return AlreadyDecided; }
      if triggeredBy.Some? && triggeredBy.value == reviewer { return OwnAction; }
      status := Rejected;
      reviewedBy := Some(reviewer);
      return Turned;
    }

    /** The `except` branch of `approve`. */
    method Unclaim()
      modifies this`status, this`reviewedBy
      ensures View() == Unclaimed(old(View()))
      ensures status == Proposed && reviewedBy == None
    {
      status := Proposed;
      reviewedBy := None;
    }

    /** The end of `approve`. */
    method RecordRef(ref: string)
      modifies this`appliedRef
      ensures View() == old(View()).(appliedRef := Some(ref))
    {
      appliedRef := Some(ref);
    }
  }

  function Created(actionType: string, payload: string, triggeredBy: Option<User>): Proposal
  {
    Proposal(actionType, payload, Some(payload), triggeredBy, Proposed, None, None)
  }

  // ------------------------------------------------ the interleaved protocol

  /** Where a call stands. */
  datatype Phase =
    | Locked(reviewer: User, expected: string, decision: Decision)  // holds the row lock
    | Applying(payload: string)                                     // claim committed, nothing written
    | Written                                                       // write committed on its own, reference not yet
    | Failing                                                       // the write raised, claim not yet undone
    | FailingFlushed(payload: string)                               // the same, with the write left in the session

  /**
   `writes` are the writes committed, `late` counts those of calls that raised all
   the same, and `lost` counts calls that crashed between their claim and its
   reference or un-claim with nothing of their own kept.
   */
  datatype State = State(
    row: Proposal, lock: Option<CallId>, calls: map<CallId, Phase>,
    writes: seq<string>, late: nat, lost: nat)

  datatype Step =
    | Acquire(c: CallId, reviewer: User, expected: string, decision: Decision)
    | Settle(c: CallId)
    | CommitWrite(c: CallId)
    | CommitWriteAndRef(c: CallId, ref: string)
    | CommitRef(c: CallId, ref: string)
    | Raise(c: CallId)
    | RaiseLate(c: CallId)
    | RaiseFlushed(c: CallId)
    | CommitUnclaim(c: CallId)
    | Crash(c: CallId)
    | Tamper(payload: string)

  ghost function Without(calls: map<CallId, Phase>, c: CallId): map<CallId, Phase>
  {
    map x | x in calls && x != c :: calls[x]
  }

  ghost predicate Enabled(s: State, step: Step)
  {
    match step
    case Acquire(c, _, _, _) => s.lock == None && c !in s.calls
    case Settle(c) => c in s.calls && s.calls[c].Locked? && s.lock == Some(c)
    // The stock tool commits its movement inside the write; a match commits with the reference.
    case CommitWrite(c) => c in s.calls && s.calls[c].Applying? && s.row.actionType == STOCK_ADJUSTMENT
    case CommitWriteAndRef(c, _) =>
      c in s.calls && s.calls[c].Applying? && s.row.actionType == RECONCILIATION_MATCH && s.lock == None
    case CommitRef(c, _) => c in s.calls && s.calls[c].Written? && s.lock == None
    case Raise(c) => c in s.calls && s.calls[c].Applying?
    // The stock tool may raise after its own commit; a match may raise after its flush, and the un-claim then commits both.
    case RaiseLate(c) => c in s.calls && s.calls[c].Written?
    case RaiseFlushed(c) => c in s.calls && s.calls[c].Applying? && s.row.actionType == RECONCILIATION_MATCH
    case CommitUnclaim(c) => c in s.calls && (s.calls[c].Failing? || s.calls[c].FailingFlushed?) && s.lock == None
    case Crash(c) => c in s.calls
    case Tamper(_) => s.lock == None
  }

  ghost function Do(s: State, step: Step): State
  {
    if !Enabled(s, step) then s
    else
      match step
      case Acquire(c, reviewer, expected, decision) =>
        s.(lock := Some(c), calls := s.calls[c := Locked(reviewer, expected, decision)])
      case Settle(c) =>
        var call := s.calls[c];
        var v := Judge(s.row, call.reviewer, call.expected, call.decision);
        s.(row := Recorded(s.row, call.reviewer, v), lock := None,
           calls := if v.Claimed? then s.calls[c := Applying(v.payload)] else Without(s.calls, c))
      case CommitWrite(c) =>
        s.(writes := s.writes + [s.calls[c].payload], calls := s.calls[c := Written])
      case CommitWriteAndRef(c, ref) =>
        s.(writes := s.writes + [s.calls[c].payload], row := s.row.(appliedRef := Some(ref)), calls := Without(s.calls, c))
      case CommitRef(c, ref) =>
        s.(row := s.row.(appliedRef := Some(ref)), calls := Without(s.calls, c))
      case Raise(c) => s.(calls := s.calls[c := Failing])
      case RaiseLate(c) => s.(calls := s.calls[c := Failing], late := s.late + 1)
      case RaiseFlushed(c) => s.(calls := s.calls[c := FailingFlushed(s.calls[c].payload)])
      case CommitUnclaim(c) =>
        var undone := s.(row := Unclaimed(s.row), calls := Without(s.calls, c));
        if s.calls[c].FailingFlushed? then undone.(writes := s.writes + [s.calls[c].payload], late := s.late + 1) else undone
      case Crash(c) =>
        s.(lock := if s.lock == Some(c) then None else s.lock, calls := Without(s.calls, c),
           lost := s.lost + if s.calls[c].Locked? || s.calls[c].Written? then 0 else 1)
      case Tamper(payload) => s.(row := s.row.(payload := payload))
  }

  ghost function Run(s: State, steps: seq<Step>): State
  {
    if steps == [] then s else Do(Run(s, steps[..|steps| - 1]), steps[|steps| - 1])
  }

  ghost function Start(actionType: string, payload: string, triggeredBy: Option<User>): State
  {
    State(Created(actionType, payload, triggeredBy), None, map[], [], 0, 0)
  }

  // ------------------------------------------------ the invariant

  /** The call holds the claim. */
  ghost predicate InFlight(s: State, c: CallId)
  {
    c in s.calls && !s.calls[c].Locked?
  }

  /** Writes whose call did not go on to raise. */
  ghost function Kept(s: State): int
  {
    |s.writes| - s.late
  }

  ghost predicate LockHolds(s: State)
  {
    forall c :: c in s.calls ==> (s.calls[c].Locked? <==> s.lock == Some(c))
  }

  ghost predicate OneInFlight(s: State)
  {
    && (forall c, d :: InFlight(s, c) && InFlight(s, d) ==> c == d)
    && (forall c :: InFlight(s, c) ==>
          && s.row.status == Applied && s.row.appliedRef == None && s.lost == 0
          && Kept(s) == if s.calls[c].Written? then 1 else 0)
  }

  /** Without a call in flight, an applied proposal has kept exactly the write that was not lost. */
  ghost predicate WritesMatchStatus(s: State)
  {
    && (s.row.status != Applied ==> Kept(s) == 0 && s.row.appliedRef == None && s.lost == 0)
    && (s.row.status == Applied && (forall c :: !InFlight(s, c)) ==> Kept(s) == 1 - s.lost)
    && (s.row.appliedRef.Some? ==> Kept(s) == 1 && s.row.status == Applied && forall c :: !InFlight(s, c))
    && s.lost <= 1
  }

  ghost predicate PayloadIs(s: State, payload: string)
  {
    && s.row.payloadHash == Some(payload)
    && (forall w :: w in s.writes ==> w == payload)
    && (forall c :: c in s.calls && (s.calls[c].Applying? || s.calls[c].FailingFlushed?) ==> s.calls[c].payload == payload)
  }

  ghost predicate Segregated(s: State)
  {
    && (s.row.reviewedBy.Some? <==> s.row.status != Proposed)
    && (s.row.reviewedBy.Some? ==> s.row.triggeredBy != s.row.reviewedBy)
  }

  ghost predicate Inv(s: State, payload: string)
  {
    LockHolds(s) && OneInFlight(s) && WritesMatchStatus(s) && PayloadIs(s, payload) && Segregated(s)
  }

  /** A step changes the phase of its own call only. */
  lemma OthersStay(s: State, step: Step, c: CallId)
    requires Enabled(s, step) && (step.Tamper? || c != step.c)
    ensures var t := Do(s, step);
            (c in t.calls <==> c in s.calls) && (c in s.calls ==> t.calls[c] == s.calls[c]) && (InFlight(t, c) <==> InFlight(s, c))
  {
  }

  lemma DoKeepsLock(s: State, step: Step)
    requires LockHolds(s) && Enabled(s, step)
    ensures LockHolds(Do(s, step))
  {
    var t := Do(s, step);
    forall c | c in t.calls ensures t.calls[c].Locked? <==> t.lock == Some(c) {
      if step.Tamper? || c != step.c { OthersStay(s, step, c); }
    }
  }

  /** A call that holds the claim after a step is the only one, and its step set its phase right. */
  lemma FlightAfter(s: State, step: Step, payload: string, c: CallId)
    requires Inv(s, payload) && Enabled(s, step) && InFlight(Do(s, step), c)
    ensures var t := Do(s, step);
            && t.row.status == Applied && t.row.appliedRef == None && t.lost == 0
            && Kept(t) == if t.calls[c].Written? then 1 else 0
    ensures !step.Tamper? && c != step.c ==> !InFlight(Do(s, step), step.c)
  {
    if step.Tamper? || c != step.c {
      OthersStay(s, step, c);
      assert step.Tamper? || !InFlight(s, step.c);
    }
  }

  lemma DoKeepsOne(s: State, step: Step, payload: string)
    requires Inv(s, payload) && Enabled(s, step)
    ensures OneInFlight(Do(s, step))
  {
    var t := Do(s, step);
    forall c | InFlight(t, c) { FlightAfter(s, step, payload, c); }
    forall c, d | InFlight(t, c) && InFlight(t, d) ensures c == d {
      if step.Tamper? || (c != step.c && d != step.c) {
        OthersStay(s, step, c);
        OthersStay(s, step, d);
      } else {
        FlightAfter(s, step, payload, c);
        FlightAfter(s, step, payload, d);
      }
    }
  }

  lemma DoKeepsWrites(s: State, step: Step, payload: string)
    requires Inv(s, payload) && Enabled(s, step)
    ensures WritesMatchStatus(Do(s, step))
  {
    var t := Do(s, step);
    if step.Tamper? {
      forall c { OthersStay(s, step, c); }
    } else {
      forall c | c != step.c ensures InFlight(t, c) <==> InFlight(s, c) { OthersStay(s, step, c); }
      assert InFlight(s, step.c) ==> forall c :: InFlight(s, c) ==> c == step.c;
      assert InFlight(t, step.c) || !InFlight(t, step.c);
    }
  }

  lemma DoKeepsPayload(s: State, step: Step, payload: string)
    requires Inv(s, payload) && Enabled(s, step)
    ensures PayloadIs(Do(s, step), payload) && Segregated(Do(s, step))
  {
    var t := Do(s, step);
    forall c | c in t.calls && (t.calls[c].Applying? || t.calls[c].FailingFlushed?) ensures t.calls[c].payload == payload {
      if step.Tamper? || c != step.c { OthersStay(s, step, c); }
    }
  }

  lemma DoKeepsInv(s: State, step: Step, payload: string)
    requires Inv(s, payload)
    ensures Inv(Do(s, step), payload)
  {
    if Enabled(s, step) {
      DoKeepsLock(s, step);
      DoKeepsOne(s, step, payload);
      DoKeepsWrites(s, step, payload);
      DoKeepsPayload(s, step, payload);
    }
  }

  /** Whatever reviewers, crashes, failures and edits of the row interleave, the invariant holds. */
  lemma {:induction false} EveryRunSafe(actionType: string, payload: string, triggeredBy: Option<User>, steps: seq<Step>)
    ensures Inv(Run(Start(actionType, payload, triggeredBy), steps), payload)
  {
    if steps != [] {
      EveryRunSafe(actionType, payload, triggeredBy, steps[..|steps| - 1]);
      DoKeepsInv(Run(Start(actionType, payload, triggeredBy), steps[..|steps| - 1]), steps[|steps| - 1], payload);
    }
  }

  /** No call raises once its write is made. */
  ghost predicate Clean(steps: seq<Step>)
  {
    forall i :: 0 <= i < |steps| ==> !steps[i].RaiseLate? && !steps[i].RaiseFlushed?
  }

  ghost predicate NoneLate(s: State)
  {
    s.late == 0 && forall c :: c in s.calls ==> !s.calls[c].FailingFlushed?
  }

  lemma DoKeepsNoneLate(s: State, step: Step)
    requires NoneLate(s) && !step.RaiseLate? && !step.RaiseFlushed?
    ensures NoneLate(Do(s, step))
  {
    if Enabled(s, step) {
      forall c | c in Do(s, step).calls ensures !Do(s, step).calls[c].FailingFlushed? {
        if step.Tamper? || c != step.c { OthersStay(s, step, c); }
      }
    }
  }

  lemma {:induction false} CleanRunsAreNeverLate(s: State, steps: seq<Step>)
    requires NoneLate(s) && Clean(steps)
    ensures NoneLate(Run(s, steps))
  {
    if steps != [] {
      CleanRunsAreNeverLate(s, steps[..|steps| - 1]);
      DoKeepsNoneLate(Run(s, steps[..|steps| - 1]), steps[|steps| - 1]);
    }
  }

  /**
   At most one write is ever committed, over every interleaving in which no call
   raises once its write is made: none while the proposal is open or rejected, and
   exactly one once a reference is recorded.  With such raises the same holds of
   the writes less those.  In every run each write carries the payload that was
   proposed, at most one call holds the claim, and the one who decided is not the one
   who triggered the agent.
   */
  lemma ApprovalIsAtMostOnce(actionType: string, payload: string, triggeredBy: Option<User>, steps: seq<Step>)
    ensures var s := Run(Start(actionType, payload, triggeredBy), steps);
            Clean(steps) ==>
              && |s.writes| <= 1
              && (s.row.status != Applied ==> s.writes == [])
              && (s.row.appliedRef.Some? ==> |s.writes| == 1)
    ensures var s := Run(Start(actionType, payload, triggeredBy), steps);
            && 0 <= Kept(s) <= 1
            && (s.row.status != Applied ==> Kept(s) == 0)
            && (s.row.appliedRef.Some? ==> Kept(s) == 1)
            && (forall w :: w in s.writes ==> w == payload)
            && (forall c, d :: InFlight(s, c) && InFlight(s, d) ==> c == d)
            && (s.row.reviewedBy.Some? ==> triggeredBy != s.row.reviewedBy)
  {
    var s := Run(Start(actionType, payload, triggeredBy), steps);
    EveryRunSafe(actionType, payload, triggeredBy, steps);
    RunKeepsTrigger(Start(actionType, payload, triggeredBy), steps);
    if Clean(steps) { CleanRunsAreNeverLate(Start(actionType, payload, triggeredBy), steps); }
    if c :| InFlight(s, c) { }
  }

  /** A call under the lock decides by the row alone: what an approval or a rejection that is not refused leaves. */
  lemma SettleDecides(s: State, c: CallId)
    requires c in s.calls && s.calls[c].Locked? && s.lock == Some(c)
    ensures var call, after := s.calls[c], Do(s, Settle(c));
            var allowed := s.row.actionType == call.expected && s.row.status == Proposed && s.row.triggeredBy != Some(call.reviewer);
            var intact := s.row.payloadHash.None? || s.row.payloadHash.value == s.row.payload;
            && after.lock == None && after.writes == s.writes
            && (allowed && call.decision == Reject ==>
                  after.row == s.row.(status := Rejected, reviewedBy := Some(call.reviewer)) && c !in after.calls)
            && (allowed && call.decision == Approve && intact ==>
                  after.row == s.row.(status := Applied, reviewedBy := Some(call.reviewer))
                  && c in after.calls && after.calls[c] == Applying(s.row.payload))
            && (!allowed || (call.decision == Approve && !intact) ==> after.row == s.row && c !in after.calls)
  {
  }

  /** The write's reference lands on the row, and nothing else does. */
  lemma ReferenceIsRecorded(s: State, c: CallId, ref: string)
    ensures Enabled(s, CommitRef(c, ref)) ==> Do(s, CommitRef(c, ref)).row == s.row.(appliedRef := Some(ref))
    ensures Enabled(s, CommitWriteAndRef(c, ref)) ==>
              var after := Do(s, CommitWriteAndRef(c, ref));
              after.row == s.row.(appliedRef := Some(ref)) && after.writes == s.writes + [s.calls[c].payload]
  {
  }

  lemma {:induction false} RunKeepsTrigger(s: State, steps: seq<Step>)
    ensures Run(s, steps).row.triggeredBy == s.row.triggeredBy
  {
    if steps != [] { RunKeepsTrigger(s, steps[..|steps| - 1]); }
  }

  /**
   An applied proposal whose calls have ended had its write committed exactly once
   if and only if as many writes came from calls that raised as claims were lost.
   */
  lemma WrittenOnceExactly(actionType: string, payload: string, triggeredBy: Option<User>, steps: seq<Step>)
    requires var s := Run(Start(actionType, payload, triggeredBy), steps);
             s.row.status == Applied && forall c :: !InFlight(s, c)
    ensures var s := Run(Start(actionType, payload, triggeredBy), steps);
            && (|s.writes| == 1 <==> s.late == s.lost)
            && |s.writes| == 1 + s.late - s.lost && s.lost <= 1
  {
    EveryRunSafe(actionType, payload, triggeredBy, steps);
  }

  /**
   Known before a write: the call about to make it makes the first one exactly when no
   earlier call raised with its write committed.
   */
  lemma WriteIsFirstExactly(actionType: string, payload: string, triggeredBy: Option<User>, steps: seq<Step>, c: CallId)
    requires var s := Run(Start(actionType, payload, triggeredBy), steps); c in s.calls && s.calls[c].Applying?
    ensures var s := Run(Start(actionType, payload, triggeredBy), steps);
            |s.writes| == s.late && (s.writes == [] <==> s.late == 0)
  {
    EveryRunSafe(actionType, payload, triggeredBy, steps);
    assert InFlight(Run(Start(actionType, payload, triggeredBy), steps), c);
  }

  lemma RunOneMore(s: State, steps: seq<Step>, step: Step)
    ensures Run(s, steps + [step]) == Do(Run(s, steps), step)
  {
    assert (steps + [step])[..|steps|] == steps;
  }

  /** A crash just after the claim leaves the proposal applied with nothing written. */
  lemma ClaimCanBeLost()
    ensures exists steps :: var s := Run(Start(STOCK_ADJUSTMENT, "p", None), steps);
                            s.row.status == Applied && s.calls == map[] && s.writes == []
  {
    var s0 := Start(STOCK_ADJUSTMENT, "p", None);
    var a, b, c := Acquire(0, 1, STOCK_ADJUSTMENT, Approve), Settle(0), Crash(0);
    RunOneMore(s0, [], a);
    RunOneMore(s0, [] + [a], b);
    RunOneMore(s0, [] + [a] + [b], c);
    var s := Run(s0, [] + [a] + [b] + [c]);
    assert s.row.status == Applied && s.calls == map[] && s.writes == [];
  }

  /** A claim up to its write, by call `c`, of a stock proposal nobody is working on. */
  ghost function Writing(s: State, c: CallId): State
  {
    Do(Do(Do(s, Acquire(c, 1, STOCK_ADJUSTMENT, Approve)), Settle(c)), CommitWrite(c))
  }

  /** An idle, open stock proposal. */
  ghost predicate Open(s: State)
  {
    && s.row.actionType == STOCK_ADJUSTMENT && s.row.status == Proposed && s.row.triggeredBy == None
    && s.row.payloadHash == Some(s.row.payload) && s.lock == None && s.calls == map[]
  }

  lemma WritingWrites(s: State, c: CallId)
    requires Open(s)
    ensures Writing(s, c).row == s.row.(status := Applied, reviewedBy := Some(1))
    ensures Writing(s, c).calls == map[c := Written] && Writing(s, c).lock == None
    ensures Writing(s, c).writes == s.writes + [s.row.payload] && Writing(s, c).late == s.late && Writing(s, c).lost == s.lost
  {
    var acquired := Do(s, Acquire(c, 1, STOCK_ADJUSTMENT, Approve));
    assert acquired.calls == map[c := Locked(1, STOCK_ADJUSTMENT, Approve)];
    var settled := Do(acquired, Settle(c));
    assert settled.calls == map[c := Applying(s.row.payload)];
  }

  lemma RaisingLateReopens(s: State, c: CallId)
    requires s.calls == map[c := Written] && s.lock == None
    ensures var reopened := Do(Do(s, RaiseLate(c)), CommitUnclaim(c));
            && reopened.row == Unclaimed(s.row) && reopened.calls == map[] && reopened.lock == None
            && reopened.writes == s.writes && reopened.late == s.late + 1 && reopened.lost == s.lost
  {
    assert Do(s, RaiseLate(c)).calls == map[c := Failing];
  }

  /** The claim, the write, a raise after it and the un-claim; then a second call, to its end. */
  ghost function TwiceOver(): seq<Step>
  {
    [] + [Acquire(0, 1, STOCK_ADJUSTMENT, Approve)] + [Settle(0)] + [CommitWrite(0)] + [RaiseLate(0)] + [CommitUnclaim(0)]
    + [Acquire(1, 1, STOCK_ADJUSTMENT, Approve)] + [Settle(1)] + [CommitWrite(1)] + [CommitRef(1, "movement")]
  }

  lemma TwiceOverRun(s: State)
    ensures var reopened := Do(Do(Writing(s, 0), RaiseLate(0)), CommitUnclaim(0));
            Run(s, TwiceOver()) == Do(Writing(reopened, 1), CommitRef(1, "movement"))
  {
    var first := [] + [Acquire(0, 1, STOCK_ADJUSTMENT, Approve)] + [Settle(0)] + [CommitWrite(0)];
    RunOneMore(s, [], Acquire(0, 1, STOCK_ADJUSTMENT, Approve));
    RunOneMore(s, [] + [Acquire(0, 1, STOCK_ADJUSTMENT, Approve)], Settle(0));
    RunOneMore(s, [] + [Acquire(0, 1, STOCK_ADJUSTMENT, Approve)] + [Settle(0)], CommitWrite(0));
    RunOneMore(s, first, RaiseLate(0));
    RunOneMore(s, first + [RaiseLate(0)], CommitUnclaim(0));
    var again := first + [RaiseLate(0)] + [CommitUnclaim(0)];
    RunOneMore(s, again, Acquire(1, 1, STOCK_ADJUSTMENT, Approve));
    RunOneMore(s, again + [Acquire(1, 1, STOCK_ADJUSTMENT, Approve)], Settle(1));
    RunOneMore(s, again + [Acquire(1, 1, STOCK_ADJUSTMENT, Approve)] + [Settle(1)], CommitWrite(1));
    RunOneMore(s, again + [Acquire(1, 1, STOCK_ADJUSTMENT, Approve)] + [Settle(1)] + [CommitWrite(1)], CommitRef(1, "movement"));
  }

  /** A raise after the stock tool's own commit un-claims what was written, and the next approval writes it again. */
  lemma WriteCanHappenTwice()
    ensures var s := Run(Start(STOCK_ADJUSTMENT, "p", None), TwiceOver());
            && s.row.status == Applied && s.row.appliedRef == Some("movement") && s.calls == map[]
            && s.writes == ["p", "p"] && s.lost == 0
  {
    var s0 := Start(STOCK_ADJUSTMENT, "p", None);
    TwiceOverRun(s0);
    WritingWrites(s0, 0);
    RaisingLateReopens(Writing(s0, 0), 0);
    var reopened := Do(Do(Writing(s0, 0), RaiseLate(0)), CommitUnclaim(0));
    WritingWrites(reopened, 1);
  }

  lemma {:induction false} RunKeepsMaker(s: State, steps: seq<Step>)
    ensures Run(s, steps).row.actionType == s.row.actionType && Run(s, steps).row.payloadHash == s.row.payloadHash
  {
    if steps != [] { RunKeepsMaker(s, steps[..|steps| - 1]); }
  }

  /**
   An un-claim undoes a claim altogether: whenever a proposal is open, after however
   many claims that failed, its row is as it was proposed, save for edits of the payload.
   */
  lemma OpenIsAsProposed(actionType: string, payload: string, triggeredBy: Option<User>, steps: seq<Step>)
    requires Run(Start(actionType, payload, triggeredBy), steps).row.status == Proposed
    ensures var row := Run(Start(actionType, payload, triggeredBy), steps).row;
            row == Created(actionType, payload, triggeredBy).(payload := row.payload)
  {
    EveryRunSafe(actionType, payload, triggeredBy, steps);
    RunKeepsTrigger(Start(actionType, payload, triggeredBy), steps);
    RunKeepsMaker(Start(actionType, payload, triggeredBy), steps);
  }

  ghost predicate Decided(s: State)
  {
    s.row.status != Proposed && forall c :: !InFlight(s, c)
  }

  lemma DecidedStays(s: State, payload: string, step: Step)
    requires Inv(s, payload) && Decided(s)
    ensures var t := Do(s, step);
            t.writes == s.writes && t.row == s.row.(payload := t.row.payload) && Decided(t)
  {
    assert forall c :: c in s.calls ==> InFlight(s, c) || s.calls[c].Locked?;
    var t := Do(s, step);
    assert forall c :: c in t.calls ==> (c in s.calls && t.calls[c] == s.calls[c]) || t.calls[c].Locked?;
  }

  /** A decision with no call in flight is final: nothing that follows writes or changes it. */
  lemma {:induction false} DecisionIsFinal(s: State, payload: string, steps: seq<Step>)
    requires Inv(s, payload) && Decided(s)
    ensures var t := Run(s, steps);
            t.writes == s.writes && t.row == s.row.(payload := t.row.payload) && Inv(t, payload) && Decided(t)
  {
    if steps != [] {
      DecisionIsFinal(s, payload, steps[..|steps| - 1]);
      var t := Run(s, steps[..|steps| - 1]);
      DoKeepsInv(t, steps[|steps| - 1], payload);
      DecidedStays(t, payload, steps[|steps| - 1]);
    }
  }
}
