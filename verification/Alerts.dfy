/** Deduplicated alerts: `AlertService` of `domains/alerts/service.py`. */
module Alerts {
  import opened Common

  datatype Severity = Info | Warning | Critical

  datatype Key = LowStock(product: nat) | OtherKey(name: string)

  /** An alert row; None as key is an alert raised without one. */
  datatype Alert = Alert(key: Option<Key>, severity: Severity, active: bool)

  /** `_SEVERITY_RANK`. */
  function Rank(severity: Severity): nat
  {
    match severity case Info => 0 case Warning => 1 case Critical => 2
  }

  function Worse(a: Severity, b: Severity): Severity
  {
    if Rank(b) > Rank(a) then b else a
  }

  predicate Carries(alert: Alert, key: Key)
  {
    alert.active && alert.key == Some(key)
  }

  /** No two active alerts share the key. */
  ghost predicate OneActive(alerts: seq<Alert>, key: Key)
  {
    forall i, j :: 0 <= i < j < |alerts| ==> !(Carries(alerts[i], key) && Carries(alerts[j], key))
  }

  /** What a reader of the alert list sees for a key: the grade of its active alert, if there is one. */
  ghost predicate Standing(alerts: seq<Alert>, key: Key, grade: Option<Severity>)
  {
    match grade
    case None => forall i :: 0 <= i < |alerts| ==> !Carries(alerts[i], key)
    case Some(severity) => exists i :: 0 <= i < |alerts| && Carries(alerts[i], key) && alerts[i].severity == severity
  }

  /** Every other key's alerts are as they were. */
  ghost predicate OthersUntouched(before: seq<Alert>, after: seq<Alert>, key: Key)
  {
    && |before| <= |after|
    && (forall i :: 0 <= i < |before| ==> after[i].key == before[i].key && (before[i].key != Some(key) ==> after[i] == before[i]))
    && (forall i :: |before| <= i < |after| ==> after[i].key == Some(key))
  }

  lemma StandingIsUnique(alerts: seq<Alert>, key: Key, a: Option<Severity>, b: Option<Severity>)
    requires OneActive(alerts, key) && Standing(alerts, key, a) && Standing(alerts, key, b)
    ensures a == b
  {
    if a.Some? && b.Some? {
      var i :| 0 <= i < |alerts| && Carries(alerts[i], key) && alerts[i].severity == a.value;
      var j :| 0 <= j < |alerts| && Carries(alerts[j], key) && alerts[j].severity == b.value;
      assert i == j;
    }
  }

  /** Work on one key leaves what stands for another as it was. */
  lemma {:induction false} OtherKeysStand(before: seq<Alert>, after: seq<Alert>, key: Key, other: Key, grade: Option<Severity>)
    requires OthersUntouched(before, after, key) && other != key
    ensures Standing(before, other, grade) <==> Standing(after, other, grade)
    ensures OneActive(before, other) <==> OneActive(after, other)
  {
    assert forall i :: 0 <= i < |after| ==> (Carries(after[i], other) <==> i < |before| && Carries(before[i], other));
    assert forall i :: 0 <= i < |before| && Carries(before[i], other) ==> after[i] == before[i];
  }

  class AlertTable {
    var alerts: seq<Alert>

    constructor ()
      ensures alerts == []
    {
      alerts := [];
    }

    /** The first active alert carrying the key. */
    method Find(key: Key) returns (found: bool, at: nat)
      ensures found ==> at < |alerts| && Carries(alerts[at], key)
      ensures !found ==> Standing(alerts, key, None)
    {
      at := 0;
      while at < |alerts|
        invariant 0 <= at <= |alerts|
        invariant forall i :: 0 <= i < at ==> !Carries(alerts[i], key)
      {
        if Carries(alerts[at], key) { return true, at; }
        at := at + 1;
      }
      return false, 0;
    }

    /** `create_alert_idempotent`. */
    method CreateIdempotent(key: Key, severity: Severity) returns (created: bool)
      modifies this
      ensures created <==> Standing(old(alerts), key, None)
      ensures OneActive(old(alerts), key) ==> OneActive(alerts, key)
      ensures created ==> Standing(alerts, key, Some(severity))
      ensures !created ==> alerts == old(alerts)
      ensures OthersUntouched(old(alerts), alerts, key)
    {
      var found, at := Find(key);
      if found { return false; }
      alerts := alerts + [Alert(Some(key), severity, true)];
      assert Carries(alerts[|alerts| - 1], key);
      return true;
    }

    /** `escalate_or_create_alert`: after it the standing grade is the worse of the old one and the new. */
    method EscalateOrCreate(key: Key, severity: Severity)
      requires OneActive(alerts, key)
      modifies this
      ensures OneActive(alerts, key) && OthersUntouched(old(alerts), alerts, key)
      ensures Standing(old(alerts), key, None) ==> Standing(alerts, key, Some(severity))
      ensures forall grade :: Standing(old(alerts), key, Some(grade)) ==> Standing(alerts, key, Some(Worse(grade, severity)))
    {
      var found, at := Find(key);
      if !found {
        var created := CreateIdempotent(key, severity);
        return;
      }
      ghost var grade := alerts[at].severity;
      forall other | Standing(alerts, key, Some(other)) ensures other == grade {
        StandingIsUnique(alerts, key, Some(other), Some(grade));
      }
      if Rank(severity) > Rank(alerts[at].severity) {
        alerts := alerts[at := alerts[at].(severity := severity)];
      }
      assert Carries(alerts[at], key);
    }

    /** `resolve_active_by_dedup`. */
    method ResolveActive(key: Key) returns (resolved: nat)
      modifies this
      ensures Standing(alerts, key, None) && OneActive(alerts, key)
      ensures OthersUntouched(old(alerts), alerts, key)
      ensures resolved == 0 <==> Standing(old(alerts), key, None)
      ensures OneActive(old(alerts), key) ==> resolved <= 1
    {
      resolved := 0;
      for i := 0 to |alerts|
        invariant |alerts| == |old(alerts)|
        invariant forall k :: i <= k < |alerts| ==> alerts[k] == old(alerts)[k]
        invariant forall k :: 0 <= k < i ==> !Carries(alerts[k], key) && alerts[k].key == old(alerts)[k].key
        invariant forall k :: 0 <= k < i && old(alerts)[k].key != Some(key) ==> alerts[k] == old(alerts)[k]
        invariant resolved == 0 <==> forall k :: 0 <= k < i ==> !Carries(old(alerts)[k], key)
        invariant resolved > 0 ==> exists k :: 0 <= k < i && Carries(old(alerts)[k], key)
        invariant OneActive(old(alerts), key) ==> resolved <= 1
      {
        if Carries(alerts[i], key) {
          alerts := alerts[i := alerts[i].(active := false)];
          resolved := resolved + 1;
        }
      }
    }
  }
}
