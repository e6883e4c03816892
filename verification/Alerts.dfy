/**
 * Device alerts: fault reports, acknowledgement and recovery by heartbeat evidence
 * (internal/central/admin/alerts_sync.go, internal/central/admin/operations.go:203-228).
 */
module Alerts {
  import opened Basics

  datatype Scope = Scope(device: string, metric: string)

  datatype Status = Active | Acknowledged | AutoResolved

  /** Alert number i has ID i; `event` is the key of its latest fault report. */
  datatype Alert = Alert(scope: Scope, status: Status, event: string, code: int, created: int, resolved: Option<int>)

  /** `wellFormed` says that the event names a device, a time and the fault type. */
  datatype Fault = Fault(key: string, scope: Scope, code: int, at: int, wellFormed: bool)

  predicate Open(a: Alert) { a.status.Active? || a.status.Acknowledged? }

  /** The alert of a scope created last, by ID among equals. */
  function Newest(alerts: seq<Alert>, scope: Scope): (r: Option<nat>)
    ensures r.Some? ==> r.value < |alerts| && alerts[r.value].scope == scope
    ensures r.None? ==> forall i :: 0 <= i < |alerts| ==> alerts[i].scope != scope
  {
    if alerts == [] then None
    else
      var n := |alerts| - 1;
      var rest := Newest(alerts[..n], scope);
      if alerts[n].scope == scope && (rest.None? || alerts[rest.value].created <= alerts[n].created) then Some(n) else rest
  }

  /** A report that the newest alert of its scope has already answered for. */
  predicate Stale(a: Alert, e: Fault) {
    a.event == e.key || e.at < a.created || (a.resolved.Some? && e.at <= a.resolved.value)
  }

  function NewAlert(e: Fault): Alert { Alert(e.scope, Active, e.key, e.code, e.at, None) }

  /** The alerts after a fault report, and whether it raised a new one. */
  function Recorded(alerts: seq<Alert>, e: Fault): (seq<Alert>, bool) {
    var newest := Newest(alerts, e.scope);
    if e.code == 0 then (alerts, false)
    else if newest.None? then (alerts + [NewAlert(e)], true)
    else
      var a := alerts[newest.value];
      if Stale(a, e) then (alerts, false)
      else if Open(a) then (alerts[newest.value := a.(event := e.key, code := e.code)], false)
      else (alerts + [NewAlert(e)], true)
  }

  /** A heartbeat that shows recovery, fetched for an alert while it carried a certain event key. */
  datatype Evidence = Evidence(alert: nat, key: string, at: int)

  function Recovered(alerts: seq<Alert>, v: Evidence): seq<Alert> {
    if v.alert < |alerts| && alerts[v.alert].event == v.key && Open(alerts[v.alert])
    then alerts[v.alert := alerts[v.alert].(status := AutoResolved, resolved := Some(v.at))]
    else alerts
  }

  function RecoveredAll(alerts: seq<Alert>, found: seq<Option<Evidence>>): seq<Alert>
    decreases |found|
  {
    if found == [] then alerts
    else RecoveredAll(if found[0].Some? then Recovered(alerts, found[0].value) else alerts, found[1..])
  }

  /** One fault report as fetched; None is a payload that does not decode. */
  datatype Report = Report(id: nat, fault: Option<Fault>)

  predicate Accepted(r: Report) { r.fault.Some? && r.fault.value.wellFormed }

  function RecordedAll(alerts: seq<Alert>, reports: seq<Report>): (seq<Alert>, nat)
    decreases |reports|
  {
    if reports == [] then (alerts, 0)
    else if !Accepted(reports[0]) then RecordedAll(alerts, reports[1..])
    else
      var (next, raised) := Recorded(alerts, reports[0].fault.value);
      var (end, more) := RecordedAll(next, reports[1..]);
      (end, more + if raised then 1 else 0)
  }

  function AcceptedIds(reports: seq<Report>): seq<nat> {
    if reports == [] then [] else (if Accepted(reports[0]) then [reports[0].id] else []) + AcceptedIds(reports[1..])
  }

  class AlertStore {
    var alerts: seq<Alert>

    constructor (alerts: seq<Alert>)
      ensures this.alerts == alerts
    {
      this.alerts := alerts;
    }

    method RecordFault(e: Fault) returns (r: Result<bool, ()>)
      modifies this
      ensures r.Err? <==> !e.wellFormed
      ensures r.Err? ==> alerts == old(alerts)
      ensures r.Ok? ==> (alerts, r.value) == Recorded(old(alerts), e)
    {
      if !e.wellFormed { return Err(()); }
      if e.code == 0 { return Ok(false); }
      var newest := Newest(alerts, e.scope);
      if newest.Some? {
        var a := alerts[newest.value];
        if a.event == e.key || e.at < a.created || (a.resolved.Some? && e.at <= a.resolved.value) { return Ok(false); }
        if a.status == Active || a.status == Acknowledged {
          alerts := alerts[newest.value := a.(event := e.key, code := e.code)];
          return Ok(false);
        }
      }
      alerts := alerts + [NewAlert(e)];
      r := Ok(true);
    }

    /** The report loop: a report that fails is left for the next round and stops no other. */
    method RecordReports(reports: seq<Report>) returns (processed: seq<nat>, raised: nat, failed: bool)
      modifies this
      ensures (alerts, raised) == RecordedAll(old(alerts), reports)
      ensures processed == AcceptedIds(reports)
      ensures failed <==> exists k :: 0 <= k < |reports| && !Accepted(reports[k])
    {
      processed, raised, failed := [], 0, false;
      var i := 0;
      while i < |reports|
        invariant 0 <= i <= |reports|
        invariant var (end, more) := RecordedAll(alerts, reports[i..]); RecordedAll(old(alerts), reports) == (end, raised + more)
        invariant AcceptedIds(reports) == processed + AcceptedIds(reports[i..])
        invariant failed <==> exists k :: 0 <= k < i && !Accepted(reports[k])
      {
        var report := reports[i];
        assert reports[i..][1..] == reports[i + 1..];
        if report.fault.None? {
          failed := true;
        } else {
          var r := RecordFault(report.fault.value);
          if r.Err? {
            failed := true;
          } else {
            processed := processed + [report.id];
            if r.value { raised := raised + 1; }
          }
        }
        i := i + 1;
      }
    }

    /** The recovery loop over the alerts that were open when it began, each with the evidence found for it. */
    method ResolveRecovered(found: seq<Option<Evidence>>)
      modifies this
      ensures alerts == RecoveredAll(old(alerts), found)
    {
      var i := 0;
      while i < |found|
        invariant 0 <= i <= |found|
        invariant RecoveredAll(old(alerts), found) == RecoveredAll(alerts, found[i..])
      {
        assert found[i..][1..] == found[i + 1..];
        if found[i].Some? {
          var v := found[i].value;
          if v.alert < |alerts| && alerts[v.alert].event == v.key && (alerts[v.alert].status == Active || alerts[v.alert].status == Acknowledged) {
            alerts := alerts[v.alert := alerts[v.alert].(status := AutoResolved, resolved := Some(v.at))];
          }
        }
        i := i + 1;
      }
    }

    /** Only an active alert can be taken on; doing it twice is no error. */
    method Acknowledge(id: nat) returns (ok: bool)
      modifies this
      ensures ok <==> id < |old(alerts)| && Open(old(alerts)[id])
      ensures alerts == AcknowledgedAt(old(alerts), id)
    {
      if id >= |alerts| { return false; }
      if alerts[id].status == Acknowledged { return true; }
      if alerts[id].status != Active { return false; }
      alerts := alerts[id := alerts[id].(status := Acknowledged)];
      ok := true;
    }
  }

  function AcknowledgedAt(alerts: seq<Alert>, id: nat): seq<Alert> {
    if id < |alerts| && alerts[id].status.Active? then alerts[id := alerts[id].(status := Acknowledged)] else alerts
  }

  // -------------------------------------------------------------------- all runs

  /** When the event with a key was received. */
  type Clock = string -> int

  /** `evidence` is everything ever fetched, `processed` every report ever accepted. */
  datatype System = System(alerts: seq<Alert>, evidence: set<Evidence>, processed: set<Fault>)

  datatype Event =
    | FaultEvent(fault: Fault)
    | AckEvent(id: nat)
    | FetchEvent(id: nat, at: int)
    | RecoverEvent(evidence: Evidence)

  /** An event key stands for one event, and the gateway answers only heartbeats after that event. */
  predicate Possible(s: System, clock: Clock, e: Event) {
    match e
    case FaultEvent(fault) => fault.wellFormed && fault.at == clock(fault.key)
    case AckEvent(_) => true
    case FetchEvent(id, at) => id < |s.alerts| && Open(s.alerts[id]) && clock(s.alerts[id].event) < at
    case RecoverEvent(v) => v in s.evidence
  }

  function Next(s: System, e: Event): System {
    match e
    case FaultEvent(fault) => s.(alerts := Recorded(s.alerts, fault).0, processed := s.processed + {fault})
    case AckEvent(id) => s.(alerts := AcknowledgedAt(s.alerts, id))
    case FetchEvent(id, at) =>
      if id < |s.alerts| then s.(evidence := s.evidence + {Evidence(id, s.alerts[id].event, at)}) else s
    case RecoverEvent(v) => s.(alerts := Recovered(s.alerts, v))
  }

  ghost predicate Run(clock: Clock, events: seq<Event>, run: seq<System>) {
    && |run| == |events| + 1 && run[0] == System([], {}, {})
    && forall k :: 0 <= k < |events| ==> Possible(run[k], clock, events[k]) && run[k + 1] == Next(run[k], events[k])
  }

  /** An alert's reports are not older than itself; it is resolved after its latest report or still open. */
  predicate Timely(clock: Clock, a: Alert) {
    && a.created <= clock(a.event)
    && (Open(a) <==> a.resolved.None?)
    && (a.resolved.Some? ==> clock(a.event) < a.resolved.value)
  }

  /** The earlier of two alerts of one scope was over before the later began. */
  predicate InOrder(a: Alert, b: Alert) {
    a.scope == b.scope ==> a.resolved.Some? && a.resolved.value < b.created
  }

  ghost predicate Orderly(clock: Clock, alerts: seq<Alert>) {
    && (forall i :: 0 <= i < |alerts| ==> Timely(clock, alerts[i]))
    && (forall i, j :: 0 <= i < j < |alerts| ==> InOrder(alerts[i], alerts[j]))
  }

  ghost predicate Inv(s: System, clock: Clock) {
    Orderly(clock, s.alerts) && forall v :: v in s.evidence ==> clock(v.key) < v.at
  }

  lemma CreatedInOrder(clock: Clock, alerts: seq<Alert>, i: nat, j: nat)
    requires Orderly(clock, alerts) && i < j < |alerts| && alerts[i].scope == alerts[j].scope
    ensures alerts[i].created < alerts[j].created
  {
    assert InOrder(alerts[i], alerts[j]) && Timely(clock, alerts[i]);
  }

  lemma OrderlyPrefix(clock: Clock, alerts: seq<Alert>, n: nat)
    requires Orderly(clock, alerts) && n <= |alerts|
    ensures Orderly(clock, alerts[..n])
  {}

  /** In an orderly table the newest alert of a scope is its last one. */
  lemma {:induction false} NewestIsLast(clock: Clock, alerts: seq<Alert>, scope: Scope, i: nat)
    requires Orderly(clock, alerts) && i < |alerts| && alerts[i].scope == scope
    ensures Newest(alerts, scope).Some? && i <= Newest(alerts, scope).value
  {
    var n := |alerts| - 1;
    var rest := Newest(alerts[..n], scope);
    if i < n {
      OrderlyPrefix(clock, alerts, n);
      NewestIsLast(clock, alerts[..n], scope, i);
    } else if rest.Some? {
      assert alerts[..n][rest.value] == alerts[rest.value];
      CreatedInOrder(clock, alerts, rest.value, n);
    }
  }

  lemma AppendKeepsOrder(clock: Clock, alerts: seq<Alert>, b: Alert)
    requires Orderly(clock, alerts) && Timely(clock, b) && forall i :: 0 <= i < |alerts| ==> InOrder(alerts[i], b)
    ensures Orderly(clock, alerts + [b])
  {}

  lemma ReplaceKeepsOrder(clock: Clock, alerts: seq<Alert>, k: nat, b: Alert)
    requires Orderly(clock, alerts) && k < |alerts| && Timely(clock, b) && Open(alerts[k])
    requires b.scope == alerts[k].scope && b.created == alerts[k].created
    ensures Orderly(clock, alerts[k := b])
  {
    var after := alerts[k := b];
    forall i, j | 0 <= i < j < |after| ensures InOrder(after[i], after[j]) {
      assert InOrder(alerts[i], alerts[j]);
      assert Timely(clock, alerts[k]);
    }
  }

  lemma FaultKeepsOrder(clock: Clock, alerts: seq<Alert>, e: Fault)
    requires Orderly(clock, alerts) && e.at == clock(e.key)
    ensures Orderly(clock, Recorded(alerts, e).0)
  {
    var newest := Newest(alerts, e.scope);
    if newest.Some? { assert Timely(clock, alerts[newest.value]); }
    if Recorded(alerts, e).1 {
      forall i | 0 <= i < |alerts| ensures InOrder(alerts[i], NewAlert(e)) {
        if alerts[i].scope == e.scope {
          NewestIsLast(clock, alerts, e.scope, i);
          if i < newest.value { assert InOrder(alerts[i], alerts[newest.value]); }
        }
      }
      AppendKeepsOrder(clock, alerts, NewAlert(e));
    } else if Recorded(alerts, e).0 != alerts {
      ReplaceKeepsOrder(clock, alerts, newest.value, alerts[newest.value].(event := e.key, code := e.code));
    }
  }

  lemma EventKeepsInv(s: System, clock: Clock, e: Event)
    requires Inv(s, clock) && Possible(s, clock, e)
    ensures Inv(Next(s, e), clock)
  {
    match e {
      case FaultEvent(fault) => FaultKeepsOrder(clock, s.alerts, fault);
      case AckEvent(id) =>
        if id < |s.alerts| && s.alerts[id].status.Active? {
          assert Timely(clock, s.alerts[id]);
          ReplaceKeepsOrder(clock, s.alerts, id, s.alerts[id].(status := Acknowledged));
        }
      case FetchEvent(_, _) =>
      case RecoverEvent(v) =>
        if Recovered(s.alerts, v) != s.alerts {
          assert Timely(clock, s.alerts[v.alert]);
          ReplaceKeepsOrder(clock, s.alerts, v.alert, s.alerts[v.alert].(status := AutoResolved, resolved := Some(v.at)));
        }
    }
  }

  lemma {:induction false} RunInv(clock: Clock, events: seq<Event>, run: seq<System>, k: nat)
    requires Run(clock, events, run) && k < |run|
    ensures Inv(run[k], clock)
  {
    if k > 0 {
      RunInv(clock, events, run, k - 1);
      EventKeepsInv(run[k - 1], clock, events[k - 1]);
    }
  }

  // --------------------------------------------------------------- the theorems

  lemma OpenIsLast(clock: Clock, alerts: seq<Alert>, i: nat, j: nat)
    requires Orderly(clock, alerts) && i < |alerts| && j < |alerts| && i != j && alerts[j].scope == alerts[i].scope && Open(alerts[i])
    ensures j < i && !Open(alerts[j])
  {
    assert Timely(clock, alerts[i]) && Timely(clock, alerts[j]);
    assert i < j ==> InOrder(alerts[i], alerts[j]);
    assert j < i ==> InOrder(alerts[j], alerts[i]);
  }

  /** Of a device's alerts on one metric only the newest can be open. */
  lemma OnlyNewestIsOpen(clock: Clock, events: seq<Event>, run: seq<System>, k: nat, i: nat)
    requires Run(clock, events, run) && k < |run| && i < |run[k].alerts| && Open(run[k].alerts[i])
    ensures Newest(run[k].alerts, run[k].alerts[i].scope) == Some(i)
    ensures forall j :: 0 <= j < |run[k].alerts| && j != i && run[k].alerts[j].scope == run[k].alerts[i].scope ==> !Open(run[k].alerts[j])
  {
    RunInv(clock, events, run, k);
    var alerts := run[k].alerts;
    NewestIsLast(clock, alerts, alerts[i].scope, i);
    forall j | 0 <= j < |alerts| && j != i && alerts[j].scope == alerts[i].scope ensures j < i && !Open(alerts[j]) {
      OpenIsLast(clock, alerts, i, j);
    }
  }

  /** The alerts of one scope cover disjoint, ordered intervals of time. */
  lemma IntervalsInOrder(clock: Clock, events: seq<Event>, run: seq<System>, k: nat, i: nat, j: nat)
    requires Run(clock, events, run) && k < |run| && i < j < |run[k].alerts|
    requires run[k].alerts[i].scope == run[k].alerts[j].scope
    ensures var a, b := run[k].alerts[i], run[k].alerts[j];
      a.resolved.Some? && a.created < a.resolved.value < b.created && (b.resolved.Some? ==> b.created < b.resolved.value)
  {
    RunInv(clock, events, run, k);
    assert InOrder(run[k].alerts[i], run[k].alerts[j]);
    assert Timely(clock, run[k].alerts[i]) && Timely(clock, run[k].alerts[j]);
  }

  /** However late a recovery is written, its heartbeat is later than the alert's latest recorded report. */
  lemma RecoveryIsEvidenced(clock: Clock, events: seq<Event>, run: seq<System>, k: nat, v: Evidence)
    requires Run(clock, events, run) && k < |run| && v in run[k].evidence && Recovered(run[k].alerts, v) != run[k].alerts
    ensures v.alert < |run[k].alerts| && v.key == run[k].alerts[v.alert].event && clock(run[k].alerts[v.alert].event) < v.at
  {
    RunInv(clock, events, run, k);
  }

  /** A report raises an alert exactly if its scope has none or the newest was over before the report. */
  lemma RaisesExactly(clock: Clock, events: seq<Event>, run: seq<System>, k: nat, e: Fault)
    requires Run(clock, events, run) && k < |run| && e.at == clock(e.key) && e.code != 0
    ensures var alerts, newest := run[k].alerts, Newest(run[k].alerts, e.scope);
      Recorded(alerts, e).1 <==> newest.None? || (alerts[newest.value].resolved.Some? && alerts[newest.value].resolved.value < e.at)
  {
    RunInv(clock, events, run, k);
    var newest := Newest(run[k].alerts, e.scope);
    if newest.Some? { assert Timely(clock, run[k].alerts[newest.value]); }
  }

  /**
   * What a report does in a run: it raises an active alert of its own, becomes the latest report of the
   * open alert unless that is newer or already carries it, or changes nothing.
   */
  lemma RecordsExactly(clock: Clock, events: seq<Event>, run: seq<System>, k: nat, e: Fault)
    requires Run(clock, events, run) && k < |run| && e.at == clock(e.key) && e.code != 0
    ensures var alerts, newest := run[k].alerts, Newest(run[k].alerts, e.scope);
      Recorded(alerts, e).0 ==
      if newest.None? || (alerts[newest.value].resolved.Some? && alerts[newest.value].resolved.value < e.at)
      then alerts + [Alert(e.scope, Active, e.key, e.code, e.at, None)]
      else if alerts[newest.value].resolved.None? && alerts[newest.value].created <= e.at && alerts[newest.value].event != e.key
      then alerts[newest.value := alerts[newest.value].(event := e.key, code := e.code)]
      else alerts
  {
    RaisesExactly(clock, events, run, k, e);
    RunInv(clock, events, run, k);
    var newest := Newest(run[k].alerts, e.scope);
    if newest.Some? { assert Timely(clock, run[k].alerts[newest.value]); }
  }

  lemma RecoveryExactly(alerts: seq<Alert>, v: Evidence, i: nat)
    requires i < |alerts|
    ensures |Recovered(alerts, v)| == |alerts|
    ensures Recovered(alerts, v)[i] ==
      if v.alert == i && v.key == alerts[i].event && (alerts[i].status.Active? || alerts[i].status.Acknowledged?)
      then Alert(alerts[i].scope, AutoResolved, alerts[i].event, alerts[i].code, alerts[i].created, Some(v.at))
      else alerts[i]
  {}

  ghost predicate OneEach(found: seq<Option<Evidence>>) {
    forall j, k :: 0 <= j < k < |found| && found[j].Some? && found[k].Some? ==> found[j].value.alert != found[k].value.alert
  }

  /**
   * A recovery round resolves each alert exactly if evidence was found for it under the event key it
   * still carries and it is open, at the time of that evidence; no alert depends on another's evidence.
   */
  lemma {:induction false} RecoversExactly(alerts: seq<Alert>, found: seq<Option<Evidence>>, i: nat)
    requires OneEach(found) && i < |alerts|
    ensures |RecoveredAll(alerts, found)| == |alerts|
    ensures forall k :: 0 <= k < |found| && found[k].Some? && found[k].value.alert == i ==>
      RecoveredAll(alerts, found)[i] ==
        if found[k].value.key == alerts[i].event && (alerts[i].status.Active? || alerts[i].status.Acknowledged?)
        then Alert(alerts[i].scope, AutoResolved, alerts[i].event, alerts[i].code, alerts[i].created, Some(found[k].value.at))
        else alerts[i]
    ensures (forall k :: 0 <= k < |found| && found[k].Some? ==> found[k].value.alert != i) ==> RecoveredAll(alerts, found)[i] == alerts[i]
    decreases |found|
  {
    if found != [] {
      var next := if found[0].Some? then Recovered(alerts, found[0].value) else alerts;
      if found[0].Some? { RecoveryExactly(alerts, found[0].value, i); }
      assert OneEach(found[1..]);
      RecoversExactly(next, found[1..], i);
      assert forall k :: 0 < k < |found| ==> found[1..][k - 1] == found[k];
      if found[0].Some? && found[0].value.alert == i {
        forall k | 0 <= k < |found[1..]| && found[1..][k].Some? ensures found[1..][k].value.alert != i {
          assert found[1..][k] == found[k + 1];
        }
      }
    }
  }

  /** One report of a round: recorded if it decodes and is well formed, else without effect. */
  predicate Reported(r: Report, before: seq<Alert>, after: seq<Alert>, raised: bool) {
    if r.fault.Some? && r.fault.value.wellFormed then (after, raised) == Recorded(before, r.fault.value)
    else after == before && !raised
  }

  /** A round of reports is one report after the other, and `raised` counts the alerts raised. */
  lemma {:induction false} ReportsExactly(alerts: seq<Alert>, reports: seq<Report>) returns (states: seq<seq<Alert>>, raised: seq<bool>)
    ensures |states| == |reports| + 1 && |raised| == |reports| && states[0] == alerts
    ensures forall k :: 0 <= k < |reports| ==> Reported(reports[k], states[k], states[k + 1], raised[k])
    ensures RecordedAll(alerts, reports) == (states[|reports|], multiset(raised)[true])
    decreases |reports|
  {
    if reports == [] {
      states, raised := [alerts], [];
    } else {
      var (next, flag) := if Accepted(reports[0]) then Recorded(alerts, reports[0].fault.value) else (alerts, false);
      var later, flags := ReportsExactly(next, reports[1..]);
      states, raised := [alerts] + later, [flag] + flags;
      assert multiset(raised) == multiset{flag} + multiset(flags);
      forall k | 0 <= k < |reports| ensures Reported(reports[k], states[k], states[k + 1], raised[k]) {
        if k > 0 { assert Reported(reports[1..][k - 1], later[k - 1], later[k], flags[k - 1]); }
      }
    }
  }

  /** Marked as processed are exactly the reports that decode and are well formed. */
  lemma {:induction false} ProcessedExactly(reports: seq<Report>, id: nat)
    ensures id in AcceptedIds(reports) <==>
      exists k :: 0 <= k < |reports| && reports[k].id == id && reports[k].fault.Some? && reports[k].fault.value.wellFormed
  {
    if reports != [] {
      ProcessedExactly(reports[1..], id);
      assert reports == [reports[0]] + reports[1..];
      if k :| 0 <= k < |reports| && reports[k].id == id && Accepted(reports[k]) {
        if k > 0 { assert reports[1..][k - 1] == reports[k]; }
      }
    }
  }

  /** Acknowledging takes on an active alert and leaves everything else. */
  lemma AcknowledgesExactly(alerts: seq<Alert>, id: nat, i: nat)
    requires i < |alerts|
    ensures |AcknowledgedAt(alerts, id)| == |alerts|
    ensures AcknowledgedAt(alerts, id)[i] ==
      if i == id && alerts[i].status == Active
      then Alert(alerts[i].scope, Acknowledged, alerts[i].event, alerts[i].code, alerts[i].created, alerts[i].resolved)
      else alerts[i]
  {}

  /** A report does not move the watermark of recovery back. */
  predicate KeepsWatermark(s: System, clock: Clock, e: Event) {
    e.FaultEvent? ==>
      var newest := Newest(s.alerts, e.fault.scope);
      newest.Some? && Open(s.alerts[newest.value]) && e.fault.code != 0 && s.alerts[newest.value].created <= e.fault.at ==>
        clock(s.alerts[newest.value].event) <= e.fault.at
  }

  /** The newest alert of the report's scope answers for it, and will after its recovery. */
  predicate Covered(alerts: seq<Alert>, clock: Clock, e: Fault) {
    e.code == 0 ||
      (var newest := Newest(alerts, e.scope);
       newest.Some? && Answers(alerts[newest.value], clock, e))
  }

  predicate Answers(a: Alert, clock: Clock, e: Fault) {
    e.at < a.created || e.at <= clock(a.event) || (a.resolved.Some? && e.at <= a.resolved.value)
  }

  lemma {:induction false} NewestAfterReplace(alerts: seq<Alert>, scope: Scope, k: nat, b: Alert)
    requires k < |alerts| && b.scope == alerts[k].scope && b.created == alerts[k].created
    ensures Newest(alerts[k := b], scope) == Newest(alerts, scope)
  {
    var n := |alerts| - 1;
    if k < n {
      assert alerts[k := b][..n] == alerts[..n][k := b];
      NewestAfterReplace(alerts[..n], scope, k, b);
    } else {
      assert alerts[k := b][..n] == alerts[..n];
    }
  }

  /** Replacing an alert by one with a report no older keeps processed reports covered. */
  lemma ReplaceKeepsCovered(alerts: seq<Alert>, clock: Clock, k: nat, b: Alert, e: Fault)
    requires k < |alerts| && b.scope == alerts[k].scope && b.created == alerts[k].created
    requires clock(alerts[k].event) <= clock(b.event) && alerts[k].resolved.None? && Covered(alerts, clock, e)
    ensures Covered(alerts[k := b], clock, e)
  {
    NewestAfterReplace(alerts, e.scope, k, b);
  }

  lemma NewestAfterAppend(alerts: seq<Alert>, b: Alert, scope: Scope)
    ensures Newest(alerts + [b], scope) ==
      if b.scope == scope && (Newest(alerts, scope).None? || alerts[Newest(alerts, scope).value].created <= b.created)
      then Some(|alerts|) else Newest(alerts, scope)
  {
    assert (alerts + [b])[..|alerts|] == alerts;
  }

  lemma FaultKeepsCovered(s: System, clock: Clock, fault: Fault, e: Fault)
    requires Inv(s, clock) && fault.at == clock(fault.key) && KeepsWatermark(s, clock, FaultEvent(fault))
    requires Covered(s.alerts, clock, e)
    ensures Covered(Recorded(s.alerts, fault).0, clock, e)
  {
    var newest := Newest(s.alerts, fault.scope);
    if newest.Some? { assert Timely(clock, s.alerts[newest.value]); }
    if Recorded(s.alerts, fault).1 {
      NewestAfterAppend(s.alerts, NewAlert(fault), e.scope);
    } else if Recorded(s.alerts, fault).0 != s.alerts {
      ReplaceKeepsCovered(s.alerts, clock, newest.value, s.alerts[newest.value].(event := fault.key, code := fault.code), e);
    }
  }

  /** A report is covered as soon as it is processed. */
  lemma FaultCoversItself(s: System, clock: Clock, e: Fault)
    requires e.at == clock(e.key)
    ensures Covered(Recorded(s.alerts, e).0, clock, e)
  {
    var newest := Newest(s.alerts, e.scope);
    if Recorded(s.alerts, e).1 {
      NewestAfterAppend(s.alerts, NewAlert(e), e.scope);
    } else if Recorded(s.alerts, e).0 != s.alerts {
      NewestAfterReplace(s.alerts, e.scope, newest.value, s.alerts[newest.value].(event := e.key, code := e.code));
    }
  }

  lemma EventKeepsCovered(s: System, clock: Clock, event: Event, e: Fault)
    requires Inv(s, clock) && Possible(s, clock, event) && KeepsWatermark(s, clock, event) && Covered(s.alerts, clock, e)
    ensures Covered(Next(s, event).alerts, clock, e)
  {
    match event {
      case FaultEvent(fault) => FaultKeepsCovered(s, clock, fault, e);
      case AckEvent(id) =>
        if id < |s.alerts| && s.alerts[id].status.Active? {
          assert Timely(clock, s.alerts[id]);
          ReplaceKeepsCovered(s.alerts, clock, id, s.alerts[id].(status := Acknowledged), e);
        }
      case FetchEvent(_, _) =>
      case RecoverEvent(v) =>
        if Recovered(s.alerts, v) != s.alerts {
          assert Timely(clock, s.alerts[v.alert]);
          ReplaceKeepsCovered(s.alerts, clock, v.alert, s.alerts[v.alert].(status := AutoResolved, resolved := Some(v.at)), e);
        }
    }
  }

  lemma {:induction false} StaysCovered(clock: Clock, events: seq<Event>, run: seq<System>, j: nat, k: nat, e: Fault)
    requires Run(clock, events, run) && j <= k < |run| && Covered(run[j].alerts, clock, e)
    requires forall n :: j <= n < k ==> KeepsWatermark(run[n], clock, events[n])
    ensures Covered(run[k].alerts, clock, e)
    decreases k
  {
    if j < k {
      StaysCovered(clock, events, run, j, k - 1, e);
      RunInv(clock, events, run, k - 1);
      EventKeepsCovered(run[k - 1], clock, events[k - 1], e);
    }
  }

  /** As long as no open alert is given an older report, a report processed once never raises an alert again. */
  lemma ReplayRaisesNothing(clock: Clock, events: seq<Event>, run: seq<System>, j: nat, k: nat)
    requires Run(clock, events, run) && j < k < |run| && events[j].FaultEvent?
    requires forall n :: j < n < k ==> KeepsWatermark(run[n], clock, events[n])
    ensures !Recorded(run[k].alerts, events[j].fault).1
  {
    var e := events[j].fault;
    FaultCoversItself(run[j], clock, e);
    StaysCovered(clock, events, run, j + 1, k, e);
    RunInv(clock, events, run, k);
    if e.code != 0 {
      RaisesExactly(clock, events, run, k, e);
      var newest := Newest(run[k].alerts, e.scope);
      assert Timely(clock, run[k].alerts[newest.value]);
    }
  }

  /**
   * From a state in which an open alert is given a report older by more than one tick: a heartbeat from
   * between the two closes the alert, and its former report raises another.
   */
  lemma OlderReportSteps(s: System, clock: Clock, older: Fault, former: Fault) returns (events: seq<Event>, run: seq<System>)
    requires Inv(s, clock) && older.wellFormed && former.wellFormed && older.code != 0 && former.code != 0
    requires older.at == clock(older.key) && former.at == clock(former.key) && older.scope == former.scope
    requires var newest := Newest(s.alerts, older.scope);
      && newest.Some? && Open(s.alerts[newest.value]) && s.alerts[newest.value].event == former.key
      && s.alerts[newest.value].created <= older.at && older.at + 1 < former.at
    ensures |run| == 5 && |events| == 4 && run[0] == s
    ensures forall k :: 0 <= k < 4 ==> Possible(run[k], clock, events[k]) && run[k + 1] == Next(run[k], events[k])
    ensures events[0] == FaultEvent(older) && events[3] == FaultEvent(former) && !Recorded(s.alerts, older).1
    ensures Recorded(run[3].alerts, former).1
  {
    var id := Newest(s.alerts, older.scope).value;
    var s1 := Next(s, FaultEvent(older));
    var a := s.alerts[id].(event := older.key, code := older.code);
    assert Timely(clock, s.alerts[id]);
    assert s1.alerts == s.alerts[id := a];
    var s2 := Next(s1, FetchEvent(id, older.at + 1));
    var v := Evidence(id, older.key, older.at + 1);
    var s3 := Next(s2, RecoverEvent(v));
    var b := a.(status := AutoResolved, resolved := Some(older.at + 1));
    assert s3.alerts == s.alerts[id := b];
    NewestAfterReplace(s.alerts, older.scope, id, b);
    events := [FaultEvent(older), FetchEvent(id, older.at + 1), RecoverEvent(v), FaultEvent(former)];
    run := [s, s1, s2, s3, Next(s3, FaultEvent(former))];
  }

  lemma RunsJoin(clock: Clock, events: seq<Event>, run: seq<System>, more: seq<Event>, steps: seq<System>)
    requires Run(clock, events, run) && |steps| == |more| + 1 && steps[0] == run[|events|]
    requires forall k :: 0 <= k < |more| ==> Possible(steps[k], clock, more[k]) && steps[k + 1] == Next(steps[k], more[k])
    ensures Run(clock, events + more, run[..|events|] + steps)
  {
    var all, longer := events + more, run[..|events|] + steps;
    forall k | 0 <= k < |all| ensures Possible(longer[k], clock, all[k]) && longer[k + 1] == Next(longer[k], all[k]) {
      if k >= |events| { assert longer[k] == steps[k - |events|] && longer[k + 1] == steps[k + 1 - |events|]; }
    }
  }

  /**
   * Without that condition it can: in any run that processed a report at step j and ends with that
   * report's alert still open, a report older by more than one tick can come in, and the run goes on
   * to the same report raising a second alert.
   */
  lemma OlderReportReopens(clock: Clock, events: seq<Event>, run: seq<System>, j: nat, older: Fault)
    returns (longerEvents: seq<Event>, longer: seq<System>)
    requires Run(clock, events, run) && j < |events| && events[j].FaultEvent? && events[j].fault.code != 0
    requires older.wellFormed && older.code != 0 && older.at == clock(older.key) && older.scope == events[j].fault.scope
    requires var alerts, newest := run[|events|].alerts, Newest(run[|events|].alerts, older.scope);
      && newest.Some? && Open(alerts[newest.value]) && alerts[newest.value].event == events[j].fault.key
      && alerts[newest.value].created <= older.at && older.at + 1 < events[j].fault.at
    ensures Run(clock, longerEvents, longer) && |longerEvents| == |events| + 4 && events <= longerEvents
    ensures longerEvents[|events|] == FaultEvent(older) && longerEvents[|events| + 3] == events[j]
    ensures Recorded(longer[|events| + 3].alerts, events[j].fault).1
  {
    RunInv(clock, events, run, |events|);
    var former := events[j].fault;
    assert Possible(run[j], clock, events[j]);
    var more, steps := OlderReportSteps(run[|events|], clock, older, former);
    RunsJoin(clock, events, run, more, steps);
    longerEvents, longer := events + more, run[..|events|] + steps;
    assert longer[|events| + 3] == steps[3];
  }
}
