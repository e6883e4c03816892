/** The registry of connected devices: attach, replace, detach and send (internal/protocol/registry.go). */
module Registry {
  import opened Basics

  /** An entry's identity, not its session, tells attachments apart. */
  class Entry {
    const session: nat

    constructor (session: nat)
      ensures this.session == session
    {
      this.session := session;
    }
  }

  class Sessions {
    var entries: map<string, Entry>

    constructor ()
      ensures entries == map[]
    {
      entries := map[];
    }

    /** The locked part of Attach; the caller then closes the previous session, if there was one. */
    method Attach(device: string, session: nat) returns (current: Entry, previous: Option<Entry>)
      modifies this
      ensures fresh(current) && current.session == session
      ensures entries == old(entries)[device := current]
      ensures previous == if device in old(entries) then Some(old(entries)[device]) else None
    {
      previous := if device in entries then Some(entries[device]) else None;
      current := new Entry(session);
      entries := entries[device := current];
    }

    /** The closure that Attach returned for an entry. */
    method Detach(device: string, current: Entry)
      modifies this
      ensures entries == if device in old(entries) && old(entries)[device] == current then old(entries) - {device} else old(entries)
    {
      if device in entries && entries[device] == current { entries := entries - {device}; }
    }

    /** The locked part of Send: whom a command goes to; None is the offline error. */
    method Target(device: string) returns (entry: Option<Entry>)
      ensures entry == if device in entries then Some(entries[device]) else None
    {
      entry := if device in entries then Some(entries[device]) else None;
    }

    method Connected(device: string) returns (yes: bool)
      ensures yes <==> device in entries
    {
      yes := device in entries;
    }
  }

  // ------------------------------------------------------------ all interleavings

  /** A close call: by which attachment, on which one's session. */
  datatype Close = Close(caller: nat, target: nat)

  /**
   * Attachment i was the i-th; `devices[i]` is its device. `pending` holds the close that an Attach
   * still owes, `replaced` who replaced whom, `sent` the attachment each command was handed to.
   */
  datatype System = System(
    devices: seq<string>, current: map<string, nat>, pending: map<nat, nat>, closes: seq<Close>,
    replaced: map<nat, nat>, detached: set<nat>, sent: seq<nat>)

  datatype Event =
    | AttachEvent(device: string)
    | CloseEvent(attachment: nat)
    | DetachEvent(attachment: nat)
    | SendEvent(device: string)

  /** A detach closure exists once its Attach has returned, and can be called again and again. */
  predicate Possible(s: System, e: Event) {
    match e
    case AttachEvent(_) => true
    case CloseEvent(i) => i in s.pending
    case DetachEvent(i) => i < |s.devices| && i !in s.pending
    case SendEvent(_) => true
  }

  function Attached(s: System, device: string): System {
    var i := |s.devices|;
    var s1 := s.(devices := s.devices + [device], current := s.current[device := i]);
    if device in s.current
    then s1.(pending := s.pending[i := s.current[device]], replaced := s.replaced[s.current[device] := i])
    else s1
  }

  function Detached(s: System, i: nat): System
    requires i < |s.devices|
  {
    var device := s.devices[i];
    s.(current := if device in s.current && s.current[device] == i then s.current - {device} else s.current,
       detached := s.detached + {i})
  }

  function Next(s: System, e: Event): System
    requires Possible(s, e)
  {
    match e
    case AttachEvent(device) => Attached(s, device)
    case CloseEvent(i) => s.(pending := s.pending - {i}, closes := s.closes + [Close(i, s.pending[i])])
    case DetachEvent(i) => Detached(s, i)
    case SendEvent(device) => if device in s.current then s.(sent := s.sent + [s.current[device]]) else s
  }

  ghost predicate Run(run: seq<System>, events: seq<Event>) {
    && |run| == |events| + 1 && run[0] == System([], map[], map[], [], map[], {}, [])
    && forall k :: 0 <= k < |events| ==> Possible(run[k], events[k]) && run[k + 1] == Next(run[k], events[k])
  }

  /** The most recent attachment of a device. */
  function Latest(devices: seq<string>, device: string): (r: Option<nat>)
    ensures r.Some? ==> r.value < |devices| && devices[r.value] == device
    ensures r.Some? ==> forall i :: r.value < i < |devices| ==> devices[i] != device
    ensures r.None? ==> device !in devices
  {
    if devices == [] then None
    else if devices[|devices| - 1] == device then Some(|devices| - 1)
    else Latest(devices[..|devices| - 1], device)
  }

  /** Attachment i is current, or its own detach ran, or a later one replaced it. */
  predicate Accounted(s: System, i: nat)
    requires i < |s.devices|
  {
    || (s.devices[i] in s.current && s.current[s.devices[i]] == i)
    || i in s.detached || i in s.replaced
  }

  ghost predicate MapOk(s: System) {
    && (forall d :: d in s.current ==> Latest(s.devices, d) == Some(s.current[d]) && s.current[d] !in s.detached)
    && (forall i :: 0 <= i < |s.devices| ==> Accounted(s, i))
    && (forall i :: i in s.replaced ==>
         i < s.replaced[i] < |s.devices| && s.devices[s.replaced[i]] == s.devices[i])
    && (forall i :: i in s.detached ==> i < |s.devices|)
  }

  /** What is replaced is closed once by its replacer, or that close is still owed. */
  ghost predicate ClosesOk(s: System) {
    && (forall i :: i in s.pending ==> s.pending[i] in s.replaced && s.replaced[s.pending[i]] == i)
    && (forall k :: 0 <= k < |s.closes| ==>
         && s.closes[k].target in s.replaced && s.replaced[s.closes[k].target] == s.closes[k].caller
         && s.closes[k].caller !in s.pending)
    && (forall j, k :: 0 <= j < k < |s.closes| ==> s.closes[j] != s.closes[k])
    && (forall i :: i in s.replaced ==>
         (s.replaced[i] in s.pending && s.pending[s.replaced[i]] == i) || Close(s.replaced[i], i) in s.closes)
  }

  ghost predicate Inv(s: System) {
    MapOk(s) && ClosesOk(s) && (forall i, j :: i in s.replaced && j in s.replaced && s.replaced[i] == s.replaced[j] ==> i == j)
  }

  lemma LatestAfter(devices: seq<string>, device: string, d: string)
    ensures Latest(devices + [device], d) == if d == device then Some(|devices|) else Latest(devices, d)
  {
    assert (devices + [device])[..|devices|] == devices;
  }

  lemma AttachKeepsLatest(s: System, device: string, d: string)
    requires MapOk(s) && d in Attached(s, device).current
    ensures var s' := Attached(s, device); Latest(s'.devices, d) == Some(s'.current[d]) && s'.current[d] !in s'.detached
  {
    LatestAfter(s.devices, device, d);
  }

  lemma AttachAccounts(s: System, device: string, i: nat)
    requires MapOk(s) && i < |Attached(s, device).devices|
    ensures Accounted(Attached(s, device), i)
  {
    if i < |s.devices| { assert Accounted(s, i); }
  }

  lemma AttachKeepsReplaced(s: System, device: string, i: nat)
    requires MapOk(s) && i in Attached(s, device).replaced
    ensures var s' := Attached(s, device); i < s'.replaced[i] < |s'.devices| && s'.devices[s'.replaced[i]] == s'.devices[i]
  {
    if device in s.current { assert Latest(s.devices, device) == Some(s.current[device]); }
  }

  lemma AttachKeepsMap(s: System, device: string)
    requires Inv(s)
    ensures MapOk(Attached(s, device))
  {
    var s' := Attached(s, device);
    forall d | d in s'.current ensures Latest(s'.devices, d) == Some(s'.current[d]) && s'.current[d] !in s'.detached {
      AttachKeepsLatest(s, device, d);
    }
    forall i | 0 <= i < |s'.devices| ensures Accounted(s', i) { AttachAccounts(s, device, i); }
    forall i | i in s'.replaced ensures i < s'.replaced[i] < |s'.devices| && s'.devices[s'.replaced[i]] == s'.devices[i] {
      AttachKeepsReplaced(s, device, i);
    }
  }

  lemma AttachKeepsCloses(s: System, device: string)
    requires Inv(s)
    ensures var s' := Attached(s, device);
      && ClosesOk(s')
      && forall i, j :: i in s'.replaced && j in s'.replaced && s'.replaced[i] == s'.replaced[j] ==> i == j
  {
    if device in s.current {
      CurrentNotReplaced(s, device);
      var s' := Attached(s, device);
      forall i | i in s'.replaced
        ensures (s'.replaced[i] in s'.pending && s'.pending[s'.replaced[i]] == i) || Close(s'.replaced[i], i) in s'.closes {}
    }
  }

  lemma CurrentNotReplaced(s: System, device: string)
    requires MapOk(s) && device in s.current
    ensures s.current[device] !in s.replaced
  {
    assert Latest(s.devices, device) == Some(s.current[device]);
  }

  lemma CloseKeepsInv(s: System, i: nat)
    requires Inv(s) && i in s.pending
    ensures Inv(Next(s, CloseEvent(i)))
  {
    var s' := Next(s, CloseEvent(i));
    forall j | 0 <= j < |s'.devices| ensures Accounted(s', j) { assert Accounted(s, j); }
    forall j | j in s'.replaced
      ensures (s'.replaced[j] in s'.pending && s'.pending[s'.replaced[j]] == j) || Close(s'.replaced[j], j) in s'.closes
    {
      if s.replaced[j] == i { assert s'.closes[|s.closes|] == Close(i, j); }
    }
  }

  lemma DetachKeepsInv(s: System, i: nat)
    requires Inv(s) && i < |s.devices|
    ensures Inv(Detached(s, i))
  {
    var s' := Detached(s, i);
    forall j | 0 <= j < |s'.devices| ensures Accounted(s', j) {
      assert Accounted(s, j);
    }
    forall d | d in s'.current ensures s'.current[d] !in s'.detached {
      assert Latest(s.devices, d) == Some(s.current[d]);
    }
  }

  lemma {:induction false} RunInv(run: seq<System>, events: seq<Event>, k: nat)
    requires Run(run, events) && k < |run|
    ensures Inv(run[k])
  {
    if k > 0 {
      RunInv(run, events, k - 1);
      EventKeepsInv(run[k - 1], events[k - 1]);
    }
  }

  lemma EventKeepsInv(s: System, e: Event)
    requires Inv(s) && Possible(s, e)
    ensures Inv(Next(s, e))
  {
    match e {
      case AttachEvent(device) => AttachKeepsMap(s, device); AttachKeepsCloses(s, device);
      case CloseEvent(i) => CloseKeepsInv(s, i);
      case DetachEvent(i) => DetachKeepsInv(s, i);
      case SendEvent(_) =>
        forall j | 0 <= j < |s.devices| ensures Accounted(Next(s, e), j) { assert Accounted(s, j); }
    }
  }

  // --------------------------------------------------------------- the theorems

  /** A device's entry is its most recent attachment, and is there exactly until that attachment's own detach ran. */
  lemma EntryIsLatest(run: seq<System>, events: seq<Event>, k: nat, device: string)
    requires Run(run, events) && k < |run|
    ensures var s, latest := run[k], Latest(run[k].devices, device);
      && (device in s.current <==> latest.Some? && latest.value !in s.detached)
      && (device in s.current ==> s.current[device] == latest.value)
  {
    RunInv(run, events, k);
    var latest := Latest(run[k].devices, device);
    if latest.Some? { assert Accounted(run[k], latest.value); }
  }

  /** A late or repeated detach of an attachment that is not its device's entry changes no entry. */
  lemma LateDetach(run: seq<System>, events: seq<Event>, k: nat, i: nat)
    requires Run(run, events) && k < |run| && i < |run[k].devices|
    requires Latest(run[k].devices, run[k].devices[i]) != Some(i) || i in run[k].detached
    ensures Detached(run[k], i).current == run[k].current
  {
    RunInv(run, events, k);
  }

  /** Every replaced session is closed exactly once, by its replacer, as soon as that one's Attach has returned; no other is closed. */
  lemma ReplacedIsClosed(run: seq<System>, events: seq<Event>, k: nat, i: nat)
    requires Run(run, events) && k < |run| && i < |run[k].devices|
    ensures i in run[k].replaced && run[k].replaced[i] !in run[k].pending ==>
      exists c :: 0 <= c < |run[k].closes| && run[k].closes[c] == Close(run[k].replaced[i], i)
    ensures forall c, d :: 0 <= c < d < |run[k].closes| ==> run[k].closes[c].target != run[k].closes[d].target
    ensures i !in run[k].replaced ==> forall c :: 0 <= c < |run[k].closes| ==> run[k].closes[c].target != i
  {
    RunInv(run, events, k);
  }

  /** An attachment is replaced exactly if a later one came for its device before its own detach. */
  lemma ReplacesExactly(run: seq<System>, events: seq<Event>, k: nat, device: string)
    requires Run(run, events) && k < |run|
    ensures var s, latest := run[k], Latest(run[k].devices, device);
      Attached(s, device).replaced ==
      if latest.Some? && latest.value !in s.detached then s.replaced[latest.value := |s.devices|] else s.replaced
  {
    EntryIsLatest(run, events, k, device);
  }

  /** A command goes to the attachment that is the most recent when it is looked up, or nowhere. */
  lemma SendsToLatest(run: seq<System>, events: seq<Event>, k: nat)
    requires Run(run, events) && k < |events| && events[k].SendEvent?
    ensures var latest := Latest(run[k].devices, events[k].device);
      run[k + 1].sent == if latest.Some? && latest.value !in run[k].detached then run[k].sent + [latest.value] else run[k].sent
  {
    EntryIsLatest(run, events, k, events[k].device);
  }
}
