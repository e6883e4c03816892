/**
 * Publishing charging schemes to stations and devices: compare-and-set versions, request receipts,
 * device-over-station override and capability checks
 * (internal/central/admin/charging_schemes.go, internal/central/pricing/estimate.go).
 */
module SchemePublication {
  import opened Basics

  type Uint32 = v: nat | v < 0x1_0000_0000

  const MAX_VERSION: Uint32 := 0xffff_ffff

  /** Go's uint32 successor. */
  function NextVersion(v: Uint32): (w: Uint32)
    ensures w > v <==> v != MAX_VERSION
    ensures v == MAX_VERSION ==> w == 0
  {
    (v + 1) % 0x1_0000_0000
  }

  datatype Scheme = Scheme(json: string)

  /** The pricing package's normalisation, validation and capability check, and the two ID formats. */
  datatype Policy = Policy(
    normalize: Scheme -> Scheme, valid: Scheme -> bool, capable: (Scheme, string) -> bool,
    requestId: string -> bool, deviceId: string -> bool)

  /** No device means the station's default. */
  datatype Scope = Scope(station: nat, device: Option<string>)

  function ScopeOf(station: nat, device: string): Scope {
    Scope(station, if device == "" then None else Some(device))
  }

  datatype Rule = Rule(scope: Scope, version: Uint32, scheme: Scheme, active: bool)

  datatype Receipt = Receipt(actor: nat, input: Input, rule: nat, version: Uint32)

  datatype Template = Template(version: Uint32, active: bool, scheme: Option<Scheme>)

  datatype Device = Device(station: nat, adapter: string)

  datatype Input = Input(
    request: string, station: nat, device: string, template: nat, templateVersion: Uint32,
    expected: Uint32, scheme: Option<Scheme>)

  /** Rule number i has ID i + 1. */
  datatype Db = Db(rules: seq<Rule>, receipts: map<string, Receipt>)

  datatype Error = BadRequest | NotFound | Conflict | Invalid

  datatype Published = Published(rule: nat, version: Uint32, replayed: bool)

  // --------------------------------------------------------------------- queries

  /** The newest version of a scope, active or not; 0 if there is none. */
  function Current(rules: seq<Rule>, scope: Scope): Uint32 {
    if rules == [] then 0
    else
      var last, rest := rules[|rules| - 1], Current(rules[..|rules| - 1], scope);
      if last.scope == scope && last.version > rest then last.version else rest
  }

  /** The active rule of a scope with the highest version, the latest one among equals. */
  function ActiveIn(rules: seq<Rule>, scope: Scope): Option<Rule> {
    if rules == [] then None
    else
      var last, rest := rules[|rules| - 1], ActiveIn(rules[..|rules| - 1], scope);
      if last.scope == scope && last.active && (rest.None? || rest.value.version <= last.version) then Some(last) else rest
  }

  /** A device's own rule, else the station's. */
  function Effective(rules: seq<Rule>, station: nat, device: string): Option<Rule> {
    var own := ActiveIn(rules, Scope(station, Some(device)));
    if own.Some? then own else ActiveIn(rules, Scope(station, None))
  }

  /** The devices a publication reaches: the named one, or all without an active rule of their own. */
  function Targets(rules: seq<Rule>, devices: map<string, Device>, station: nat, device: string): set<string> {
    set d | d in devices && devices[d].station == station
            && if device != "" then d == device else ActiveIn(rules, Scope(station, Some(d))).None?
  }

  predicate TargetsOk(rules: seq<Rule>, devices: map<string, Device>, policy: Policy, station: nat, device: string, scheme: Scheme) {
    && (device != "" ==> Targets(rules, devices, station, device) != {})
    && forall d :: d in Targets(rules, devices, station, device) ==> policy.capable(scheme, devices[d].adapter)
  }

  // ---------------------------------------------------------------- transactions

  function Disabled(rules: seq<Rule>, scope: Scope): (r: seq<Rule>)
    ensures |r| == |rules|
    ensures forall i :: 0 <= i < |rules| ==> r[i] == if rules[i].scope == scope then rules[i].(active := false) else rules[i]
  {
    seq(|rules|, i requires 0 <= i < |rules| => if rules[i].scope == scope then rules[i].(active := false) else rules[i])
  }

  function Publish(rules: seq<Rule>, scope: Scope, scheme: Scheme): seq<Rule> {
    Disabled(rules, scope) + [Rule(scope, NextVersion(Current(rules, scope)), scheme, true)]
  }

  /** The scheme a request asks for: its own, or the active template's in the version it names. */
  function Chosen(templates: map<nat, Template>, input: Input): Result<Scheme, Error>
    requires (input.template == 0) <==> input.scheme.Some?
  {
    if input.template == 0 then Ok(input.scheme.value)
    else if input.template !in templates || !templates[input.template].active then Err(NotFound)
    else if templates[input.template].version != input.templateVersion then Err(Conflict)
    else if templates[input.template].scheme.None? then Err(Invalid)
    else Ok(templates[input.template].scheme.value)
  }

  predicate WellFormed(policy: Policy, input: Input) {
    && policy.requestId(input.request) && input.station != 0
    && (input.device != "" ==> policy.deviceId(input.device))
    && (input.template == 0 <==> input.scheme.Some?)
  }

  /** What surrounds a request: the fixed devices and policy, and the stations and templates of the moment. */
  datatype World = World(policy: Policy, devices: map<string, Device>, stations: set<nat>, templates: map<nat, Template>)

  function ApplyTx(db: Db, w: World, actor: nat, input: Input): Result<(Db, Published), Error> {
    if !WellFormed(w.policy, input) then Err(BadRequest)
    else if input.station !in w.stations then Err(NotFound)
    else if input.request in db.receipts then
      var receipt := db.receipts[input.request];
      if receipt.actor != actor || receipt.input != input then Err(Conflict)
      else Ok((db, Published(receipt.rule, receipt.version, true)))
    else
      var chosen := Chosen(w.templates, input);
      if chosen.Err? then Err(chosen.error)
      else
        var scheme, scope := w.policy.normalize(chosen.value), ScopeOf(input.station, input.device);
        if !w.policy.valid(scheme) || !TargetsOk(db.rules, w.devices, w.policy, input.station, input.device, scheme)
           || Current(db.rules, scope) != input.expected then Err(Conflict)
        else Ok(Fresh(db, actor, input, scheme))
  }

  function Fresh(db: Db, actor: nat, input: Input, scheme: Scheme): (Db, Published) {
    var scope := ScopeOf(input.station, input.device);
    var id, version := |db.rules| + 1, NextVersion(Current(db.rules, scope));
    (Db(Publish(db.rules, scope, scheme), db.receipts[input.request := Receipt(actor, input, id, version)]),
     Published(id, version, false))
  }

  /** `open` says that the station is in operation, which reading its active rule demands. */
  function InheritTx(db: Db, w: World, open: bool, station: nat, device: string, expected: Uint32): Result<Db, Error> {
    if device == "" || !w.policy.deviceId(device) then Err(BadRequest)
    else if station !in w.stations then Err(NotFound)
    else
      var rule := ActiveIn(db.rules, Scope(station, None));
      if !open || rule.None? then Err(NotFound)
      else if !w.policy.valid(rule.value.scheme) then Err(Invalid)
      else if !TargetsOk(db.rules, w.devices, w.policy, station, device, rule.value.scheme)
              || Current(db.rules, ScopeOf(station, device)) != expected then Err(Conflict)
      else Ok(db.(rules := Disabled(db.rules, ScopeOf(station, device))))
  }

  /** The capability loop, over the target query's rows in any order. */
  method CheckSchemeTargets(rules: seq<Rule>, w: World, station: nat, device: string, scheme: Scheme, rows: seq<string>)
    returns (ok: bool)
    requires forall d :: d in rows <==> d in Targets(rules, w.devices, station, device)
    requires device != "" ==> |rows| <= 1
    ensures ok <==> TargetsOk(rules, w.devices, w.policy, station, device, scheme)
  {
    var targets := Targets(rules, w.devices, station, device);
    if device != "" && |rows| != 1 {
      assert targets == {};
      return false;
    }
    if device != "" { assert rows[0] in targets; }
    var i := 0;
    while i < |rows|
      invariant 0 <= i <= |rows|
      invariant forall k :: 0 <= k < i ==> rows[k] in targets && w.policy.capable(scheme, w.devices[rows[k]].adapter)
    {
      assert rows[i] in targets;
      if !w.policy.capable(scheme, w.devices[rows[i]].adapter) { return false; }
      i := i + 1;
    }
    ok := true;
  }

  class Store {
    var db: Db

    constructor (db: Db)
      ensures this.db == db
    {
      this.db := db;
    }

    /** `rows` answers the target query in any order. */
    method Apply(w: World, actor: nat, input: Input, rows: seq<string>) returns (r: Result<Published, Error>)
      requires forall d :: d in rows <==> d in Targets(db.rules, w.devices, input.station, input.device)
      requires input.device != "" ==> |rows| <= 1
      modifies this
      ensures r.Ok? ==> ApplyTx(old(db), w, actor, input) == Ok((db, r.value))
      ensures r.Err? ==> ApplyTx(old(db), w, actor, input) == Err(r.error) && db == old(db)
    {
      if !WellFormed(w.policy, input) { return Err(BadRequest); }
      if input.station !in w.stations { return Err(NotFound); }
      if input.request in db.receipts {
        var receipt := db.receipts[input.request];
        if receipt.actor != actor || receipt.input != input { return Err(Conflict); }
        return Ok(Published(receipt.rule, receipt.version, true));
      }
      var chosen := Chosen(w.templates, input);
      if chosen.Err? { return Err(chosen.error); }
      var scheme := w.policy.normalize(chosen.value);
      if !w.policy.valid(scheme) { return Err(Conflict); }
      var ok := CheckSchemeTargets(db.rules, w, input.station, input.device, scheme, rows);
      if !ok { return Err(Conflict); }
      var scope := ScopeOf(input.station, input.device);
      var current := Current(db.rules, scope);
      if current != input.expected { return Err(Conflict); }
      var version, tx := NextVersion(current), db;
      tx := tx.(rules := Disabled(tx.rules, scope));
      tx := tx.(rules := tx.rules + [Rule(scope, version, scheme, true)]);
      var id := |tx.rules|;
      tx := tx.(receipts := tx.receipts[input.request := Receipt(actor, input, id, version)]);
      db := tx;
      r := Ok(Published(id, version, false));
    }

    method Inherit(w: World, open: bool, station: nat, device: string, expected: Uint32, rows: seq<string>)
      returns (r: Result<(), Error>)
      requires forall d :: d in rows <==> d in Targets(db.rules, w.devices, station, device)
      requires device != "" ==> |rows| <= 1
      modifies this
      ensures r.Ok? ==> InheritTx(old(db), w, open, station, device, expected) == Ok(db)
      ensures r.Err? ==> InheritTx(old(db), w, open, station, device, expected) == Err(r.error) && db == old(db)
    {
      if device == "" || !w.policy.deviceId(device) { return Err(BadRequest); }
      if station !in w.stations { return Err(NotFound); }
      var rule := ActiveIn(db.rules, Scope(station, None));
      if !open || rule.None? { return Err(NotFound); }
      if !w.policy.valid(rule.value.scheme) { return Err(Invalid); }
      var ok := CheckSchemeTargets(db.rules, w, station, device, rule.value.scheme, rows);
      if !ok { return Err(Conflict); }
      if Current(db.rules, ScopeOf(station, device)) != expected { return Err(Conflict); }
      db := db.(rules := Disabled(db.rules, ScopeOf(station, device)));
      r := Ok(());
    }
  }

  // -------------------------------------------------------- queries after changes

  lemma {:induction false} AfterDisabled(rules: seq<Rule>, scope: Scope, other: Scope)
    ensures Current(Disabled(rules, scope), other) == Current(rules, other)
    ensures ActiveIn(Disabled(rules, scope), other) == if other == scope then None else ActiveIn(rules, other)
  {
    if rules != [] {
      var n := |rules| - 1;
      assert Disabled(rules, scope)[..n] == Disabled(rules[..n], scope);
      AfterDisabled(rules[..n], scope, other);
    }
  }

  lemma AfterPublish(rules: seq<Rule>, scope: Scope, scheme: Scheme, other: Scope)
    ensures ActiveIn(Publish(rules, scope, scheme), other) ==
      if other == scope then Some(Rule(scope, NextVersion(Current(rules, scope)), scheme, true)) else ActiveIn(rules, other)
    ensures Current(Publish(rules, scope, scheme), other) ==
      if other == scope && Current(rules, scope) != MAX_VERSION then Current(rules, scope) + 1 else Current(rules, other)
  {
    var after := Publish(rules, scope, scheme);
    assert after[..|after| - 1] == Disabled(rules, scope);
    AfterDisabled(rules, scope, other);
  }

  lemma {:induction false} CurrentIsNewest(rules: seq<Rule>, scope: Scope, i: nat)
    requires i < |rules| && rules[i].scope == scope
    ensures rules[i].version <= Current(rules, scope)
  {
    if i < |rules| - 1 { CurrentIsNewest(rules[..|rules| - 1], scope, i); }
  }

  // ------------------------------------------------------------- the invariant

  ghost predicate OneActive(rules: seq<Rule>) {
    forall i, j :: 0 <= i < j < |rules| && rules[i].scope == rules[j].scope ==> !rules[i].active || !rules[j].active
  }

  /** Only a version that wrapped around to 0 is not above all earlier ones of its scope. */
  ghost predicate Increasing(rules: seq<Rule>) {
    forall i, j :: 0 <= i < j < |rules| && rules[i].scope == rules[j].scope ==>
      rules[i].version < rules[j].version || rules[j].version == 0
  }

  ghost predicate ReceiptsOk(db: Db) {
    forall q :: q in db.receipts ==>
      var receipt := db.receipts[q];
      && receipt.input.request == q && 0 < receipt.rule <= |db.rules|
      && db.rules[receipt.rule - 1].version == receipt.version
      && db.rules[receipt.rule - 1].scope == ScopeOf(receipt.input.station, receipt.input.device)
  }

  /** Every device can carry out the scheme that is in effect for it. */
  ghost predicate AllCapable(rules: seq<Rule>, devices: map<string, Device>, policy: Policy) {
    forall d :: d in devices ==>
      var rule := Effective(rules, devices[d].station, d);
      rule.Some? ==> policy.capable(rule.value.scheme, devices[d].adapter)
  }

  ghost predicate AllValid(rules: seq<Rule>, policy: Policy) {
    forall i :: 0 <= i < |rules| ==> policy.valid(rules[i].scheme)
  }

  ghost predicate Inv(db: Db, devices: map<string, Device>, policy: Policy) {
    && OneActive(db.rules) && Increasing(db.rules) && ReceiptsOk(db)
    && AllCapable(db.rules, devices, policy) && AllValid(db.rules, policy)
  }

  lemma PublishKeepsCapable(rules: seq<Rule>, devices: map<string, Device>, policy: Policy, station: nat, device: string, scheme: Scheme)
    requires AllCapable(rules, devices, policy) && TargetsOk(rules, devices, policy, station, device, scheme) && "" !in devices
    ensures AllCapable(Publish(rules, ScopeOf(station, device), scheme), devices, policy)
  {
    var scope := ScopeOf(station, device);
    var after := Publish(rules, scope, scheme);
    forall d | d in devices
      ensures Effective(after, devices[d].station, d).Some? ==>
        policy.capable(Effective(after, devices[d].station, d).value.scheme, devices[d].adapter)
    {
      AfterPublish(rules, scope, scheme, Scope(devices[d].station, Some(d)));
      AfterPublish(rules, scope, scheme, Scope(devices[d].station, None));
      if Effective(after, devices[d].station, d) != Effective(rules, devices[d].station, d) {
        assert d in Targets(rules, devices, station, device);
      }
    }
  }

  lemma InheritKeepsCapable(rules: seq<Rule>, devices: map<string, Device>, policy: Policy, station: nat, device: string)
    requires AllCapable(rules, devices, policy) && device != "" && ActiveIn(rules, Scope(station, None)).Some?
    requires TargetsOk(rules, devices, policy, station, device, ActiveIn(rules, Scope(station, None)).value.scheme)
    ensures AllCapable(Disabled(rules, ScopeOf(station, device)), devices, policy)
  {
    var scope := ScopeOf(station, device);
    var after := Disabled(rules, scope);
    forall d | d in devices
      ensures Effective(after, devices[d].station, d).Some? ==>
        policy.capable(Effective(after, devices[d].station, d).value.scheme, devices[d].adapter)
    {
      AfterDisabled(rules, scope, Scope(devices[d].station, Some(d)));
      AfterDisabled(rules, scope, Scope(devices[d].station, None));
      if d == device && devices[d].station == station {
        assert d in Targets(rules, devices, station, device);
      }
    }
  }

  lemma PublishKeepsOrder(rules: seq<Rule>, scope: Scope, scheme: Scheme)
    requires OneActive(rules) && Increasing(rules)
    ensures OneActive(Publish(rules, scope, scheme)) && Increasing(Publish(rules, scope, scheme))
  {
    forall i: nat | i < |rules| && rules[i].scope == scope ensures rules[i].version <= Current(rules, scope) {
      CurrentIsNewest(rules, scope, i);
    }
  }

  /** What an accepted new request has passed. */
  lemma Accepted(db: Db, w: World, actor: nat, input: Input) returns (scheme: Scheme)
    requires input.request !in db.receipts && ApplyTx(db, w, actor, input).Ok?
    ensures ApplyTx(db, w, actor, input).value == Fresh(db, actor, input, scheme)
    ensures w.policy.valid(scheme) && TargetsOk(db.rules, w.devices, w.policy, input.station, input.device, scheme)
    ensures Current(db.rules, ScopeOf(input.station, input.device)) == input.expected
  {
    scheme := w.policy.normalize(Chosen(w.templates, input).value);
  }

  lemma FreshKeepsReceipts(db: Db, actor: nat, input: Input, scheme: Scheme)
    requires ReceiptsOk(db)
    ensures ReceiptsOk(Fresh(db, actor, input, scheme).0)
  {}

  lemma FreshKeepsInv(db: Db, w: World, actor: nat, input: Input, scheme: Scheme)
    requires Inv(db, w.devices, w.policy) && "" !in w.devices
    requires w.policy.valid(scheme) && TargetsOk(db.rules, w.devices, w.policy, input.station, input.device, scheme)
    ensures Inv(Fresh(db, actor, input, scheme).0, w.devices, w.policy)
  {
    PublishKeepsOrder(db.rules, ScopeOf(input.station, input.device), scheme);
    PublishKeepsCapable(db.rules, w.devices, w.policy, input.station, input.device, scheme);
    FreshKeepsReceipts(db, actor, input, scheme);
  }

  lemma ApplyKeepsInv(db: Db, w: World, actor: nat, input: Input)
    requires Inv(db, w.devices, w.policy) && "" !in w.devices && ApplyTx(db, w, actor, input).Ok?
    ensures Inv(ApplyTx(db, w, actor, input).value.0, w.devices, w.policy)
  {
    if input.request !in db.receipts {
      var scheme := Accepted(db, w, actor, input);
      FreshKeepsInv(db, w, actor, input, scheme);
    }
  }

  lemma InheritKeepsInv(db: Db, w: World, open: bool, station: nat, device: string, expected: Uint32)
    requires Inv(db, w.devices, w.policy) && InheritTx(db, w, open, station, device, expected).Ok?
    ensures Inv(InheritTx(db, w, open, station, device, expected).value, w.devices, w.policy)
  {
    InheritKeepsCapable(db.rules, w.devices, w.policy, station, device);
  }

  // -------------------------------------------------------------------- all runs

  datatype Event =
    | ApplyEvent(actor: nat, input: Input, stations: set<nat>, templates: map<nat, Template>)
    | InheritEvent(station: nat, device: string, expected: Uint32, stations: set<nat>, open: bool)

  /** Devices and policy stay; stations and templates are whatever they are when a request arrives. */
  datatype Fixed = Fixed(policy: Policy, devices: map<string, Device>)

  function Around(f: Fixed, e: Event): World {
    World(f.policy, f.devices, e.stations, if e.ApplyEvent? then e.templates else map[])
  }

  function Next(db: Db, f: Fixed, e: Event): Db {
    match e
    case ApplyEvent(actor, input, _, _) =>
      var r := ApplyTx(db, Around(f, e), actor, input);
      if r.Ok? then r.value.0 else db
    case InheritEvent(station, device, expected, _, open) =>
      var r := InheritTx(db, Around(f, e), open, station, device, expected);
      if r.Ok? then r.value else db
  }

  /** `run[k]` are the tables after the first k events. */
  ghost predicate Run(f: Fixed, events: seq<Event>, run: seq<Db>) {
    && |run| == |events| + 1 && run[0] == Db([], map[])
    && forall k :: 0 <= k < |events| ==> run[k + 1] == Next(run[k], f, events[k])
  }

  lemma NextKeepsInv(db: Db, f: Fixed, e: Event)
    requires Inv(db, f.devices, f.policy) && "" !in f.devices
    ensures Inv(Next(db, f, e), f.devices, f.policy)
  {
    match e {
      case ApplyEvent(actor, input, _, _) =>
        if ApplyTx(db, Around(f, e), actor, input).Ok? { ApplyKeepsInv(db, Around(f, e), actor, input); }
      case InheritEvent(station, device, expected, _, open) =>
        if InheritTx(db, Around(f, e), open, station, device, expected).Ok? {
          InheritKeepsInv(db, Around(f, e), open, station, device, expected);
        }
    }
  }

  /** In every state: one active rule per scope, receipts that match their rules, valid schemes, capable devices. */
  lemma {:induction false} RunInv(f: Fixed, events: seq<Event>, run: seq<Db>, k: nat)
    requires Run(f, events, run) && k <= |events| && "" !in f.devices
    ensures Inv(run[k], f.devices, f.policy)
  {
    if k > 0 {
      RunInv(f, events, run, k - 1);
      NextKeepsInv(run[k - 1], f, events[k - 1]);
    }
  }

  /** Versions never go back and receipts stay. */
  ghost predicate Later(db: Db, db': Db) {
    && (forall scope :: Current(db.rules, scope) <= Current(db'.rules, scope))
    && (forall q :: q in db.receipts ==> q in db'.receipts && db'.receipts[q] == db.receipts[q])
  }

  lemma FreshIsLater(db: Db, actor: nat, input: Input, scheme: Scheme)
    requires input.request !in db.receipts
    ensures Later(db, Fresh(db, actor, input, scheme).0)
  {
    forall scope ensures Current(db.rules, scope) <= Current(Fresh(db, actor, input, scheme).0.rules, scope) {
      AfterPublish(db.rules, ScopeOf(input.station, input.device), scheme, scope);
    }
  }

  lemma DisabledIsLater(db: Db, scope: Scope)
    ensures Later(db, db.(rules := Disabled(db.rules, scope)))
  {
    forall other ensures Current(db.rules, other) <= Current(Disabled(db.rules, scope), other) {
      AfterDisabled(db.rules, scope, other);
    }
  }

  lemma NextIsLater(db: Db, f: Fixed, e: Event)
    ensures Later(db, Next(db, f, e))
  {
    match e {
      case ApplyEvent(actor, input, _, _) =>
        if ApplyTx(db, Around(f, e), actor, input).Ok? && input.request !in db.receipts {
          var scheme := Accepted(db, Around(f, e), actor, input);
          FreshIsLater(db, actor, input, scheme);
        }
      case InheritEvent(station, device, _, _, _) => DisabledIsLater(db, ScopeOf(station, device));
    }
  }

  lemma {:induction false} Chain(run: seq<Db>, j: nat, k: nat)
    requires j <= k < |run| && forall n :: j <= n < k ==> Later(run[n], run[n + 1])
    ensures Later(run[j], run[k])
    decreases k
  {
    if j < k { Chain(run, j, k - 1); }
  }

  lemma RunIsLater(f: Fixed, events: seq<Event>, run: seq<Db>, j: nat, k: nat)
    requires Run(f, events, run) && j <= k < |run|
    ensures Later(run[j], run[k])
  {
    forall n | j <= n < k ensures Later(run[n], run[n + 1]) { NextIsLater(run[n], f, events[n]); }
    Chain(run, j, k);
  }

  /** The event publishes a new rule. */
  predicate Publishes(db: Db, f: Fixed, e: Event) {
    e.ApplyEvent? && e.input.request !in db.receipts && ApplyTx(db, Around(f, e), e.actor, e.input).Ok?
  }

  /** A publication moves its scope on by exactly one version, unless the version wraps around. */
  lemma PublishCounts(db: Db, f: Fixed, e: Event)
    requires Publishes(db, f, e)
    ensures var scope := ScopeOf(e.input.station, e.input.device);
      && Current(db.rules, scope) == e.input.expected
      && Current(Next(db, f, e).rules, scope) == if e.input.expected == MAX_VERSION then MAX_VERSION else e.input.expected + 1
  {
    var scheme := Accepted(db, Around(f, e), e.actor, e.input);
    AfterPublish(db.rules, ScopeOf(e.input.station, e.input.device), scheme, ScopeOf(e.input.station, e.input.device));
  }

  /** Compare and set: two publications for one scope with the same expected version happen only past the last version. */
  lemma CompareAndSet(f: Fixed, events: seq<Event>, run: seq<Db>, j: nat, k: nat)
    requires Run(f, events, run) && j < k < |events|
    requires Publishes(run[j], f, events[j]) && Publishes(run[k], f, events[k])
    requires events[j].input.station == events[k].input.station && events[j].input.device == events[k].input.device
    requires events[j].input.expected == events[k].input.expected
    ensures events[j].input.expected == MAX_VERSION
  {
    PublishCounts(run[j], f, events[j]);
    PublishCounts(run[k], f, events[k]);
    RunIsLater(f, events, run, j + 1, k);
  }

  lemma TargetsUnchanged(rules: seq<Rule>, devices: map<string, Device>, station: nat, device: string, scheme: Scheme)
    ensures Targets(Publish(rules, ScopeOf(station, device), scheme), devices, station, device) == Targets(rules, devices, station, device)
  {
    var after := Publish(rules, ScopeOf(station, device), scheme);
    if device == "" {
      forall d ensures ActiveIn(after, Scope(station, Some(d))) == ActiveIn(rules, Scope(station, Some(d))) {
        AfterPublish(rules, Scope(station, None), scheme, Scope(station, Some(d)));
      }
    }
  }

  /**
   * The other half: after a publication the same request under an unused ID succeeds as well if and only
   * if the expected version was the last one, which wraps around.
   */
  lemma SameAgainExactly(db: Db, f: Fixed, e: Event, request: string)
    requires Publishes(db, f, e) && f.policy.requestId(request) && request !in Next(db, f, e).receipts
    ensures Publishes(Next(db, f, e), f, e.(input := e.input.(request := request))) <==> e.input.expected == MAX_VERSION
  {
    var w, again := Around(f, e), e.input.(request := request);
    var scheme := Accepted(db, w, e.actor, e.input);
    PublishCounts(db, f, e);
    TargetsUnchanged(db.rules, f.devices, e.input.station, e.input.device, scheme);
    assert Chosen(w.templates, again) == Chosen(w.templates, e.input);
  }

  // how a scope gets to its last version

  /** A request that publishes a scheme of its own for a station. */
  function StationInput(station: nat, scheme: Scheme, request: string, expected: Uint32): Input {
    Input(request, station, "", 0, 0, expected, Some(scheme))
  }

  /** A station at which nothing stands in the way of publishing a scheme. */
  predicate Publishable(f: Fixed, station: nat, scheme: Scheme) {
    && station != 0 && f.policy.valid(f.policy.normalize(scheme))
    && forall d :: d in f.devices && f.devices[d].station == station ==>
         f.policy.capable(f.policy.normalize(scheme), f.devices[d].adapter)
  }

  lemma StationPublishes(db: Db, f: Fixed, station: nat, scheme: Scheme, request: string, expected: Uint32)
    requires Publishable(f, station, scheme) && f.policy.requestId(request) && request !in db.receipts
    requires Current(db.rules, Scope(station, None)) == expected
    ensures var e := ApplyEvent(1, StationInput(station, scheme, request, expected), {station}, map[]);
      Publishes(db, f, e) && Next(db, f, e).receipts.Keys == db.receipts.Keys + {request}
  {
    var e := ApplyEvent(1, StationInput(station, scheme, request, expected), {station}, map[]);
    assert Around(f, e).devices == f.devices;
  }

  ghost predicate UnusedIds(f: Fixed, requests: seq<string>) {
    && (forall k :: 0 <= k < |requests| ==> f.policy.requestId(requests[k]))
    && (forall j, k :: 0 <= j < k < |requests| ==> requests[j] != requests[k])
  }

  ghost predicate UsesOnly(db: Db, ids: seq<string>) { forall q :: q in db.receipts ==> q in ids }

  /** Every version up to the last is reached by publishing that often. */
  lemma {:induction false} VersionIsReachable(f: Fixed, station: nat, scheme: Scheme, requests: seq<string>, v: Uint32)
    returns (events: seq<Event>, run: seq<Db>)
    requires Publishable(f, station, scheme) && UnusedIds(f, requests) && |requests| >= v
    ensures Run(f, events, run) && |events| == v && Current(run[v].rules, Scope(station, None)) == v
    ensures UsesOnly(run[v], requests[..v])
  {
    if v == 0 {
      events, run := [], [Db([], map[])];
    } else {
      events, run := VersionIsReachable(f, station, scheme, requests, v - 1);
      events, run := OneMore(f, station, scheme, requests, v - 1, events, run);
    }
  }

  lemma OneMore(f: Fixed, station: nat, scheme: Scheme, requests: seq<string>, v: Uint32, events: seq<Event>, run: seq<Db>)
    returns (events1: seq<Event>, run1: seq<Db>)
    requires Publishable(f, station, scheme) && UnusedIds(f, requests) && |requests| > v
    requires Run(f, events, run) && |events| == v && Current(run[v].rules, Scope(station, None)) == v
    requires UsesOnly(run[v], requests[..v])
    ensures Run(f, events1, run1) && |events1| == v + 1 && events1[..v] == events && run1[..v + 1] == run
    ensures events1[v] == ApplyEvent(1, StationInput(station, scheme, requests[v], v), {station}, map[])
    ensures Publishes(run1[v], f, events1[v])
    ensures Current(run1[v + 1].rules, Scope(station, None)) == if v == MAX_VERSION then v else v + 1
    ensures UsesOnly(run1[v + 1], requests[..v + 1])
  {
    var e := ApplyEvent(1, StationInput(station, scheme, requests[v], v), {station}, map[]);
    assert requests[v] !in requests[..v];
    StationPublishes(run[v], f, station, scheme, requests[v], v);
    PublishCounts(run[v], f, e);
    events1, run1 := events + [e], run + [Next(run[v], f, e)];
    forall k: int | 0 <= k < |events1| ensures run1[k + 1] == Next(run1[k], f, events1[k]) {
      if k < v { assert run1[k + 1] == run[k + 1] && run1[k] == run[k] && events1[k] == events[k]; }
    }
    assert requests[..v + 1] == requests[..v] + [requests[v]];
  }

  /** So compare-and-set does fail there: some run publishes twice for one scope with the same expected version. */
  lemma CompareAndSetFails(f: Fixed, station: nat, scheme: Scheme, requests: seq<string>) returns (events: seq<Event>, run: seq<Db>)
    requires Publishable(f, station, scheme) && UnusedIds(f, requests) && |requests| == MAX_VERSION + 2
    ensures Run(f, events, run) && |events| == MAX_VERSION + 2
    ensures var j, k := MAX_VERSION, MAX_VERSION + 1;
      && Publishes(run[j], f, events[j]) && Publishes(run[k], f, events[k])
      && events[j].input.station == events[k].input.station && events[j].input.device == events[k].input.device
      && events[j].input.expected == events[k].input.expected
  {
    events, run := VersionIsReachable(f, station, scheme, requests, MAX_VERSION);
    events, run := OneMore(f, station, scheme, requests, MAX_VERSION, events, run);
    events, run := Twice(f, station, scheme, requests, events, run);
  }

  lemma Twice(f: Fixed, station: nat, scheme: Scheme, requests: seq<string>, events: seq<Event>, run: seq<Db>)
    returns (events1: seq<Event>, run1: seq<Db>)
    requires UnusedIds(f, requests) && |requests| == MAX_VERSION + 2
    requires Run(f, events, run) && |events| == MAX_VERSION + 1
    requires events[MAX_VERSION] == ApplyEvent(1, StationInput(station, scheme, requests[MAX_VERSION], MAX_VERSION), {station}, map[])
    requires Publishes(run[MAX_VERSION], f, events[MAX_VERSION])
    requires UsesOnly(run[MAX_VERSION + 1], requests[..MAX_VERSION + 1])
    ensures Run(f, events1, run1) && |events1| == MAX_VERSION + 2
    ensures events1[..MAX_VERSION + 1] == events && run1[..MAX_VERSION + 2] == run
    ensures Publishes(run1[MAX_VERSION + 1], f, events1[MAX_VERSION + 1])
    ensures events1[MAX_VERSION + 1] == events[MAX_VERSION].(input := events[MAX_VERSION].input.(request := requests[MAX_VERSION + 1]))
  {
    var n: nat := MAX_VERSION;
    var e := events[n];
    var again := e.(input := e.input.(request := requests[n + 1]));
    assert run[n + 1] == Next(run[n], f, e);
    assert requests[n + 1] !in requests[..n + 1];
    SameAgainExactly(run[n], f, e, requests[n + 1]);
    events1, run1 := events + [again], run + [Next(run[n + 1], f, again)];
    forall k: int | 0 <= k < |events1| ensures run1[k + 1] == Next(run1[k], f, events1[k]) {
      if k < n + 1 { assert run1[k + 1] == run[k + 1] && run1[k] == run[k] && events1[k] == events[k]; }
    }
  }

  // when a request is accepted

  /** The scheme is one that every device it reaches can carry out; a named device must exist at the station. */
  ghost predicate Executable(rules: seq<Rule>, w: World, station: nat, device: string, scheme: Scheme) {
    if device != "" then
      device in w.devices && w.devices[device].station == station && w.policy.capable(scheme, w.devices[device].adapter)
    else
      forall d :: d in w.devices && w.devices[d].station == station
                  && (forall i :: 0 <= i < |rules| && rules[i].scope == Scope(station, Some(d)) ==> !rules[i].active) ==>
        w.policy.capable(scheme, w.devices[d].adapter)
  }

  lemma {:induction false} NoneActive(rules: seq<Rule>, scope: Scope)
    ensures ActiveIn(rules, scope).None? <==> forall i :: 0 <= i < |rules| && rules[i].scope == scope ==> !rules[i].active
    ensures ActiveIn(rules, scope).Some? ==> ActiveIn(rules, scope).value in rules
    ensures ActiveIn(rules, scope).Some? ==> ActiveIn(rules, scope).value.scope == scope && ActiveIn(rules, scope).value.active
  {
    if rules != [] {
      var n := |rules| - 1;
      NoneActive(rules[..n], scope);
      assert forall i :: 0 <= i < n ==> rules[..n][i] == rules[i];
    }
  }

  lemma TargetsExactly(rules: seq<Rule>, w: World, station: nat, device: string, scheme: Scheme)
    ensures TargetsOk(rules, w.devices, w.policy, station, device, scheme) <==> Executable(rules, w, station, device, scheme)
  {
    forall d ensures ActiveIn(rules, Scope(station, Some(d))).None? <==>
      forall i :: 0 <= i < |rules| && rules[i].scope == Scope(station, Some(d)) ==> !rules[i].active
    {
      NoneActive(rules, Scope(station, Some(d)));
    }
    if device != "" && device in w.devices && w.devices[device].station == station {
      assert Targets(rules, w.devices, station, device) == {device};
    }
  }

  /** The scheme that a request asks for, if it can be had: its own, or an active template's in just the version named. */
  ghost predicate Asks(w: World, input: Input, scheme: Scheme) {
    if input.template == 0 then input.scheme == Some(scheme)
    else
      && input.template in w.templates
      && w.templates[input.template] == Template(input.templateVersion, true, Some(scheme))
  }

  /**
   * A new request publishes if and only if it is well formed, its station exists, the scheme it asks for
   * can be had, is valid once normalised and executable by every device it reaches, and the scope's
   * newest version is the expected one. The rule published is that normalised scheme.
   */
  lemma PublishesExactly(db: Db, w: World, actor: nat, input: Input, scheme: Scheme)
    requires input.request !in db.receipts
    ensures var r := ApplyTx(db, w, actor, input);
      (r.Ok? && Asks(w, input, scheme)) <==>
        && w.policy.requestId(input.request) && input.station != 0 && (input.device == "" || w.policy.deviceId(input.device))
        && (input.template == 0 <==> input.scheme.Some?)
        && input.station in w.stations && Asks(w, input, scheme)
        && w.policy.valid(w.policy.normalize(scheme))
        && Executable(db.rules, w, input.station, input.device, w.policy.normalize(scheme))
        && Current(db.rules, ScopeOf(input.station, input.device)) == input.expected
    ensures var r := ApplyTx(db, w, actor, input);
      r.Ok? && Asks(w, input, scheme) ==>
        && |r.value.0.rules| == |db.rules| + 1
        && r.value.0.rules[|db.rules|] ==
             Rule(Scope(input.station, if input.device == "" then None else Some(input.device)),
                  (input.expected + 1) % 0x1_0000_0000, w.policy.normalize(scheme), true)
        && r.value.1 == Published(|db.rules| + 1, (input.expected + 1) % 0x1_0000_0000, false)
        && (forall i :: 0 <= i < |db.rules| ==>
             r.value.0.rules[i] == if db.rules[i].scope == r.value.0.rules[|db.rules|].scope then db.rules[i].(active := false) else db.rules[i])
  {
    TargetsExactly(db.rules, w, input.station, input.device, w.policy.normalize(scheme));
  }

  /** Every accepted new request asks for some scheme that can be had. */
  lemma PublishedIsAsked(db: Db, w: World, actor: nat, input: Input) returns (scheme: Scheme)
    requires input.request !in db.receipts && ApplyTx(db, w, actor, input).Ok?
    ensures Asks(w, input, scheme)
  {
    scheme := Chosen(w.templates, input).value;
  }

  /**
   * A device goes back to the station's scheme if and only if the station is in operation and has an
   * active valid rule that the device can carry out, and the device's newest version is the expected
   * one. Then its own rules are disabled and nothing else changes.
   */
  lemma InheritsExactly(db: Db, w: World, open: bool, station: nat, device: string, expected: Uint32)
    ensures var rule := ActiveIn(db.rules, Scope(station, None));
      InheritTx(db, w, open, station, device, expected).Ok? <==>
        && device != "" && w.policy.deviceId(device) && station in w.stations && open
        && rule.Some? && w.policy.valid(rule.value.scheme)
        && device in w.devices && w.devices[device].station == station && w.policy.capable(rule.value.scheme, w.devices[device].adapter)
        && Current(db.rules, Scope(station, Some(device))) == expected
    ensures InheritTx(db, w, open, station, device, expected).Ok? ==>
      var db' := InheritTx(db, w, open, station, device, expected).value;
      && db'.receipts == db.receipts && |db'.rules| == |db.rules|
      && forall i :: 0 <= i < |db.rules| ==>
           db'.rules[i] == if db.rules[i].scope == Scope(station, Some(device)) then db.rules[i].(active := false) else db.rules[i]
  {
    var rule := ActiveIn(db.rules, Scope(station, None));
    if rule.Some? { TargetsExactly(db.rules, w, station, device, rule.value.scheme); }
  }

  lemma {:induction false} NewestExists(rules: seq<Rule>, scope: Scope) returns (i: nat)
    requires Current(rules, scope) > 0
    ensures i < |rules| && rules[i].scope == scope && rules[i].version == Current(rules, scope)
  {
    var n := |rules| - 1;
    if rules[n].scope == scope && rules[n].version == Current(rules, scope) { return n; }
    i := NewestExists(rules[..n], scope);
  }

  /** A publication's version exceeds all earlier ones of its scope if and only if the expected version is not the last one. */
  lemma IncreasesExactly(db: Db, f: Fixed, e: Event)
    requires Publishes(db, f, e)
    ensures var before, after := db.rules, Next(db, f, e).rules;
      && |after| == |before| + 1
      && ((forall i :: 0 <= i < |before| && before[i].scope == after[|before|].scope ==> before[i].version < after[|before|].version)
          <==> e.input.expected != MAX_VERSION)
  {
    var scheme := Accepted(db, Around(f, e), e.actor, e.input);
    var scope := ScopeOf(e.input.station, e.input.device);
    forall i: nat | i < |db.rules| && db.rules[i].scope == scope ensures db.rules[i].version <= Current(db.rules, scope) {
      CurrentIsNewest(db.rules, scope, i);
    }
    if e.input.expected == MAX_VERSION { var i := NewestExists(db.rules, scope); }
  }

  lemma ReplayTx(db: Db, w: World, actor: nat, input: Input)
    requires input.request in db.receipts && WellFormed(w.policy, input) && input.station in w.stations
    ensures var receipt := db.receipts[input.request];
      ApplyTx(db, w, actor, input) ==
      if receipt.actor == actor && receipt.input == input then Ok((db, Published(receipt.rule, receipt.version, true)))
      else Err(Conflict)
  {}

  lemma FirstResult(db: Db, f: Fixed, e: Event) returns (first: Published)
    requires Publishes(db, f, e)
    ensures ApplyTx(db, Around(f, e), e.actor, e.input) == Ok((Next(db, f, e), first)) && !first.replayed
    ensures e.input.request in Next(db, f, e).receipts
    ensures Next(db, f, e).receipts[e.input.request] == Receipt(e.actor, e.input, first.rule, first.version)
  {
    var scheme := Accepted(db, Around(f, e), e.actor, e.input);
    first := Fresh(db, e.actor, e.input, scheme).1;
  }

  /** A request repeated at any later time answers its first result and changes nothing; altered, it is refused. */
  lemma ReplayIsFirst(f: Fixed, events: seq<Event>, run: seq<Db>, j: nat, k: nat, again: Event) returns (first: Published)
    requires Run(f, events, run) && j < k < |run| && Publishes(run[j], f, events[j])
    requires again.ApplyEvent? && again.input.request == events[j].input.request
    requires WellFormed(f.policy, again.input) && again.input.station in again.stations
    ensures ApplyTx(run[j], Around(f, events[j]), events[j].actor, events[j].input) == Ok((run[j + 1], first))
    ensures ApplyTx(run[k], Around(f, again), again.actor, again.input) ==
      if again.actor == events[j].actor && again.input == events[j].input
      then Ok((run[k], Published(first.rule, first.version, true)))
      else Err(Conflict)
  {
    first := FirstResult(run[j], f, events[j]);
    RunIsLater(f, events, run, j + 1, k);
    ReplayTx(run[k], Around(f, again), again.actor, again.input);
  }

  /** A published scheme is at once in effect for exactly the devices it was checked against, and for no other. */
  lemma PublishTakesEffect(rules: seq<Rule>, devices: map<string, Device>, station: nat, device: string, scheme: Scheme, d: string)
    requires d in devices && "" !in devices
    ensures var before, after := Effective(rules, devices[d].station, d), Effective(Publish(rules, ScopeOf(station, device), scheme), devices[d].station, d);
      if d in Targets(rules, devices, station, device) then after.Some? && after.value.scheme == scheme && after.value.scope == ScopeOf(station, device)
      else after == before
  {
    AfterPublish(rules, ScopeOf(station, device), scheme, Scope(devices[d].station, Some(d)));
    AfterPublish(rules, ScopeOf(station, device), scheme, Scope(devices[d].station, None));
  }

  /** A device that goes back to the station's scheme has exactly the station's rule in effect, and its versions go on where they were. */
  lemma InheritTakesEffect(db: Db, w: World, open: bool, station: nat, device: string, expected: Uint32)
    requires InheritTx(db, w, open, station, device, expected).Ok?
    ensures var after := InheritTx(db, w, open, station, device, expected).value;
      && Effective(after.rules, station, device) == ActiveIn(db.rules, Scope(station, None)) && Effective(after.rules, station, device).Some?
      && Current(after.rules, ScopeOf(station, device)) == expected
      && InheritTx(after, w, open, station, device, expected) == Ok(after)
  {
    var scope := ScopeOf(station, device);
    AfterDisabled(db.rules, scope, scope);
    AfterDisabled(db.rules, scope, Scope(station, None));
    var after := Disabled(db.rules, scope);
    assert Targets(after, w.devices, station, device) == Targets(db.rules, w.devices, station, device);
    assert Disabled(after, scope) == after;
  }
}
