/**
 * The browser's session store: login, logout, token rotation and profile refresh, with every `await`
 * an interleaving point (admin-web/src/api/session.ts). Several tabs share the storage; whether they
 * also share one lock depends on the browser (admin-web/src/api/client.ts:20-26).
 */
module BrowserSession {
  import opened Basics

  datatype Profile = Profile(account: int, username: string, displayName: string, role: string, permissions: seq<string>)

  datatype Tokens = Tokens(token: string, refresh: string, profile: Profile)

  datatype Storage = Storage(epoch: Option<string>, token: Option<string>, refresh: Option<string>, admin: Option<Profile>)

  const EMPTY: Storage := Storage(None, None, None, None)

  /** Neither missing nor the empty string. */
  predicate Truthy(s: Option<string>) { s.Some? && s.value != "" }

  const MAX_SAFE_INTEGER: int := 9007199254740991

  predicate SafeInteger(n: int) { -MAX_SAFE_INTEGER <= n <= MAX_SAFE_INTEGER }

  // ------------------------------------------------ the synchronous sections

  /** The account is stored with the user name that the server or else the caller gave. */
  function Written(st: Storage, data: Tokens, username: string): Storage {
    var shown := if data.profile.username != "" then data.profile.username else username;
    st.(token := Some(data.token), refresh := Some(data.refresh), admin := Some(data.profile.(username := shown)))
  }

  function LoggedIn(st: Storage, data: Tokens, username: string, epoch: string): Storage {
    Written(st.(epoch := Some(epoch)), data, username)
  }

  function Cleared(st: Storage, expected: Option<string>): Storage { if st.epoch == expected then EMPTY else st }

  /** How a refresh begins: refused, answered from the store, or waiting for the server. */
  datatype Started = SessionChanged | SessionExpired | Answered(token: string) | Rotating(sent: string)

  function StartRotate(st: Storage, expected: Option<string>): Started {
    if !Truthy(expected) || !Truthy(st.refresh) then SessionExpired else Rotating(st.refresh.value)
  }

  function StartRefresh(st: Storage, expected: Option<string>, failed: string): Started {
    if st.epoch != expected then SessionChanged
    else if Truthy(st.token) && st.token.value != failed then Answered(st.token.value)
    else StartRotate(st, expected)
  }

  const MARGIN: int := 30_000

  function StartEnsure(expiresAt: string -> Option<int>, st: Storage, expected: Option<string>, now: int): Started {
    if st.epoch != expected then SessionChanged
    else if !Truthy(st.token) then Answered("")
    else
      var at := expiresAt(st.token.value);
      if at.None? || at.value > now + MARGIN then Answered(st.token.value) else StartRotate(st, expected)
  }

  /** The server's answer to a rotation; None is a failed request. */
  function FinishRotate(st: Storage, expected: Option<string>, reply: Option<Tokens>): Storage {
    if reply.Some? && st.epoch == expected then Written(st, reply.value, "") else st
  }

  predicate Identified(st: Storage) {
    Truthy(st.token) && st.admin.Some? && 0 < st.admin.value.account <= MAX_SAFE_INTEGER
  }

  predicate WellFormed(p: Profile) {
    SafeInteger(p.account) && p.username != "" && p.role != "" && forall q :: q in p.permissions ==> q != ""
  }

  /** What a profile request remembers of the moment it was sent. */
  datatype Asked = Asked(epoch: Option<string>, token: string, account: int)

  predicate StillAsked(st: Storage, asked: Asked) {
    st.epoch == asked.epoch && st.token == Some(asked.token) && st.admin.Some? && st.admin.value.account == asked.account
  }

  /** The server's profile; None is a failed or malformed answer. */
  function FinishSync(st: Storage, asked: Asked, reply: Option<Profile>): Storage {
    if StillAsked(st, asked) && reply.Some? && WellFormed(reply.value) && reply.value.account == asked.account
    then st.(admin := Some(reply.value))
    else st
  }

  class Browser {
    var epoch: Option<string>
    var token: Option<string>
    var refresh: Option<string>
    var admin: Option<Profile>
    var changes: nat

    ghost function View(): Storage reads this { Storage(epoch, token, refresh, admin) }

    constructor ()
      ensures View() == EMPTY && changes == 0
    {
      epoch, token, refresh, admin, changes := None, None, None, None, 0;
    }

    method Write(data: Tokens, username: string)
      modifies this
      ensures View() == Written(old(View()), data, username) && changes == old(changes) + 1
    {
      token := Some(data.token);
      refresh := Some(data.refresh);
      admin := Some(if data.profile.username != "" then data.profile else data.profile.(username := username));
      changes := changes + 1;
    }

    method Login(data: Tokens, username: string, newEpoch: string)
      modifies this
      ensures View() == LoggedIn(old(View()), data, username, newEpoch) && changes == old(changes) + 1
    {
      epoch := Some(newEpoch);
      Write(data, username);
    }

    method Clear(expected: Option<string>) returns (cleared: bool)
      modifies this
      ensures View() == Cleared(old(View()), expected)
      ensures cleared <==> old(epoch) == expected
      ensures changes == old(changes) + if cleared then 1 else 0
    {
      if epoch != expected { return false; }
      token, refresh, admin, epoch := None, None, None, None;
      changes := changes + 1;
      cleared := true;
    }

    /** `refresh` up to the request. */
    method BeginRefresh(expected: Option<string>, failed: string) returns (r: Started)
      ensures r == StartRefresh(View(), expected, failed)
    {
      if epoch != expected { return SessionChanged; }
      var current := token;
      if Truthy(current) && current.value != failed { return Answered(current.value); }
      r := BeginRotate(expected);
    }

    /** `ensureFresh` up to the request. */
    method BeginEnsure(expiresAt: string -> Option<int>, expected: Option<string>, now: int) returns (r: Started)
      ensures r == StartEnsure(expiresAt, View(), expected, now)
    {
      if epoch != expected { return SessionChanged; }
      var current := token;
      if !Truthy(current) { return Answered(""); }
      var at := expiresAt(current.value);
      if at.None? || at.value > now + MARGIN { return Answered(current.value); }
      r := BeginRotate(expected);
    }

    method BeginRotate(expected: Option<string>) returns (r: Started)
      ensures r == StartRotate(View(), expected)
    {
      if !Truthy(expected) || !Truthy(refresh) { return SessionExpired; }
      r := Rotating(refresh.value);
    }

    /** `rotate` after a successful request. */
    method EndRotate(expected: Option<string>, result: Tokens) returns (r: Started)
      modifies this
      ensures View() == FinishRotate(old(View()), expected, Some(result))
      ensures r == if old(epoch) == expected then Answered(result.token) else SessionChanged
    {
      if epoch != expected { return SessionChanged; }
      Write(result, "");
      r := Answered(result.token);
    }

    /** `syncProfile` after the request; the outcome None is a thrown error. */
    method EndSync(asked: Asked, reply: Option<Profile>) returns (r: Option<bool>)
      modifies this
      ensures View() == FinishSync(old(View()), asked, reply)
      ensures r == if !StillAsked(old(View()), asked) then Some(false)
                   else if reply.None? || !WellFormed(reply.value) then None
                   else Some(reply.value.account == asked.account)
      ensures changes == old(changes) + if View() == old(View()) then 0 else 1
    {
      if epoch != asked.epoch || token != Some(asked.token) || admin.None? || admin.value.account != asked.account {
        return Some(false);
      }
      if reply.None? || !WellFormed(reply.value) { return None; }
      if reply.value.account != asked.account { return Some(false); }
      if admin != Some(reply.value) {
        admin := Some(reply.value);
        changes := changes + 1;
      }
      r := Some(true);
    }
  }

  // -------------------------------------------------------- tabs, server and runs

  /** A login: whose it is, and how many logins and logouts there had been, itself included. */
  datatype Session = Session(account: int, moment: nat)

  datatype Rotation = Rotation(expected: Option<string>, sent: string, superseded: Option<string>, moment: nat)

  datatype Sync = Sync(asked: Asked, moment: nat)

  /**
   * `sessions` are all logins by epoch, `born` the epoch from whose login each token descends,
   * `moment` the number of logins and logouts so far, `written` the rotations whose
   * answers were stored.
   */
  datatype World = World(
    st: Storage, sessions: map<string, Session>, born: map<string, string>, moment: nat,
    rotations: map<nat, Rotation>, syncs: map<nat, Sync>, written: seq<Rotation>)

  datatype Event =
    | LoginEvent(data: Tokens, username: string, epoch: string)
    | ClearEvent(expected: Option<string>)
    | EnsureEvent(task: nat, expected: Option<string>, now: int)
    | RefreshEvent(task: nat, expected: Option<string>, failed: string)
    | RotationReply(task: nat, reply: Option<Tokens>)
    | SyncEvent(task: nat)
    | SyncReply(task: nat, profile: Option<Profile>)

  /** The server never issues a token twice. */
  predicate Issued(w: World, data: Tokens) {
    data.token != "" && data.refresh != "" && data.token != data.refresh && data.token !in w.born && data.refresh !in w.born
  }

  /** What the tabs can do, and what the server and the epoch generator promise. */
  predicate Possible(w: World, shared: bool, e: Event) {
    && (shared && !e.RotationReply? && !e.SyncEvent? ==> w.rotations == map[])
    && match e
       case LoginEvent(data, _, epoch) => Issued(w, data) && epoch != "" && epoch !in w.sessions
       case ClearEvent(_) => true
       case EnsureEvent(task, _, _) => task !in w.rotations
       case RefreshEvent(task, _, _) => task !in w.rotations
       case RotationReply(task, reply) =>
         && task in w.rotations
         && (reply.Some? ==>
              && Issued(w, reply.value)
              && var sent := w.rotations[task].sent;
                 sent in w.born && w.born[sent] in w.sessions && reply.value.profile.account == w.sessions[w.born[sent]].account)
       case SyncEvent(task) => task !in w.syncs
       case SyncReply(task, _) => task in w.syncs
  }

  function Begun(w: World, task: nat, expected: Option<string>, started: Started): World {
    if started.Rotating?
    then w.(rotations := w.rotations[task := Rotation(expected, started.sent, w.st.token, w.moment)])
    else w
  }

  function Descends(born: map<string, string>, data: Tokens, epoch: string): map<string, string> {
    born[data.token := epoch][data.refresh := epoch]
  }

  function Replied(w: World, task: nat, reply: Option<Tokens>): World
    requires task in w.rotations
  {
    var r := w.rotations[task];
    var w1 := w.(st := FinishRotate(w.st, r.expected, reply), rotations := w.rotations - {task});
    if reply.None? || r.sent !in w.born then w1
    else
      w1.(born := Descends(w.born, reply.value, w.born[r.sent]),
          written := if w.st.epoch == r.expected then w.written + [r] else w.written)
  }

  function Next(w: World, expiresAt: string -> Option<int>, shared: bool, e: Event): World
    requires Possible(w, shared, e)
  {
    match e
    case LoginEvent(data, username, epoch) =>
      w.(st := LoggedIn(w.st, data, username, epoch),
         sessions := w.sessions[epoch := Session(data.profile.account, w.moment + 1)],
         born := Descends(w.born, data, epoch), moment := w.moment + 1)
    case ClearEvent(expected) =>
      if w.st.epoch == expected then w.(st := EMPTY, moment := w.moment + 1) else w
    case EnsureEvent(task, expected, now) => Begun(w, task, expected, StartEnsure(expiresAt, w.st, expected, now))
    case RefreshEvent(task, expected, failed) => Begun(w, task, expected, StartRefresh(w.st, expected, failed))
    case RotationReply(task, reply) => Replied(w, task, reply)
    case SyncEvent(task) =>
      if Identified(w.st)
      then w.(syncs := w.syncs[task := Sync(Asked(w.st.epoch, w.st.token.value, w.st.admin.value.account), w.moment)])
      else w
    case SyncReply(task, profile) =>
      w.(st := FinishSync(w.st, w.syncs[task].asked, profile), syncs := w.syncs - {task})
  }

  ghost predicate Step(w: World, expiresAt: string -> Option<int>, shared: bool, w': World) {
    exists e :: Possible(w, shared, e) && w' == Next(w, expiresAt, shared, e)
  }

  ghost predicate Run(expiresAt: string -> Option<int>, shared: bool, run: seq<World>) {
    && run != [] && run[0] == World(EMPTY, map[], map[], 0, map[], map[], [])
    && forall k :: 0 <= k < |run| - 1 ==> Step(run[k], expiresAt, shared, run[k + 1])
  }

  // ------------------------------------------------------------- the invariant

  predicate From(w: World, token: Option<string>, epoch: Option<string>) {
    token.Some? && token.value in w.born && Some(w.born[token.value]) == epoch
  }

  /** All three keys come from the login whose epoch is stored, and nothing has logged in or out since. */
  ghost predicate StoreOk(w: World) {
    if w.st.epoch.None? then w.st == EMPTY && forall e :: e in w.sessions ==> w.sessions[e].moment < w.moment
    else
      && w.st.epoch.value in w.sessions && w.st.epoch.value != ""
      && w.sessions[w.st.epoch.value].moment == w.moment
      && From(w, w.st.token, w.st.epoch) && From(w, w.st.refresh, w.st.epoch)
      && w.st.token.value != "" && w.st.refresh.value != ""
      && w.st.admin.Some? && w.st.admin.value.account == w.sessions[w.st.epoch.value].account
  }

  ghost predicate HistoryOk(w: World) {
    && (forall t :: t in w.born ==> w.born[t] in w.sessions)
    && (forall d, e :: d in w.sessions && e in w.sessions && w.sessions[d].moment == w.sessions[e].moment ==> d == e)
    && (forall e :: e in w.sessions ==> w.sessions[e].moment <= w.moment)
  }

  predicate Began(w: World, epoch: Option<string>, moment: nat) {
    epoch.Some? && epoch.value in w.sessions && w.sessions[epoch.value].moment == moment
  }

  ghost predicate TasksOk(w: World) {
    && (forall k :: k in w.rotations ==>
         var r := w.rotations[k];
         Began(w, r.expected, r.moment) && From(w, Some(r.sent), r.expected) && From(w, r.superseded, r.expected))
    && (forall k :: k in w.syncs ==> Began(w, w.syncs[k].asked.epoch, w.syncs[k].moment))
  }

  ghost predicate Inv(w: World) { StoreOk(w) && HistoryOk(w) && TasksOk(w) }

  /** What the descent of tokens and the logins may do in a step. */
  ghost predicate Grown(w: World, w': World) {
    && (forall t :: t in w.born ==> t in w'.born && w'.born[t] == w.born[t])
    && (forall e :: e in w.sessions ==> e in w'.sessions && w'.sessions[e] == w.sessions[e])
  }

  lemma TasksGrow(w: World, w': World)
    requires TasksOk(w) && Grown(w, w') && w'.syncs.Keys <= w.syncs.Keys && w'.rotations.Keys <= w.rotations.Keys
    requires forall k :: k in w'.syncs ==> w'.syncs[k] == w.syncs[k]
    requires forall k :: k in w'.rotations ==> w'.rotations[k] == w.rotations[k]
    ensures TasksOk(w')
  {}

  lemma LoginKeepsInv(w: World, f: string -> Option<int>, shared: bool, e: Event)
    requires Inv(w) && Possible(w, shared, e) && e.LoginEvent?
    ensures Inv(Next(w, f, shared, e))
  {
    var w' := Next(w, f, shared, e);
    LoginKeepsStore(w, f, shared, e);
    TasksGrow(w, w');
  }

  lemma LoginKeepsStore(w: World, f: string -> Option<int>, shared: bool, e: Event)
    requires Inv(w) && Possible(w, shared, e) && e.LoginEvent?
    ensures StoreOk(Next(w, f, shared, e)) && HistoryOk(Next(w, f, shared, e))
  {}

  lemma BegunKeepsInv(w: World, task: nat, expected: Option<string>, started: Started)
    requires Inv(w) && (started.Rotating? ==> w.st.epoch == expected && StartRotate(w.st, expected) == started)
    ensures Inv(Begun(w, task, expected, started))
  {}

  lemma ReplyKeepsStore(w: World, shared: bool, e: Event)
    requires Inv(w) && Possible(w, shared, e) && e.RotationReply?
    ensures StoreOk(Replied(w, e.task, e.reply))
  {}

  lemma ReplyKeepsHistory(w: World, shared: bool, e: Event)
    requires Inv(w) && Possible(w, shared, e) && e.RotationReply?
    ensures HistoryOk(Replied(w, e.task, e.reply)) && Grown(w, Replied(w, e.task, e.reply))
  {}

  lemma ReplyKeepsInv(w: World, shared: bool, e: Event)
    requires Inv(w) && Possible(w, shared, e) && e.RotationReply?
    ensures Inv(Replied(w, e.task, e.reply))
  {
    ReplyKeepsStore(w, shared, e);
    ReplyKeepsHistory(w, shared, e);
    TasksGrow(w, Replied(w, e.task, e.reply));
  }

  lemma ClearKeepsInv(w: World, f: string -> Option<int>, shared: bool, e: Event)
    requires Inv(w) && Possible(w, shared, e) && e.ClearEvent?
    ensures Inv(Next(w, f, shared, e))
  {}

  lemma AskKeepsInv(w: World, f: string -> Option<int>, shared: bool, e: Event)
    requires Inv(w) && Possible(w, shared, e) && e.SyncEvent?
    ensures Inv(Next(w, f, shared, e))
  {}

  lemma SyncKeepsInv(w: World, f: string -> Option<int>, shared: bool, e: Event)
    requires Inv(w) && Possible(w, shared, e) && e.SyncReply?
    ensures Inv(Next(w, f, shared, e))
  {
    TasksGrow(w, Next(w, f, shared, e));
  }

  lemma EventKeepsInv(w: World, f: string -> Option<int>, shared: bool, e: Event)
    requires Inv(w) && Possible(w, shared, e)
    ensures Inv(Next(w, f, shared, e))
  {
    match e {
      case LoginEvent(_, _, _) => LoginKeepsInv(w, f, shared, e);
      case EnsureEvent(task, expected, now) => BegunKeepsInv(w, task, expected, StartEnsure(f, w.st, expected, now));
      case RefreshEvent(task, expected, failed) => BegunKeepsInv(w, task, expected, StartRefresh(w.st, expected, failed));
      case RotationReply(_, _) => ReplyKeepsInv(w, shared, e);
      case ClearEvent(_) => ClearKeepsInv(w, f, shared, e);
      case SyncEvent(_) => AskKeepsInv(w, f, shared, e);
      case SyncReply(_, _) => SyncKeepsInv(w, f, shared, e);
    }
  }

  lemma StepKeepsInv(w: World, f: string -> Option<int>, shared: bool, w': World)
    requires Inv(w) && Step(w, f, shared, w')
    ensures Inv(w')
  {
    var e :| Possible(w, shared, e) && w' == Next(w, f, shared, e);
    EventKeepsInv(w, f, shared, e);
  }

  lemma {:induction false} RunInv(f: string -> Option<int>, shared: bool, run: seq<World>, k: nat)
    requires Run(f, shared, run) && k < |run|
    ensures Inv(run[k])
  {
    if k > 0 {
      RunInv(f, shared, run, k - 1);
      StepKeepsInv(run[k - 1], f, shared, run[k]);
    }
  }

  // --------------------------------------------------------------- the theorems

  /** Whatever is stored belongs to one login: the latest, with no logout since. */
  lemma StoredIsLatest(f: string -> Option<int>, shared: bool, run: seq<World>, k: nat)
    requires Run(f, shared, run) && k < |run|
    ensures var w := run[k];
      && (w.st.epoch.None? ==> w.st == EMPTY)
      && (w.st.epoch.Some? ==>
           && From(w, w.st.token, w.st.epoch) && From(w, w.st.refresh, w.st.epoch)
           && w.st.epoch.value in w.sessions
           && w.st.admin.Some? && w.st.admin.value.account == w.sessions[w.st.epoch.value].account
           && w.sessions[w.st.epoch.value].moment == w.moment
           && forall e :: e in w.sessions && e != w.st.epoch.value ==> w.sessions[e].moment < w.moment)
  {
    RunInv(f, shared, run, k);
    var w := run[k];
    if w.st.epoch.Some? {
      forall e | e in w.sessions && e != w.st.epoch.value ensures w.sessions[e].moment < w.moment {
        assert w.sessions[e].moment != w.sessions[w.st.epoch.value].moment;
      }
    }
  }

  lemma EpochMarksMoment(w: World, epoch: Option<string>, moment: nat)
    requires Inv(w) && Began(w, epoch, moment)
    ensures w.st.epoch == epoch <==> moment == w.moment
  {}

  /** A rotation's answer, however late, is written exactly if nobody logged in or out since it was asked for. */
  lemma LateRotation(f: string -> Option<int>, shared: bool, run: seq<World>, k: nat, e: Event)
    requires Run(f, shared, run) && k < |run| && Possible(run[k], shared, e) && e.RotationReply? && e.reply.Some?
    ensures var w, w' := run[k], Next(run[k], f, shared, e);
      if w.rotations[e.task].moment == w.moment
      then w'.st.token == Some(e.reply.value.token) && w'.st.refresh == Some(e.reply.value.refresh) && w'.st.epoch == w.st.epoch
      else w'.st == w.st
  {
    RunInv(f, shared, run, k);
    EpochMarksMoment(run[k], run[k].rotations[e.task].expected, run[k].rotations[e.task].moment);
  }

  /** A profile answer is written only if nobody logged in or out, or rotated the token, since; and only for the same account. */
  lemma LateProfile(f: string -> Option<int>, shared: bool, run: seq<World>, k: nat, e: Event)
    requires Run(f, shared, run) && k < |run| && Possible(run[k], shared, e) && e.SyncReply?
    requires Next(run[k], f, shared, e).st != run[k].st
    ensures var w, sync := run[k], run[k].syncs[e.task];
      && sync.moment == w.moment && w.st.token == Some(sync.asked.token)
      && Next(w, f, shared, e).st == w.st.(admin := e.profile) && e.profile.Some?
      && w.st.admin.Some? && e.profile.value.account == w.st.admin.value.account
  {
    RunInv(f, shared, run, k);
    EpochMarksMoment(run[k], run[k].syncs[e.task].asked.epoch, run[k].syncs[e.task].moment);
  }

  /** A logout for one login empties the store exactly if that login is still the latest, and else touches nothing. */
  lemma ClearIsOwn(f: string -> Option<int>, shared: bool, run: seq<World>, k: nat, epoch: string)
    requires Run(f, shared, run) && k < |run| && epoch in run[k].sessions
    ensures Cleared(run[k].st, Some(epoch)) == if run[k].sessions[epoch].moment == run[k].moment then EMPTY else run[k].st
  {
    RunInv(f, shared, run, k);
    EpochMarksMoment(run[k], Some(epoch), run[k].sessions[epoch].moment);
  }

  // what a request does in any state of a run

  /**
   * A request that failed with a token: refused under another login, answered from the store if the
   * token was exchanged meanwhile, else the stored refresh token is sent. Logged out, there is nothing to send.
   */
  lemma RefreshExactly(f: string -> Option<int>, shared: bool, run: seq<World>, k: nat, expected: Option<string>, failed: string)
    requires Run(f, shared, run) && k < |run|
    ensures var st := run[k].st;
      && (st.epoch.Some? ==> st.token.Some? && st.refresh.Some?)
      && StartRefresh(st, expected, failed) ==
         if expected != st.epoch then SessionChanged
         else if st.epoch.None? then SessionExpired
         else if st.token.value != failed then Answered(st.token.value)
         else Rotating(st.refresh.value)
  {
    RunInv(f, shared, run, k);
  }

  /** Before a request the stored refresh token is sent exactly if the stored token ends within 30 seconds; else the token serves. */
  lemma EnsureExactly(f: string -> Option<int>, shared: bool, run: seq<World>, k: nat, expected: Option<string>, now: int)
    requires Run(f, shared, run) && k < |run|
    ensures var st := run[k].st;
      && (st.epoch.Some? ==> st.token.Some? && st.refresh.Some?)
      && StartEnsure(f, st, expected, now) ==
         if expected != st.epoch then SessionChanged
         else if st.epoch.None? then Answered("")
         else if f(st.token.value).Some? && f(st.token.value).value <= now + 30_000 then Rotating(st.refresh.value)
         else Answered(st.token.value)
  {
    RunInv(f, shared, run, k);
  }

  /** A login stores its epoch, tokens and profile, with the name typed in only if the server gives none. */
  lemma LoginExactly(st: Storage, data: Tokens, username: string, epoch: string)
    ensures LoggedIn(st, data, username, epoch) ==
      Storage(Some(epoch), Some(data.token), Some(data.refresh),
        Some(Profile(data.profile.account, if data.profile.username == "" then username else data.profile.username,
                     data.profile.displayName, data.profile.role, data.profile.permissions)))
  {}

  /** A profile is asked for exactly by a stored login with a positive safe account, in its own name. */
  lemma AsksExactly(f: string -> Option<int>, shared: bool, run: seq<World>, k: nat, task: nat)
    requires Run(f, shared, run) && k < |run| && task !in run[k].syncs
    ensures var w, w' := run[k], Next(run[k], f, shared, SyncEvent(task));
      && w'.st == w.st
      && (task in w'.syncs <==> w.st.admin.Some? && 0 < w.st.admin.value.account <= 9007199254740991)
      && (task in w'.syncs ==>
           w.st.token.Some? && w.st.admin.Some? && w'.syncs[task].asked == Asked(w.st.epoch, w.st.token.value, w.st.admin.value.account))
  {
    RunInv(f, shared, run, k);
  }

  /** A profile is stored exactly if its login, token and account are still the stored ones and it is a well-formed profile of that account. */
  lemma SyncExactly(st: Storage, asked: Asked, p: Profile)
    ensures FinishSync(st, asked, Some(p)) ==
      if st.epoch == asked.epoch && st.token == Some(asked.token) && st.admin.Some?
         && st.admin.value.account == asked.account == p.account
         && -9007199254740991 <= p.account <= 9007199254740991 && p.username != "" && p.role != "" && "" !in p.permissions
      then Storage(st.epoch, st.token, st.refresh, Some(p))
      else st
    ensures FinishSync(st, asked, None) == st
  {}

  // ---------------------------------------------------------- under one shared lock

  /** Nothing moves in the store while a rotation waits. */
  ghost predicate Held(w: World) {
    && (forall k :: k in w.rotations ==>
         w.rotations[k].expected == w.st.epoch && w.rotations[k].superseded == w.st.token && Some(w.rotations[k].sent) == w.st.refresh)
    && (forall j, k :: j in w.rotations && k in w.rotations ==> j == k)
  }

  predicate Spent(w: World, r: Rotation) {
    && r.superseded.Some? && r.superseded.value in w.born && r.superseded != w.st.token
    && r.sent in w.born && Some(r.sent) != w.st.refresh
  }

  ghost predicate Distinct(written: seq<Rotation>) {
    forall i, j :: 0 <= i < j < |written| ==> written[i].superseded != written[j].superseded && written[i].sent != written[j].sent
  }

  ghost predicate SharedInv(w: World) {
    Held(w) && Distinct(w.written) && forall i :: 0 <= i < |w.written| ==> Spent(w, w.written[i])
  }

  /** A step that stores either the same tokens, new ones or none keeps spent tokens spent. */
  lemma SpentStays(w: World, w': World, r: Rotation)
    requires Spent(w, r) && forall t :: t in w.born ==> t in w'.born
    requires w'.st.token == w.st.token || w'.st.token.None? || w'.st.token.value !in w.born
    requires w'.st.refresh == w.st.refresh || w'.st.refresh.None? || w'.st.refresh.value !in w.born
    ensures Spent(w', r)
  {}

  lemma ReplyKeepsShared(w: World, e: Event)
    requires Inv(w) && SharedInv(w) && Possible(w, true, e) && e.RotationReply?
    ensures SharedInv(Replied(w, e.task, e.reply))
  {
    var w' := Replied(w, e.task, e.reply);
    forall i | 0 <= i < |w.written| ensures Spent(w', w.written[i]) { SpentStays(w, w', w.written[i]); }
    assert w'.rotations == map[];
  }

  lemma OtherKeepsHeld(w: World, f: string -> Option<int>, e: Event)
    requires Inv(w) && Held(w) && Possible(w, true, e) && !e.RotationReply?
    ensures Held(Next(w, f, true, e))
  {}

  lemma OtherKeepsTokens(w: World, f: string -> Option<int>, e: Event)
    requires Possible(w, true, e) && !e.RotationReply?
    ensures var w' := Next(w, f, true, e);
      && w'.written == w.written && (forall t :: t in w.born ==> t in w'.born)
      && (w'.st.token == w.st.token || w'.st.token.None? || w'.st.token.value !in w.born)
      && (w'.st.refresh == w.st.refresh || w'.st.refresh.None? || w'.st.refresh.value !in w.born)
  {}

  lemma OtherKeepsShared(w: World, f: string -> Option<int>, e: Event)
    requires Inv(w) && SharedInv(w) && Possible(w, true, e) && !e.RotationReply?
    ensures SharedInv(Next(w, f, true, e))
  {
    var w' := Next(w, f, true, e);
    OtherKeepsHeld(w, f, e);
    OtherKeepsTokens(w, f, e);
    forall i | 0 <= i < |w'.written| ensures Spent(w', w'.written[i]) { SpentStays(w, w', w.written[i]); }
  }

  lemma StepKeepsShared(w: World, f: string -> Option<int>, w': World)
    requires Inv(w) && SharedInv(w) && Step(w, f, true, w')
    ensures SharedInv(w')
  {
    var e :| Possible(w, true, e) && w' == Next(w, f, true, e);
    if e.RotationReply? { ReplyKeepsShared(w, e); } else { OtherKeepsShared(w, f, e); }
  }

  lemma {:induction false} SharedChain(run: seq<World>, k: nat)
    requires k < |run| && SharedInv(run[0])
    requires forall n :: 0 <= n < k && SharedInv(run[n]) ==> SharedInv(run[n + 1])
    ensures SharedInv(run[k])
  {
    if k > 0 { SharedChain(run, k - 1); }
  }

  lemma RunShared(f: string -> Option<int>, run: seq<World>, k: nat)
    requires Run(f, true, run) && k < |run|
    ensures SharedInv(run[k])
  {
    forall n | 0 <= n < k && SharedInv(run[n]) ensures SharedInv(run[n + 1]) {
      RunInv(f, true, run, n);
      StepKeepsShared(run[n], f, run[n + 1]);
    }
    SharedChain(run, k);
  }

  /** Under one shared lock no token and no refresh token is ever exchanged successfully twice. */
  lemma OneRotationPerToken(f: string -> Option<int>, run: seq<World>, k: nat, i: nat, j: nat)
    requires Run(f, true, run) && k < |run| && i < j < |run[k].written|
    ensures run[k].written[i].superseded != run[k].written[j].superseded
    ensures run[k].written[i].sent != run[k].written[j].sent
  {
    RunShared(f, run, k);
  }

  /** Every other request that failed with the exchanged token is answered from the store, with a different token. */
  lemma FollowersReuse(f: string -> Option<int>, run: seq<World>, k: nat, i: nat)
    requires Run(f, true, run) && k < |run| && i < |run[k].written| && run[k].st.epoch.Some?
    ensures run[k].written[i].superseded.Some?
    ensures run[k].st.token.Some? && run[k].st.token != run[k].written[i].superseded
    ensures StartRefresh(run[k].st, run[k].st.epoch, run[k].written[i].superseded.value) == Answered(run[k].st.token.value)
  {
    RunShared(f, run, k);
    RunInv(f, true, run, k);
    assert Spent(run[k], run[k].written[i]);
  }

  /** And a rotation that holds the lock is never overtaken: its answer is always written. */
  lemma LockedAnswerIsWritten(f: string -> Option<int>, run: seq<World>, k: nat, e: Event)
    requires Run(f, true, run) && k < |run| && Possible(run[k], true, e) && e.RotationReply? && e.reply.Some?
    ensures Next(run[k], f, true, e).st.token == Some(e.reply.value.token)
    ensures Next(run[k], f, true, e).written == run[k].written + [run[k].rotations[e.task]]
  {
    RunShared(f, run, k);
  }
}
