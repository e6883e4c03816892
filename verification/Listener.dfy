/**
 * The TCP listener: bounded connections, accept goroutines, error channel and shutdown drain
 * (internal/protocol/listener.go).
 */
module Listener {
  import opened Basics

  // -------------------------------------------------------------------- binding

  datatype Endpoint = Endpoint(address: string, hasAdapter: bool)

  /** What each endpoint demands for itself and of its predecessors. */
  predicate Bindable(endpoints: seq<Endpoint>, binds: seq<bool>, k: nat)
    requires k < |endpoints| == |binds|
  {
    && endpoints[k].hasAdapter && endpoints[k].address != "" && binds[k]
    && (forall j :: 0 <= j < k ==> endpoints[j].address != endpoints[k].address)
  }

  /**
   * Binds every endpoint before anything is accepted; `binds` are the operating system's answers.
   * `bound` and `closed` are the listeners bound and closed, by endpoint.
   */
  method Bind(endpoints: seq<Endpoint>, hasSink: bool, max: int, binds: seq<bool>)
    returns (ok: bool, bound: seq<nat>, closed: seq<nat>)
    requires |binds| == |endpoints|
    ensures ok <==> endpoints != [] && hasSink && 1 <= max && forall k :: 0 <= k < |endpoints| ==> Bindable(endpoints, binds, k)
    ensures ok ==> closed == [] && |bound| == |endpoints| && forall k :: 0 <= k < |bound| ==> bound[k] == k
    ensures !ok ==> closed == bound
  {
    bound, closed := [], [];
    if |endpoints| == 0 || !hasSink || max < 1 { return false, bound, closed; }
    var seen: set<string> := {};
    var i := 0;
    while i < |endpoints|
      invariant 0 <= i <= |endpoints|
      invariant |bound| == i && forall k :: 0 <= k < i ==> bound[k] == k
      invariant forall a :: a in seen <==> exists j :: 0 <= j < i && endpoints[j].address == a
      invariant forall k :: 0 <= k < i ==> Bindable(endpoints, binds, k)
    {
      if !endpoints[i].hasAdapter || endpoints[i].address == "" || endpoints[i].address in seen {
        assert !Bindable(endpoints, binds, i);
        return false, bound, bound;
      }
      seen := seen + {endpoints[i].address};
      if !binds[i] {
        assert !Bindable(endpoints, binds, i);
        return false, bound, bound;
      }
      bound := bound + [i];
      i := i + 1;
    }
    ok := true;
  }

  // --------------------------------------------------------- the running listener

  /** An accept goroutine: accepting, holding a connection, holding its token, having registered it, failing, stopped. */
  datatype Acceptor = Accepting | Holding(conn: nat) | Registering(conn: nat) | Starting(conn: nat) | Failing | Stopped

  /** The life of an accepted connection; the first three are under the hands of acceptor `owner`. */
  datatype Phase =
    | Accepted(owner: nat) | Admitted(owner: nat) | Registered(owner: nat)
    | Serving | Ended | Removed | Released | Finished
    | Rejected

  datatype Conn = Conn(phase: Phase, open: bool)

  /** What Serve will return: nothing decided yet, the cancellation, or an acceptor's error. */
  datatype Outcome = Undecided | Cancelled | AcceptFailed(acceptor: nat)

  /** The main goroutine. */
  datatype Main = Waiting | Closing(next: nat) | AwaitAcceptors | CloseActive | AwaitConnections | Returned

  /**
   * `limit` is the length of the token channel, `errors` the error channel by acceptor, `running` and
   * `connections` the counters of the two wait groups.
   */
  datatype State = State(
    max: nat, acceptors: seq<Acceptor>, conns: map<nat, Conn>, active: set<nat>,
    limit: nat, errors: seq<nat>, running: nat, connections: nat, cancelled: bool, main: Main, result: Outcome)

  datatype Event =
    | AcceptConn(i: nat, conn: nat) | AcceptError(i: nat) | Admit(i: nat) | Reject(i: nat)
    | Register(i: nat) | Start(i: nat) | SendError(i: nat)
    | ServeEnds(conn: nat) | Remove(conn: nat) | Release(conn: nat) | Finish(conn: nat)
    | Cancel | SeeCancel | SeeError | CloseListener | AcceptorsDone | CloseConnections | ConnectionsDone

  predicate ListenerOpen(s: State, i: nat) { s.main.Waiting? || (s.main.Closing? && s.main.next <= i) }

  predicate At(s: State, i: nat, a: Acceptor) { i < |s.acceptors| && s.acceptors[i] == a }

  predicate In(s: State, c: nat, p: Phase) { c in s.conns && s.conns[c].phase == p }

  predicate Enabled(s: State, e: Event) {
    match e
    case AcceptConn(i, c) => At(s, i, Accepting) && ListenerOpen(s, i) && c !in s.conns
    case AcceptError(i) => At(s, i, Accepting)
    case Admit(i) => i < |s.acceptors| && s.acceptors[i].Holding? && s.limit < s.max
    case Reject(i) => i < |s.acceptors| && s.acceptors[i].Holding? && s.limit >= s.max
    case Register(i) => i < |s.acceptors| && s.acceptors[i].Registering?
    case Start(i) => i < |s.acceptors| && s.acceptors[i].Starting?
    case SendError(i) => At(s, i, Failing) && |s.errors| < |s.acceptors|
    case ServeEnds(c) => In(s, c, Serving)
    case Remove(c) => In(s, c, Ended)
    case Release(c) => In(s, c, Removed) && s.limit > 0
    case Finish(c) => In(s, c, Released) && s.connections > 0
    case Cancel => !s.cancelled
    case SeeCancel => s.main.Waiting? && s.cancelled
    case SeeError => s.main.Waiting? && |s.errors| > 0
    case CloseListener => s.main.Closing?
    case AcceptorsDone => s.main.AwaitAcceptors? && s.running == 0
    case CloseConnections => s.main.CloseActive?
    case ConnectionsDone => s.main.AwaitConnections? && s.connections == 0
  }

  /** Acceptor i and a connection move together. */
  function Move(s: State, i: nat, a: Acceptor, c: nat, conn: Conn): State
    requires i < |s.acceptors|
  {
    s.(acceptors := s.acceptors[i := a], conns := s.conns[c := conn])
  }

  function Closed(s: State): map<nat, Conn> {
    map c | c in s.conns :: if c in s.active then s.conns[c].(open := false) else s.conns[c]
  }

  function Next(s: State, e: Event): State
    requires Enabled(s, e)
  {
    match e
    case AcceptConn(i, c) => Move(s, i, Holding(c), c, Conn(Accepted(i), true))
    case AcceptError(i) =>
      if s.cancelled then s.(acceptors := s.acceptors[i := Stopped], running := if s.running > 0 then s.running - 1 else 0)
      else s.(acceptors := s.acceptors[i := Failing])
    case Admit(i) =>
      var c := s.acceptors[i].conn;
      Move(s, i, Registering(c), c, Conn(Admitted(i), true)).(limit := s.limit + 1)
    case Reject(i) =>
      var c := s.acceptors[i].conn;
      Move(s, i, Accepting, c, Conn(Rejected, false))
    case Register(i) =>
      var c := s.acceptors[i].conn;
      Move(s, i, Starting(c), c, Conn(Registered(i), true)).(active := s.active + {c})
    case Start(i) =>
      var c := s.acceptors[i].conn;
      Move(s, i, Accepting, c, Conn(Serving, true)).(connections := s.connections + 1)
    case SendError(i) =>
      s.(acceptors := s.acceptors[i := Stopped], errors := s.errors + [i], running := if s.running > 0 then s.running - 1 else 0)
    case ServeEnds(c) => s.(conns := s.conns[c := Conn(Ended, false)])
    case Remove(c) => s.(conns := s.conns[c := Conn(Removed, false)], active := s.active - {c})
    case Release(c) => s.(conns := s.conns[c := Conn(Released, false)], limit := s.limit - 1)
    case Finish(c) => s.(conns := s.conns[c := Conn(Finished, false)], connections := s.connections - 1)
    case Cancel => s.(cancelled := true)
    case SeeCancel => s.(main := Closing(0), result := Cancelled)
    case SeeError => s.(main := Closing(0), errors := s.errors[1..], result := AcceptFailed(s.errors[0]))
    case CloseListener => s.(main := if s.main.next < |s.acceptors| then Closing(s.main.next + 1) else AwaitAcceptors)
    case AcceptorsDone => s.(main := CloseActive)
    case CloseConnections => s.(conns := Closed(s), main := AwaitConnections)
    case ConnectionsDone => s.(main := Returned)
  }

  function Initial(listeners: nat, max: nat): State {
    State(max, seq(listeners, _ => Accepting), map[], {}, 0, [], listeners, 0, false, Waiting, Undecided)
  }

  ghost predicate Step(s: State, s': State) { exists e :: Enabled(s, e) && s' == Next(s, e) }

  ghost predicate Run(listeners: nat, max: nat, run: seq<State>) {
    && run != [] && run[0] == Initial(listeners, max)
    && forall k :: 0 <= k < |run| - 1 ==> Step(run[k], run[k + 1])
  }

  // ------------------------------------------------------------- the invariant

  predicate HoldsToken(p: Phase) { p.Admitted? || p.Registered? || p.Serving? || p.Ended? || p.Removed? }

  predicate Listed(p: Phase) { p.Registered? || p.Serving? || p.Ended? }

  predicate Running(p: Phase) { p.Serving? || p.Ended? || p.Removed? || p.Released? }

  function Tokens(conns: map<nat, Conn>): set<nat> { set c | c in conns && HoldsToken(conns[c].phase) }

  function Live(conns: map<nat, Conn>): set<nat> { set c | c in conns && Running(conns[c].phase) }

  function Unstopped(acceptors: seq<Acceptor>): set<nat> { set i: nat | i < |acceptors| && acceptors[i] != Stopped }

  /** The phase that an acceptor's position gives its connection. */
  predicate Matches(s: State, i: nat)
    requires i < |s.acceptors|
  {
    var a := s.acceptors[i];
    && (a.Holding? ==> In(s, a.conn, Accepted(i)))
    && (a.Registering? ==> In(s, a.conn, Admitted(i)))
    && (a.Starting? ==> In(s, a.conn, Registered(i)))
  }

  /** And back; a connection past serving, or rejected, is closed. */
  predicate Owned(s: State, c: nat)
    requires c in s.conns
  {
    var p := s.conns[c].phase;
    && (p.Accepted? ==> At(s, p.owner, Holding(c)))
    && (p.Admitted? ==> At(s, p.owner, Registering(c)))
    && (p.Registered? ==> At(s, p.owner, Starting(c)))
    && (p.Ended? || p.Removed? || p.Released? || p.Finished? || p.Rejected? ==> !s.conns[c].open)
  }

  ghost predicate Ownership(s: State) {
    && (forall i :: 0 <= i < |s.acceptors| ==> Matches(s, i))
    && (forall c :: c in s.conns ==> Owned(s, c))
    && (forall c :: c in s.active <==> c in s.conns && Listed(s.conns[c].phase))
  }

  ghost predicate Counters(s: State) {
    && s.limit == |Tokens(s.conns)| <= s.max
    && s.connections == |Live(s.conns)|
    && s.running == |Unstopped(s.acceptors)|
    && |s.errors| + s.running <= |s.acceptors|
    && (s.main.Waiting? && !s.cancelled ==> |s.errors| + s.running == |s.acceptors|)
  }

  ghost predicate Drain(s: State) {
    && (s.main.CloseActive? || s.main.AwaitConnections? || s.main.Returned? ==> s.running == 0)
    && (s.main.AwaitConnections? || s.main.Returned? ==> forall c :: c in s.active && c in s.conns ==> !s.conns[c].open)
    && (s.main.Returned? ==> s.connections == 0)
  }

  /** Acceptors that reported an error have stopped; the outcome is decided when shutdown begins. */
  ghost predicate Decided(s: State) {
    && (forall i :: i in s.errors ==> At(s, i, Stopped))
    && (s.main.Waiting? <==> s.result.Undecided?)
    && (s.result.Cancelled? ==> s.cancelled)
    && (s.result.AcceptFailed? ==> At(s, s.result.acceptor, Stopped))
  }

  ghost predicate Inv(s: State) { Ownership(s) && Counters(s) && Drain(s) && Decided(s) }

  lemma {:induction false} AllUnstopped(n: nat)
    ensures |Unstopped(seq(n, _ => Accepting))| == n
  {
    var all := seq(n, _ => Accepting);
    if n == 0 {
      assert Unstopped(all) == {};
    } else {
      AllUnstopped(n - 1);
      assert Unstopped(all) == Unstopped(seq(n - 1, _ => Accepting)) + {n - 1};
    }
  }

  lemma NoneUnstopped(acceptors: seq<Acceptor>)
    requires |Unstopped(acceptors)| == 0
    ensures forall i :: 0 <= i < |acceptors| ==> acceptors[i] == Stopped
  {
    forall i | 0 <= i < |acceptors| ensures acceptors[i] == Stopped {
      assert i !in Unstopped(acceptors);
    }
  }

  lemma InitialInv(listeners: nat, max: nat)
    ensures Inv(Initial(listeners, max))
  {
    AllUnstopped(listeners);
    assert Tokens(map[]) == {} && Live(map[]) == {};
  }

  function Bit(b: bool): int { if b then 1 else 0 }

  lemma SetChanged(a: set<nat>, b: set<nat>, x: nat, member: bool)
    requires b == if member then a + {x} else a - {x}
    ensures |b| == |a| - Bit(x in a) + Bit(member)
  {
    assert x in a && member ==> b == a;
    assert x !in a && !member ==> b == a;
  }

  lemma TokensChanged(conns: map<nat, Conn>, c: nat, conn: Conn)
    ensures |Tokens(conns[c := conn])| == |Tokens(conns)| - Bit(c in conns && HoldsToken(conns[c].phase)) + Bit(HoldsToken(conn.phase))
  {
    var before, after := Tokens(conns), Tokens(conns[c := conn]);
    assert c in before <==> c in conns && HoldsToken(conns[c].phase);
    if HoldsToken(conn.phase) { assert after == before + {c}; } else { assert after == before - {c}; }
    SetChanged(before, after, c, HoldsToken(conn.phase));
  }

  lemma LiveChanged(conns: map<nat, Conn>, c: nat, conn: Conn)
    ensures |Live(conns[c := conn])| == |Live(conns)| - Bit(c in conns && Running(conns[c].phase)) + Bit(Running(conn.phase))
  {
    var before, after := Live(conns), Live(conns[c := conn]);
    assert c in before <==> c in conns && Running(conns[c].phase);
    if Running(conn.phase) { assert after == before + {c}; } else { assert after == before - {c}; }
    SetChanged(before, after, c, Running(conn.phase));
  }

  /** Changing one connection moves it in or out of the counted sets and nothing else. */
  lemma ConnChanged(conns: map<nat, Conn>, c: nat, conn: Conn)
    ensures |Tokens(conns[c := conn])| == |Tokens(conns)| - Bit(c in conns && HoldsToken(conns[c].phase)) + Bit(HoldsToken(conn.phase))
    ensures |Live(conns[c := conn])| == |Live(conns)| - Bit(c in conns && Running(conns[c].phase)) + Bit(Running(conn.phase))
  {
    TokensChanged(conns, c, conn);
    LiveChanged(conns, c, conn);
  }

  lemma AcceptorChanged(acceptors: seq<Acceptor>, i: nat, a: Acceptor)
    requires i < |acceptors|
    ensures |Unstopped(acceptors[i := a])| == |Unstopped(acceptors)| - Bit(acceptors[i] != Stopped) + Bit(a != Stopped)
  {
    var before, after := Unstopped(acceptors), Unstopped(acceptors[i := a]);
    assert i in before <==> acceptors[i] != Stopped;
    if a != Stopped { assert after == before + {i}; } else { assert after == before - {i}; }
    SetChanged(before, after, i, a != Stopped);
  }

  lemma SomeUnstopped(acceptors: seq<Acceptor>, i: nat)
    requires i < |acceptors| && acceptors[i] != Stopped
    ensures |Unstopped(acceptors)| > 0
  {
    assert i in Unstopped(acceptors);
  }

  predicate ByAcceptor(e: Event) {
    e.AcceptConn? || e.AcceptError? || e.Admit? || e.Reject? || e.Register? || e.Start? || e.SendError?
  }

  predicate ByConnection(e: Event) { e.ServeEnds? || e.Remove? || e.Release? || e.Finish? }

  lemma AcceptorOwnership(s: State, e: Event)
    requires Inv(s) && Enabled(s, e) && ByAcceptor(e)
    ensures Ownership(Next(s, e))
  {
    var s' := Next(s, e);
    assert Matches(s, e.i);
    forall i | 0 <= i < |s'.acceptors| ensures Matches(s', i) { assert Matches(s, i); }
    forall c | c in s'.conns ensures Owned(s', c) { if c in s.conns { assert Owned(s, c); } }
  }

  lemma AcceptorCounters(s: State, e: Event)
    requires Inv(s) && Enabled(s, e) && ByAcceptor(e)
    ensures Counters(Next(s, e))
  {
    assert Matches(s, e.i);
    var s' := Next(s, e);
    AcceptorChanged(s.acceptors, e.i, s'.acceptors[e.i]);
    SomeUnstopped(s.acceptors, e.i);
    if e.AcceptConn? { ConnChanged(s.conns, e.conn, s'.conns[e.conn]); }
    if e.Admit? || e.Reject? || e.Register? || e.Start? {
      var c := s.acceptors[e.i].conn;
      ConnChanged(s.conns, c, s'.conns[c]);
    }
  }

  lemma AcceptorDrain(s: State, e: Event)
    requires Inv(s) && Enabled(s, e) && ByAcceptor(e)
    ensures Drain(Next(s, e))
  {
    assert e.i in Unstopped(s.acceptors);
  }

  lemma ConnectionOwnership(s: State, e: Event)
    requires Inv(s) && Enabled(s, e) && ByConnection(e)
    ensures Ownership(Next(s, e))
  {
    var s' := Next(s, e);
    forall i | 0 <= i < |s'.acceptors| ensures Matches(s', i) { assert Matches(s, i); }
    forall c | c in s'.conns ensures Owned(s', c) { assert Owned(s, c); }
  }

  lemma ConnectionRest(s: State, e: Event)
    requires Inv(s) && Enabled(s, e) && ByConnection(e)
    ensures Counters(Next(s, e)) && Drain(Next(s, e))
  {
    ConnChanged(s.conns, e.conn, Next(s, e).conns[e.conn]);
  }

  lemma MainOwnership(s: State, e: Event)
    requires Inv(s) && Enabled(s, e) && !ByAcceptor(e) && !ByConnection(e)
    ensures Ownership(Next(s, e))
  {
    var s' := Next(s, e);
    forall i | 0 <= i < |s'.acceptors| ensures Matches(s', i) { assert Matches(s, i); }
    forall c | c in s'.conns ensures Owned(s', c) { assert Owned(s, c); }
  }

  lemma MainRest(s: State, e: Event)
    requires Inv(s) && Enabled(s, e) && !ByAcceptor(e) && !ByConnection(e)
    ensures Counters(Next(s, e)) && Drain(Next(s, e))
  {
    assert Tokens(Next(s, e).conns) == Tokens(s.conns) && Live(Next(s, e).conns) == Live(s.conns);
  }

  lemma StoppedStays(s: State, e: Event, i: nat)
    requires Enabled(s, e) && At(s, i, Stopped)
    ensures At(Next(s, e), i, Stopped)
  {}

  lemma OutcomeStays(s: State, e: Event)
    requires Enabled(s, e) && !e.SeeCancel? && !e.SeeError?
    ensures var s' := Next(s, e); s'.result == s.result && (s'.main.Waiting? <==> s.main.Waiting?) && (s.cancelled ==> s'.cancelled)
    ensures var s' := Next(s, e); s'.errors == s.errors || (e.SendError? && s'.errors == s.errors + [e.i] && At(s', e.i, Stopped))
  {}

  lemma EventKeepsDecided(s: State, e: Event)
    requires Inv(s) && Enabled(s, e)
    ensures Decided(Next(s, e))
  {
    var s' := Next(s, e);
    if s.result.AcceptFailed? { StoppedStays(s, e, s.result.acceptor); }
    if e.SeeError? {
      assert s.errors[0] in s.errors;
      forall i | i in s'.errors ensures At(s', i, Stopped) { assert i in s.errors; }
    } else if !e.SeeCancel? {
      OutcomeStays(s, e);
      forall i | i in s'.errors ensures At(s', i, Stopped) { if i in s.errors { StoppedStays(s, e, i); } }
    }
  }

  lemma EventKeepsInv(s: State, e: Event)
    requires Inv(s) && Enabled(s, e)
    ensures Inv(Next(s, e))
  {
    EventKeepsDecided(s, e);
    if ByAcceptor(e) {
      AcceptorOwnership(s, e);
      AcceptorCounters(s, e);
      AcceptorDrain(s, e);
    } else if ByConnection(e) {
      ConnectionOwnership(s, e);
      ConnectionRest(s, e);
    } else {
      MainOwnership(s, e);
      MainRest(s, e);
    }
  }

  lemma NextKeepsShape(s: State, e: Event)
    requires Enabled(s, e)
    ensures Next(s, e).max == s.max && |Next(s, e).acceptors| == |s.acceptors|
  {}

  lemma StepKeepsInv(s: State, s': State)
    requires Inv(s) && Step(s, s')
    ensures Inv(s') && s'.max == s.max && |s'.acceptors| == |s.acceptors|
  {
    var e :| Enabled(s, e) && s' == Next(s, e);
    NextKeepsShape(s, e);
    EventKeepsInv(s, e);
  }

  lemma {:induction false} RunInv(listeners: nat, max: nat, run: seq<State>, k: nat)
    requires Run(listeners, max, run) && k < |run|
    ensures Inv(run[k]) && run[k].max == max && |run[k].acceptors| == listeners
  {
    if k == 0 {
      InitialInv(listeners, max);
    } else {
      RunInv(listeners, max, run, k - 1);
      StepKeepsInv(run[k - 1], run[k]);
    }
  }

  // --------------------------------------------------------------- the theorems

  lemma SubsetCount(a: set<nat>, b: set<nat>)
    requires a <= b
    ensures |a| <= |b|
  {
    assert b == a + (b - a);
  }

  /** Every served connection is registered, every registered one holds a token, and tokens never exceed the maximum. */
  lemma BoundedConnections(listeners: nat, max: nat, run: seq<State>, k: nat)
    requires Run(listeners, max, run) && k < |run|
    ensures |run[k].active| <= run[k].limit <= max
    ensures forall c :: In(run[k], c, Serving) ==> c in run[k].active
  {
    RunInv(listeners, max, run, k);
    SubsetCount(run[k].active, Tokens(run[k].conns));
  }

  /** An accept goroutine that has an error to report can always report it at once. */
  lemma ErrorSendNeverBlocks(listeners: nat, max: nat, run: seq<State>, k: nat, i: nat)
    requires Run(listeners, max, run) && k < |run| && At(run[k], i, Failing)
    ensures Enabled(run[k], SendError(i))
  {
    RunInv(listeners, max, run, k);
    assert i in Unstopped(run[k].acceptors);
  }

  /** No acceptor stops unnoticed: while Serve waits uncancelled, a stopped acceptor's error is there to be seen. */
  lemma NoSilentStop(listeners: nat, max: nat, run: seq<State>, k: nat, i: nat)
    requires Run(listeners, max, run) && k < |run| && At(run[k], i, Stopped)
    requires run[k].main.Waiting? && !run[k].cancelled
    ensures Enabled(run[k], SeeError)
  {
    RunInv(listeners, max, run, k);
    FewerUnstopped(run[k].acceptors, i);
  }

  /** After a cancellation an accept error, which closing the listener causes, is not reported. */
  lemma CancelledStopsQuietly(s: State, i: nat)
    requires Enabled(s, AcceptError(i))
    ensures var s' := Next(s, AcceptError(i));
      && s'.errors == s.errors && |s'.acceptors| == |s.acceptors|
      && s'.acceptors[i] == if s.cancelled then Stopped else Failing
  {}

  lemma FewerUnstopped(acceptors: seq<Acceptor>, i: nat)
    requires i < |acceptors| && acceptors[i] == Stopped
    ensures |Unstopped(acceptors)| < |acceptors|
  {
    AcceptorChanged(acceptors, i, Accepting);
    assert Unstopped(acceptors[i := Accepting]) <= Indices(|acceptors|);
    SubsetCount(Unstopped(acceptors[i := Accepting]), Indices(|acceptors|));
  }

  function Indices(n: nat): (s: set<nat>)
    ensures |s| == n && forall i: nat :: i in s <==> i < n
  {
    if n == 0 then {} else Indices(n - 1) + {n - 1}
  }

  /** Serve returns the cancellation only if it was cancelled, and otherwise the error of an acceptor that stopped for it. */
  lemma ReturnsReason(listeners: nat, max: nat, run: seq<State>, k: nat)
    requires Run(listeners, max, run) && k < |run| && run[k].main.Returned?
    ensures (run[k].result.Cancelled? && run[k].cancelled)
      || (run[k].result.AcceptFailed? && run[k].result.acceptor < listeners)
  {
    RunInv(listeners, max, run, k);
  }

  /** An accepted connection is admitted exactly while fewer than the maximum hold tokens, and else rejected; it never waits. */
  lemma AdmitsExactly(listeners: nat, max: nat, run: seq<State>, k: nat, i: nat)
    requires Run(listeners, max, run) && k < |run| && i < listeners && |run[k].acceptors| == listeners && run[k].acceptors[i].Holding?
    ensures Enabled(run[k], Admit(i)) <==> |Tokens(run[k].conns)| < max
    ensures Enabled(run[k], Reject(i)) <==> |Tokens(run[k].conns)| == max
  {
    RunInv(listeners, max, run, k);
  }

  /** Releasing a token never waits either: there is one to take for every goroutine that releases. */
  lemma ReleaseNeverBlocks(listeners: nat, max: nat, run: seq<State>, k: nat, c: nat)
    requires Run(listeners, max, run) && k < |run| && In(run[k], c, Removed)
    ensures Enabled(run[k], Release(c))
  {
    RunInv(listeners, max, run, k);
    assert c in Tokens(run[k].conns);
  }

  lemma AcceptorStepNeedsRunning(s: State, e: Event)
    requires Inv(s) && Enabled(s, e) && ByAcceptor(e)
    ensures s.running > 0
  {
    assert e.i in Unstopped(s.acceptors);
  }

  predicate Draining(s: State) { s.main.AwaitConnections? || s.main.Returned? }

  /** Once the main goroutine waits for the connections, none is accepted, admitted or started any more. */
  lemma NoStartAfterDrain(listeners: nat, max: nat, run: seq<State>, k: nat, e: Event)
    requires Run(listeners, max, run) && k < |run| && Enabled(run[k], e)
    requires run[k].main.CloseActive? || Draining(run[k])
    ensures !ByAcceptor(e)
    ensures Live(Next(run[k], e).conns) <= Live(run[k].conns)
    ensures Next(run[k], e).connections <= run[k].connections
  {
    RunInv(listeners, max, run, k);
    if ByAcceptor(e) { AcceptorStepNeedsRunning(run[k], e); }
    if ByConnection(e) { ConnChanged(run[k].conns, e.conn, Next(run[k], e).conns[e.conn]); }
  }

  /** When Serve returns, every connection it ever accepted is closed and no goroutine, token or listing is left. */
  lemma CleanReturn(listeners: nat, max: nat, run: seq<State>, k: nat)
    requires Run(listeners, max, run) && k < |run| && run[k].main.Returned?
    ensures run[k].active == {} && run[k].limit == 0 && run[k].connections == 0
    ensures |run[k].acceptors| == listeners
    ensures forall i :: 0 <= i < listeners ==> run[k].acceptors[i] == Stopped && !ListenerOpen(run[k], i)
    ensures forall c :: c in run[k].conns ==> !run[k].conns[c].open
  {
    RunInv(listeners, max, run, k);
    var s := run[k];
    NoneUnstopped(s.acceptors);
    assert Live(s.conns) == {};
    forall c | c in s.conns ensures s.conns[c].phase.Finished? || s.conns[c].phase.Rejected? {
      assert Owned(s, c);
      assert c !in Live(s.conns);
    }
    assert Tokens(s.conns) == {};
  }

  lemma {:induction false} KeysChain(run: seq<State>, j: nat, k: nat)
    requires j <= k < |run| && forall n :: j <= n < k ==> run[n].conns.Keys <= run[n + 1].conns.Keys
    ensures run[j].conns.Keys <= run[k].conns.Keys
    decreases k
  {
    if j < k { KeysChain(run, j, k - 1); }
  }

  /** Connections are never forgotten, so CleanReturn speaks of all that were ever accepted. */
  lemma AcceptedStays(listeners: nat, max: nat, run: seq<State>, j: nat, k: nat, c: nat)
    requires Run(listeners, max, run) && j <= k < |run| && c in run[j].conns
    ensures c in run[k].conns
  {
    forall n | j <= n < k ensures run[n].conns.Keys <= run[n + 1].conns.Keys { StepKeepsAccepted(run[n], run[n + 1]); }
    KeysChain(run, j, k);
  }

  lemma StepKeepsAccepted(s: State, s': State)
    requires Step(s, s')
    ensures s.conns.Keys <= s'.conns.Keys
  {}

  // ----------------------------------------------------------- the drain terminates

  /** Steps the program takes on its own; serving ends on its own once the connection is closed. */
  predicate Own(s: State, e: Event) {
    match e
    case AcceptConn(_, _) => false
    case Cancel => false
    case AcceptError(i) => !ListenerOpen(s, i)
    case ServeEnds(c) => c in s.conns && !s.conns[c].open
    case _ => true
  }

  lemma AcceptorMoves(s: State, i: nat) returns (e: Event)
    requires Inv(s) && i < |s.acceptors| && s.acceptors[i] != Stopped && !ListenerOpen(s, i)
    ensures Enabled(s, e) && Own(s, e)
  {
    assert i in Unstopped(s.acceptors);
    match s.acceptors[i] {
      case Accepting => e := AcceptError(i);
      case Holding(_) => e := if s.limit < s.max then Admit(i) else Reject(i);
      case Registering(_) => e := Register(i);
      case Starting(_) => e := Start(i);
      case Failing => e := SendError(i);
    }
  }

  lemma ConnectionMoves(s: State, c: nat) returns (e: Event)
    requires Inv(s) && s.main.AwaitConnections? && c in Live(s.conns)
    ensures Enabled(s, e) && Own(s, e)
  {
    match s.conns[c].phase {
      case Serving => e := ServeEnds(c);
      case Ended => e := Remove(c);
      case Removed =>
        assert c in Tokens(s.conns);
        e := Release(c);
      case Released => e := Finish(c);
    }
  }

  /** From the moment shutdown begins until Serve returns, the program can always take a step of its own. */
  lemma NeverStuck(listeners: nat, max: nat, run: seq<State>, k: nat) returns (e: Event)
    requires Run(listeners, max, run) && k < |run| && !run[k].main.Waiting? && !run[k].main.Returned?
    ensures Enabled(run[k], e) && Own(run[k], e)
  {
    RunInv(listeners, max, run, k);
    var s := run[k];
    match s.main {
      case Closing(_) => e := CloseListener;
      case AwaitAcceptors =>
        if s.running == 0 { return AcceptorsDone; }
        assert Unstopped(s.acceptors) != {};
        var i :| i in Unstopped(s.acceptors);
        e := AcceptorMoves(s, i);
      case CloseActive => e := CloseConnections;
      case AwaitConnections =>
        if s.connections == 0 { return ConnectionsDone; }
        assert Live(s.conns) != {};
        var c :| c in Live(s.conns);
        e := ConnectionMoves(s, c);
    }
  }

  function AcceptorWork(a: Acceptor): int {
    match a
    case Stopped => 0
    case Failing => 1
    case Accepting => 2
    case Starting(_) => 8
    case Registering(_) => 9
    case Holding(_) => 10
  }

  function ConnWork(p: Phase): int {
    match p
    case Serving => 4
    case Ended => 3
    case Removed => 2
    case Released => 1
    case _ => 0
  }

  function MainWork(m: Main): int {
    match m
    case AwaitAcceptors => 3
    case CloseActive => 2
    case AwaitConnections => 1
    case _ => 0
  }

  function AllAcceptorWork(acceptors: seq<Acceptor>): (w: int)
    ensures w >= 0
  {
    if acceptors == [] then 0 else AcceptorWork(acceptors[0]) + AllAcceptorWork(acceptors[1..])
  }

  function Works(conns: map<nat, Conn>): map<nat, int> { map c | c in conns :: ConnWork(conns[c].phase) }

  /** The work left: an upper bound on the steps until Serve returns. */
  ghost function Work(s: State): int {
    AllAcceptorWork(s.acceptors) + MapSum(Works(s.conns)) + MainWork(s.main) + if s.cancelled then 0 else 1
  }

  lemma {:induction false} AcceptorWorkChanged(acceptors: seq<Acceptor>, i: nat, a: Acceptor)
    requires i < |acceptors|
    ensures AllAcceptorWork(acceptors[i := a]) == AllAcceptorWork(acceptors) - AcceptorWork(acceptors[i]) + AcceptorWork(a)
  {
    if i == 0 {
      assert acceptors[0 := a][1..] == acceptors[1..];
    } else {
      AcceptorWorkChanged(acceptors[1..], i - 1, a);
      assert acceptors[i := a][1..] == acceptors[1..][i - 1 := a];
    }
  }

  lemma ConnWorkChanged(conns: map<nat, Conn>, c: nat, conn: Conn)
    ensures MapSum(Works(conns[c := conn])) ==
      MapSum(Works(conns)) - (if c in conns then ConnWork(conns[c].phase) else 0) + ConnWork(conn.phase)
  {
    MapSumUpdate(Works(conns), c, ConnWork(conn.phase));
    assert Works(conns[c := conn]) == Works(conns)[c := ConnWork(conn.phase)];
  }

  lemma {:induction false} MapSumNonNegative(m: map<nat, int>)
    requires forall c :: c in m ==> m[c] >= 0
    ensures MapSum(m) >= 0
    decreases |m|
  {
    if m != map[] {
      var c :| c in m;
      MapSumRemove(m, c);
      MapSumNonNegative(m - {c});
    }
  }

  lemma WorkNonNegative(s: State)
    ensures Work(s) >= 0
  {
    MapSumNonNegative(Works(s.conns));
  }

  predicate ListenersClosed(s: State) { !s.main.Waiting? && !s.main.Closing? }

  lemma AcceptorShrinks(s: State, e: Event)
    requires Inv(s) && ListenersClosed(s) && Enabled(s, e) && ByAcceptor(e)
    ensures Work(Next(s, e)) < Work(s)
  {
    var s' := Next(s, e);
    assert Matches(s, e.i);
    AcceptorWorkChanged(s.acceptors, e.i, s'.acceptors[e.i]);
    if s.acceptors[e.i].Holding? || s.acceptors[e.i].Registering? || s.acceptors[e.i].Starting? {
      var c := s.acceptors[e.i].conn;
      ConnWorkChanged(s.conns, c, s'.conns[c]);
    }
  }

  lemma ConnectionShrinks(s: State, e: Event)
    requires Enabled(s, e) && ByConnection(e)
    ensures Work(Next(s, e)) < Work(s)
  {
    ConnWorkChanged(s.conns, e.conn, Next(s, e).conns[e.conn]);
  }

  lemma MainShrinks(s: State, e: Event)
    requires ListenersClosed(s) && Enabled(s, e) && !ByAcceptor(e) && !ByConnection(e)
    ensures Work(Next(s, e)) < Work(s)
  {
    assert Works(Next(s, e).conns) == Works(s.conns);
  }

  /** With the listeners closed, every step of anybody, wanted or not, uses up work. */
  lemma DrainShrinks(s: State, e: Event)
    requires Inv(s) && ListenersClosed(s) && Enabled(s, e)
    ensures Work(Next(s, e)) < Work(s)
  {
    if ByAcceptor(e) {
      AcceptorShrinks(s, e);
    } else if ByConnection(e) {
      ConnectionShrinks(s, e);
    } else {
      MainShrinks(s, e);
    }
  }

  lemma StaysClosed(s: State, e: Event)
    requires ListenersClosed(s) && Enabled(s, e)
    ensures ListenersClosed(Next(s, e))
  {}

  lemma {:induction false} Descent(run: seq<State>, j: nat, k: nat)
    requires j <= k < |run| && ListenersClosed(run[j])
    requires forall n :: j <= n < k && ListenersClosed(run[n]) ==> Work(run[n + 1]) < Work(run[n]) && ListenersClosed(run[n + 1])
    ensures ListenersClosed(run[k]) && k - j <= Work(run[j]) - Work(run[k])
    decreases k
  {
    if j < k { Descent(run, j, k - 1); }
  }

  /** So from then on a run has at most Work steps left; with NeverStuck, Serve returns. */
  lemma DrainIsBounded(listeners: nat, max: nat, run: seq<State>, j: nat, k: nat)
    requires Run(listeners, max, run) && j <= k < |run| && ListenersClosed(run[j])
    ensures ListenersClosed(run[k]) && k - j <= Work(run[j])
  {
    forall n | j <= n < k && ListenersClosed(run[n]) ensures Work(run[n + 1]) < Work(run[n]) && ListenersClosed(run[n + 1]) {
      RunInv(listeners, max, run, n);
      StepShrinks(run[n], run[n + 1]);
    }
    Descent(run, j, k);
    WorkNonNegative(run[k]);
  }

  lemma StepShrinks(s: State, s': State)
    requires Inv(s) && ListenersClosed(s) && Step(s, s')
    ensures Work(s') < Work(s) && ListenersClosed(s')
  {
    var e :| Enabled(s, e) && s' == Next(s, e);
    DrainShrinks(s, e);
    StaysClosed(s, e);
  }
}
