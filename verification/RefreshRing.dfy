/** Admin sessions in Redis: refresh-token rotation and revocation (internal/central/admin/session.go). Times are milliseconds. */
module RefreshRing {
  import opened Basics

  const TTL: int := 7 * 24 * 3600 * 1000
  const RING: nat := 32

  datatype Account = Account(id: nat, username: string, version: nat)

  datatype Record = Record(account: Account, digest: string, previous: seq<string>)

  datatype Entry = Entry(record: Record, expires: int)

  type Redis = map<string, Entry>

  // --------------------------------------------------------------- the token text

  const PREFIX: string := "ART_"

  function Format(sid: string, secret: string): string { PREFIX + sid + "." + secret }

  /** Splitting at every dot. */
  function Split(s: string): (parts: seq<string>)
    ensures |parts| >= 1
  {
    if s == "" then [""]
    else
      var rest := Split(s[1..]);
      if s[0] == '.' then [""] + rest else [[s[0]] + rest[0]] + rest[1..]
  }

  predicate InAlphabet(c: char) {
    'A' <= c <= 'Z' || 'a' <= c <= 'z' || '0' <= c <= '9' || c == '-' || c == '_'
  }

  function Letters(s: string): nat { if s == "" then 0 else (if InAlphabet(s[0]) then 1 else 0) + Letters(s[1..]) }

  /** What Go's unpadded base64url decoder accepts: line breaks are skipped, one left-over letter is too few. */
  predicate Decodable(s: string) {
    (forall k :: 0 <= k < |s| ==> Allowed(s[k])) && Letters(s) % 4 != 1
  }

  predicate Allowed(c: char) { InAlphabet(c) || c == '\r' || c == '\n' }

  function Parse(token: string): Option<(string, string)> {
    if !(PREFIX <= token) then None
    else
      var parts := Split(token[|PREFIX|..]);
      if |parts| != 2 || |parts[0]| != 22 || |parts[1]| != 43 || !Decodable(parts[0]) || !Decodable(parts[1]) then None
      else Some((parts[0], parts[1]))
  }

  lemma {:induction false} SplitOne(s: string)
    requires forall k :: 0 <= k < |s| ==> s[k] != '.'
    ensures Split(s) == [s]
  {
    if s != "" {
      SplitOne(s[1..]);
      assert [s[0]] + s[1..] == s;
    }
  }

  lemma {:induction false} SplitTwo(s: string, t: string)
    requires (forall k :: 0 <= k < |s| ==> s[k] != '.') && (forall k :: 0 <= k < |t| ==> t[k] != '.')
    ensures Split(s + "." + t) == [s, t]
  {
    var all := s + "." + t;
    if s == "" {
      SplitOne(t);
      assert all[1..] == t;
    } else {
      SplitTwo(s[1..], t);
      assert all[1..] == s[1..] + "." + t;
      assert [s[0]] + s[1..] == s;
    }
  }

  lemma {:induction false} SplitJoins(s: string)
    requires |Split(s)| <= 2
    ensures |Split(s)| == 1 ==> s == Split(s)[0]
    ensures |Split(s)| == 2 ==> s == Split(s)[0] + "." + Split(s)[1]
  {
    if s != "" {
      SplitJoins(s[1..]);
      assert s == [s[0]] + s[1..];
    }
  }

  /** A token parses to exactly the two parts it was formatted from, and nothing else parses. */
  lemma ParseExactly(token: string, sid: string, secret: string)
    ensures Parse(token) == Some((sid, secret)) <==>
      token == Format(sid, secret) && |sid| == 22 && |secret| == 43 && Decodable(sid) && Decodable(secret)
  {
    if token == Format(sid, secret) && Decodable(sid) && Decodable(secret) {
      assert token[|PREFIX|..] == sid + "." + secret;
      SplitTwo(sid, secret);
    }
    if Parse(token) == Some((sid, secret)) {
      SplitJoins(token[|PREFIX|..]);
      assert token == PREFIX + token[|PREFIX|..];
    }
  }

  lemma {:induction false} LettersExactly(s: string, t: string)
    ensures Letters(s + t) == Letters(s) + Letters(t)
    ensures (forall k :: 0 <= k < |s| ==> InAlphabet(s[k])) ==> Letters(s) == |s|
    ensures (forall k :: 0 <= k < |s| ==> !InAlphabet(s[k])) ==> Letters(s) == 0
  {
    if s == "" {
      assert s + t == t;
    } else {
      LettersExactly(s[1..], t);
      assert (s + t)[1..] == s[1..] + t;
    }
  }

  /** What counts for decoding is the number of letters; line breaks change nothing, any other character is refused. */
  lemma DecodableExactly(a: string, c: char, b: string)
    ensures (forall k :: 0 <= k < |a| ==> InAlphabet(a[k])) ==> (Decodable(a) <==> |a| % 4 != 1)
    ensures c == '\r' || c == '\n' ==> (Decodable(a + [c] + b) <==> Decodable(a + b))
    ensures !InAlphabet(c) && c != '\r' && c != '\n' ==> !Decodable(a + [c] + b)
  {
    LettersExactly(a, b);
    LettersExactly(a + [c], b);
    LettersExactly(a, [c]);
    LettersExactly([c], "");
    assert [c] + "" == [c];
    AllowedAround(a, c, b);
  }

  lemma AllowedAround(a: string, c: char, b: string)
    ensures var all := a + [c] + b;
      (forall k :: 0 <= k < |all| ==> Allowed(all[k])) <==> Allowed(c) && forall k :: 0 <= k < |a + b| ==> Allowed((a + b)[k])
  {
    var all, rest := a + [c] + b, a + b;
    assert all[|a|] == c;
    forall k | 0 <= k < |rest| ensures rest[k] == all[if k < |a| then k else k + 1] {}
    forall k | 0 <= k < |all| && k != |a| ensures all[k] == rest[if k < |a| then k else k - 1] {}
  }

  /** Every token made of an ID and a secret of the right lengths in the alphabet parses. */
  lemma GeneratedParses(sid: string, secret: string)
    requires |sid| == 22 && |secret| == 43
    requires (forall k :: 0 <= k < |sid| ==> InAlphabet(sid[k])) && (forall k :: 0 <= k < |secret| ==> InAlphabet(secret[k]))
    ensures Parse(Format(sid, secret)) == Some((sid, secret))
  {
    DecodableExactly(sid, 'A', "");
    DecodableExactly(secret, 'A', "");
    ParseExactly(Format(sid, secret), sid, secret);
  }

  // -------------------------------------------------------------------- scripts

  predicate Alive(redis: Redis, sid: string, now: int) { sid in redis && now < redis[sid].expires }

  function Push(previous: seq<string>, digest: string): seq<string> {
    var longer := previous + [digest];
    if |longer| > RING then longer[1..] else longer
  }

  predicate Rotates(redis: Redis, sid: string, digest: string, now: int) {
    Alive(redis, sid, now) && redis[sid].record.digest == digest
  }

  /** Only the current digest rotates; the expiry stays. */
  function AfterRotate(redis: Redis, sid: string, digest: string, newDigest: string, now: int): Redis {
    if Rotates(redis, sid, digest, now) then
      var entry := redis[sid];
      redis[sid := entry.(record := entry.record.(digest := newDigest, previous := Push(entry.record.previous, digest)))]
    else redis
  }

  predicate Revokes(redis: Redis, sid: string, digest: string, now: int) {
    Alive(redis, sid, now) && (redis[sid].record.digest == digest || digest in redis[sid].record.previous)
  }

  function AfterRevoke(redis: Redis, sid: string, digest: string, now: int): Redis {
    if Revokes(redis, sid, digest, now) then redis - {sid} else redis
  }

  type Digester = string -> string

  class Sessions {
    const digest: Digester
    var redis: Redis

    constructor (digest: Digester)
      ensures this.digest == digest && redis == map[]
    {
      this.digest, redis := digest, map[];
    }

    /** `sid` and `secret` are fresh random parts. */
    method Create(account: Account, sid: string, secret: string, now: int) returns (token: string)
      modifies this
      ensures token == Format(sid, secret)
      ensures redis == old(redis)[sid := Entry(Record(account, digest(secret), []), now + TTL)]
    {
      token := Format(sid, secret);
      redis := redis[sid := Entry(Record(account, digest(secret), []), now + TTL)];
    }

    method Rotate(token: string, newSecret: string, now: int) returns (r: Option<(Account, string, string)>)
      modifies this
      ensures var parsed := Parse(token);
        if parsed.None? then r.None? && redis == old(redis)
        else
          var (sid, secret) := parsed.value;
          && redis == AfterRotate(old(redis), sid, digest(secret), digest(newSecret), now)
          && (r.Some? <==> Rotates(old(redis), sid, digest(secret), now))
          && (r.Some? ==> r.value == (old(redis)[sid].record.account, sid, Format(sid, newSecret)))
    {
      var parsed := Parse(token);
      if parsed.None? { return None; }
      var (sid, secret) := parsed.value;
      if !Alive(redis, sid, now) { return None; }
      var entry := redis[sid];
      if entry.record.digest != digest(secret) { return None; }
      var previous := entry.record.previous + [digest(secret)];
      if |previous| > RING { previous := previous[1..]; }
      redis := redis[sid := Entry(Record(entry.record.account, digest(newSecret), previous), entry.expires)];
      r := Some((entry.record.account, sid, Format(sid, newSecret)));
    }

    method Revoke(token: string, now: int) returns (ok: bool)
      modifies this
      ensures var parsed := Parse(token);
        if parsed.None? then !ok && redis == old(redis)
        else
          var (sid, secret) := parsed.value;
          redis == AfterRevoke(old(redis), sid, digest(secret), now) && (ok <==> Revokes(old(redis), sid, digest(secret), now))
    {
      var parsed := Parse(token);
      if parsed.None? { return false; }
      var (sid, secret) := parsed.value;
      if !Alive(redis, sid, now) { return false; }
      var record, d := redis[sid].record, digest(secret);
      if record.digest == d {
        redis := redis - {sid};
        return true;
      }
      var i := 0;
      while i < |record.previous|
        invariant 0 <= i <= |record.previous|
        invariant d !in record.previous[..i]
        invariant redis == old(redis)
      {
        if record.previous[i] == d {
          redis := redis - {sid};
          return true;
        }
        i := i + 1;
      }
      ok := false;
    }

    /** Whether a session still belongs to an account in its present version. */
    method Matches(sid: string, id: nat, version: nat, now: int) returns (ok: bool)
      ensures ok <==> Belongs(redis, sid, id, version, now)
    {
      if sid == "" || !Alive(redis, sid, now) { return false; }
      var account := redis[sid].record.account;
      ok := account.id == id && account.version == version;
    }
  }

  predicate Belongs(redis: Redis, sid: string, id: nat, version: nat, now: int) {
    sid != "" && Alive(redis, sid, now) && redis[sid].record.account.id == id && redis[sid].record.account.version == version
  }

  // -------------------------------------------------------------------- all runs

  datatype Login = Login(account: Account, at: int)

  datatype Exchange = Exchange(sid: string, digest: string)

  /**
   * `logins` are all sessions ever created, `issued` the digests of each in the order they were
   * issued, `exchanges` the successful rotations, `revoked` the sessions successfully revoked.
   */
  datatype System = System(
    redis: Redis, clock: int, logins: map<string, Login>, issued: map<string, seq<string>>, exchanges: seq<Exchange>, revoked: set<string>)

  datatype Event =
    | CreateEvent(sid: string, account: Account, digest: string, now: int)
    | RotateEvent(sid: string, digest: string, newDigest: string, now: int)
    | RevokeEvent(sid: string, digest: string, now: int)
    | DropEvent(sid: string, now: int)

  /** Time goes on, session IDs and secrets are fresh, and Redis drops an entry only once it has expired. */
  predicate Possible(s: System, e: Event) {
    && s.clock <= e.now
    && match e
       case CreateEvent(sid, _, _, _) => sid != "" && sid !in s.logins
       case RotateEvent(sid, _, newDigest, _) => sid in s.issued ==> newDigest !in s.issued[sid]
       case RevokeEvent(_, _, _) => true
       case DropEvent(sid, now) => !Alive(s.redis, sid, now)
  }

  function Next(s: System, e: Event): System {
    match e
    case CreateEvent(sid, account, digest, now) =>
      s.(redis := s.redis[sid := Entry(Record(account, digest, []), now + TTL)], clock := now,
         logins := s.logins[sid := Login(account, now)], issued := s.issued[sid := [digest]])
    case RotateEvent(sid, digest, newDigest, now) =>
      if Rotates(s.redis, sid, digest, now) && sid in s.issued
      then s.(redis := AfterRotate(s.redis, sid, digest, newDigest, now), clock := now,
              issued := s.issued[sid := s.issued[sid] + [newDigest]], exchanges := s.exchanges + [Exchange(sid, digest)])
      else s.(redis := AfterRotate(s.redis, sid, digest, newDigest, now), clock := now)
    case RevokeEvent(sid, digest, now) =>
      s.(redis := AfterRevoke(s.redis, sid, digest, now), clock := now,
         revoked := if Revokes(s.redis, sid, digest, now) then s.revoked + {sid} else s.revoked)
    case DropEvent(sid, now) => s.(redis := s.redis - {sid}, clock := now)
  }

  ghost predicate Run(run: seq<System>, events: seq<Event>) {
    && |run| == |events| + 1 && run[0].redis == map[] && run[0].logins == map[] && run[0].issued == map[] && run[0].exchanges == [] && run[0].revoked == {}
    && forall k :: 0 <= k < |events| ==> Possible(run[k], events[k]) && run[k + 1] == Next(run[k], events[k])
  }

  function Last(s: seq<string>, n: nat): seq<string> { if |s| <= n then s else s[|s| - n..] }

  function Superseded(issued: seq<string>): seq<string>
    requires issued != []
  {
    issued[..|issued| - 1]
  }

  ghost predicate Distinct(s: seq<string>) { forall i, j :: 0 <= i < j < |s| ==> s[i] != s[j] }

  /** A stored session is as old as its login and holds its newest digest and the last 32 superseded ones. */
  ghost predicate EntryOk(s: System, sid: string)
    requires sid in s.redis
  {
    && sid in s.logins && sid in s.issued && s.issued[sid] != []
    && s.redis[sid].expires == s.logins[sid].at + TTL
    && s.redis[sid].record.account == s.logins[sid].account
    && s.redis[sid].record.digest == s.issued[sid][|s.issued[sid]| - 1]
    && s.redis[sid].record.previous == Last(Superseded(s.issued[sid]), RING)
  }

  /** The digests exchanged for one session, in order. */
  function ExchangesOf(exchanges: seq<Exchange>, sid: string): seq<string> {
    if exchanges == [] then []
    else
      var n := |exchanges| - 1;
      ExchangesOf(exchanges[..n], sid) + if exchanges[n].sid == sid then [exchanges[n].digest] else []
  }

  ghost predicate Inv(s: System) {
    && (forall sid :: sid in s.redis ==> EntryOk(s, sid))
    && s.issued.Keys == s.logins.Keys
    && (forall sid :: sid in s.issued ==>
         Distinct(s.issued[sid]) && s.issued[sid] != [] && ExchangesOf(s.exchanges, sid) == Superseded(s.issued[sid]))
    && (forall sid :: sid !in s.issued ==> ExchangesOf(s.exchanges, sid) == [])
  }

  lemma PushIsLast(s: seq<string>, digest: string)
    ensures Push(Last(s, RING), digest) == Last(s + [digest], RING)
  {}

  lemma SupersededNext(issued: seq<string>, newDigest: string)
    requires issued != []
    ensures var digest := issued[|issued| - 1];
      Last(Superseded(issued + [newDigest]), RING) == Push(Last(Superseded(issued), RING), digest)
  {
    var digest := issued[|issued| - 1];
    assert Superseded(issued + [newDigest]) == Superseded(issued) + [digest];
    PushIsLast(Superseded(issued), digest);
  }

  lemma RotateKeepsEntry(s: System, e: Event, sid: string)
    requires Inv(s) && e.RotateEvent? && sid in Next(s, e).redis
    ensures EntryOk(Next(s, e), sid)
  {
    assert EntryOk(s, sid);
    if sid == e.sid && Rotates(s.redis, sid, e.digest, e.now) { SupersededNext(s.issued[sid], e.newDigest); }
  }

  lemma ExchangesAppend(exchanges: seq<Exchange>, x: Exchange, sid: string)
    ensures ExchangesOf(exchanges + [x], sid) == ExchangesOf(exchanges, sid) + if x.sid == sid then [x.digest] else []
  {
    assert (exchanges + [x])[..|exchanges|] == exchanges;
  }

  lemma RotateKeepsHistory(s: System, e: Event, sid: string)
    requires Inv(s) && Possible(s, e) && e.RotateEvent? && Rotates(s.redis, e.sid, e.digest, e.now)
    ensures var s' := Next(s, e);
      && (sid in s'.issued ==>
           Distinct(s'.issued[sid]) && s'.issued[sid] != [] && ExchangesOf(s'.exchanges, sid) == Superseded(s'.issued[sid]))
      && (sid !in s'.issued ==> ExchangesOf(s'.exchanges, sid) == [])
  {
    assert EntryOk(s, e.sid);
    ExchangesAppend(s.exchanges, Exchange(e.sid, e.digest), sid);
    assert Superseded(s.issued[e.sid] + [e.newDigest]) == Superseded(s.issued[e.sid]) + [e.digest];
  }

  lemma RotateKeepsInv(s: System, e: Event)
    requires Inv(s) && Possible(s, e) && e.RotateEvent?
    ensures Inv(Next(s, e))
  {
    var s' := Next(s, e);
    forall sid | sid in s'.redis ensures EntryOk(s', sid) { RotateKeepsEntry(s, e, sid); }
    if Rotates(s.redis, e.sid, e.digest, e.now) {
      assert EntryOk(s, e.sid);
      forall sid | sid in s'.issued
        ensures Distinct(s'.issued[sid]) && s'.issued[sid] != [] && ExchangesOf(s'.exchanges, sid) == Superseded(s'.issued[sid])
      {
        RotateKeepsHistory(s, e, sid);
      }
      forall sid | sid !in s'.issued ensures ExchangesOf(s'.exchanges, sid) == [] { RotateKeepsHistory(s, e, sid); }
    }
  }

  lemma OtherKeepsInv(s: System, e: Event)
    requires Inv(s) && Possible(s, e) && !e.RotateEvent?
    ensures Inv(Next(s, e))
  {
    var s' := Next(s, e);
    forall sid | sid in s'.redis ensures EntryOk(s', sid) { if sid in s.redis { assert EntryOk(s, sid); } }
  }

  lemma {:induction false} RunInv(run: seq<System>, events: seq<Event>, k: nat)
    requires Run(run, events) && k < |run|
    ensures Inv(run[k])
  {
    if k > 0 {
      RunInv(run, events, k - 1);
      if events[k - 1].RotateEvent? { RotateKeepsInv(run[k - 1], events[k - 1]); } else { OtherKeepsInv(run[k - 1], events[k - 1]); }
    }
  }

  // --------------------------------------------------------------- the theorems

  /** At any time a stored session lists exactly the last 32 digests superseded in it, in order, and still expires when its login said. */
  lemma RingAndExpiry(run: seq<System>, events: seq<Event>, k: nat, sid: string)
    requires Run(run, events) && k < |run| && sid in run[k].redis
    ensures sid in run[k].logins && run[k].redis[sid].expires == run[k].logins[sid].at + 604_800_000
    ensures run[k].redis[sid].record.previous == Last(ExchangesOf(run[k].exchanges, sid), 32)
    ensures run[k].redis[sid].record.account == run[k].logins[sid].account
  {
    RunInv(run, events, k);
    assert EntryOk(run[k], sid);
  }

  lemma {:induction false} ExchangeListed(exchanges: seq<Exchange>, i: nat) returns (p: nat)
    requires i < |exchanges|
    ensures p < |ExchangesOf(exchanges, exchanges[i].sid)| && ExchangesOf(exchanges, exchanges[i].sid)[p] == exchanges[i].digest
    ensures p == |ExchangesOf(exchanges[..i], exchanges[i].sid)|
  {
    var n := |exchanges| - 1;
    if i == n { return |ExchangesOf(exchanges[..n], exchanges[n].sid)|; }
    p := ExchangeListed(exchanges[..n], i);
    assert exchanges[..n][..i] == exchanges[..i];
  }

  lemma {:induction false} ExchangesGrow(exchanges: seq<Exchange>, i: nat, j: nat, sid: string)
    requires i <= j <= |exchanges|
    ensures |ExchangesOf(exchanges[..i], sid)| <= |ExchangesOf(exchanges[..j], sid)|
    decreases j
  {
    if i < j {
      ExchangesGrow(exchanges, i, j - 1, sid);
      assert exchanges[..j][..j - 1] == exchanges[..j - 1];
    }
  }

  /** No refresh token is ever exchanged twice. */
  lemma ExchangedOnce(run: seq<System>, events: seq<Event>, k: nat, i: nat, j: nat)
    requires Run(run, events) && k < |run| && i < j < |run[k].exchanges|
    ensures run[k].exchanges[i] != run[k].exchanges[j]
  {
    RunInv(run, events, k);
    var xs := run[k].exchanges;
    if xs[i].sid == xs[j].sid {
      var sid := xs[i].sid;
      var p := ExchangeListed(xs, i);
      var q := ExchangeListed(xs, j);
      assert xs[..i + 1][..i] == xs[..i];
      assert |ExchangesOf(xs[..i + 1], sid)| == p + 1;
      ExchangesGrow(xs, i + 1, j, sid);
      assert sid in run[k].issued;
      assert Superseded(run[k].issued[sid])[p] != Superseded(run[k].issued[sid])[q];
    }
  }

  /** A rotation succeeds exactly for the newest digest of a stored, unexpired session: superseded ones are refused. */
  lemma RotateExactly(run: seq<System>, events: seq<Event>, k: nat, sid: string, digest: string, now: int)
    requires Run(run, events) && k < |run| && sid in run[k].issued
    ensures run[k].issued[sid] != []
    ensures Rotates(run[k].redis, sid, digest, now) <==>
      Alive(run[k].redis, sid, now) && digest == run[k].issued[sid][|run[k].issued[sid]| - 1]
    ensures digest in ExchangesOf(run[k].exchanges, sid) ==> !Rotates(run[k].redis, sid, digest, now)
  {
    RunInv(run, events, k);
    if sid in run[k].redis { assert EntryOk(run[k], sid); }
  }

  /** A revocation succeeds exactly for the newest digest and the 32 before it. */
  lemma RevokeExactly(run: seq<System>, events: seq<Event>, k: nat, sid: string, digest: string, now: int)
    requires Run(run, events) && k < |run| && sid in run[k].issued
    ensures Revokes(run[k].redis, sid, digest, now) <==>
      Alive(run[k].redis, sid, now) && digest in Last(run[k].issued[sid], 33)
  {
    RunInv(run, events, k);
    var h := run[k].issued[sid];
    assert h == Superseded(h) + [h[|h| - 1]];
    assert Last(h, 33) == Last(Superseded(h), 32) + [h[|h| - 1]];
    if sid in run[k].redis { assert EntryOk(run[k], sid); }
  }

  lemma {:induction false} StaysGone(run: seq<System>, events: seq<Event>, j: nat, k: nat, sid: string)
    requires Run(run, events) && j <= k < |run| && sid in run[j].logins && sid !in run[j].redis
    ensures sid in run[k].logins && sid !in run[k].redis
    decreases k
  {
    if j < k { StaysGone(run, events, j, k - 1, sid); }
  }

  /** A revoked session never rotates, revokes or exists again. */
  lemma RevokedForever(run: seq<System>, events: seq<Event>, j: nat, k: nat, digest: string, now: int)
    requires Run(run, events) && j < k < |run| && events[j].RevokeEvent?
    requires Revokes(run[j].redis, events[j].sid, events[j].digest, events[j].now)
    ensures var sid := events[j].sid;
      !Alive(run[k].redis, sid, now) && !Rotates(run[k].redis, sid, digest, now) && !Revokes(run[k].redis, sid, digest, now)
  {
    RunInv(run, events, j);
    assert EntryOk(run[j], events[j].sid);
    StaysGone(run, events, j + 1, k, events[j].sid);
  }

  /** What became of a session: stored, revoked, or gone because its time was up. */
  ghost predicate Accounted(s: System, sid: string)
    requires sid in s.logins
  {
    && sid != "" && s.logins[sid].at <= s.clock
    && (sid in s.revoked ==> sid !in s.redis)
    && (sid !in s.redis && sid !in s.revoked ==> s.logins[sid].at + TTL <= s.clock)
  }

  lemma NextKeepsAccounted(s: System, e: Event, sid: string)
    requires Inv(s) && Possible(s, e) && sid in Next(s, e).logins
    requires sid in s.logins ==> Accounted(s, sid)
    requires sid !in s.logins ==> sid !in s.revoked
    ensures Accounted(Next(s, e), sid)
  {
    if sid in s.redis { assert EntryOk(s, sid); }
  }

  lemma {:induction false} RunAccounts(run: seq<System>, events: seq<Event>, k: nat)
    requires Run(run, events) && k < |run|
    ensures run[k].revoked <= run[k].logins.Keys
    ensures forall sid :: sid in run[k].logins ==> Accounted(run[k], sid)
  {
    if k > 0 {
      RunAccounts(run, events, k - 1);
      RunInv(run, events, k - 1);
      var s, e := run[k - 1], events[k - 1];
      forall sid | sid in run[k].logins ensures Accounted(run[k], sid) { NextKeepsAccounted(s, e, sid); }
      if e.RevokeEvent? && Revokes(s.redis, e.sid, e.digest, e.now) { assert EntryOk(s, e.sid); }
    }
  }

  /**
   * At any time from then on, a session counts for exactly the account and authorisation version of its
   * login, until seven days after that login or its revocation, however often it was rotated.
   */
  lemma MatchesExactly(run: seq<System>, events: seq<Event>, k: nat, sid: string, id: nat, version: nat, now: int)
    requires Run(run, events) && k < |run| && run[k].clock <= now
    ensures Belongs(run[k].redis, sid, id, version, now) <==>
      && sid in run[k].logins && sid !in run[k].revoked && now < run[k].logins[sid].at + 604_800_000
      && run[k].logins[sid].account.id == id && run[k].logins[sid].account.version == version
  {
    RunInv(run, events, k);
    RunAccounts(run, events, k);
    if sid in run[k].redis { assert EntryOk(run[k], sid); }
    if sid in run[k].logins { assert Accounted(run[k], sid); }
  }
}
