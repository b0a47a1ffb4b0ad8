/** The cross-process session store (src/server/redis_session_store.cc:12-80, 100-145): four Lua
    scripts, each one atomic step over four key families whose keys expire. */
module SessionStore {
  import opened Wrappers

  type UserId = int
  type ConnId = nat

  datatype TokenEntry = TokenEntry(user: UserId, username: string, issuedAt: int, expires: int)
  datatype Presence = Presence(server: string, conn: ConnId, token: string, expires: int)
  datatype Index = Index(user: UserId, token: string, expires: int)
  datatype SessionEntry = SessionEntry(token: string, expires: int)

  datatype Store = Store(tokens: map<string, TokenEntry>, presence: map<UserId, Presence>,
                         index: map<(string, ConnId), Index>, sessions: map<UserId, SessionEntry>, now: int)

  /** Redis shows a key only until it expires. */
  function LivePresence(s: Store, u: UserId): Option<Presence> {
    if u in s.presence && s.now < s.presence[u].expires then Some(s.presence[u]) else None
  }

  function LiveIndex(s: Store, k: (string, ConnId)): Option<Index> {
    if k in s.index && s.now < s.index[k].expires then Some(s.index[k]) else None
  }

  function LiveToken(s: Store, t: string): Option<TokenEntry> {
    if t in s.tokens && s.now < s.tokens[t].expires then Some(s.tokens[t]) else None
  }

  function LiveSession(s: Store, u: UserId): Option<SessionEntry> {
    if u in s.sessions && s.now < s.sessions[u].expires then Some(s.sessions[u]) else None
  }

  /** Who acts: a connection of a server, for a user, with a token. */
  datatype Actor = Actor(server: string, conn: ConnId, user: UserId, token: string)

  predicate Owns(a: Actor, p: Presence) {
    p.server == a.server && p.conn == a.conn && p.token == a.token
  }

  /** User u's presence is the one actor a left. */
  predicate Present(s: Store, a: Actor, u: UserId) {
    LivePresence(s, u).Some? && Owns(a, LivePresence(s, u).value)
  }

  // ---------------------------------------------------------------- the scripts

  datatype Ttl = Ttl(session: int, presence: int)

  /** The token key the user's previous session loses. */
  function Evicted(s: Store, a: Actor): set<string> {
    var last := LiveSession(s, a.user);
    if last.Some? && last.value.token != a.token then {last.value.token} else {}
  }

  /** The connection-index key of the user's previous presence. */
  function Vacated(s: Store, a: Actor): set<(string, ConnId)> {
    var last := LivePresence(s, a.user);
    if last.Some? then {(last.value.server, last.value.conn)} else {}
  }

  /** The user this connection still stood for; the index is read after the vacated key is deleted. */
  function Left(s: Store, a: Actor): set<UserId> {
    var last := LiveIndex(s, (a.server, a.conn));
    if (a.server, a.conn) !in Vacated(s, a) && last.Some?
       && Present(s, a.(token := last.value.token), last.value.user)
    then {last.value.user} else {}
  }

  function Bound(s: Store, a: Actor, username: string, issuedAt: int, ttl: Ttl): Store {
    s.(tokens := (s.tokens - Evicted(s, a))[a.token := TokenEntry(a.user, username, issuedAt, s.now + ttl.session)],
       presence := (s.presence - Left(s, a))[a.user := Presence(a.server, a.conn, a.token, s.now + ttl.presence)],
       index := (s.index - Vacated(s, a))[(a.server, a.conn) := Index(a.user, a.token, s.now + ttl.presence)],
       sessions := s.sessions[a.user := SessionEntry(a.token, s.now + ttl.session)])
  }

  predicate RefreshAllowed(s: Store, a: Actor) {
    var i := LiveIndex(s, (a.server, a.conn));
    Present(s, a, a.user) && i.Some? && i.value.user == a.user && i.value.token == a.token
  }

  function Refreshed(s: Store, a: Actor, ttl: int): Store {
    if !RefreshAllowed(s, a) then s
    else
      var here := (a.server, a.conn);
      s.(presence := s.presence[a.user := s.presence[a.user].(expires := s.now + ttl)],
         index := s.index[here := s.index[here].(expires := s.now + ttl)])
  }

  function Cleared(s: Store, a: Actor): Store {
    s.(index := s.index - {(a.server, a.conn)},
       presence := s.presence - (if Present(s, a, a.user) then {a.user} else {}))
  }

  function TokenRevoked(s: Store, token: string): Store {
    s.(tokens := s.tokens - {token})
  }

  function Revoked(s: Store, a: Actor): Store {
    var session := LiveSession(s, a.user);
    var s' := TokenRevoked(Cleared(s, a), a.token);
    s'.(sessions := s.sessions - (if session.Some? && session.value.token == a.token then {a.user} else {}))
  }

  // ---------------------------------------------------------------- the store object

  datatype Session = Session(authenticated: bool, user: UserId, username: string, token: string)

  predicate IsHex(c: char) {
    '0' <= c <= '9' || 'a' <= c <= 'f' || 'A' <= c <= 'F'
  }

  predicate IsValidSession(s: Session) {
    s.authenticated && s.user > 0 && s.username != "" && |s.token| == 64
    && forall i :: 0 <= i < |s.token| ==> IsHex(s.token[i])
  }

  /** One server's client of the shared keys; the methods run the scripts statement by statement. */
  class RedisSessionStore {
    const server: string
    const ttl: Ttl
    var tokens: map<string, TokenEntry>
    var presence: map<UserId, Presence>
    var index: map<(string, ConnId), Index>
    var sessions: map<UserId, SessionEntry>
    var now: int

    ghost function View(): Store
      reads this
    {
      Store(tokens, presence, index, sessions, now)
    }

    constructor (server: string, ttl: Ttl, now: int)
      ensures View() == Store(map[], map[], map[], map[], now) && this.server == server && this.ttl == ttl
    {
      this.server, this.ttl, this.now := server, ttl, now;
      tokens, presence, index, sessions := map[], map[], map[], map[];
    }

    /** The deletions at the head of the bind script. */
    method Displace(conn: ConnId, u: UserId, token: string)
      modifies this`tokens, this`presence, this`index
      ensures var s, a := old(View()), Actor(server, conn, u, token);
              && tokens == s.tokens - Evicted(s, a)
              && index == s.index - Vacated(s, a)
              && presence == s.presence - Left(s, a)
    {
      var here := (server, conn);
      if u in sessions && now < sessions[u].expires && sessions[u].token != token {
        tokens := tokens - {sessions[u].token};
      }
      if u in presence && now < presence[u].expires {
        index := index - {(presence[u].server, presence[u].conn)};
      }
      if here in index && now < index[here].expires {
        var v, oldToken := index[here].user, index[here].token;
        if v in presence && now < presence[v].expires && presence[v].server == server && presence[v].conn == conn
           && presence[v].token == oldToken {
          presence := presence - {v};
        }
      }
    }

    method Bind(conn: ConnId, session: Session, issuedAt: int) returns (ok: bool)
      modifies this
      ensures ok == (conn != 0 && issuedAt >= 0 && IsValidSession(session))
      ensures var a := Actor(server, conn, session.user, session.token);
              View() == if ok then Bound(old(View()), a, session.username, issuedAt, ttl) else old(View())
    {
      hide Evicted, Vacated, Left;
      if conn == 0 || issuedAt < 0 || !IsValidSession(session) {
        return false;
      }
      Displace(conn, session.user, session.token);
      tokens := tokens[session.token := TokenEntry(session.user, session.username, issuedAt, now + ttl.session)];
      presence := presence[session.user := Presence(server, conn, session.token, now + ttl.presence)];
      index := index[(server, conn) := Index(session.user, session.token, now + ttl.presence)];
      sessions := sessions[session.user := SessionEntry(session.token, now + ttl.session)];
      return true;
    }

    method Refresh(conn: ConnId, session: Session) returns (ok: bool)
      modifies this
      ensures var a := Actor(server, conn, session.user, session.token);
              && ok == (conn != 0 && IsValidSession(session) && RefreshAllowed(old(View()), a))
              && View() == if ok then Refreshed(old(View()), a, ttl.presence) else old(View())
    {
      var here, u := (server, conn), session.user;
      if conn == 0 || !IsValidSession(session) {
        return false;
      }
      if !(u in presence && now < presence[u].expires && presence[u].server == server && presence[u].conn == conn
           && presence[u].token == session.token && here in index && now < index[here].expires
           && index[here].user == u && index[here].token == session.token) {
        return false;
      }
      presence := presence[u := presence[u].(expires := now + ttl.presence)];
      index := index[here := index[here].(expires := now + ttl.presence)];
      return true;
    }

    method ClearPresence(conn: ConnId, session: Session) returns (ok: bool)
      modifies this
      ensures ok == (conn != 0 && IsValidSession(session))
      ensures var a := Actor(server, conn, session.user, session.token);
              View() == if ok then Cleared(old(View()), a) else old(View())
    {
      if conn == 0 || !IsValidSession(session) {
        return false;
      }
      var u := session.user;
      index := index - {(server, conn)};
      if u in presence && now < presence[u].expires && presence[u].server == server && presence[u].conn == conn
         && presence[u].token == session.token {
        presence := presence - {u};
      }
      return true;
    }

    method RevokeSession(conn: ConnId, session: Session) returns (ok: bool)
      modifies this
      ensures ok == (conn != 0 && IsValidSession(session))
      ensures var a := Actor(server, conn, session.user, session.token);
              View() == if ok then Revoked(old(View()), a) else old(View())
    {
      if conn == 0 || !IsValidSession(session) {
        return false;
      }
      var u := session.user;
      tokens := tokens - {session.token};
      if u in sessions && now < sessions[u].expires && sessions[u].token == session.token {
        sessions := sessions - {u};
      }
      ok := ClearPresence(conn, session);
    }
  }

  // ---------------------------------------------------------------- runs

  datatype Step =
    | BindStep(a: Actor, username: string, issuedAt: int, ttl: Ttl)
    | RefreshStep(a: Actor, presenceTtl: int)
    | ClearStep(a: Actor)
    | RevokeStep(a: Actor)
    | RevokeTokenStep(token: string)
    | Tick(seconds: nat)

  function Apply(s: Store, step: Step): Store {
    match step
    case BindStep(a, username, issuedAt, ttl) => Bound(s, a, username, issuedAt, ttl)
    case RefreshStep(a, ttl) => Refreshed(s, a, ttl)
    case ClearStep(a) => Cleared(s, a)
    case RevokeStep(a) => Revoked(s, a)
    case RevokeTokenStep(token) => TokenRevoked(s, token)
    case Tick(n) => s.(now := s.now + n)
  }

  function After(s: Store, steps: seq<Step>): Store
    decreases |steps|
  {
    if steps == [] then s else After(Apply(s, steps[0]), steps[1..])
  }

  function Empty(now: int): Store {
    Store(map[], map[], map[], map[], now)
  }

  ghost predicate Reachable(s: Store) {
    exists start, steps :: s == After(Empty(start), steps)
  }

  /** A live token is the one in its user's live session key, and expires with it. */
  ghost predicate TokensOk(s: Store) {
    forall t {:trigger LiveToken(s, t)} :: LiveToken(s, t).Some? ==>
      LiveSession(s, LiveToken(s, t).value.user) == Some(SessionEntry(t, LiveToken(s, t).value.expires))
  }

  /** A live connection-index entry matches its user's live presence, and expires with it. */
  ghost predicate IndexOk(s: Store) {
    forall k {:trigger LiveIndex(s, k)} :: LiveIndex(s, k).Some? ==>
      var i := LiveIndex(s, k).value;
      LivePresence(s, i.user) == Some(Presence(k.0, k.1, i.token, i.expires))
  }

  /** The converse: a live presence has its connection-index entry. */
  ghost predicate PresenceOk(s: Store) {
    forall u {:trigger LivePresence(s, u)} :: LivePresence(s, u).Some? ==>
      var p := LivePresence(s, u).value;
      LiveIndex(s, (p.server, p.conn)) == Some(Index(u, p.token, p.expires))
  }

  lemma TokensStep(s: Store, step: Step)
    requires TokensOk(s)
    ensures TokensOk(Apply(s, step))
  {
    var s' := Apply(s, step);
    forall t | LiveToken(s', t).Some?
      ensures LiveSession(s', LiveToken(s', t).value.user) == Some(SessionEntry(t, LiveToken(s', t).value.expires))
    {
      assert LiveToken(s, t).Some? ==> LiveSession(s, LiveToken(s, t).value.user).Some?;
    }
  }

  lemma IndexStep(s: Store, step: Step)
    requires IndexOk(s)
    ensures IndexOk(Apply(s, step))
  {
    var s' := Apply(s, step);
    forall k | LiveIndex(s', k).Some?
      ensures LivePresence(s', LiveIndex(s', k).value.user)
              == Some(Presence(k.0, k.1, LiveIndex(s', k).value.token, LiveIndex(s', k).value.expires))
    {
      assert LiveIndex(s, k).Some? ==> LivePresence(s, LiveIndex(s, k).value.user).Some?;
    }
  }

  /** The session Redis holds for the actor's connection, if any, is the actor's own. */
  predicate SpeaksForItself(s: Store, a: Actor) {
    var i := LiveIndex(s, (a.server, a.conn));
    i.Some? ==> i.value.user == a.user && i.value.token == a.token
  }

  /** Only ClearPresence and RevokeSession can break the converse, and they do exactly when Redis
      holds another session for that connection than the one they are called with. */
  lemma PresenceStep(s: Store, step: Step)
    requires IndexOk(s) && PresenceOk(s)
    ensures PresenceOk(Apply(s, step)) <==>
              (step.ClearStep? || step.RevokeStep? ==> SpeaksForItself(s, step.a))
  {
    var s' := Apply(s, step);
    if step.ClearStep? || step.RevokeStep? {
      if !SpeaksForItself(s, step.a) {
        var k := (step.a.server, step.a.conn);
        var i := LiveIndex(s, k).value;
        assert LivePresence(s', i.user) == LivePresence(s, i.user);
        assert LiveIndex(s', k).None?;
      }
    }
    if step.ClearStep? || step.RevokeStep? ==> SpeaksForItself(s, step.a) {
      forall u | LivePresence(s', u).Some?
        ensures var p := LivePresence(s', u).value;
                LiveIndex(s', (p.server, p.conn)) == Some(Index(u, p.token, p.expires))
      {
        var p := LivePresence(s, u);
        assert p.Some? ==> LiveIndex(s, (p.value.server, p.value.conn)).Some?;
      }
    }
  }

  lemma {:induction false} RunKeeps(s: Store, steps: seq<Step>)
    requires TokensOk(s) && IndexOk(s)
    ensures TokensOk(After(s, steps)) && IndexOk(After(s, steps))
    decreases |steps|
  {
    hide TokensOk, IndexOk, Apply;
    if steps != [] {
      TokensStep(s, steps[0]);
      IndexStep(s, steps[0]);
      RunKeeps(Apply(s, steps[0]), steps[1..]);
    }
  }

  lemma ReachableInv(s: Store)
    requires Reachable(s)
    ensures TokensOk(s) && IndexOk(s)
  {
    hide Apply;
    var start, steps :| s == After(Empty(start), steps);
    RunKeeps(Empty(start), steps);
  }

  /** At every moment of every run a user has at most one live token, and it is the one in the
      user's session key; a connection-index entry implies the matching presence. */
  lemma OneTokenPerUser(s: Store, t: string, t': string, k: (string, ConnId))
    requires Reachable(s)
    ensures LiveToken(s, t).Some? ==>
              var session := LiveSession(s, LiveToken(s, t).value.user);
              session.Some? && session.value.token == t
    ensures var a, b := LiveToken(s, t), LiveToken(s, t');
            a.Some? && b.Some? && a.value.user == b.value.user ==> t == t'
    ensures LiveIndex(s, k).Some? ==>
              var p := LivePresence(s, LiveIndex(s, k).value.user);
              p.Some? && p.value.server == k.0 && p.value.conn == k.1 && p.value.token == LiveIndex(s, k).value.token
  {
    hide Reachable;
    ReachableInv(s);
  }

  ghost predicate AllSpeakForThemselves(s: Store, steps: seq<Step>)
    decreases |steps|
  {
    steps != [] ==>
      && (steps[0].ClearStep? || steps[0].RevokeStep? ==> SpeaksForItself(s, steps[0].a))
      && AllSpeakForThemselves(Apply(s, steps[0]), steps[1..])
  }

  /** In a run whose closing connections present the session Redis holds for them, presence and
      connection index agree in both directions throughout. */
  lemma {:induction false} PresenceAndIndexAgree(s: Store, steps: seq<Step>)
    requires IndexOk(s) && PresenceOk(s) && AllSpeakForThemselves(s, steps)
    ensures IndexOk(After(s, steps)) && PresenceOk(After(s, steps))
    decreases |steps|
  {
    hide IndexOk, PresenceOk, Apply, SpeaksForItself;
    if steps != [] {
      IndexStep(s, steps[0]);
      PresenceStep(s, steps[0]);
      PresenceAndIndexAgree(Apply(s, steps[0]), steps[1..]);
    }
  }

  /** It can happen: any connection that binds and is then cleared with another token keeps its user's
      presence and loses its index entry. */
  lemma ForeignClearSplits(start: int, a: Actor, username: string, issuedAt: int, ttl: Ttl, token: string)
      returns (s: Store)
    requires ttl.presence > 0 && token != a.token
    ensures Reachable(s) && LivePresence(s, a.user).Some? && LiveIndex(s, (a.server, a.conn)).None? && !PresenceOk(s)
  {
    var bind, clear := BindStep(a, username, issuedAt, ttl), ClearStep(a.(token := token));
    var steps := [bind, clear];
    assert steps[1..] == [clear] && [clear][1..] == [];
    s := Apply(Apply(Empty(start), bind), clear);
    assert After(Apply(Empty(start), bind), [clear]) == s;
    assert After(Empty(start), steps) == s;
    assert LivePresence(s, a.user).Some?;
  }

  /** Steps a connection other than the owner of presence p may take, and the passing of time. */
  predicate IsStale(step: Step, p: Presence) {
    step.Tick? || step.RevokeTokenStep? || (!step.BindStep? && !Owns(step.a, p))
  }

  /** Stale connections are harmless: however many Refresh, Clear and Revoke calls superseded
      connections, older tokens or other users make, a presence entry of another (server,
      connection, token) keeps its contents and its expiry. */
  lemma {:induction false} StaleRunsAreHarmless(s: Store, steps: seq<Step>, u: UserId)
    requires u in s.presence && forall i :: 0 <= i < |steps| ==> IsStale(steps[i], s.presence[u])
    ensures u in After(s, steps).presence && After(s, steps).presence[u] == s.presence[u]
    decreases |steps|
  {
    if steps != [] {
      assert IsStale(steps[0], s.presence[u]);
      StaleRunsAreHarmless(Apply(s, steps[0]), steps[1..], u);
    }
  }
}
