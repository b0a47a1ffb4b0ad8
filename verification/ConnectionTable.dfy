/** The connection tables and the timeout scan (src/TcpServer.cc:430-542, 1052-1089). All of it runs on
    the event-loop thread. A context is named by its connection id; times are in milliseconds. */
module ConnectionTable {

  type Id = nat
  type Fd = int
  type User = int

  const MAX_SCAN: nat := 256

  /** Of a context, what the tables and the scan read; `busy` is what shouldDeferTimeout answers. */
  datatype Conn = Conn(fd: Fd, user: User, lastRecv: int, lastSend: int, lastActive: int, busy: bool)

  datatype Table = Table(
    connections: map<Id, Conn>, fds: map<Fd, Id>, users: map<User, seq<Id>>, scan: seq<Id>, next: Id)

  datatype Timeouts = Timeouts(idle: int, heartbeat: int)

  datatype Op =
    | Register(fd: Fd, now: int)
    | Close(fd: Fd)
    | Bind(id: Id, user: User)
    | Unbind(id: Id)
    | Touch(id: Id, lastRecv: int, lastSend: int, lastActive: int, busy: bool)
    | Scan(now: int, limits: Timeouts)

  // ---------------------------------------------------------------- the operations

  function Remove(list: seq<Id>, id: Id): (r: seq<Id>)
    ensures forall x :: x in r <==> x in list && x != id
  {
    if list == [] then []
    else
      assert list == [list[0]] + list[1..];
      var rest := Remove(list[1..], id);
      if list[0] == id then rest else [list[0]] + rest
  }

  predicate Distinct(list: seq<Id>) {
    forall i, j :: 0 <= i < j < |list| ==> list[i] != list[j]
  }

  /** Takes a connection off a user's list, and the user off the table with the last of them. */
  function Unlisted(users: map<User, seq<Id>>, user: User, id: Id): map<User, seq<Id>> {
    if user !in users then users
    else
      var list := Remove(users[user], id);
      if list == [] then users - {user} else users[user := list]
  }

  function Registered(t: Table, fd: Fd, now: int): Table {
    Table(t.connections[t.next := Conn(fd, 0, now, now, now, false)], t.fds[fd := t.next], t.users,
          t.scan + [t.next], t.next + 1)
  }

  function Closed(t: Table, fd: Fd): Table {
    if fd !in t.fds || t.fds[fd] !in t.connections then t
    else
      var id := t.fds[fd];
      var c := t.connections[id];
      t.(connections := t.connections - {id}, fds := t.fds - {c.fd}, users := Unlisted(t.users, c.user, id))
  }

  function Unbound(t: Table, id: Id): Table
    requires id in t.connections
  {
    var c := t.connections[id];
    t.(connections := t.connections[id := c.(user := 0)], users := Unlisted(t.users, c.user, id))
  }

  function Bound(t: Table, id: Id, user: User): Table
    requires id in t.connections
  {
    var u := Unbound(t, id);
    var list := if user in u.users then u.users[user] else [];
    u.(connections := u.connections[id := u.connections[id].(user := user)],
       users := u.users[user := if id in list then list else list + [id]])
  }

  predicate TimedOut(c: Conn, now: int, limits: Timeouts) {
    var lastIo := if c.lastRecv < c.lastSend then c.lastSend else c.lastRecv;
    !c.busy && (now - lastIo >= limits.idle || (c.user > 0 && now - c.lastActive >= limits.heartbeat))
  }

  /** One turn of the scan. */
  function Examined(t: Table, now: int, limits: Timeouts): Table
    requires t.scan != []
  {
    var id := t.scan[0];
    var u := t.(scan := t.scan[1..]);
    if id !in t.connections then u
    else if TimedOut(t.connections[id], now, limits) then Closed(u, t.connections[id].fd)
    else u.(scan := u.scan + [id])
  }

  function Batch(t: Table): nat {
    if |t.scan| < MAX_SCAN then |t.scan| else MAX_SCAN
  }

  function Turns(t: Table, now: int, limits: Timeouts, n: nat): (r: Table)
    requires n <= |t.scan|
    ensures t.scan[n..] <= r.scan
    decreases n
  {
    if n == 0 then t
    else
      var u := Examined(t, now, limits);
      assert t.scan[1..] <= u.scan;
      assert t.scan[1..][n - 1..] == t.scan[n..];
      assert t.scan[n..] <= u.scan[n - 1..];
      Turns(u, now, limits, n - 1)
  }

  lemma OneTurn(t: Table, now: int, limits: Timeouts, n: nat)
    requires 0 < n <= |t.scan|
    ensures n - 1 <= |Examined(t, now, limits).scan|
    ensures Turns(t, now, limits, n) == Turns(Examined(t, now, limits), now, limits, n - 1)
  {
  }

  lemma NoTurn(t: Table, now: int, limits: Timeouts)
    ensures Turns(t, now, limits, 0) == t
  {
  }

  // ---------------------------------------------------------------- the server's tables

  class Tables {
    var connections: map<Id, Conn>
    var fds: map<Fd, Id>
    var users: map<User, seq<Id>>
    var scan: seq<Id>
    var next: Id

    ghost function View(): Table
      reads this
    {
      Table(connections, fds, users, scan, next)
    }

    constructor ()
      ensures View() == Empty()
    {
      connections, fds, users, scan, next := map[], map[], map[], [], 1;
    }

    method RegisterConnection(fd: Fd, now: int) returns (id: Id)
      modifies this
      ensures View() == Registered(old(View()), fd, now) && id == old(next)
    {
      id := next;
      next := next + 1;
      connections := connections[id := Conn(fd, 0, now, now, now, false)];
      fds := fds[fd := id];
      scan := scan + [id];
    }

    method CloseClientFd(fd: Fd)
      modifies this
      ensures View() == Closed(old(View()), fd)
    {
      if fd !in fds || fds[fd] !in connections {
        return;
      }
      var id := fds[fd];
      var c := connections[id];
      fds := fds - {c.fd};
      connections := connections - {id};
      Unlist(c.user, id);
    }

    method Unlist(user: User, id: Id)
      modifies this`users
      ensures users == Unlisted(old(users), user, id)
    {
      if user in users {
        var list := Remove(users[user], id);
        users := users[user := list];
        if list == [] {
          users := users - {user};
        }
      }
    }

    method BindAuthenticatedConnection(id: Id, user: User)
      requires id in connections
      modifies this
      ensures View() == Bound(old(View()), id, user)
    {
      UnbindAuthenticatedConnection(id);
      var list := if user in users then users[user] else [];
      if id !in list {
        list := list + [id];
      }
      users := users[user := list];
      connections := connections[id := connections[id].(user := user)];
    }

    method UnbindAuthenticatedConnection(id: Id)
      requires id in connections
      modifies this
      ensures View() == Unbound(old(View()), id)
    {
      Unlist(connections[id].user, id);
      connections := connections[id := connections[id].(user := 0)];
    }

    method ScanConnectionTimeouts(now: int, limits: Timeouts)
      modifies this
      ensures View() == Turns(old(View()), now, limits, Batch(old(View())))
    {
      var count := if |scan| < MAX_SCAN then |scan| else MAX_SCAN;
      hide Turns, Examined;
      ghost var start := View();
      var i := 0;
      while i < count
        invariant 0 <= i <= count && count - i <= |scan|
        invariant Turns(View(), now, limits, count - i) == Turns(start, now, limits, count)
      {
        OneTurn(View(), now, limits, count - i);
        Examine(now, limits);
        i := i + 1;
      }
      NoTurn(View(), now, limits);
    }

    /** One turn of the scan's loop. */
    method Examine(now: int, limits: Timeouts)
      requires scan != []
      modifies this
      ensures View() == Examined(old(View()), now, limits)
    {
      var id := scan[0];
      scan := scan[1..];
      if id !in connections {
        return;
      }
      if TimedOut(connections[id], now, limits) {
        CloseClientFd(connections[id].fd);
      } else {
        scan := scan + [id];
      }
    }
  }

  function Empty(): Table {
    Table(map[], map[], map[], [], 1)
  }

  predicate Enabled(t: Table, op: Op) {
    match op
    case Register(_, _) => true
    case Close(_) => true
    case Bind(id, _) => id in t.connections
    case Unbind(id) => id in t.connections
    case Touch(id, _, _, _, _) => id in t.connections
    case Scan(_, _) => true
  }

  function Apply(t: Table, op: Op): Table
    requires Enabled(t, op)
  {
    match op
    case Register(fd, now) => Registered(t, fd, now)
    case Close(fd) => Closed(t, fd)
    case Bind(id, user) => Bound(t, id, user)
    case Unbind(id) => Unbound(t, id)
    case Touch(id, recv, send, active, busy) =>
      var c := t.connections[id].(lastRecv := recv, lastSend := send, lastActive := active, busy := busy);
      t.(connections := t.connections[id := c])
    case Scan(now, limits) => Turns(t, now, limits, Batch(t))
  }

  // ---------------------------------------------------------------- the tables agree

  /** Both tables hold the same contexts. */
  ghost predicate SameContexts(t: Table) {
    && (forall id :: id in t.connections ==> t.connections[id].fd in t.fds && t.fds[t.connections[id].fd] == id)
    && (forall fd :: fd in t.fds ==> t.fds[fd] in t.connections && t.connections[t.fds[fd]].fd == fd)
  }

  ghost predicate Listing(connections: map<Id, Conn>, user: User, list: seq<Id>) {
    list != [] && Distinct(list) && forall id :: id in list ==> id in connections && connections[id].user == user
  }

  /** Each authenticated connection is on its user's list, once, and on no other. */
  ghost predicate ListedOnce(connections: map<Id, Conn>, users: map<User, seq<Id>>) {
    && (forall user :: user in users ==> Listing(connections, user, users[user]))
    && (forall id :: id in connections && connections[id].user != 0
          ==> connections[id].user in users && id in users[connections[id].user])
  }

  /** The scan queue holds each id at most once, open ones certainly, and ids are not reused. */
  ghost predicate Queued(t: Table) {
    && Distinct(t.scan)
    && (forall id :: id in t.connections ==> id in t.scan)
    && (forall id :: id in t.scan ==> id < t.next)
  }

  ghost predicate Inv(t: Table) {
    SameContexts(t) && ListedOnce(t.connections, t.users) && Queued(t)
  }

  lemma {:induction false} RemoveDistinct(list: seq<Id>, id: Id)
    requires Distinct(list)
    ensures Distinct(Remove(list, id))
  {
    if list != [] {
      RemoveDistinct(list[1..], id);
      assert list[0] !in list[1..];
    }
  }

  /** After Unlisted the connection is on no list, and the other lists are as they were. */
  lemma UnlistedKeeps(connections: map<Id, Conn>, users: map<User, seq<Id>>, id: Id)
    requires ListedOnce(connections, users) && id in connections
    ensures var left := Unlisted(users, connections[id].user, id);
      && ListedOnce(connections - {id}, left)
      && forall user :: user in left ==> id !in left[user]
  {
    var user, rest := connections[id].user, connections - {id};
    var left := Unlisted(users, user, id);
    forall u | u in left ensures Listing(rest, u, left[u]) && id !in left[u] {
      assert Listing(connections, u, users[u]);
      if u == user { RemoveDistinct(users[u], id); }
    }
    forall x | x in rest && rest[x].user != 0 ensures rest[x].user in left && x in left[rest[x].user] {
      assert x in connections && x in users[connections[x].user];
    }
  }

  lemma UnboundKeeps(t: Table, id: Id)
    requires Inv(t) && id in t.connections
    ensures Inv(Unbound(t, id))
    ensures forall user :: user in Unbound(t, id).users ==> id !in Unbound(t, id).users[user]
  {
    UnlistedKeeps(t.connections, t.users, id);
    var u := Unbound(t, id);
    Relisted(t.connections - {id}, u.connections, u.users, id);
  }

  /** A connection with no user fits beside any lists that leave it out. */
  lemma Relisted(rest: map<Id, Conn>, connections: map<Id, Conn>, users: map<User, seq<Id>>, id: Id)
    requires ListedOnce(rest, users) && id in connections && connections[id].user == 0 && rest == connections - {id}
    ensures ListedOnce(connections, users)
  {
    forall u | u in users ensures Listing(connections, u, users[u]) {
      assert Listing(rest, u, users[u]);
    }
    assert forall x :: x in connections && x != id ==> x in rest && rest[x] == connections[x];
  }

  lemma BoundKeeps(t: Table, id: Id, user: User)
    requires Inv(t) && id in t.connections
    ensures Inv(Bound(t, id, user))
  {
    UnboundKeeps(t, id);
    var u, b := Unbound(t, id), Bound(t, id, user);
    var list := if user in u.users then u.users[user] else [];
    forall w | w in b.users ensures Listing(b.connections, w, b.users[w]) {
      if w in u.users { assert Listing(u.connections, w, u.users[w]); }
    }
    forall x | x in b.connections && b.connections[x].user != 0
      ensures b.connections[x].user in b.users && x in b.users[b.connections[x].user] {
      if x != id { assert x in u.users[u.connections[x].user]; }
    }
  }

  lemma ClosedKeeps(t: Table, fd: Fd)
    requires SameContexts(t) && ListedOnce(t.connections, t.users)
    ensures SameContexts(Closed(t, fd)) && ListedOnce(Closed(t, fd).connections, Closed(t, fd).users)
  {
    if fd in t.fds && t.fds[fd] in t.connections {
      UnlistedKeeps(t.connections, t.users, t.fds[fd]);
    }
  }

  /** Registering keeps the tables in step exactly when the descriptor is not already registered. */
  lemma RegisterKeepsExactly(t: Table, fd: Fd, now: int)
    requires Inv(t)
    ensures Inv(Registered(t, fd, now)) <==> fd !in t.fds
  {
    var r := Registered(t, fd, now);
    assert t.next !in t.connections;
    if fd in t.fds {
      var prior := t.fds[fd];
      assert prior in r.connections && r.connections[prior].fd == fd && r.fds[fd] != prior;
    } else {
      forall u | u in r.users ensures Listing(r.connections, u, r.users[u]) {
        assert Listing(t.connections, u, t.users[u]);
      }
      forall x | x in r.connections && r.connections[x].user != 0
        ensures r.connections[x].user in r.users && x in r.users[r.connections[x].user] {
        assert x in t.connections;
      }
      assert t.next !in t.scan && r.scan[|t.scan|] == t.next;
      assert forall x :: x in t.scan ==> x in r.scan;
    }
  }

  // ---------------------------------------------------------------- the scan

  lemma ExaminedKeeps(t: Table, now: int, limits: Timeouts)
    requires Inv(t) && t.scan != []
    ensures Inv(Examined(t, now, limits))
    ensures var id := t.scan[0];
      Examined(t, now, limits).connections
      == if id in t.connections && TimedOut(t.connections[id], now, limits) then t.connections - {id} else t.connections
  {
    var id, u := t.scan[0], t.(scan := t.scan[1..]);
    var e := Examined(t, now, limits);
    if id in t.connections && TimedOut(t.connections[id], now, limits) {
      ClosedKeeps(u, t.connections[id].fd);
    }
    QueueKeeps(t, e, id);
  }

  /** Moving the head to the back, or dropping it when it is not open, keeps the queue in order. */
  lemma QueueKeeps(t: Table, e: Table, id: Id)
    requires Queued(t) && t.scan != [] && t.scan[0] == id && e.next == t.next
    requires forall x :: x in e.connections ==> x in t.connections
    requires e.scan == if id in e.connections then t.scan[1..] + [id] else t.scan[1..]
    ensures Queued(e)
  {
    assert t.scan == [id] + t.scan[1..];
    assert id !in t.scan[1..];
    assert id in e.connections ==> e.scan[|e.scan| - 1] == id;
    forall x | x in e.connections ensures x in e.scan {
      assert x in t.scan;
    }
    forall x | x in e.scan ensures x < e.next {
      assert x in t.scan;
    }
  }

  lemma {:induction false} TurnsKeep(t: Table, now: int, limits: Timeouts, n: nat)
    requires Inv(t) && n <= |t.scan|
    ensures Inv(Turns(t, now, limits, n))
    decreases n
  {
    hide Inv, Examined, Turns;
    if n == 0 {
      NoTurn(t, now, limits);
    } else {
      ExaminedKeeps(t, now, limits);
      OneTurn(t, now, limits, n);
      TurnsKeep(Examined(t, now, limits), now, limits, n - 1);
    }
  }

  /** Does the scan close this connection? */
  predicate Doomed(t: Table, now: int, limits: Timeouts, n: nat, id: Id)
    requires n <= |t.scan|
  {
    id in t.connections && id in t.scan[..n] && TimedOut(t.connections[id], now, limits)
  }

  /** The scan closes exactly the connections it looks at that have timed out, and leaves the rest be. */
  lemma {:induction false} ScanIsExact(t: Table, now: int, limits: Timeouts, n: nat, id: Id)
    requires Inv(t) && n <= |t.scan|
    ensures var r := Turns(t, now, limits, n);
      && (id in r.connections <==> id in t.connections && !Doomed(t, now, limits, n, id))
      && (id in r.connections ==> r.connections[id] == t.connections[id])
    decreases n
  {
    hide Inv, Examined, Turns, TimedOut;
    if n == 0 {
      NoTurn(t, now, limits);
    } else {
      var e := Examined(t, now, limits);
      ExaminedKeeps(t, now, limits);
      OneTurn(t, now, limits, n);
      ScanIsExact(e, now, limits, n - 1, id);
      NextPlaces(t, now, limits, n);
      assert t.scan[..n] == [t.scan[0]] + t.scan[1..n];
    }
  }

  lemma NextPlaces(t: Table, now: int, limits: Timeouts, n: nat)
    requires 0 < n <= |t.scan|
    ensures n - 1 <= |Examined(t, now, limits).scan|
    ensures Examined(t, now, limits).scan[..n - 1] == t.scan[1..n]
  {
  }

  // ---------------------------------------------------------------- runs

  predicate Legal(t: Table, ops: seq<Op>)
    decreases |ops|
  {
    ops == [] || (Enabled(t, ops[0]) && (ops[0].Register? ==> ops[0].fd !in t.fds) && Legal(Apply(t, ops[0]), ops[1..]))
  }

  function After(t: Table, ops: seq<Op>): Table
    requires Legal(t, ops)
    decreases |ops|
  {
    if ops == [] then t else After(Apply(t, ops[0]), ops[1..])
  }

  lemma OpKeeps(t: Table, op: Op)
    requires Inv(t) && Enabled(t, op) && (op.Register? ==> op.fd !in t.fds)
    ensures Inv(Apply(t, op))
  {
    match op
    case Register(fd, now) => RegisterKeepsExactly(t, fd, now);
    case Close(fd) => ClosedKeeps(t, fd);
    case Bind(id, user) => BoundKeeps(t, id, user);
    case Unbind(id) => UnboundKeeps(t, id);
    case Touch(id, _, _, _, _) => TouchKeeps(t, op);
    case Scan(now, limits) => TurnsKeep(t, now, limits, Batch(t));
  }

  lemma TouchKeeps(t: Table, op: Op)
    requires Inv(t) && op.Touch? && Enabled(t, op)
    ensures Inv(Apply(t, op))
  {
    var r := Apply(t, op);
    forall u | u in r.users ensures Listing(r.connections, u, r.users[u]) {
      assert Listing(t.connections, u, t.users[u]);
    }
  }

  lemma {:induction false} RunKeeps(t: Table, ops: seq<Op>)
    requires Inv(t) && Legal(t, ops)
    ensures Inv(After(t, ops))
    decreases |ops|
  {
    hide Inv, Apply, Enabled;
    if ops != [] {
      OpKeeps(t, ops[0]);
      RunKeeps(Apply(t, ops[0]), ops[1..]);
    }
  }

  /** In every run where a new descriptor is not already registered: both tables hold the same contexts,
      each authenticated connection is listed once under exactly its user and nothing else is listed,
      and each open connection is in the scan queue exactly once. */
  lemma TablesAgree(ops: seq<Op>)
    requires Legal(Empty(), ops)
    ensures var t := After(Empty(), ops); SameContexts(t) && ListedOnce(t.connections, t.users) && Queued(t)
  {
    RunKeeps(Empty(), ops);
  }

  // ---------------------------------------------------------------- fairness

  function Scans(ops: seq<Op>): nat {
    if ops == [] then 0 else (if ops[0].Scan? then 1 else 0) + Scans(ops[1..])
  }

  /** Some scan of the run looks at this id. */
  predicate LookedAt(t: Table, ops: seq<Op>, id: Id)
    requires Legal(t, ops)
    decreases |ops|
  {
    ops != [] && ((ops[0].Scan? && id in t.scan[..Batch(t)]) || LookedAt(Apply(t, ops[0]), ops[1..], id))
  }

  /** An id at place p of the queue is looked at by one of the next p / 256 + 1 scans, whatever else is
      opened, closed, bound or touched in between. */
  lemma {:induction false} ScanIsFair(t: Table, ops: seq<Op>, p: nat)
    requires Legal(t, ops) && p < |t.scan| && Scans(ops) > p / MAX_SCAN
    ensures LookedAt(t, ops, t.scan[p])
    decreases |ops|
  {
    var op, u, rest := ops[0], Apply(t, ops[0]), ops[1..];
    hide Apply, Enabled, Batch, LookedAt;
    if op.Scan? && p < Batch(t) {
      Now(t, ops, p);
    } else {
      var q := if op.Scan? then p - MAX_SCAN else p;
      if op.Scan? {
        Forward(t, op, p);
        OneBatchLess(p);
      } else {
        InPlace(t, op);
      }
      ScanIsFair(u, rest, q);
      Later(t, ops, t.scan[p]);
    }
  }

  lemma Now(t: Table, ops: seq<Op>, p: nat)
    requires Legal(t, ops) && ops != [] && ops[0].Scan? && p < Batch(t)
    ensures LookedAt(t, ops, t.scan[p])
  {
    assert t.scan[..Batch(t)][p] == t.scan[p];
  }

  lemma Later(t: Table, ops: seq<Op>, id: Id)
    requires Legal(t, ops) && ops != [] && LookedAt(Apply(t, ops[0]), ops[1..], id)
    ensures LookedAt(t, ops, id)
  {
  }

  lemma OneBatchLess(p: nat)
    requires p >= MAX_SCAN
    ensures (p - MAX_SCAN) / MAX_SCAN == p / MAX_SCAN - 1
  {
  }

  lemma InPlace(t: Table, op: Op)
    requires Enabled(t, op) && !op.Scan?
    ensures t.scan <= Apply(t, op).scan
  {
  }

  lemma Forward(t: Table, op: Op, p: nat)
    requires op.Scan? && Batch(t) <= p < |t.scan|
    ensures MAX_SCAN <= p && p - MAX_SCAN < |Apply(t, op).scan| && Apply(t, op).scan[p - MAX_SCAN] == t.scan[p]
  {
    assert t.scan[MAX_SCAN..] <= Apply(t, op).scan;
    assert t.scan[MAX_SCAN..][p - MAX_SCAN] == t.scan[p];
  }

  /** At every scan of the run the connection, if still open, has timed out. */
  predicate StaysSilent(t: Table, ops: seq<Op>, id: Id)
    requires Legal(t, ops)
    decreases |ops|
  {
    ops == []
    || ((ops[0].Scan? && id in t.connections ==> TimedOut(t.connections[id], ops[0].now, ops[0].limits))
        && StaysSilent(Apply(t, ops[0]), ops[1..], id))
  }

  /** So a connection that stays silent is closed within that many scans. */
  lemma SilentIsClosed(t: Table, ops: seq<Op>, p: nat)
    requires Inv(t) && Legal(t, ops) && p < |t.scan| && Scans(ops) > p / MAX_SCAN && StaysSilent(t, ops, t.scan[p])
    ensures t.scan[p] !in After(t, ops).connections
  {
    ScanIsFair(t, ops, p);
    assert t.scan[p] in t.scan;
    LookedAtIsClosed(t, ops, t.scan[p]);
  }

  lemma {:induction false} LookedAtIsClosed(t: Table, ops: seq<Op>, id: Id)
    requires Inv(t) && Legal(t, ops) && id < t.next && LookedAt(t, ops, id) && StaysSilent(t, ops, id)
    ensures id !in After(t, ops).connections
    decreases |ops|
  {
    var op, u := ops[0], Apply(t, ops[0]);
    OpKeeps(t, op);
    NextGrows(t, op);
    if op.Scan? {
      ScanIsExact(t, op.now, op.limits, Batch(t), id);
    }
    hide Inv, Apply, Enabled, TimedOut;
    if LookedAt(u, ops[1..], id) {
      LookedAtIsClosed(u, ops[1..], id);
    } else {
      StaysClosed(u, ops[1..], id);
    }
  }

  lemma {:induction false} TurnsNext(t: Table, now: int, limits: Timeouts, n: nat)
    requires n <= |t.scan|
    ensures Turns(t, now, limits, n).next == t.next
    ensures forall id :: id in Turns(t, now, limits, n).connections ==> id in t.connections
    decreases n
  {
    if n > 0 {
      OneTurn(t, now, limits, n);
      TurnsNext(Examined(t, now, limits), now, limits, n - 1);
    }
  }

  lemma NextGrows(t: Table, op: Op)
    requires Enabled(t, op)
    ensures t.next <= Apply(t, op).next
    ensures forall id :: id in Apply(t, op).connections ==> id in t.connections || id >= t.next
  {
    if op.Scan? { TurnsNext(t, op.now, op.limits, Batch(t)); }
  }

  /** Ids are not reused: a closed connection stays closed. */
  lemma {:induction false} StaysClosed(t: Table, ops: seq<Op>, id: Id)
    requires Legal(t, ops) && id < t.next && id !in t.connections
    ensures id !in After(t, ops).connections
    decreases |ops|
  {
    if ops != [] {
      NextGrows(t, ops[0]);
      hide Apply, Enabled;
      StaysClosed(Apply(t, ops[0]), ops[1..], id);
    }
  }
}
