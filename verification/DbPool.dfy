/** The connection pool (src/db/db_pool.cc:42-69, 120-380, 415-444). Every step is one critical
    section; connecting, pinging and closing happen between steps, with the lock released, so any
    number of borrowers, leases and returns interleave. */
module DbPool {
  import opened Wrappers

  type ConnId = nat
  type AgentId = nat

  datatype Error = NotInitialized | Stopping | ConnectFailed | BorrowTimeout | HealthCheckFailed

  /** A borrow() call by where it stands outside the lock, a PooledConnection object, or a
      returnConnection() call. `pinged` remembers that this borrow saw a ping fail. */
  datatype Agent =
    | Entering(pinged: bool)
    | Checking(conn: ConnId, pinged: bool)
    | Creating(pinged: bool)
    | Waiting(pinged: bool)
    | Failed(error: Error)
    | Lease(pool: bool, held: Option<ConnId>, reusable: bool)
    | Returning(conn: ConnId, reusable: bool)
    | Gone

  datatype Stats = Stats(waiting: int, created: int, pingFailed: int, invalidated: int, expired: int, timeouts: int)

  /** `lateInit` is history: init() took effect after stop(). */
  datatype State = State(min: nat, max: nat, idle: seq<ConnId>, total: int, stopping: bool, initialized: bool,
                         stats: Stats, agents: seq<Agent>, nextConn: ConnId, lateInit: bool)

  function New(min: nat, max: nat): State {
    State(min, max, [], 0, false, false, Stats(0, 0, 0, 0, 0, 0), [], 0, false)
  }

  datatype Verdict = Expired | Healthy | Unhealthy

  datatype Step =
    | Init
    | Borrow
    | Enter(i: AgentId)
    | Checked(i: AgentId, verdict: Verdict)
    | Created(i: AgentId, ok: bool)
    | Wake(i: AgentId)
    | Stop
    | MarkBad(i: AgentId)
    | MoveConstruct(i: AgentId)
    | MoveAssign(i: AgentId, from: AgentId)
    | Destroy(i: AgentId)
    | Returned(i: AgentId, ping: bool)

  function At(s: State, i: AgentId): Agent {
    if i < |s.agents| then s.agents[i] else Gone
  }

  predicate Enabled(s: State, step: Step) {
    match step
    case Init => !s.initialized
    case Borrow => true
    case Enter(i) => At(s, i).Entering?
    case Checked(i, _) => At(s, i).Checking?
    case Created(i, _) => At(s, i).Creating?
    case Wake(i) => At(s, i).Waiting?
    case Stop => true
    case MarkBad(i) => At(s, i).Lease?
    case MoveConstruct(i) => At(s, i).Lease?
    case MoveAssign(i, j) => At(s, i).Lease? && At(s, j).Lease?
    case Destroy(i) => At(s, i).Lease?
    case Returned(i, _) => At(s, i).Returning?
  }

  function Become(s: State, i: AgentId, a: Agent): State
    requires i < |s.agents|
  {
    s.(agents := s.agents[i := a])
  }

  /** The ids of n new connections. */
  function NewConns(first: ConnId, n: nat): (cs: seq<ConnId>)
    ensures |cs| == n && forall k :: 0 <= k < n ==> cs[k] == first + k
    decreases n
  {
    if n == 0 then [] else NewConns(first, n - 1) + [first + n - 1]
  }

  function Apply(s: State, step: Step): State
    requires Enabled(s, step)
  {
    match step
    case Init =>
      s.(idle := s.idle + NewConns(s.nextConn, s.min), total := s.total + s.min, nextConn := s.nextConn + s.min,
         stats := s.stats.(created := s.stats.created + s.min), initialized := true, lateInit := s.stopping)
    case Borrow => s.(agents := s.agents + [Entering(false)])
    case Enter(i) => ApplyEnter(s, i)
    case Checked(i, verdict) => ApplyChecked(s, i, verdict)
    case Created(i, ok) => ApplyCreated(s, i, ok)
    case Wake(i) => ApplyWake(s, i)
    case Stop =>
      if s.stopping then s else s.(stopping := true, total := s.total - |s.idle|, idle := [])
    case MarkBad(i) => Become(s, i, Lease(s.agents[i].pool, s.agents[i].held, false))
    case MoveConstruct(i) =>
      s.(agents := s.agents[i := Lease(false, None, s.agents[i].reusable)] + [s.agents[i]])
    case MoveAssign(i, j) => ApplyMoveAssign(s, i, j)
    case Destroy(i) =>
      var l := s.agents[i];
      Become(s, i, if l.pool && l.held.Some? then Returning(l.held.value, l.reusable) else Gone)
    case Returned(i, ping) => ApplyReturned(s, i, ping)
  }

  /** One turn of the borrow loop under the lock (src/db/db_pool.cc:182-203, 269-274, 315). */
  function ApplyEnter(s: State, i: AgentId): State
    requires i < |s.agents| && s.agents[i].Entering?
  {
    var p := s.agents[i].pinged;
    if !s.initialized then Become(s, i, Failed(NotInitialized))
    else if s.stopping then Become(s, i, Failed(Error.Stopping))
    else if s.idle != [] then Become(s, i, Checking(s.idle[0], p)).(idle := s.idle[1..])
    else if s.total < s.max then Become(s, i, Creating(p)).(total := s.total + 1)
    else Become(s, i, Waiting(p)).(stats := s.stats.(waiting := s.stats.waiting + 1))
  }

  /** After the health check of an idle connection (src/db/db_pool.cc:205-266). */
  function ApplyChecked(s: State, i: AgentId, verdict: Verdict): State
    requires i < |s.agents| && s.agents[i].Checking?
  {
    var c, p := s.agents[i].conn, s.agents[i].pinged;
    var drop := s.(total := s.total - 1);
    if verdict.Expired? then
      Become(drop, i, Entering(p)).(stats := s.stats.(expired := s.stats.expired + 1))
    else if s.stopping then Become(drop, i, Failed(Error.Stopping))
    else if verdict.Healthy? then Become(s, i, Lease(true, Some(c), true))
    else Become(drop, i, Entering(true)).(stats := s.stats.(pingFailed := s.stats.pingFailed + 1))
  }

  /** After connecting with a reserved slot (src/db/db_pool.cc:276-311). */
  function ApplyCreated(s: State, i: AgentId, ok: bool): State
    requires i < |s.agents| && s.agents[i].Creating?
  {
    var p := s.agents[i].pinged;
    var drop := s.(total := s.total - 1);
    if s.stopping then Become(drop, i, Failed(Error.Stopping))
    else if ok then
      Become(s, i, Lease(true, Some(s.nextConn), true)).(nextConn := s.nextConn + 1,
             stats := s.stats.(created := s.stats.created + 1))
    else Become(drop, i, Failed(if p then HealthCheckFailed else ConnectFailed))
  }

  /** The condition variable's wait is over: its predicate holds, or it timed out
      (src/db/db_pool.cc:316-341). */
  function ApplyWake(s: State, i: AgentId): State
    requires i < |s.agents| && s.agents[i].Waiting?
  {
    var p := s.agents[i].pinged;
    var woken := s.(stats := s.stats.(waiting := s.stats.waiting - 1));
    if s.stopping then Become(woken, i, Failed(Error.Stopping))
    else if s.idle == [] && s.total >= s.max then
      Become(woken, i, Failed(if p then HealthCheckFailed else BorrowTimeout)).(
        stats := woken.stats.(timeouts := s.stats.timeouts + 1))
    else Become(woken, i, Entering(p))
  }

  /** operator=(PooledConnection&&): nothing on the object itself, otherwise the connection it held goes
      back and it takes over the other's. */
  function ApplyMoveAssign(s: State, i: AgentId, j: AgentId): State
    requires i < |s.agents| && j < |s.agents| && s.agents[i].Lease? && s.agents[j].Lease?
  {
    var l := s.agents[i];
    var moved := s.agents[i := s.agents[j]][j := Lease(false, None, s.agents[j].reusable)];
    if i == j then s
    else s.(agents := if l.pool && l.held.Some? then moved + [Returning(l.held.value, l.reusable)] else moved)
  }

  function ApplyReturned(s: State, i: AgentId, ping: bool): State
    requires i < |s.agents| && s.agents[i].Returning?
  {
    var r := s.agents[i];
    var healthy := r.reusable && ping;
    if s.stopping then Become(s, i, Gone).(total := s.total - 1)
    else if !healthy then
      Become(s, i, Gone).(total := s.total - 1, stats := s.stats.(invalidated := s.stats.invalidated + 1))
    else Become(s, i, Gone).(idle := s.idle + [r.conn])
  }

  predicate Legal(s: State, steps: seq<Step>)
    decreases |steps|
  {
    steps == [] || (Enabled(s, steps[0]) && Legal(Apply(s, steps[0]), steps[1..]))
  }

  function After(s: State, steps: seq<Step>): State
    requires Legal(s, steps)
    decreases |steps|
  {
    if steps == [] then s else After(Apply(s, steps[0]), steps[1..])
  }

  /** Pools that pass init()'s configuration checks. */
  ghost predicate Reachable(s: State) {
    exists min: nat, max: nat, steps ::
      min <= max && max > 0 && Legal(New(min, max), steps) && s == After(New(min, max), steps)
  }

  // ---------------------------------------------------------------- the ledger

  /** What agents have: connection c, connections at all, reserved slots, places in the wait, and
      timeouts to report. */
  datatype Tally = Tally(mine: int, holding: int, creating: int, waiting: int, timedOut: int)

  function Plus(a: Tally, b: Tally): Tally {
    Tally(a.mine + b.mine, a.holding + b.holding, a.creating + b.creating, a.waiting + b.waiting,
          a.timedOut + b.timedOut)
  }

  function Held(a: Agent): Option<ConnId> {
    match a
    case Checking(c, _) => Some(c)
    case Lease(_, held, _) => held
    case Returning(c, _) => Some(c)
    case _ => None
  }

  function Own(a: Agent, c: ConnId): Tally {
    Tally(if Held(a) == Some(c) then 1 else 0, if Held(a).Some? then 1 else 0,
          if a.Creating? then 1 else 0, if a.Waiting? then 1 else 0, if a == Failed(BorrowTimeout) then 1 else 0)
  }

  function Sum(agents: seq<Agent>, c: ConnId): (t: Tally)
    ensures 0 <= t.mine <= t.holding && t.creating >= 0 && t.waiting >= 0 && t.timedOut >= 0
  {
    if agents == [] then Tally(0, 0, 0, 0, 0) else Plus(Sum(agents[..|agents| - 1], c), Own(agents[|agents| - 1], c))
  }

  lemma Appended(agents: seq<Agent>, a: Agent, c: ConnId)
    ensures Sum(agents + [a], c) == Plus(Sum(agents, c), Own(a, c))
  {
    assert (agents + [a])[..|agents|] == agents;
  }

  /** Replacing one agent moves the tally by exactly its own share. */
  lemma {:induction false} Replaced(agents: seq<Agent>, i: AgentId, a: Agent, c: ConnId)
    requires i < |agents|
    ensures Plus(Sum(agents[i := a], c), Own(agents[i], c)) == Plus(Sum(agents, c), Own(a, c))
  {
    hide Own;
    var n := |agents| - 1;
    if i == n {
      assert agents[i := a][..n] == agents[..n];
    } else {
      assert agents[i := a][..n] == agents[..n][i := a];
      Replaced(agents[..n], i, a, c);
    }
  }

  /** Connections established and not dropped: idle, leased, being checked or being returned. */
  function Established(s: State): int {
    |s.idle| + Sum(s.agents, 0).holding
  }

  /** The pool's books, and where connection c is, given the agents' tally for c. */
  ghost predicate Balanced(s: State, t: Tally, c: ConnId) {
    var live, copies := |s.idle| + t.holding, multiset(s.idle)[c] + t.mine;
    && s.min <= s.max
    && s.total == live + t.creating <= s.max
    && (s.initialized || (s.total == 0 && !s.lateInit))
    && s.stats.waiting == t.waiting
    && t.timedOut <= s.stats.timeouts
    && copies <= 1 && (copies > 0 ==> c < s.nextConn)
    && (!s.stopping ==> s.stats.created == live + s.stats.pingFailed + s.stats.invalidated + s.stats.expired)
    && (s.stopping ==> |s.idle| == if s.lateInit then s.min else 0)
    && (s.lateInit ==> s.stopping)
  }

  ghost predicate Books(s: State, c: ConnId) {
    Balanced(s, Sum(s.agents, c), c)
  }

  /** A lease has its pool exactly while it has a connection. */
  predicate LeaseOk(a: Agent) {
    a.Lease? ==> a.pool == a.held.Some?
  }

  ghost predicate LeasesOk(agents: seq<Agent>) {
    forall i :: 0 <= i < |agents| ==> LeaseOk(agents[i])
  }

  ghost predicate Inv(s: State) {
    LeasesOk(s.agents) && forall c :: Books(s, c)
  }

  // ---------------------------------------------------------------- preservation

  lemma EnterKeeps(s: State, i: AgentId, c: ConnId)
    requires i < |s.agents| && s.agents[i].Entering? && Books(s, c)
    ensures Books(ApplyEnter(s, i), c)
  {
    hide Sum;
    Replaced(s.agents, i, ApplyEnter(s, i).agents[i], c);
    if s.idle != [] {
      assert s.idle == [s.idle[0]] + s.idle[1..];
    }
  }

  lemma CheckedKeeps(s: State, i: AgentId, v: Verdict, c: ConnId)
    requires i < |s.agents| && s.agents[i].Checking? && Books(s, c)
    ensures Books(ApplyChecked(s, i, v), c)
  {
    hide Sum;
    Replaced(s.agents, i, ApplyChecked(s, i, v).agents[i], c);
  }

  lemma CreatedKeeps(s: State, i: AgentId, ok: bool, c: ConnId)
    requires i < |s.agents| && s.agents[i].Creating? && Books(s, c)
    ensures Books(ApplyCreated(s, i, ok), c)
  {
    hide Sum;
    Replaced(s.agents, i, ApplyCreated(s, i, ok).agents[i], c);
  }

  lemma WakeKeeps(s: State, i: AgentId, c: ConnId)
    requires i < |s.agents| && s.agents[i].Waiting? && Books(s, c)
    ensures Books(ApplyWake(s, i), c)
  {
    hide Sum;
    Replaced(s.agents, i, ApplyWake(s, i).agents[i], c);
  }

  lemma ReturnedKeeps(s: State, i: AgentId, ping: bool, c: ConnId)
    requires i < |s.agents| && s.agents[i].Returning? && Books(s, c)
    ensures Books(ApplyReturned(s, i, ping), c)
  {
    hide Sum;
    Replaced(s.agents, i, Gone, c);
  }

  /** Move assignment loses and duplicates nothing, on the object itself as well. */
  lemma MoveAssignKeeps(s: State, i: AgentId, j: AgentId, c: ConnId)
    requires Enabled(s, MoveAssign(i, j)) && LeasesOk(s.agents) && Books(s, c)
    ensures Books(ApplyMoveAssign(s, i, j), c)
  {
    hide Sum, Own;
    if i != j {
      MoveAssignSum(s, i, j, c);
    }
  }

  lemma MoveAssignSum(s: State, i: AgentId, j: AgentId, c: ConnId)
    requires Enabled(s, MoveAssign(i, j)) && LeasesOk(s.agents) && i != j
    ensures Sum(ApplyMoveAssign(s, i, j).agents, c) == Sum(s.agents, c)
  {
    hide Sum;
    var l, m := s.agents[i], s.agents[j];
    var once, empty := s.agents[i := m], Lease(false, None, m.reusable);
    Replaced(s.agents, i, m, c);
    Replaced(once, j, empty, c);
    assert Own(empty, c) == Tally(0, 0, 0, 0, 0);
    if l.held.Some? {
      assert Own(Returning(l.held.value, l.reusable), c) == Own(l, c);
      hide Own;
      Appended(once[j := empty], Returning(l.held.value, l.reusable), c);
    } else {
      assert Own(l, c) == Tally(0, 0, 0, 0, 0);
    }
  }

  lemma MoveConstructKeeps(s: State, i: AgentId, c: ConnId)
    requires Enabled(s, MoveConstruct(i)) && Books(s, c)
    ensures Books(Apply(s, MoveConstruct(i)), c)
  {
    hide Sum;
    var empty := Lease(false, None, s.agents[i].reusable);
    Replaced(s.agents, i, empty, c);
    Appended(s.agents[i := empty], s.agents[i], c);
  }

  lemma DestroyKeeps(s: State, i: AgentId, c: ConnId)
    requires Enabled(s, Destroy(i)) && LeasesOk(s.agents) && Books(s, c)
    ensures Books(Apply(s, Destroy(i)), c)
  {
    hide Sum;
    Replaced(s.agents, i, Apply(s, Destroy(i)).agents[i], c);
  }

  lemma {:induction false} CountNew(first: ConnId, n: nat, c: ConnId)
    ensures multiset(NewConns(first, n))[c] == if first <= c < first + n then 1 else 0
    decreases n
  {
    if n > 0 {
      LastNew(first, n, c);
      hide NewConns;
      CountNew(first, n - 1, c);
    }
  }

  lemma LastNew(first: ConnId, n: nat, c: ConnId)
    requires n > 0
    ensures multiset(NewConns(first, n))[c] == multiset(NewConns(first, n - 1))[c] + if c == first + n - 1 then 1 else 0
  {
    assert NewConns(first, n) == NewConns(first, n - 1) + [first + n - 1];
    hide NewConns;
  }

  lemma InitKeeps(s: State, c: ConnId)
    requires !s.initialized && Books(s, c)
    ensures Books(Apply(s, Init), c)
  {
    hide Sum, NewConns;
    CountNew(s.nextConn, s.min, c);
  }

  lemma StepBooks(s: State, step: Step, c: ConnId)
    requires Enabled(s, step) && LeasesOk(s.agents) && Books(s, c)
    ensures Books(Apply(s, step), c)
  {
    hide Sum;
    match step
    case Init => InitKeeps(s, c);
    case Borrow => Appended(s.agents, Entering(false), c);
    case Enter(i) => EnterKeeps(s, i, c);
    case Checked(i, v) => CheckedKeeps(s, i, v, c);
    case Created(i, ok) => CreatedKeeps(s, i, ok, c);
    case Wake(i) => WakeKeeps(s, i, c);
    case Stop =>
    case MarkBad(i) => Replaced(s.agents, i, Apply(s, step).agents[i], c);
    case MoveConstruct(i) => MoveConstructKeeps(s, i, c);
    case MoveAssign(i, j) => MoveAssignKeeps(s, i, j, c);
    case Destroy(i) => DestroyKeeps(s, i, c);
    case Returned(i, ping) => ReturnedKeeps(s, i, ping, c);
  }

  lemma LeaseReplaced(agents: seq<Agent>, i: AgentId, a: Agent)
    requires LeasesOk(agents) && i < |agents| && LeaseOk(a)
    ensures LeasesOk(agents[i := a])
  {
  }

  lemma LeaseAppended(agents: seq<Agent>, a: Agent)
    requires LeasesOk(agents) && LeaseOk(a)
    ensures LeasesOk(agents + [a])
  {
  }

  lemma LeaseAt(agents: seq<Agent>, i: AgentId)
    requires LeasesOk(agents) && i < |agents|
    ensures LeaseOk(agents[i])
  {
  }

  /** A step of agent i alone leaves it with a lease in order, or with none. */
  lemma OwnLease(s: State, step: Step, i: AgentId)
    requires Enabled(s, step) && (OwnStep(step, i) || step == MarkBad(i) || step == Destroy(i)
                                  || (step.Returned? && step.i == i))
    requires LeaseOk(At(s, i))
    ensures i < |s.agents| && Apply(s, step).agents == s.agents[i := Apply(s, step).agents[i]]
    ensures LeaseOk(Apply(s, step).agents[i])
  {
  }

  lemma MoveLeases(s: State, step: Step)
    requires Enabled(s, step) && LeasesOk(s.agents) && (step.MoveConstruct? || step.MoveAssign?)
    ensures LeasesOk(Apply(s, step).agents)
  {
    var i, j := step.i, if step.MoveAssign? then step.from else step.i;
    LeaseAt(s.agents, i);
    LeaseAt(s.agents, j);
    var moved := Lease(false, None, s.agents[j].reusable);
    hide LeasesOk;
    if step.MoveConstruct? {
      LeaseReplaced(s.agents, i, moved);
      LeaseAppended(s.agents[i := moved], s.agents[i]);
    } else if i != j {
      var l := s.agents[i];
      LeaseReplaced(s.agents, i, s.agents[j]);
      LeaseReplaced(s.agents[i := s.agents[j]], j, moved);
      if l.held.Some? {
        LeaseAppended(s.agents[i := s.agents[j]][j := moved], Returning(l.held.value, l.reusable));
      }
    }
  }

  lemma StepLeases(s: State, step: Step)
    requires Enabled(s, step) && LeasesOk(s.agents)
    ensures LeasesOk(Apply(s, step).agents)
  {
    if step.MoveConstruct? || step.MoveAssign? {
      MoveLeases(s, step);
    } else if step.Borrow? {
      LeaseAppended(s.agents, Entering(false));
    } else if !step.Init? && !step.Stop? {
      LeaseAt(s.agents, step.i);
      OwnLease(s, step, step.i);
      hide LeasesOk, Apply;
      LeaseReplaced(s.agents, step.i, Apply(s, step).agents[step.i]);
    }
  }

  lemma {:induction false} RunKeeps(s: State, steps: seq<Step>)
    requires Inv(s) && Legal(s, steps)
    ensures Inv(After(s, steps))
    decreases |steps|
  {
    hide Books, LeasesOk, Apply, Enabled;
    if steps != [] {
      StepLeases(s, steps[0]);
      forall c { StepBooks(s, steps[0], c); }
      RunKeeps(Apply(s, steps[0]), steps[1..]);
    }
  }

  lemma NewBooks(min: nat, max: nat, c: ConnId)
    requires min <= max
    ensures Books(New(min, max), c)
  {
  }

  lemma ReachableInv(s: State)
    requires Reachable(s)
    ensures Inv(s)
  {
    hide Books, Apply, Enabled;
    var min: nat, max: nat, steps :|
      min <= max && max > 0 && Legal(New(min, max), steps) && s == After(New(min, max), steps);
    forall c { NewBooks(min, max, c); }
    RunKeeps(New(min, max), steps);
  }

  // ---------------------------------------------------------------- the guarantees

  /** Conservation: whenever the lock is free, total_connections_ counts the idle connections, those
      held by borrowers, leases and returns, and the slots reserved for connecting; it never exceeds
      the maximum or falls below zero, so the unsigned counter never wraps. */
  lemma Conservation(s: State)
    requires Reachable(s)
    ensures s.total == Established(s) + Sum(s.agents, 0).creating
    ensures 0 <= s.total <= s.max
    ensures s.stats.waiting == Sum(s.agents, 0).waiting
  {
    hide Reachable, Sum;
    ReachableInv(s);
    assert Books(s, 0);
  }

  /** Each connection is in exactly one place: whoever holds it is alone in that, and it is not idle. */
  lemma OnePlace(s: State, i: AgentId, c: ConnId)
    requires Reachable(s) && i < |s.agents| && Held(s.agents[i]) == Some(c)
    ensures c !in s.idle
    ensures forall j :: 0 <= j < |s.agents| && j != i ==> Held(s.agents[j]) != Some(c)
  {
    hide Reachable, Sum;
    ReachableInv(s);
    assert Books(s, c);
    Replaced(s.agents, i, Gone, c);
    forall j | 0 <= j < |s.agents| && j != i ensures Held(s.agents[j]) != Some(c) {
      if i < j { TwoHolders(s.agents, i, j, c); } else { TwoHolders(s.agents, j, i, c); }
    }
  }

  /** And an idle one is in the queue once. */
  lemma IdleOnce(s: State, a: nat, b: nat)
    requires Reachable(s) && a < b < |s.idle|
    ensures s.idle[a] != s.idle[b]
  {
    hide Reachable, Sum;
    ReachableInv(s);
    assert Books(s, s.idle[a]);
    if s.idle[a] == s.idle[b] {
      TwoCopies(s.idle, a, b);
    }
  }

  lemma TwoCopies(cs: seq<ConnId>, a: nat, b: nat)
    requires a < b < |cs| && cs[a] == cs[b]
    ensures multiset(cs)[cs[a]] >= 2
  {
    assert cs == cs[..b] + [cs[b]] + cs[b + 1..];
    assert cs[..b] == cs[..a] + [cs[a]] + cs[a + 1..b];
  }

  lemma TwoHolders(agents: seq<Agent>, i: AgentId, j: AgentId, c: ConnId)
    requires i < j < |agents|
    ensures Sum(agents, c).mine >= Own(agents[i], c).mine + Own(agents[j], c).mine
  {
    hide Sum;
    Replaced(agents, i, Gone, c);
    Replaced(agents[i := Gone], j, Gone, c);
  }

  /** Accounting: until stop(), every connection ever created is still established or was counted
      as failing a ping, invalidated on return, or expired. */
  lemma Accounting(s: State)
    requires Reachable(s) && !s.stopping
    ensures s.stats.created == Established(s) + s.stats.pingFailed + s.stats.invalidated + s.stats.expired
  {
    hide Reachable, Sum;
    ReachableInv(s);
    assert Books(s, 0);
  }

  /** This borrow saw a ping fail. */
  predicate SawPing(a: Agent) {
    || ((a.Entering? || a.Checking? || a.Creating? || a.Waiting?) && a.pinged)
    || a == Failed(HealthCheckFailed)
  }

  /** The next step of borrow i. */
  predicate OwnStep(step: Step, i: AgentId) {
    (step.Enter? || step.Checked? || step.Created? || step.Wake?) && step.i == i
  }

  predicate Told(s: State, step: Step, i: AgentId, before: Agent, after: Agent) {
    && (SawPing(after) ==> SawPing(before) || step == Checked(i, Unhealthy))
    && (after == Failed(Error.Stopping) ==> before == after || s.stopping)
    && (after == Failed(BorrowTimeout) ==> before == after || step == Wake(i))
  }

  lemma ToldByOwnStep(s: State, step: Step, i: AgentId)
    requires Enabled(s, step) && OwnStep(step, i)
    ensures Told(s, step, i, At(s, i), At(Apply(s, step), i))
  {
  }

  /** Other steps leave a borrow where it stands. */
  lemma OtherSteps(s: State, step: Step, i: AgentId)
    requires Enabled(s, step) && !OwnStep(step, i)
    ensures var after := At(Apply(s, step), i);
      after == At(s, i) || after.Lease? || after.Returning? || after.Gone? || after == Entering(false)
  {
    match step
    case MoveAssign(_, _) =>
    case MoveConstruct(_) =>
    case _ =>
  }

  /** What one step can tell a borrow. */
  lemma ToldByStep(s: State, step: Step, i: AgentId)
    requires Enabled(s, step)
    ensures Told(s, step, i, At(s, i), At(Apply(s, step), i))
  {
    hide Apply;
    if OwnStep(step, i) {
      ToldByOwnStep(s, step, i);
    } else {
      OtherSteps(s, step, i);
    }
  }

  lemma StopIsAsked(s: State, step: Step)
    requires Enabled(s, step) && Apply(s, step).stopping
    ensures s.stopping || step.Stop?
  {
  }

  lemma {:induction false} ToldByRun(s: State, steps: seq<Step>, i: AgentId)
    requires Legal(s, steps)
    ensures var before, after := At(s, i), At(After(s, steps), i);
      && (SawPing(after) ==> SawPing(before) || Checked(i, Unhealthy) in steps)
      && (after == Failed(Error.Stopping) ==> before == after || s.stopping || Stop in steps)
      && (after == Failed(BorrowTimeout) ==> before == after || Wake(i) in steps)
    decreases |steps|
  {
    hide Apply, Enabled, SawPing, At;
    if steps != [] {
      ToldByStep(s, steps[0], i);
      if Apply(s, steps[0]).stopping { StopIsAsked(s, steps[0]); }
      ToldByRun(Apply(s, steps[0]), steps[1..], i);
      assert forall x :: x in steps[1..] ==> x in steps;
    }
  }

  /** A failed borrow is told the truth: stopping only once stop() was called, a failed health check
      only after a ping of its own failed, a timeout only after its own wait; and the timeouts reported
      are at most those counted. */
  lemma ErrorsAreTrue(min: nat, max: nat, steps: seq<Step>, i: AgentId)
    requires min <= max && max > 0 && Legal(New(min, max), steps) && i < |After(New(min, max), steps).agents|
    ensures var s := After(New(min, max), steps);
      && (s.agents[i] == Failed(Error.Stopping) ==> Stop in steps)
      && (s.agents[i] == Failed(HealthCheckFailed) ==> Checked(i, Unhealthy) in steps)
      && (s.agents[i] == Failed(BorrowTimeout) ==> Wake(i) in steps)
      && Sum(s.agents, 0).timedOut <= s.stats.timeouts
  {
    hide Apply, Enabled, Sum;
    ToldByRun(New(min, max), steps, i);
    ReachableInv(After(New(min, max), steps));
    assert Books(After(New(min, max), steps), 0);
  }

  /** Nothing is lent before init(). */
  lemma NothingLentEarly(s: State, i: AgentId)
    requires Reachable(s) && i < |s.agents| && !s.initialized
    ensures Held(s.agents[i]).None? && !s.agents[i].Creating?
  {
    hide Reachable, Sum;
    ReachableInv(s);
    assert Books(s, 0);
    Replaced(s.agents, i, Gone, 0);
  }

  /** After stop(): the total never grows and reaches zero exactly when nothing is idle, held or being
      created; the idle queue is empty and stays so, except that an init() that only takes effect now
      fills it, exactly when it has connections to create. */
  lemma StoppedPoolDrains(s: State, step: Step)
    requires Reachable(s) && s.stopping && Enabled(s, step)
    ensures s.total == 0 <==> s.idle == [] && forall a :: a in s.agents ==> Held(a).None? && !a.Creating?
    ensures !step.Init? ==> Apply(s, step).total <= s.total && Apply(s, step).idle == s.idle
    ensures step.Init? ==> s.idle == [] && (Apply(s, step).idle == [] <==> s.min == 0)
    ensures s.idle == [] <==> !(s.lateInit && s.min > 0)
  {
    hide Reachable, Sum;
    ReachableInv(s);
    assert Books(s, 0);
    if s.total == 0 {
      forall a | a in s.agents ensures Held(a).None? && !a.Creating? {
        var i :| 0 <= i < |s.agents| && s.agents[i] == a;
        Replaced(s.agents, i, Gone, 0);
      }
    } else if forall a :: a in s.agents ==> Held(a).None? && !a.Creating? {
      NothingHeld(s.agents);
    }
  }

  lemma {:induction false} NothingHeld(agents: seq<Agent>)
    requires forall a :: a in agents ==> Held(a).None? && !a.Creating?
    ensures Sum(agents, 0).holding == 0 && Sum(agents, 0).creating == 0
  {
    if agents != [] {
      assert agents[|agents| - 1] in agents;
      NothingHeld(agents[..|agents| - 1]);
    }
  }

  /** It can happen: in any pool that keeps connections ready, stop() and then init() leaves them idle. */
  lemma LateInitFillsStoppedPool(min: nat, max: nat) returns (s: State)
    requires 0 < min <= max
    ensures Reachable(s) && s.stopping && |s.idle| == min && s.total == min
  {
    var start, steps := New(min, max), [Stop, Init];
    assert steps[1..] == [Init] && [Init][1..] == [];
    var stopped := Apply(start, Stop);
    assert Legal(Apply(stopped, Init), []) && Legal(stopped, [Init]) && Legal(start, steps);
    s := After(start, steps);
    assert s == Apply(stopped, Init);
  }
}
