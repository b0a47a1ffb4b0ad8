/** The claim protocol of TcpServer::deliverRemotePush (src/TcpServer.cc:126-198, 743-795):
    callers, the I/O thread and stop() race on one atomic per task. A run is any interleaving. */
module RemotePush {
  import opened Wrappers

  type ConnId = nat
  type UserId = int
  type TaskId = nat

  datatype Outcome = Delivered | InvalidTarget | Retry
  datatype Event = Event(target: ConnId, toUser: UserId, payload: string)

  /** The task's atomic: 0, 1 and 2. */
  datatype Claim = Pending | Claimed | Cancelled

  /** Between Admitted and Notifying stop() may swap the queue out: it does not take the lock the
      caller holds. */
  datatype Caller = Entered | Admitted | Notifying | Waiting | Blocked | Returned(outcome: Outcome)

  /** What the I/O thread found of the target: whether it was open, and the user bound to it. */
  datatype Look = Look(open: bool, user: Option<UserId>)

  /** The rest is history: whether the task reached the shared queue, each (connection, user bound to it
      at that moment) its payload was appended to, whether stop() had begun at the call, and what the
      I/O thread found. */
  datatype Task = Task(event: Event, claim: Claim, promise: Option<Outcome>, sets: nat, caller: Caller,
                       queued: bool, appended: seq<(ConnId, UserId)>, stopAtCall: bool, look: Option<Look>)

  datatype Io = Idle | Claiming(k: TaskId) | Completing(k: TaskId, outcome: Outcome) | Exited
  datatype Stop = Running | Begun | Cancelling | Completed(k: TaskId)

  datatype State = State(tasks: seq<Task>, queue: seq<TaskId>,
                         batch: seq<TaskId>, io: Io,
                         stopping: bool, stopBatch: seq<TaskId>, stop: Stop, fdOpen: bool,
                         conns: map<ConnId, multiset<TaskId>>, nextConn: ConnId, sessions: map<ConnId, UserId>)

  const Init := State([], [], [], Idle, false, [], Running, false, map[], 1, map[])

  datatype Step =
    | Call(e: Event)
    | Admit(k: TaskId)
    | Enqueue(k: TaskId)
    | Notify(k: TaskId, written: bool)
    | Timeout(k: TaskId)
    | Get(k: TaskId)
    | IoSwap
    | IoClaim
    | IoDeliver(written: bool)
    | IoComplete
    | IoExit
    | FdOpen
    | FdClose
    | StopBegin
    | StopSwap
    | StopCancel
    | StopSet
    | Accept
    | Close(c: ConnId)
    | Bind(c: ConnId, u: UserId)
    | Unbind(c: ConnId)

  predicate Enabled(s: State, step: Step) {
    match step
    case Call(_) => true
    case Admit(k) => k < |s.tasks| && s.tasks[k].caller.Entered?
    case Enqueue(k) => k < |s.tasks| && s.tasks[k].caller.Admitted?
    case Notify(k, _) => k < |s.tasks| && s.tasks[k].caller.Notifying?
    case Timeout(k) => k < |s.tasks| && s.tasks[k].caller.Waiting? && s.tasks[k].promise.None?
    case Get(k) => k < |s.tasks| && (s.tasks[k].caller.Waiting? || s.tasks[k].caller.Blocked?)
                   && s.tasks[k].promise.Some?
    case IoSwap => s.io.Idle? && s.batch == []
    case IoClaim => s.io.Idle? && s.batch != [] && s.batch[0] < |s.tasks|
    case IoDeliver(_) => s.io.Claiming? && s.io.k < |s.tasks|
    case IoComplete => s.io.Completing? && s.io.k < |s.tasks|
    case IoExit => s.io.Idle? && s.batch == [] && s.stopping
    case FdOpen => s.io.Idle?
    case FdClose => s.io.Exited?
    case StopBegin => !s.stopping
    case StopSwap => s.stop.Begun?
    case StopCancel => s.stop.Cancelling? && s.stopBatch != [] && s.stopBatch[0] < |s.tasks|
    case StopSet => s.stop.Completed? && s.stop.k < |s.tasks|
    case Accept => s.io.Idle?
    case Close(c) => (s.io.Idle? || s.io.Exited?) && c in s.conns
    case Bind(_, _) => true
    case Unbind(_) => true
  }

  function Set(s: State, k: TaskId, t: Task): State
    requires k < |s.tasks|
  {
    s.(tasks := s.tasks[k := t])
  }

  /** set_value: a second call throws and is caught, leaving the first value. */
  function SetValue(t: Task, o: Outcome): Task {
    t.(promise := if t.promise.None? then Some(o) else t.promise, sets := t.sets + 1)
  }

  /** The caller's compare-exchange 0 -> 2: return kRetry, or go on at `otherwise`. */
  function GiveUp(t: Task, otherwise: Caller): Task {
    if t.claim.Pending? then t.(claim := Cancelled, caller := Returned(Retry)) else t.(caller := otherwise)
  }

  predicate Malformed(e: Event) {
    e.target == 0 || e.toUser <= 0 || e.payload == ""
  }

  /** Only a new call adds a task. */
  function Apply(s: State, step: Step): (r: State)
    requires Enabled(s, step)
    ensures |r.tasks| == |s.tasks| + if step.Call? then 1 else 0
  {
    match step
    case Call(e) =>
      var caller := if s.stopping || Malformed(e) then Returned(InvalidTarget) else Entered;
      s.(tasks := s.tasks + [Task(e, Pending, None, 0, caller, false, [], s.stopping, None)])
    case Admit(k) =>
      Set(s, k, s.tasks[k].(caller := if s.stopping || !s.fdOpen then Returned(Retry) else Admitted))
    case Enqueue(k) =>
      Set(s, k, s.tasks[k].(caller := Notifying, queued := true)).(queue := s.queue + [k])
    case Notify(k, written) =>
      Set(s, k, if written then s.tasks[k].(caller := Waiting) else GiveUp(s.tasks[k], Waiting))
    case Timeout(k) => Set(s, k, GiveUp(s.tasks[k], Blocked))
    case Get(k) => Set(s, k, s.tasks[k].(caller := Returned(s.tasks[k].promise.value)))
    case IoSwap => s.(batch := s.queue, queue := [])
    case IoClaim => ApplyClaim(s)
    case IoDeliver(written) => ApplyDeliver(s, s.io.k, written)
    case IoComplete => Set(s, s.io.k, SetValue(s.tasks[s.io.k], s.io.outcome)).(io := Idle)
    case IoExit => s.(io := Exited)
    case FdOpen => s.(fdOpen := true)
    case FdClose => s.(fdOpen := false)
    case StopBegin => s.(stopping := true, stop := Begun)
    case StopSwap => s.(stopBatch := s.queue, queue := [], stop := Cancelling)
    case StopCancel => ApplyCancel(s)
    case StopSet => Set(s, s.stop.k, SetValue(s.tasks[s.stop.k], Retry)).(stop := Cancelling)
    case Accept => s.(conns := s.conns[s.nextConn := multiset{}], nextConn := s.nextConn + 1)
    case Close(c) => s.(conns := s.conns - {c})
    case Bind(c, u) => s.(sessions := s.sessions[c := u])
    case Unbind(c) => s.(sessions := s.sessions - {c})
  }

  function ApplyClaim(s: State): State
    requires s.batch != [] && s.batch[0] < |s.tasks|
  {
    var k := s.batch[0];
    var s' := s.(batch := s.batch[1..]);
    if s.tasks[k].claim.Pending? then
      Set(s', k, s.tasks[k].(claim := Claimed)).(io := Claiming(k))
    else s'
  }

  function ApplyCancel(s: State): State
    requires s.stopBatch != [] && s.stopBatch[0] < |s.tasks|
  {
    var k := s.stopBatch[0];
    var s' := s.(stopBatch := s.stopBatch[1..]);
    if s.tasks[k].claim.Pending? then
      Set(s', k, s.tasks[k].(claim := Cancelled)).(stop := Completed(k))
    else s'
  }

  /** The claimed task's delivery on the I/O thread (src/TcpServer.cc:775-789). */
  function ApplyDeliver(s: State, k: TaskId, written: bool): State
    requires k < |s.tasks|
  {
    var c := s.tasks[k].event.target;
    var look := Look(c in s.conns, if c in s.sessions then Some(s.sessions[c]) else None);
    var t := s.tasks[k].(look := Some(look));
    if c in s.sessions && s.sessions[c] == t.event.toUser && c in s.conns then
      var s' := Set(s, k, t.(appended := t.appended + [(c, s.sessions[c])]));
      if written then
        s'.(conns := s.conns[c := s.conns[c] + multiset{k}], io := Completing(k, Delivered))
      else
        s'.(conns := s.conns - {c}, io := Completing(k, Retry))
    else
      Set(s, k, t).(io := Completing(k, InvalidTarget))
  }

  predicate Legal(s: State, steps: seq<Step>)
    decreases |steps|
  {
    steps == [] || (Enabled(s, steps[0]) && Legal(Apply(s, steps[0]), steps[1..]))
  }

  function After(s: State, steps: seq<Step>): State
    requires Legal(s, steps)
    decreases |steps|
  {
    if steps == [] then s else After(Apply(s, steps[0]), steps[1..])
  }

  // ---------------------------------------------------------------- the invariant

  type Conns = map<ConnId, multiset<TaskId>>

  /** What an outcome says about where task k's payload went. */
  ghost predicate Means(conns: Conns, nextConn: ConnId, e: Event, appended: seq<(ConnId, UserId)>, k: TaskId,
                        o: Outcome)
  {
    match o
    case Delivered =>
      && appended == [(e.target, e.toUser)]
      && (forall c :: c in conns ==> conns[c][k] == (if c == e.target then 1 else 0))
      && e.target < nextConn
    case Retry =>
      && appended == [(e.target, e.toUser)]
      && e.target !in conns && e.target < nextConn
      && Unheld(conns, k)
    case InvalidTarget => appended == [] && Unheld(conns, k)
  }

  ghost predicate Unheld(conns: Conns, k: TaskId) {
    forall c :: c in conns ==> k !in conns[c]
  }

  ghost predicate InHand(s: State, k: TaskId) {
    (s.io.Claiming? || s.io.Completing?) && s.io.k == k
  }

  ghost predicate TaskOk(s: State, k: TaskId)
    requires k < |s.tasks|
  {
    ClaimOk(s, k, s.tasks[k]) && CallerOk(s.tasks[k])
  }

  /** The atomic says who may complete the task and what has become of it. */
  ghost predicate ClaimOk(s: State, k: TaskId, t: Task) {
    && t.sets == (if t.promise.Some? then 1 else 0)
    && (t.claim.Pending? ==> t.promise.None? && t.appended == [] && Unheld(s.conns, k) && !InHand(s, k)
                             && s.stop != Completed(k))
    && (t.claim.Cancelled? ==>
          && t.appended == [] && Unheld(s.conns, k) && !InHand(s, k)
          && (t.promise.Some? ==> t.promise.value.Retry? && s.stop != Completed(k))
          && (t.promise.None? && s.stop != Completed(k) ==> t.caller == Returned(Retry)))
    && (t.claim.Claimed? ==>
          && s.stop != Completed(k)
          && (InHand(s, k) <==> t.promise.None?)
          && (s.io == Claiming(k) ==> t.appended == [] && Unheld(s.conns, k))
          && (s.io.Completing? && s.io.k == k ==> Means(s.conns, s.nextConn, t.event, t.appended, k, s.io.outcome))
          && (t.promise.Some? ==> Means(s.conns, s.nextConn, t.event, t.appended, k, t.promise.value)))
  }

  /** How far the caller has come, and what it was told. */
  ghost predicate CallerOk(t: Task) {
    && (!t.queued ==> t.claim.Pending?)
    && (t.caller.Entered? || t.caller.Admitted? ==> !t.queued)
    && (t.caller.Notifying? || t.caller.Waiting? || t.caller.Blocked? ==> t.queued)
    && (t.caller.Blocked? ==> !t.claim.Pending?)
    && (t.caller.Returned? ==>
          || t.promise == Some(t.caller.outcome)
          || (t.caller.outcome.Retry? && t.claim.Cancelled?)
          || (!t.queued && !t.caller.outcome.Delivered?))
  }

  // ---------------------------------------------------------------- preservation

  ghost predicate AllQueued(ks: seq<TaskId>, tasks: seq<Task>) {
    forall k :: k in ks ==> k < |tasks| && tasks[k].queued
  }

  ghost predicate ConnsOk(conns: Conns, nextConn: ConnId, n: nat) {
    forall c :: c in conns ==> c < nextConn && forall k :: k in conns[c] ==> k < n
  }

  ghost predicate QueuesOk(s: State) {
    && AllQueued(s.queue, s.tasks) && AllQueued(s.batch, s.tasks) && AllQueued(s.stopBatch, s.tasks)
    && (s.io.Claiming? || s.io.Completing? ==> s.io.k < |s.tasks|)
    && (s.stop.Completed? ==> s.stop.k < |s.tasks|)
    && (s.stop.Running? <==> !s.stopping)
    && ConnsOk(s.conns, s.nextConn, |s.tasks|)
  }

  ghost predicate Inv(s: State) {
    QueuesOk(s) && forall k :: 0 <= k < |s.tasks| ==> TaskOk(s, k)
  }

  /** Steps of callers of deliverRemotePush. */
  predicate IsCaller(step: Step) {
    step.Call? || step.Admit? || step.Enqueue? || step.Notify? || step.Timeout? || step.Get?
  }

  /** Steps that touch no task. */
  predicate IsQuiet(step: Step) {
    step.IoSwap? || step.IoExit? || step.StopBegin? || step.StopSwap? || step.FdOpen? || step.FdClose?
    || step.Accept? || step.Close? || step.Bind? || step.Unbind?
  }

  lemma Marked(ks: seq<TaskId>, tasks: seq<Task>, k: TaskId, t: Task)
    requires AllQueued(ks, tasks) && k < |tasks| && (tasks[k].queued ==> t.queued)
    ensures AllQueued(ks, tasks[k := t])
  {
  }

  lemma CallerQueues(s: State, step: Step)
    requires QueuesOk(s) && Enabled(s, step) && IsCaller(step)
    ensures QueuesOk(Apply(s, step))
  {
  }

  lemma QuietQueues(s: State, step: Step)
    requires QueuesOk(s) && Enabled(s, step) && IsQuiet(step)
    ensures QueuesOk(Apply(s, step))
  {
  }

  lemma TouchQueues(s: State, s': State, k: TaskId)
    requires QueuesOk(s) && k < |s.tasks| && s'.queue == s.queue
    requires s'.batch == s.batch || (s.batch != [] && s'.batch == s.batch[1..])
    requires s'.stopBatch == s.stopBatch || (s.stopBatch != [] && s'.stopBatch == s.stopBatch[1..])
    requires |s'.tasks| == |s.tasks| && s'.tasks == s.tasks[k := s'.tasks[k]]
    requires s.tasks[k].queued ==> s'.tasks[k].queued
    ensures AllQueued(s'.queue, s'.tasks) && AllQueued(s'.batch, s'.tasks) && AllQueued(s'.stopBatch, s'.tasks)
  {
    hide AllQueued;
    Marked(s.queue, s.tasks, k, s'.tasks[k]);
    Marked(s.batch, s.tasks, k, s'.tasks[k]);
    Marked(s.stopBatch, s.tasks, k, s'.tasks[k]);
    Shorter(s'.tasks, s.batch);
    Shorter(s'.tasks, s.stopBatch);
  }

  lemma ClaimQueues(s: State)
    requires QueuesOk(s) && s.batch != [] && s.batch[0] < |s.tasks|
    ensures QueuesOk(ApplyClaim(s))
  {
    hide AllQueued, ConnsOk;
    TouchQueues(s, ApplyClaim(s), s.batch[0]);
  }

  lemma CompleteQueues(s: State)
    requires QueuesOk(s) && Enabled(s, IoComplete)
    ensures QueuesOk(Apply(s, IoComplete))
  {
    hide AllQueued, ConnsOk;
    TouchQueues(s, Apply(s, IoComplete), s.io.k);
  }

  lemma DeliverQueues(s: State, written: bool)
    requires QueuesOk(s) && Enabled(s, IoDeliver(written))
    ensures QueuesOk(ApplyDeliver(s, s.io.k, written))
  {
    hide AllQueued;
    var s' := ApplyDeliver(s, s.io.k, written);
    TouchQueues(s, s', s.io.k) by { hide ConnsOk; }
  }

  lemma StopQueues(s: State, step: Step)
    requires QueuesOk(s) && Enabled(s, step) && (step.StopCancel? || step.StopSet?)
    ensures QueuesOk(Apply(s, step))
  {
    hide AllQueued, ConnsOk;
    TouchQueues(s, Apply(s, step), if step.StopCancel? then s.stopBatch[0] else s.stop.k);
  }

  lemma Shorter(tasks: seq<Task>, ks: seq<TaskId>)
    ensures AllQueued(ks, tasks) && ks != [] ==> AllQueued(ks[1..], tasks)
  {
    assert ks != [] ==> forall k :: k in ks[1..] ==> k in ks;
  }

  lemma CallerTask(s: State, step: Step, k: TaskId)
    requires QueuesOk(s) && Enabled(s, step) && IsCaller(step) && k < |s.tasks| && TaskOk(s, k)
    ensures TaskOk(Apply(s, step), k)
  {
    hide Unheld, Means, QueuesOk;
  }

  lemma NewTask(s: State, e: Event)
    requires QueuesOk(s)
    ensures TaskOk(Apply(s, Call(e)), |s.tasks|)
  {
    hide Means, AllQueued;
  }

  /** A task whose own part of the state is unchanged stays in order. */
  lemma FrameTask(s: State, s': State, k: TaskId)
    requires k < |s.tasks| && k < |s'.tasks| && TaskOk(s, k) && s'.tasks[k] == s.tasks[k]
    requires s'.conns == s.conns && s'.nextConn == s.nextConn
    requires s'.io == s.io || (!InHand(s, k) && !InHand(s', k))
    requires s'.stop == s.stop || (s.stop != Completed(k) && s'.stop != Completed(k))
    ensures TaskOk(s', k)
  {
    hide Unheld, Means, CallerOk;
  }

  lemma ClaimTask(s: State, k: TaskId)
    requires s.batch != [] && s.batch[0] < |s.tasks| && s.tasks[s.batch[0]].queued && s.io.Idle?
    requires k < |s.tasks| && TaskOk(s, k)
    ensures TaskOk(ApplyClaim(s), k)
  {
    if k == s.batch[0] && s.tasks[k].claim.Pending? {
      hide Unheld, Means;
    } else {
      hide TaskOk;
      FrameTask(s, ApplyClaim(s), k);
    }
  }

  lemma CompleteTask(s: State, k: TaskId)
    requires Enabled(s, IoComplete) && k < |s.tasks| && TaskOk(s, k)
    ensures TaskOk(Apply(s, IoComplete), k)
  {
    hide Unheld, Means;
  }

  /** Where another task's payload is does not change when task j's is appended. */
  lemma AppendOther(conns: Conns, n: ConnId, c: ConnId, j: TaskId, e: Event, a: seq<(ConnId, UserId)>, k: TaskId,
                    o: Outcome)
    requires c in conns && j != k
    ensures Unheld(conns, k) ==> Unheld(conns[c := conns[c] + multiset{j}], k)
    ensures Means(conns, n, e, a, k, o) ==> Means(conns[c := conns[c] + multiset{j}], n, e, a, k, o)
  {
  }

  /** Closing a connection falsifies no outcome. */
  lemma CloseAny(conns: Conns, n: ConnId, c: ConnId, e: Event, a: seq<(ConnId, UserId)>, k: TaskId, o: Outcome)
    ensures Unheld(conns, k) ==> Unheld(conns - {c}, k)
    ensures Means(conns, n, e, a, k, o) ==> Means(conns - {c}, n, e, a, k, o)
  {
  }

  /** A new connection, with a new id, falsifies no outcome. */
  lemma AcceptAny(conns: Conns, n: ConnId, e: Event, a: seq<(ConnId, UserId)>, k: TaskId, o: Outcome)
    ensures Unheld(conns, k) ==> Unheld(conns[n := multiset{}], k)
    ensures Means(conns, n, e, a, k, o) ==> Means(conns[n := multiset{}], n + 1, e, a, k, o)
  {
  }

  lemma DeliverOther(s: State, written: bool, k: TaskId)
    requires Enabled(s, IoDeliver(written)) && k < |s.tasks| && TaskOk(s, k) && k != s.io.k
    ensures TaskOk(Apply(s, IoDeliver(written)), k)
  {
    hide Unheld, Means;
    var t, c := s.tasks[k], s.tasks[s.io.k].event.target;
    var o := if t.promise.Some? then t.promise.value else Retry;
    CloseAny(s.conns, s.nextConn, c, t.event, t.appended, k, o);
    if c in s.conns {
      AppendOther(s.conns, s.nextConn, c, s.io.k, t.event, t.appended, k, o);
    }
  }

  lemma DeliverOwn(s: State, written: bool)
    requires Enabled(s, IoDeliver(written)) && TaskOk(s, s.io.k) && ConnsOk(s.conns, s.nextConn, |s.tasks|)
    ensures TaskOk(Apply(s, IoDeliver(written)), s.io.k)
  {
  }

  lemma CancelTask(s: State, k: TaskId)
    requires s.stopBatch != [] && s.stopBatch[0] < |s.tasks| && s.tasks[s.stopBatch[0]].queued && s.stop.Cancelling?
    requires k < |s.tasks| && TaskOk(s, k)
    ensures TaskOk(ApplyCancel(s), k)
  {
    if k == s.stopBatch[0] && s.tasks[k].claim.Pending? {
      hide Unheld, Means;
    } else {
      hide TaskOk;
      FrameTask(s, ApplyCancel(s), k);
    }
  }

  lemma SetTask(s: State, k: TaskId)
    requires Enabled(s, StopSet) && k < |s.tasks| && TaskOk(s, k)
    ensures TaskOk(Apply(s, StopSet), k)
  {
    hide Unheld, Means;
  }

  lemma AcceptTask(s: State, k: TaskId)
    requires Enabled(s, Accept) && k < |s.tasks| && TaskOk(s, k)
    ensures TaskOk(Apply(s, Accept), k)
  {
    hide Unheld, Means, CallerOk;
    var t := s.tasks[k];
    AcceptAny(s.conns, s.nextConn, t.event, t.appended, k, if t.promise.Some? then t.promise.value else Retry);
  }

  lemma CloseTask(s: State, c: ConnId, k: TaskId)
    requires Enabled(s, Close(c)) && k < |s.tasks| && TaskOk(s, k)
    ensures TaskOk(Apply(s, Close(c)), k)
  {
    hide Unheld, Means, CallerOk;
    var t := s.tasks[k];
    CloseAny(s.conns, s.nextConn, c, t.event, t.appended, k, if t.promise.Some? then t.promise.value else Retry);
  }

  lemma QuietTask(s: State, step: Step, k: TaskId)
    requires Enabled(s, step) && IsQuiet(step) && k < |s.tasks| && TaskOk(s, k)
    requires s.stop.Running? <==> !s.stopping
    ensures TaskOk(Apply(s, step), k)
  {
    hide TaskOk;
    if step.Accept? {
      AcceptTask(s, k);
    } else if step.Close? {
      CloseTask(s, step.c, k);
    } else {
      FrameTask(s, Apply(s, step), k);
    }
  }

  lemma StepKeeps(s: State, step: Step)
    requires Inv(s) && Enabled(s, step)
    ensures Inv(Apply(s, step))
  {
    hide TaskOk, QueuesOk;
    var s' := Apply(s, step);
    if IsCaller(step) {
      CallerQueues(s, step);
    } else if IsQuiet(step) {
      QuietQueues(s, step);
    } else if step.StopCancel? || step.StopSet? {
      StopQueues(s, step);
    } else if step.IoDeliver? {
      DeliverQueues(s, step.written);
    } else if step.IoClaim? {
      ClaimQueues(s);
    } else {
      CompleteQueues(s);
    }
    forall k | 0 <= k < |s'.tasks| ensures TaskOk(s', k) {
      if k == |s.tasks| {
        NewTask(s, step.e);
      } else {
        StepTask(s, step, k);
      }
    }
  }

  lemma StepTask(s: State, step: Step, k: TaskId)
    requires QueuesOk(s) && Enabled(s, step) && k < |s.tasks| && TaskOk(s, k)
    ensures TaskOk(Apply(s, step), k)
  {
    hide TaskOk;
    if IsCaller(step) {
      CallerTask(s, step, k);
    } else if IsQuiet(step) {
      QuietTask(s, step, k);
    } else {
      match step
      case IoClaim => assert s.batch[0] in s.batch; ClaimTask(s, k);
      case IoDeliver(written) =>
        if k == s.io.k { DeliverOwn(s, written); } else { DeliverOther(s, written, k); }
      case IoComplete => CompleteTask(s, k);
      case StopCancel => assert s.stopBatch[0] in s.stopBatch; CancelTask(s, k);
      case StopSet => SetTask(s, k);
    }
  }

  lemma {:induction false} RunKeeps(s: State, steps: seq<Step>)
    requires Inv(s) && Legal(s, steps)
    ensures Inv(After(s, steps))
    decreases |steps|
  {
    hide Inv, Apply, Enabled;
    if steps != [] {
      StepKeeps(s, steps[0]);
      RunKeeps(Apply(s, steps[0]), steps[1..]);
    }
  }

  lemma InitInv()
    ensures Inv(Init)
  {
  }

  ghost predicate Reachable(s: State) {
    exists steps :: Legal(Init, steps) && s == After(Init, steps)
  }

  lemma ReachableInv(s: State)
    requires Reachable(s)
    ensures Inv(s)
  {
    hide Apply, Enabled;
    var steps :| Legal(Init, steps) && s == After(Init, steps);
    RunKeeps(Init, steps);
  }

  // ---------------------------------------------------------------- why a target is invalid

  /** Turned away at the call. */
  predicate Refused(t: Task) {
    t.stopAtCall || Malformed(t.event)
  }

  /** The I/O thread found the target open and bound to the addressee. */
  predicate Found(t: Task) {
    t.look.Some? && t.look.value.open && t.look.value.user == Some(t.event.toUser)
  }

  ghost predicate SightOk(io: Io, k: TaskId, t: Task) {
    && (Refused(t) ==> t.caller == Returned(InvalidTarget) && t.claim.Pending? && !t.queued)
    && (t.caller.Returned? && !t.queued && !Refused(t) ==> t.caller.outcome.Retry?)
    && (t.look.Some? ==> t.claim.Claimed?)
    && (t.claim.Claimed? && t.promise.Some? ==> t.look.Some? && (t.promise.value.InvalidTarget? <==> !Found(t)))
    && (io.Completing? && io.k == k ==> t.look.Some? && (io.outcome.InvalidTarget? <==> !Found(t)))
  }

  ghost predicate AllSightOk(s: State) {
    forall k :: 0 <= k < |s.tasks| ==> SightOk(s.io, k, s.tasks[k])
  }

  lemma CallerSight(s: State, step: Step, k: TaskId)
    requires Enabled(s, step) && IsCaller(step) && k < |s.tasks| && TaskOk(s, k) && SightOk(s.io, k, s.tasks[k])
    ensures SightOk(Apply(s, step).io, k, Apply(s, step).tasks[k])
  {
    hide Unheld, Means;
  }

  lemma NewSight(s: State, e: Event)
    requires QueuesOk(s)
    ensures SightOk(s.io, |s.tasks|, Apply(s, Call(e)).tasks[|s.tasks|])
  {
    hide AllQueued, ConnsOk;
  }

  lemma DeliverSight(s: State, written: bool, k: TaskId)
    requires s.io.Claiming? && s.io.k < |s.tasks| && k < |s.tasks| && TaskOk(s, k) && SightOk(s.io, k, s.tasks[k])
    ensures SightOk(ApplyDeliver(s, s.io.k, written).io, k, ApplyDeliver(s, s.io.k, written).tasks[k])
  {
    hide Unheld, Means, CallerOk;
  }

  lemma CompleteSight(s: State, k: TaskId)
    requires Enabled(s, IoComplete) && k < |s.tasks| && TaskOk(s, k) && SightOk(s.io, k, s.tasks[k])
    ensures SightOk(Apply(s, IoComplete).io, k, Apply(s, IoComplete).tasks[k])
  {
    hide Unheld, Means, CallerOk;
  }

  /** Taking a queued task, to deliver or to cancel it. */
  lemma TakenSight(s: State, step: Step, k: TaskId)
    requires QueuesOk(s) && Enabled(s, step) && (step.IoClaim? || step.StopCancel?)
    requires k < |s.tasks| && TaskOk(s, k) && SightOk(s.io, k, s.tasks[k])
    ensures SightOk(Apply(s, step).io, k, Apply(s, step).tasks[k])
  {
    hide Unheld, Means, CallerOk, ConnsOk;
    assert step.IoClaim? ==> s.batch[0] in s.batch;
    assert step.StopCancel? ==> s.stopBatch[0] in s.stopBatch;
  }

  lemma QuietSight(s: State, step: Step, k: TaskId)
    requires Enabled(s, step) && (IsQuiet(step) || step.StopSet?)
    requires k < |s.tasks| && TaskOk(s, k) && SightOk(s.io, k, s.tasks[k])
    ensures SightOk(Apply(s, step).io, k, Apply(s, step).tasks[k])
  {
    hide Unheld, Means, CallerOk;
  }

  lemma StepSight(s: State, step: Step)
    requires Inv(s) && AllSightOk(s) && Enabled(s, step)
    ensures AllSightOk(Apply(s, step))
  {
    hide TaskOk, SightOk, QueuesOk;
    var s' := Apply(s, step);
    forall k | 0 <= k < |s'.tasks| ensures SightOk(s'.io, k, s'.tasks[k]) {
      if k == |s.tasks| {
        NewSight(s, step.e);
      } else if IsCaller(step) {
        CallerSight(s, step, k);
      } else if IsQuiet(step) || step.StopSet? {
        QuietSight(s, step, k);
      } else if step.IoDeliver? {
        DeliverSight(s, step.written, k);
      } else if step.IoComplete? {
        CompleteSight(s, k);
      } else {
        TakenSight(s, step, k);
      }
    }
  }

  lemma {:induction false} RunSight(s: State, steps: seq<Step>)
    requires Inv(s) && AllSightOk(s) && Legal(s, steps)
    ensures AllSightOk(After(s, steps))
    decreases |steps|
  {
    hide Inv, AllSightOk, Apply, Enabled;
    if steps != [] {
      StepKeeps(s, steps[0]);
      StepSight(s, steps[0]);
      RunSight(Apply(s, steps[0]), steps[1..]);
    }
  }

  // ---------------------------------------------------------------- the guarantees

  /** In every interleaving the promise is set at most once, so the future_error handlers are dead. */
  lemma PromiseSetOnce(s: State, k: TaskId)
    requires Reachable(s) && k < |s.tasks|
    ensures s.tasks[k].sets <= 1 && (s.tasks[k].sets == 1 <==> s.tasks[k].promise.Some?)
  {
    hide Reachable;
    ReachableInv(s);
    assert TaskOk(s, k);
  }

  /** What the caller is told is what happened: kDelivered means the payload went exactly once to
      the target, bound to the addressee at that moment, and to nobody else; kRetry and kInvalidTarget
      mean no open connection holds it. And kInvalidTarget is told exactly when stop() had begun or the
      event was malformed at the call, or the I/O thread found the target closed or bound to another. */
  lemma OutcomeIsTrue(s: State, k: TaskId)
    requires Reachable(s) && k < |s.tasks| && s.tasks[k].caller.Returned?
    ensures var t := s.tasks[k];
            if t.caller.outcome.Delivered? then
              t.appended == [(t.event.target, t.event.toUser)]
              && forall c :: c in s.conns ==> s.conns[c][k] == (if c == t.event.target then 1 else 0)
            else
              Unheld(s.conns, k) && (t.caller.outcome.InvalidTarget? ==> t.appended == [])
    ensures var t := s.tasks[k];
            t.caller.outcome.InvalidTarget? <==> Refused(t) || (t.look.Some? && !Found(t))
  {
    var steps :| Legal(Init, steps) && s == After(Init, steps);
    hide Reachable, Legal, After, Apply;
    InitInv();
    RunSight(Init, steps);
    ReachableInv(s);
    ToldTruth(s, k);
  }

  lemma ToldTruth(s: State, k: TaskId)
    requires Inv(s) && AllSightOk(s) && k < |s.tasks| && s.tasks[k].caller.Returned?
    ensures var t := s.tasks[k];
            if t.caller.outcome.Delivered? then
              t.appended == [(t.event.target, t.event.toUser)]
              && forall c :: c in s.conns ==> s.conns[c][k] == (if c == t.event.target then 1 else 0)
            else
              Unheld(s.conns, k) && (t.caller.outcome.InvalidTarget? ==> t.appended == [])
    ensures var t := s.tasks[k];
            t.caller.outcome.InvalidTarget? <==> Refused(t) || (t.look.Some? && !Found(t))
  {
    hide QueuesOk;
    assert TaskOk(s, k) && SightOk(s.io, k, s.tasks[k]);
  }

  /** A stopping server answers kInvalidTarget even for an open connection bound to the addressee. */
  lemma StopHidesOpenTarget(user: UserId, payload: string) returns (s: State)
    requires user > 0 && payload != ""
    ensures Reachable(s) && 1 in s.conns && 1 in s.sessions && s.sessions[1] == user
    ensures s.tasks == [Task(Event(1, user, payload), Pending, None, 0, Returned(InvalidTarget), false, [], true, None)]
  {
    var call := Call(Event(1, user, payload));
    var steps := [Accept, Bind(1, user), StopBegin, call];
    var s1 := Apply(Init, Accept);
    var s2 := Apply(s1, Bind(1, user));
    var s3 := Apply(s2, StopBegin);
    s := Apply(s3, call);
    hide Apply, Enabled;
    assert steps[1..] == [Bind(1, user), StopBegin, call] && steps[1..][1..] == [StopBegin, call];
    assert [StopBegin, call][1..] == [call] && [call][1..] == [];
    assert Legal(s, []) && After(s, []) == s;
    assert Legal(s3, [call]) && After(s3, [call]) == s;
    assert Legal(s2, [StopBegin, call]) && After(s2, [StopBegin, call]) == s;
    assert Legal(s1, steps[1..]) && After(s1, steps[1..]) == s;
    assert Legal(Init, steps) && After(Init, steps) == s;
  }

  lemma {:induction false} ReturnIsFinal(s: State, steps: seq<Step>, k: TaskId)
    requires Legal(s, steps) && k < |s.tasks| && s.tasks[k].caller.Returned?
    ensures k < |After(s, steps).tasks| && After(s, steps).tasks[k].caller == s.tasks[k].caller
    decreases |steps|
  {
    hide Apply, Enabled;
    if steps != [] {
      ReturnStays(s, steps[0], k);
      ReturnIsFinal(Apply(s, steps[0]), steps[1..], k);
    }
  }

  lemma ReturnStays(s: State, step: Step, k: TaskId)
    requires Enabled(s, step) && k < |s.tasks| && s.tasks[k].caller.Returned?
    ensures k < |Apply(s, step).tasks| && Apply(s, step).tasks[k].caller == s.tasks[k].caller
  {
    match step
    case Call(e) =>
    case IoDeliver(written) =>
    case IoClaim =>
    case StopCancel =>
    case _ =>
  }

  lemma EventStays(s: State, step: Step, k: TaskId)
    requires Enabled(s, step) && k < |s.tasks|
    ensures Apply(s, step).tasks[k].event == s.tasks[k].event
  {
    match step
    case Call(e) =>
    case IoDeliver(written) =>
    case IoClaim =>
    case StopCancel =>
    case _ =>
  }

  /** kRetry is safe to act on for good: whatever runs afterwards, no open connection ever holds
      the payload of the attempt that was given up. */
  lemma RetryStaysUndelivered(s: State, steps: seq<Step>, k: TaskId)
    requires Reachable(s) && Legal(s, steps) && k < |s.tasks| && s.tasks[k].caller == Returned(Retry)
    ensures Unheld(After(s, steps).conns, k)
  {
    ReachableInv(s);
    RunKeeps(s, steps) by { hide Inv, Apply; }
    ReturnIsFinal(s, steps, k) by { hide Inv, Apply; }
    hide Legal, After;
    assert TaskOk(After(s, steps), k);
  }

  lemma HandStays(s: State, step: Step)
    requires (s.io.Claiming? || s.io.Completing?) && Enabled(s, step) && !step.IoDeliver? && !step.IoComplete?
    ensures Apply(s, step).io == s.io
  {
  }

  /** A claimed task always completes: until its promise is set the I/O thread has it in hand, its
      next steps are enabled whatever the others do, at most two of them set the promise, and no
      other step of any thread takes the task out of its hand. */
  lemma ClaimedTaskCompletes(s: State, k: TaskId, step: Step)
    requires Reachable(s) && k < |s.tasks| && s.tasks[k].claim.Claimed? && s.tasks[k].promise.None?
    ensures s.io == Claiming(k) || (s.io.Completing? && s.io.k == k)
    ensures s.io.Claiming? ==> forall w :: Enabled(s, IoDeliver(w)) && Apply(s, IoDeliver(w)).io.Completing?
                                           && Apply(s, IoDeliver(w)).io.k == k
    ensures s.io.Completing? ==>
              Enabled(s, IoComplete) && Apply(s, IoComplete).tasks[k].promise == Some(s.io.outcome)
    ensures Enabled(s, step) && !step.IoDeliver? && !step.IoComplete? ==> Apply(s, step).io == s.io
  {
    hide Reachable;
    ReachableInv(s);
    assert TaskOk(s, k) && QueuesOk(s);
    if Enabled(s, step) && !step.IoDeliver? && !step.IoComplete? {
      HandStays(s, step);
    }
    hide TaskOk, Inv, QueuesOk;
  }

  /** A caller blocked without a deadline waits for a task the I/O thread or stop() has in hand,
      or whose value is already there. */
  lemma BlockedCallerIsOwed(s: State, k: TaskId)
    requires Reachable(s) && k < |s.tasks| && s.tasks[k].caller.Blocked?
    ensures s.tasks[k].promise.Some? || InHand(s, k) || s.stop == Completed(k)
  {
    hide Reachable;
    ReachableInv(s);
    assert TaskOk(s, k);
  }

  /** A caller waiting with a deadline gets an answer, even for a task queued after stop() swapped the
      queue out: the value is there, or it can give up and return kRetry, or someone has the task in
      hand. */
  lemma WaitingCallerReturns(s: State, k: TaskId)
    requires Reachable(s) && k < |s.tasks| && s.tasks[k].caller.Waiting?
    ensures || (s.tasks[k].promise.Some? && Enabled(s, Get(k)))
            || (Enabled(s, Timeout(k)) && Apply(s, Timeout(k)).tasks[k].caller == Returned(Retry))
            || InHand(s, k) || s.stop == Completed(k)
  {
    hide Reachable;
    ReachableInv(s);
    assert TaskOk(s, k);
  }
}
