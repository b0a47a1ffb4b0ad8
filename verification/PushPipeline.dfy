/** Remote push end to end: the stream consumer of PushStream calling the claim protocol of
    RemotePush as its delivery callback (src/main.cc:147-149). One crash takes the whole process:
    the consumer's local state, every connection and every task. */
module PushPipeline {
  import PushCodec
  import R = RemotePush
  import S = PushStream

  /** attemptOf[k] is the attempt whose callback run created server task k. `entered` and `returned` are
      history and outlast crashes: the entry for which each attempt entered the callback, and the
      server's task as it was when the callback returned. */
  datatype State = State(stream: S.State, server: R.State, attemptOf: seq<nat>,
                         entered: map<nat, S.EntryId>, returned: map<nat, R.Task>)

  const Init := State(S.Init, R.Init, [], map[], map[])

  datatype Step =
    | Stream(consumer: S.Step)
    | Server(thread: R.Step)
    | Invoke
    | Return
    | Crash

  function Reported(o: R.Outcome): S.Outcome {
    match o
    case Delivered => S.Delivered
    case InvalidTarget => S.InvalidTarget
    case Retry => S.Retry
  }

  /** What the callback asks of the server. */
  function CallbackEvent(ev: PushCodec.Event): R.Event {
    R.Event(if ev.conn >= 0 then ev.conn else 0, ev.toUser, ev.payload)
  }

  /** The callback of the current attempt has been entered. */
  predicate Invoked(s: State) {
    s.attemptOf != [] && s.attemptOf[|s.attemptOf| - 1] + 1 == |s.stream.attempts|
  }

  predicate Enabled(s: State, step: Step) {
    match step
    case Stream(t) => !t.Deliver? && !t.Crash? && S.Enabled(s.stream, t)
    case Server(t) => !t.Call? && R.Enabled(s.server, t)
    case Invoke => s.stream.pc.Delivering? && s.stream.attempts != [] && !Invoked(s)
                   && s.stream.pc.e < |s.stream.stream| && s.stream.stream[s.stream.pc.e].Some?
    case Return => s.stream.pc.Delivering? && s.stream.attempts != [] && Invoked(s)
                   && |s.server.tasks| == |s.attemptOf| && s.server.tasks[|s.attemptOf| - 1].caller.Returned?
    case Crash => S.Enabled(s.stream, S.Crash)
  }

  function Apply(s: State, step: Step): State
    requires Enabled(s, step)
  {
    match step
    case Stream(t) => s.(stream := S.Apply(s.stream, t))
    case Server(t) => s.(server := R.Apply(s.server, t))
    case Invoke =>
      var i := |s.stream.attempts| - 1;
      s.(server := R.Apply(s.server, R.Call(CallbackEvent(s.stream.stream[s.stream.pc.e].value))),
         attemptOf := s.attemptOf + [i], entered := s.entered[i := s.stream.pc.e])
    case Return =>
      var task := s.server.tasks[|s.attemptOf| - 1];
      s.(stream := S.Apply(s.stream, S.Deliver(Reported(task.caller.outcome))),
         returned := s.returned[|s.stream.attempts| - 1 := task])
    case Crash => s.(stream := S.Apply(s.stream, S.Crash), server := R.Init, attemptOf := [])
  }

  predicate Legal(s: State, steps: seq<Step>)
    decreases |steps|
  {
    steps == [] || (Enabled(s, steps[0]) && Legal(Apply(s, steps[0]), steps[1..]))
  }

  function After(s: State, steps: seq<Step>): State
    requires Legal(s, steps)
    decreases |steps|
  {
    if steps == [] then s else After(Apply(s, steps[0]), steps[1..])
  }

  ghost predicate Reachable(s: State) {
    exists steps :: Legal(Init, steps) && s == After(Init, steps)
  }

  // ---------------------------------------------------------------- the invariant

  /** Tasks and callback runs correspond in order, and what a run reported is what its task returned. */
  ghost predicate Linked(s: State) {
    && |s.attemptOf| == |s.server.tasks|
    && (forall j, k :: 0 <= j < k < |s.attemptOf| ==> s.attemptOf[j] < s.attemptOf[k])
    && (forall k :: 0 <= k < |s.attemptOf| ==>
          && s.attemptOf[k] < |s.stream.attempts|
          && var o := s.stream.attempts[s.attemptOf[k]].outcome;
             o.Some? ==> s.server.tasks[k].caller.Returned? && Reported(s.server.tasks[k].caller.outcome) == o.value)
  }

  ghost predicate Inv(s: State) {
    S.AtMostOnceInv(s.stream) && R.Inv(s.server) && Linked(s)
  }

  lemma StreamLinked(s: State, t: S.Step)
    requires S.AtMostOnceInv(s.stream) && Linked(s) && Enabled(s, Stream(t))
    ensures Linked(Apply(s, Stream(t)))
  {
  }

  lemma ServerLinked(s: State, t: R.Step)
    requires Linked(s) && Enabled(s, Server(t))
    ensures Linked(Apply(s, Server(t)))
  {
    hide R.Apply, R.Enabled;
    forall k | 0 <= k < |s.server.tasks| ensures k < |R.Apply(s.server, t).tasks|
      && (s.server.tasks[k].caller.Returned? ==> R.Apply(s.server, t).tasks[k].caller == s.server.tasks[k].caller)
    {
      if s.server.tasks[k].caller.Returned? { R.ReturnStays(s.server, t, k); }
    }
  }

  lemma InvokeLinked(s: State)
    requires S.InHand(s.stream) && Linked(s) && Enabled(s, Invoke)
    ensures Linked(Apply(s, Invoke))
  {
    hide PushCodec.Decode;
  }

  lemma ReturnLinked(s: State)
    requires Linked(s) && Enabled(s, Return)
    ensures Linked(Apply(s, Return))
  {
  }

  lemma CrashLinked(s: State)
    requires Enabled(s, Crash)
    ensures Linked(Apply(s, Crash))
  {
  }

  lemma StepKeeps(s: State, step: Step)
    requires Inv(s) && Enabled(s, step)
    ensures Inv(Apply(s, step))
  {
    hide R.Inv, Linked, R.Apply, S.Spaced, S.Guarded, S.Apply, PushCodec.Decode;
    match step
    case Stream(t) => S.AtMostOnceStep(s.stream, t); StreamLinked(s, t);
    case Server(t) => R.StepKeeps(s.server, t); ServerLinked(s, t);
    case Invoke =>
      R.StepKeeps(s.server, R.Call(CallbackEvent(s.stream.stream[s.stream.pc.e].value)));
      InvokeLinked(s);
    case Return =>
      var o := Reported(s.server.tasks[|s.attemptOf| - 1].caller.outcome);
      S.AtMostOnceStep(s.stream, S.Deliver(o));
      ReturnLinked(s);
    case Crash => S.AtMostOnceStep(s.stream, S.Crash); R.InitInv(); CrashLinked(s);
  }

  lemma {:induction false} RunKeeps(s: State, steps: seq<Step>)
    requires Inv(s) && Legal(s, steps)
    ensures Inv(After(s, steps))
    decreases |steps|
  {
    hide Inv, Apply, Enabled;
    if steps != [] {
      StepKeeps(s, steps[0]);
      RunKeeps(Apply(s, steps[0]), steps[1..]);
    }
  }

  lemma ReachableInv(s: State)
    requires Reachable(s)
    ensures Inv(s)
  {
    hide Apply, Enabled, R.Inv;
    R.InitInv();
    var steps :| Legal(Init, steps) && s == After(Init, steps);
    RunKeeps(Init, steps);
  }

  /** No duplicate on the wire: in every run of consumer, I/O thread, stop(), crashes and lost
      replies, a task's payload is in the send queue of at most its own target, once; and two
      copies of one message that open connections hold come from claims of its dedup key at least
      a full dedup period apart. */
  lemma NoDuplicatePush(s: State, j: nat, k: nat, c: R.ConnId, d: R.ConnId)
    requires Reachable(s)
    requires c in s.server.conns && d in s.server.conns && j in s.server.conns[c] && k in s.server.conns[d]
    ensures |s.attemptOf| == |s.server.tasks| && j < |s.attemptOf| && k < |s.attemptOf|
    ensures s.server.conns[c][j] == 1 && c == s.server.tasks[j].event.target
    ensures s.attemptOf[j] < |s.stream.attempts| && s.attemptOf[k] < |s.stream.attempts|
    ensures j < k && s.stream.attempts[s.attemptOf[j]].msg == s.stream.attempts[s.attemptOf[k]].msg ==>
              s.stream.attempts[s.attemptOf[k]].acquiredAt - s.stream.attempts[s.attemptOf[j]].acquiredAt >= S.DEDUP_TTL
  {
    hide Reachable;
    ReachableInv(s);
    assert R.ConnsOk(s.server.conns, s.server.nextConn, |s.server.tasks|);
    assert R.TaskOk(s.server, j) && R.TaskOk(s.server, k);
  }
}
