/** What becomes of a remote push from the stream entry to the connection: the consumer's
    acknowledgements against what the server did (src/stream/redis_push_stream.cc:195-222,
    src/TcpServer.cc:161-198, 743-795). */
module PushEndToEnd {
  import opened PushPipeline
  import opened Wrappers
  import A = PushAccounts
  import PushCodec
  import R = RemotePush
  import S = PushStream

  /** What a returned callback means: kDelivered, appended once to the target while bound to the
      addressee; kInvalidTarget, turned away at the call or the target found closed or another's. */
  predicate Truth(t: R.Task, o: S.Outcome) {
    && t.caller.Returned? && Reported(t.caller.outcome) == o
    && (o.Delivered? ==> t.appended == [(t.event.target, t.event.toUser)])
    && (o.InvalidTarget? <==> R.Refused(t) || (t.look.Some? && !R.Found(t)))
  }

  /** Attempt i entered the callback with an entry of its message. */
  predicate EnteredWith(s: State, i: nat)
    requires i in s.entered
  {
    && i < |s.stream.attempts| && s.entered[i] < |s.stream.stream|
    && s.stream.stream[s.entered[i]].Some?
    && s.stream.stream[s.entered[i]].value.messageId == s.stream.attempts[i].msg
  }

  /** The callback run of attempt i returned, asked for what the entry says and told the truth. */
  predicate ReturnedTrue(s: State, i: nat, o: S.Outcome) {
    && i in s.entered && EnteredWith(s, i) && i in s.returned && Truth(s.returned[i], o)
    && s.returned[i].event == CallbackEvent(s.stream.stream[s.entered[i]].value)
  }

  ghost predicate Story(s: State) {
    && (forall i :: i in s.entered ==> EnteredWith(s, i))
    && (forall k :: 0 <= k < |s.attemptOf| && k < |s.server.tasks| ==>
          && s.attemptOf[k] in s.entered && EnteredWith(s, s.attemptOf[k])
          && s.server.tasks[k].event == CallbackEvent(s.stream.stream[s.entered[s.attemptOf[k]]].value))
    && (forall i :: 0 <= i < |s.stream.attempts| && s.stream.attempts[i].outcome.Some? ==>
          ReturnedTrue(s, i, s.stream.attempts[i].outcome.value))
  }

  ghost predicate FullInv(s: State) {
    A.Inv(s.stream) && R.Inv(s.server) && R.AllSightOk(s.server) && Linked(s) && Story(s)
  }

  /** Entries and attempts stay: the stream only grows, and attempts keep their message. */
  lemma StreamGrows(s: S.State, t: S.Step)
    requires S.Enabled(s, t)
    ensures s.stream <= S.Apply(s, t).stream && |s.attempts| <= |S.Apply(s, t).attempts|
    ensures forall i :: 0 <= i < |s.attempts| ==> S.Apply(s, t).attempts[i].msg == s.attempts[i].msg
    ensures !t.Deliver? ==> s.attempts <= S.Apply(s, t).attempts
    ensures forall i :: |s.attempts| <= i < |S.Apply(s, t).attempts| ==> S.Apply(s, t).attempts[i].outcome.None?
  {
    hide S.Unread, PushCodec.Decode;
  }

  lemma StreamStory(s: State, t: S.Step)
    requires Story(s) && Enabled(s, Stream(t))
    ensures Story(Apply(s, Stream(t)))
  {
    StreamGrows(s.stream, t);
    hide S.Apply, S.Enabled, R.Found, R.Refused;
  }

  lemma ServerStory(s: State, t: R.Step)
    requires Story(s) && Linked(s) && Enabled(s, Server(t))
    ensures Story(Apply(s, Server(t)))
  {
    forall k | 0 <= k < |s.server.tasks| ensures R.Apply(s.server, t).tasks[k].event == s.server.tasks[k].event {
      R.EventStays(s.server, t, k);
    }
    hide R.Apply, R.Enabled, Truth;
  }

  lemma InvokeStory(s: State)
    requires Story(s) && Linked(s) && S.InHand(s.stream) && S.GroupInv(s.stream) && Enabled(s, Invoke)
    ensures Story(Apply(s, Invoke))
  {
    var i, s', e := |s.stream.attempts| - 1, Apply(s, Invoke), s.stream.pc.e;
    assert s.stream.attempts[i].outcome.None? && s.stream.stream[e].value.messageId == s.stream.attempts[i].msg;
    CalledTask(s.server, CallbackEvent(s.stream.stream[e].value));
    hide Truth, CallbackEvent, R.Apply, R.Enabled, S.GroupInv, S.InHand;
  }

  lemma CalledTask(s: R.State, e: R.Event)
    ensures s.tasks <= R.Apply(s, R.Call(e)).tasks && R.Apply(s, R.Call(e)).tasks[|s.tasks|].event == e
  {
  }

  lemma ReturnStory(s: State)
    requires Story(s) && Linked(s) && R.Inv(s.server) && R.AllSightOk(s.server) && Enabled(s, Return)
    ensures Story(Apply(s, Return))
  {
    R.ToldTruth(s.server, |s.attemptOf| - 1);
    hide R.Inv, R.AllSightOk, R.Found, R.Refused;
  }

  lemma StreamFull(s: State, t: S.Step)
    requires FullInv(s) && Enabled(s, Stream(t))
    ensures FullInv(Apply(s, Stream(t)))
  {
    hide A.Inv, R.Inv, R.AllSightOk, Linked, Story, S.Apply, S.Enabled;
    A.StepKeeps(s.stream, t);
    StreamInv(s.stream);
    StreamLinked(s, t);
    StreamStory(s, t);
  }

  lemma ServerFull(s: State, t: R.Step)
    requires FullInv(s) && Enabled(s, Server(t))
    ensures FullInv(Apply(s, Server(t)))
  {
    hide A.Inv, R.Inv, R.AllSightOk, Linked, Story, R.Apply, R.Enabled;
    R.StepKeeps(s.server, t);
    R.StepSight(s.server, t);
    ServerLinked(s, t);
    ServerStory(s, t);
  }

  lemma InvokeFull(s: State)
    requires FullInv(s) && Enabled(s, Invoke)
    ensures FullInv(Apply(s, Invoke))
  {
    hide A.Inv, R.Inv, R.AllSightOk, Linked, Story, R.Apply, S.GroupInv, S.InHand;
    StreamInv(s.stream);
    var call := R.Call(CallbackEvent(s.stream.stream[s.stream.pc.e].value));
    R.StepKeeps(s.server, call);
    R.StepSight(s.server, call);
    InvokeLinked(s);
    InvokeStory(s);
  }

  lemma ReturnFull(s: State)
    requires FullInv(s) && Enabled(s, Return)
    ensures FullInv(Apply(s, Return))
  {
    hide A.Inv, R.Inv, R.AllSightOk, Linked, Story, S.Apply;
    A.StepKeeps(s.stream, S.Deliver(Reported(s.server.tasks[|s.attemptOf| - 1].caller.outcome)));
    ReturnLinked(s);
    ReturnStory(s);
  }

  lemma CrashFull(s: State)
    requires FullInv(s) && Enabled(s, Crash)
    ensures FullInv(Apply(s, Crash))
  {
    hide A.Inv, R.Inv, R.AllSightOk, Linked, Story, S.Apply;
    A.StepKeeps(s.stream, S.Crash);
    FreshServer();
    CrashLinked(s);
    CrashStory(s);
  }

  lemma FullStep(s: State, step: Step)
    requires FullInv(s) && Enabled(s, step)
    ensures FullInv(Apply(s, step))
  {
    hide FullInv, Apply;
    match step
    case Stream(t) => StreamFull(s, t);
    case Server(t) => ServerFull(s, t);
    case Invoke => InvokeFull(s);
    case Return => ReturnFull(s);
    case Crash => CrashFull(s);
  }

  lemma StreamInv(s: S.State)
    requires A.Inv(s)
    ensures S.AtMostOnceInv(s) && S.InHand(s) && S.GroupInv(s)
  {
  }

  lemma FreshServer()
    ensures R.Inv(R.Init) && R.AllSightOk(R.Init)
  {
    R.InitInv();
  }

  lemma CrashStory(s: State)
    requires Story(s) && Enabled(s, Crash)
    ensures Story(Apply(s, Crash))
  {
    hide Truth;
  }

  lemma {:induction false} FullRun(s: State, steps: seq<Step>)
    requires FullInv(s) && Legal(s, steps)
    ensures FullInv(After(s, steps))
    decreases |steps|
  {
    hide FullInv, Apply, Enabled;
    if steps != [] {
      FullStep(s, steps[0]);
      FullRun(Apply(s, steps[0]), steps[1..]);
    }
  }

  /** What became of an acknowledged well-formed entry, end to end: the callback was entered for its
      message and returned kDelivered or kInvalidTarget, meaning what they say; or the process crashed
      inside the callback; or it crashed before the callback was entered; or a key of the message was
      left behind. */
  lemma AckedEndToEnd(s: State, e: S.EntryId)
    requires Reachable(s) && e in s.stream.acked && e < |s.stream.stream| && s.stream.stream[e].Some?
    ensures var attempts, m := s.stream.attempts, s.stream.stream[e].value.messageId;
      || (exists i :: 0 <= i < |attempts| && attempts[i].msg == m && A.Finished(attempts[i])
                      && ReturnedTrue(s, i, attempts[i].outcome.value))
      || (exists i :: 0 <= i < |attempts| && attempts[i].msg == m && A.Cut(s.stream, i) && i in s.entered)
      || (exists i :: 0 <= i < |attempts| && attempts[i].msg == m && A.Cut(s.stream, i) && i !in s.entered)
      || m in s.stream.strayed
  {
    var steps :| Legal(Init, steps) && s == After(Init, steps);
    FreshServer();
    assert FullInv(Init);
    hide Reachable, Legal, After, Apply, R.Inv, R.AllSightOk, Linked;
    FullRun(Init, steps);
    assert A.Accounted(s.stream, e);
    var m := s.stream.stream[e].value.messageId;
    if m !in s.stream.strayed {
      var i :| 0 <= i < |s.stream.attempts| && s.stream.attempts[i].msg == m
               && (A.Finished(s.stream.attempts[i]) || A.Cut(s.stream, i));
    }
  }

  // ---------------------------------------------------------------- acknowledged and never called back

  lemma {:induction false} OneMore(s: State, steps: seq<Step>, step: Step)
    requires Legal(s, steps) && Enabled(After(s, steps), step)
    ensures Legal(s, steps + [step]) && After(s, steps + [step]) == Apply(After(s, steps), step)
    decreases |steps|
  {
    hide Apply, Enabled;
    if steps == [] {
      assert steps + [step] == [step] && [step][1..] == [];
    } else {
      assert (steps + [step])[1..] == steps[1..] + [step];
      OneMore(Apply(s, steps[0]), steps[1..], step);
    }
  }

  lemma Consume(s: State, t: S.Step) returns (s': State)
    requires Reachable(s) && S.Enabled(s.stream, t) && !t.Deliver? && !t.Crash?
    ensures s' == s.(stream := S.Apply(s.stream, t)) && Reachable(s')
  {
    hide Legal, After;
    var steps :| Legal(Init, steps) && s == After(Init, steps);
    OneMore(Init, steps, Stream(t));
    s' := Apply(s, Stream(t));
  }

  lemma Fall(s: State) returns (s': State)
    requires Reachable(s) && !s.stream.pc.Down?
    ensures s' == s.(stream := S.Apply(s.stream, S.Crash), server := R.Init, attemptOf := []) && Reachable(s')
  {
    hide Legal, After;
    var steps :| Legal(Init, steps) && s == After(Init, steps);
    OneMore(Init, steps, Crash);
    s' := Apply(s, Crash);
  }

  /** Any well-formed event can be acknowledged though the callback was never entered for it, no command
      failed, no reply was lost and no key was ever stray: the process crashes right after the claim. */
  lemma NeverCalledBack(f: PushCodec.Fields) returns (s: State)
    requires PushCodec.Decode(f).Some?
    ensures Reachable(s) && s.stream.stream == [PushCodec.Decode(f)] && 0 in s.stream.acked
    ensures s.entered == map[] && s.stream.strayed == {}
  {
    s := Read(f);
    s := ClaimAndFall(s, f);
    s := Again(s, f);
  }

  lemma Read(f: PushCodec.Fields) returns (s: State)
    ensures Reachable(s) && s.stream.stream == [PushCodec.Decode(f)] && s.stream.pending == {0}
    ensures s.stream.pc.Ready? && s.stream.todo == [0] && s.stream.keys == map[] && s.stream.now == 0
    ensures s.entered == map[] && s.stream.strayed == {}
  {
    assert Legal(Init, []) && After(Init, []) == Init;
    hide Reachable, PushCodec.Decode;
    s := Consume(Init, S.Publish(f));
    s := Consume(s, S.Start);
    assert S.Unread(0, 1) == [0];
    s := Consume(s, S.ReadNew(1, S.Ok));
  }

  lemma ClaimAndFall(s: State, f: PushCodec.Fields) returns (s': State)
    requires PushCodec.Decode(f).Some? && Reachable(s) && s.stream.stream == [PushCodec.Decode(f)]
    requires s.stream.pending == {0} && s.stream.pc.Ready? && s.stream.todo == [0]
    requires s.stream.keys == map[] && s.stream.now == 0
    ensures Reachable(s') && s'.stream.stream == s.stream.stream && 0 in s'.stream.pending && s'.stream.pc.Down?
    ensures S.LiveKey(s'.stream, PushCodec.Decode(f).value.messageId)
    ensures s'.entered == s.entered && s'.stream.strayed == s.stream.strayed
  {
    hide Reachable, PushCodec.Decode;
    s' := Consume(s, S.Take(true));
    s' := Consume(s', S.Acquire(S.Ok));
    s' := Fall(s');
  }

  lemma Again(s: State, f: PushCodec.Fields) returns (s': State)
    requires PushCodec.Decode(f).Some? && Reachable(s) && s.stream.pc.Down? && 0 in s.stream.pending
    requires s.stream.stream == [PushCodec.Decode(f)] && S.LiveKey(s.stream, PushCodec.Decode(f).value.messageId)
    ensures Reachable(s') && s'.stream.stream == s.stream.stream && 0 in s'.stream.acked
    ensures s'.entered == s.entered && s'.stream.strayed == s.stream.strayed
  {
    hide Reachable, PushCodec.Decode;
    s' := Consume(s, S.Start);
    s' := Consume(s', S.ClaimPending([0], S.Ok));
    s' := Consume(s', S.Take(true));
    s' := Consume(s', S.Acquire(S.Ok));
    s' := Consume(s', S.Ack(S.Ok));
  }
}
