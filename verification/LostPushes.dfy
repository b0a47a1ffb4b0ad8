/** How the stream consumer of PushStream loses a message: runs that acknowledge any well-formed event
    undelivered (src/stream/redis_push_stream.cc:205-222). */
module LostPushes {
  import opened PushCodec
  import opened PushStream
  import opened Wrappers

  lemma {:induction false} OneMore(s: State, steps: seq<Step>, step: Step)
    requires Legal(s, steps) && Enabled(After(s, steps), step)
    ensures Legal(s, steps + [step]) && After(s, steps + [step]) == Apply(After(s, steps), step)
    decreases |steps|
  {
    hide Apply, Enabled;
    if steps == [] {
      assert steps + [step] == [step] && [step][1..] == [];
    } else {
      assert (steps + [step])[1..] == steps[1..] + [step];
      OneMore(Apply(s, steps[0]), steps[1..], step);
    }
  }

  lemma Reach(s: State, step: Step) returns (s': State)
    requires Reachable(s) && Enabled(s, step)
    ensures s' == Apply(s, step) && Reachable(s')
  {
    hide Apply, Enabled;
    var steps :| Legal(Init, steps) && s == After(Init, steps);
    OneMore(Init, steps, step);
    s' := Apply(s, step);
  }

  /** The first entry, any well-formed event, read and about to be claimed. */
  lemma Arrives(f: Fields) returns (s: State)
    requires Decode(f).Some?
    ensures Reachable(s) && s.stream == [Decode(f)] && s.pending == {0} && s.acked == {} && s.todo == [] && s.now == 0
    ensures s.pc == Acquiring(0, Decode(f).value.messageId) && s.keys == map[] && s.attempts == []
    ensures s.strayed == {}
  {
    hide Reachable, Decode;
    assert Reachable(Init) by { NoSteps(); }
    s := Reach(Init, Publish(f));
    s := Reach(s, Start);
    s := Reach(s, ReadNew(1, Ok));
    assert Unread(0, 1) == [0];
    s := Reach(s, Take(true));
  }

  lemma NoSteps()
    ensures Reachable(Init)
  {
    assert Legal(Init, []) && After(Init, []) == Init;
  }

  /** From a live key behind which nothing was delivered, the entry is claimed again and acknowledged. */
  lemma AckedForNothing(s: State, f: Fields) returns (s': State)
    requires Decode(f).Some? && Reachable(s) && s.stream == [Decode(f)] && 0 in s.pending && s.todo == [] && s.pc.Ready?
    requires LiveKey(s, Decode(f).value.messageId)
    ensures Reachable(s') && 0 in s'.acked && s'.attempts == s.attempts && s'.stream == [Decode(f)]
    ensures s'.strayed == s.strayed && s'.pc == Ready
  {
    hide Reachable, Decode;
    s' := Reach(s, ClaimPending([0], Ok));
    s' := Reach(s', Take(true));
    s' := Reach(s', Acquire(Ok));
    s' := Reach(s', Ack(Ok));
  }

  /** Any well-formed event can be lost for good: the reply of the SET that claims it is lost, so no
      callback ever runs, and the entry is acknowledged at the next claim. */
  lemma LostClaimLosesMessage(f: Fields) returns (s: State)
    requires Decode(f).Some?
    ensures Reachable(s) && s.stream == [Decode(f)] && 0 in s.acked && s.attempts == []
  {
    hide Reachable, Decode;
    s := Arrives(f);
    s := Reach(s, Acquire(Lost));
    s := AckedForNothing(s, f);
  }

  /** The same when the callback asks for a retry and the DEL fails, with no reply lost. */
  lemma FailedReleaseLosesMessage(f: Fields) returns (s: State)
    requires Decode(f).Some?
    ensures Reachable(s) && s.stream == [Decode(f)] && 0 in s.acked
    ensures s.attempts == [Attempt(Decode(f).value.messageId, 0, Some(Retry))]
  {
    hide Reachable, Decode;
    s := Arrives(f);
    s := Reach(s, Acquire(Ok));
    s := Reach(s, Deliver(Retry));
    s := Reach(s, Release(Failed));
    s := AckedForNothing(s, f);
  }

  /** And when the consumer crashes between the callback and the DEL. */
  lemma CrashLosesMessage(f: Fields) returns (s: State)
    requires Decode(f).Some?
    ensures Reachable(s) && s.stream == [Decode(f)] && 0 in s.acked
    ensures s.attempts == [Attempt(Decode(f).value.messageId, 0, Some(Retry))]
  {
    hide Reachable, Decode;
    s := Arrives(f);
    s := Reach(s, Acquire(Ok));
    s := Reach(s, Deliver(Retry));
    s := Reach(s, Crash);
    s := Reach(s, Start);
    s := AckedForNothing(s, f);
  }

  /** And when the consumer crashes after the claim, before or in the callback, with no command failing
      and no key ever stray. */
  lemma CutAttemptLosesMessage(f: Fields) returns (s: State)
    requires Decode(f).Some?
    ensures Reachable(s) && s.stream == [Decode(f)] && 0 in s.acked && s.strayed == {}
    ensures s.attempts == [Attempt(Decode(f).value.messageId, 0, None)] && s.pc == Ready
  {
    hide Reachable, Decode;
    s := Arrives(f);
    s := Reach(s, Acquire(Ok));
    s := Reach(s, Crash);
    s := Reach(s, Start);
    s := AckedForNothing(s, f);
  }
}
