/** What an acknowledgement by the stream consumer of PushStream is worth
    (src/stream/redis_push_stream.cc:195-222): when a live dedup key stands for a finished delivery,
    and what became of the entries acknowledged. */
module PushAccounts {
  import opened PushStream

  // ---------------------------------------------------------------- what a live key stands for

  /** An attempt that may have delivered m and whose dedup period has not run out. */
  predicate Current(s: State, a: Attempt, m: MsgId) {
    a.msg == m && MayHaveDelivered(a) && s.now < a.acquiredAt + DEDUP_TTL
  }

  /** The attempt that set the key of m and may have delivered it. */
  predicate Behind(s: State, a: Attempt, m: MsgId)
    requires m in s.keys
  {
    a.msg == m && MayHaveDelivered(a) && s.keys[m] == a.acquiredAt + DEDUP_TTL
  }

  /** The callback returned, and not kRetry. */
  predicate Finished(a: Attempt) {
    a.outcome.Some? && !a.outcome.value.Retry?
  }

  /** A crash came before the callback returned: the message may or may not have been delivered. */
  predicate Cut(s: State, i: nat)
    requires i < |s.attempts|
  {
    s.attempts[i].outcome.None? && !(s.pc.Delivering? && i == |s.attempts| - 1)
  }

  /** An attempt for m finished or was cut short. */
  ghost predicate Attempted(s: State, m: MsgId) {
    exists i :: 0 <= i < |s.attempts| && s.attempts[i].msg == m && (Finished(s.attempts[i]) || Cut(s, i))
  }

  /** The consumer has the claim of m in hand. */
  predicate Holding(s: State, m: MsgId) {
    (s.pc.Delivering? || s.pc.Releasing?) && s.pc.msg == m
  }

  ghost predicate KeyInv(s: State, m: MsgId) {
    && (m in s.stray ==> m in s.strayed)
    && (m in s.stray && LiveKey(s, m) ==> forall i :: 0 <= i < |s.attempts| ==> !Current(s, s.attempts[i], m))
    && (m in s.torn && LiveKey(s, m) ==>
          forall i :: 0 <= i < |s.attempts| ==> !(Current(s, s.attempts[i], m) && Finished(s.attempts[i])))
    && (Holding(s, m) ==> m !in s.stray && m !in s.torn)
    && (LiveKey(s, m) && m !in s.stray && !Holding(s, m) ==>
          exists i :: 0 <= i < |s.attempts| && Behind(s, s.attempts[i], m)
                      && (Finished(s.attempts[i]) || (m in s.torn && Cut(s, i))))
    && (LiveKey(s, m) && s.pc.Delivering? && s.pc.msg == m ==>
          s.attempts != [] && Behind(s, s.attempts[|s.attempts| - 1], m))
  }

  /** An entry's message had an attempt that finished or was cut short, or a key of its was left behind. */
  ghost predicate Accounted(s: State, e: EntryId) {
    e < |s.stream| && match s.stream[e]
                      case None => true
                      case Some(ev) => Attempted(s, ev.messageId) || ev.messageId in s.strayed
  }

  ghost predicate AckInv(s: State) {
    && (forall e :: e in s.acked ==> Accounted(s, e))
    && (s.pc.Acking? ==> Accounted(s, s.pc.e))
  }

  lemma SameKey(s: State, s': State, m: MsgId)
    requires KeyInv(s, m) && s'.attempts == s.attempts && s'.keys == s.keys && s'.now == s.now
    requires s'.pc == s.pc || !(s.pc.Delivering? || s.pc.Releasing? || s'.pc.Delivering? || s'.pc.Releasing?)
    requires s'.stray == s.stray && s'.strayed == s.strayed && s'.torn == s.torn
    ensures KeyInv(s', m)
  {
    if LiveKey(s, m) && m !in s.stray && !Holding(s, m) {
      var i :| 0 <= i < |s.attempts| && Behind(s, s.attempts[i], m)
               && (Finished(s.attempts[i]) || (m in s.torn && Cut(s, i)));
      assert Behind(s', s'.attempts[i], m) && (Cut(s, i) ==> Cut(s', i));
    }
  }

  lemma AcquireOther(s: State, reply: Reply, m: MsgId)
    requires KeyInv(s, m) && s.pc.Acquiring? && s.pc.msg != m && !reply.Failed? && !LiveKey(s, s.pc.msg)
    ensures KeyInv(ApplyAcquire(s, s.pc.e, s.pc.msg, reply), m)
  {
    var s' := ApplyAcquire(s, s.pc.e, s.pc.msg, reply);
    if LiveKey(s, m) && m !in s.stray {
      var i :| 0 <= i < |s.attempts| && Behind(s, s.attempts[i], m)
               && (Finished(s.attempts[i]) || (m in s.torn && Cut(s, i)));
      assert Behind(s', s'.attempts[i], m) && s'.attempts[i] == s.attempts[i] && (Cut(s, i) ==> Cut(s', i));
    }
  }

  /** A key that is set anew: to an attempt, or stray. */
  lemma AcquireOwn(s: State, reply: Reply)
    requires AtMostOnceInv(s) && s.pc.Acquiring? && KeyInv(s, s.pc.msg) && !reply.Failed? && !LiveKey(s, s.pc.msg)
    ensures KeyInv(ApplyAcquire(s, s.pc.e, s.pc.msg, reply), s.pc.msg)
  {
    hide Spaced;
    assert forall i :: 0 <= i < |s.attempts| ==> Guarded(s, s.attempts[i]);
  }

  lemma AcquireKey(s: State, reply: Reply, m: MsgId)
    requires AtMostOnceInv(s) && KeyInv(s, m) && s.pc.Acquiring?
    ensures KeyInv(ApplyAcquire(s, s.pc.e, s.pc.msg, reply), m)
  {
    hide AtMostOnceInv, KeyInv;
    if reply.Failed? || LiveKey(s, s.pc.msg) {
      SameKey(s, ApplyAcquire(s, s.pc.e, s.pc.msg, reply), m);
    } else if s.pc.msg == m {
      AcquireOwn(s, reply);
    } else {
      AcquireOther(s, reply, m);
    }
  }

  /** When a release is given up, nothing delivered stands behind the key. */
  lemma StrandKey(s: State, pc: Pc, todo: seq<EntryId>, m: MsgId)
    requires AtMostOnceInv(s) && KeyInv(s, m) && s.pc.Releasing? && !pc.Delivering? && !pc.Releasing?
    ensures KeyInv(Strand(s, s.pc.msg).(pc := pc, todo := todo), m)
  {
    KeptKey(s, Strand(s, s.pc.msg).(pc := pc, todo := todo), m);
  }

  lemma ReleaseKey(s: State, reply: Reply, m: MsgId)
    requires AtMostOnceInv(s) && KeyInv(s, m) && s.pc.Releasing?
    ensures KeyInv(Apply(s, Release(reply)), m)
  {
    if reply.Failed? {
      StrandKey(s, Ready, s.todo, m);
    } else if m != s.pc.msg {
      KeptKey(s, s.(pc := Ready), m);
    }
  }

  /** When a crash cuts an attempt short, the key is its own and no finished delivery is behind it. */
  lemma TearKey(s: State, m: MsgId)
    requires AtMostOnceInv(s) && KeyInv(s, m) && s.pc.Delivering?
    ensures KeyInv(Apply(s, Crash), m)
  {
    var s' := Apply(s, Crash);
    if s.pc.msg == m {
      assert LiveKey(s, m) ==> Cut(s', |s.attempts| - 1);
    } else {
      KeptKey(s, s', m);
    }
  }

  /** The attempt behind a key nobody holds stays there. */
  lemma KeptKey(s: State, s': State, m: MsgId)
    requires KeyInv(s, m) && s'.attempts == s.attempts && s'.keys == s.keys && s'.now == s.now
    requires m in s.torn ==> m in s'.torn
    requires !s'.pc.Delivering? || (s.pc.Delivering? && !Holding(s', m))
    ensures LiveKey(s, m) && m !in s.stray && !Holding(s, m) ==>
              exists i :: 0 <= i < |s'.attempts| && Behind(s', s'.attempts[i], m)
                          && (Finished(s'.attempts[i]) || (m in s'.torn && Cut(s', i)))
  {
    if LiveKey(s, m) && m !in s.stray && !Holding(s, m) {
      var i :| 0 <= i < |s.attempts| && Behind(s, s.attempts[i], m)
               && (Finished(s.attempts[i]) || (m in s.torn && Cut(s, i)));
      assert Behind(s', s'.attempts[i], m) && (Cut(s, i) ==> Cut(s', i));
    }
  }

  lemma DeliverKey(s: State, o: Outcome, m: MsgId)
    requires AtMostOnceInv(s) && KeyInv(s, m) && Enabled(s, Deliver(o))
    ensures KeyInv(Apply(s, Deliver(o)), m)
  {
    var s', last := Apply(s, Deliver(o)), |s.attempts| - 1;
    if LiveKey(s', m) && m !in s'.stray && !Holding(s', m) {
      if s.pc.msg == m {
        assert Behind(s', s'.attempts[last], m) && Finished(s'.attempts[last]);
      } else {
        var i :| 0 <= i < |s.attempts| && Behind(s, s.attempts[i], m)
                 && (Finished(s.attempts[i]) || (m in s.torn && Cut(s, i)));
        assert i != last && s'.attempts[i] == s.attempts[i] && (Cut(s, i) ==> Cut(s', i));
      }
    }
  }

  lemma TickKey(s: State, seconds: nat, m: MsgId)
    requires KeyInv(s, m)
    ensures KeyInv(s.(now := s.now + seconds), m)
  {
    var s' := s.(now := s.now + seconds);
    if LiveKey(s', m) && m !in s.stray && !Holding(s, m) {
      var i :| 0 <= i < |s.attempts| && Behind(s, s.attempts[i], m)
               && (Finished(s.attempts[i]) || (m in s.torn && Cut(s, i)));
      assert Behind(s', s'.attempts[i], m) && (Cut(s, i) ==> Cut(s', i));
    }
  }

  lemma KeyStep(s: State, step: Step, m: MsgId)
    requires AtMostOnceInv(s) && KeyInv(s, m) && Enabled(s, step)
    ensures KeyInv(Apply(s, step), m)
  {
    hide Unread, AtMostOnceInv, KeyInv;
    match step
    case Acquire(reply) => AcquireKey(s, reply, m);
    case Deliver(o) => DeliverKey(s, o, m);
    case Release(reply) => ReleaseKey(s, reply, m);
    case Tick(seconds) => TickKey(s, seconds, m);
    case Crash =>
      if s.pc.Releasing? {
        StrandKey(s, Down, [], m);
      } else if s.pc.Delivering? {
        TearKey(s, m);
      } else {
        SameKey(s, Apply(s, step), m);
      }
    case _ => SameKey(s, Apply(s, step), m);
  }

  lemma AttemptedStays(s: State, step: Step, m: MsgId)
    requires InHand(s) && Enabled(s, step) && Attempted(s, m)
    ensures Attempted(Apply(s, step), m)
  {
    hide Unread;
    var s' := Apply(s, step);
    var i :| 0 <= i < |s.attempts| && s.attempts[i].msg == m && (Finished(s.attempts[i]) || Cut(s, i));
    assert s'.attempts[i] == s.attempts[i] && (Cut(s, i) ==> Cut(s', i));
  }

  lemma AccountedStays(s: State, step: Step, e: EntryId)
    requires InHand(s) && Enabled(s, step) && Accounted(s, e)
    ensures Accounted(Apply(s, step), e)
  {
    hide Unread, Attempted;
    if s.stream[e].Some? {
      var m := s.stream[e].value.messageId;
      if Attempted(s, m) { AttemptedStays(s, step, m); }
    }
  }

  /** An entry is on its way to be acknowledged only when it is accounted for. */
  lemma AckingAccounted(s: State, step: Step)
    requires InHand(s) && GroupInv(s) && AckInv(s) && Enabled(s, step) && Apply(s, step).pc.Acking?
    requires s.pc.Acquiring? ==> KeyInv(s, s.pc.msg)
    ensures Accounted(Apply(s, step), Apply(s, step).pc.e)
  {
    hide Unread;
    var s' := Apply(s, step);
    match step
    case Deliver(o) =>
      var last := |s.attempts| - 1;
      assert s'.attempts[last].msg == s.pc.msg && Finished(s'.attempts[last]);
    case Acquire(reply) =>
      if s.pc.msg !in s.stray {
        var m := s.pc.msg;
        var i :| 0 <= i < |s.attempts| && Behind(s, s.attempts[i], m)
                 && (Finished(s.attempts[i]) || (m in s.torn && Cut(s, i)));
        assert s'.attempts[i] == s.attempts[i] && (Cut(s, i) ==> Cut(s', i));
      }
    case Publish(_) => AccountedStays(s, step, s.pc.e);
    case Tick(_) => AccountedStays(s, step, s.pc.e);
    case _ =>
  }

  lemma AckStep(s: State, step: Step)
    requires InHand(s) && GroupInv(s) && AckInv(s) && Enabled(s, step)
    requires s.pc.Acquiring? ==> KeyInv(s, s.pc.msg)
    ensures AckInv(Apply(s, step))
  {
    var s' := Apply(s, step);
    assert forall e :: e in s'.acked ==> e in s.acked || (s.pc.Acking? && e == s.pc.e);
    if s'.pc.Acking? { AckingAccounted(s, step); }
    hide Accounted, GroupInv, Apply, Enabled;
    forall e | e in s'.acked ensures Accounted(s', e) {
      AccountedStays(s, step, e);
    }
  }

  // ---------------------------------------------------------------- every run

  ghost predicate Inv(s: State) {
    AtMostOnceInv(s) && GroupInv(s) && AckInv(s) && forall m :: KeyInv(s, m)
  }

  lemma StepKeeps(s: State, step: Step)
    requires Inv(s) && Enabled(s, step)
    ensures Inv(Apply(s, step))
  {
    AtMostOnceStep(s, step);
    hide Spaced, Guarded, GroupInv, AckInv, KeyInv, Apply, Enabled;
    GroupStep(s, step);
    AckStep(s, step);
    forall m ensures KeyInv(Apply(s, step), m) { KeyStep(s, step, m); }
  }

  lemma {:induction false} RunKeeps(s: State, steps: seq<Step>)
    requires Legal(s, steps) && Inv(s)
    ensures Inv(After(s, steps))
    decreases |steps|
  {
    hide Inv, Apply, Enabled;
    if steps != [] {
      StepKeeps(s, steps[0]);
      RunKeeps(Apply(s, steps[0]), steps[1..]);
    }
  }

  lemma ReachableAccounts(s: State)
    requires Reachable(s)
    ensures Inv(s)
  {
    hide Apply, Enabled;
    var steps :| Legal(Init, steps) && s == After(Init, steps);
    RunKeeps(Init, steps);
  }

  // ---------------------------------------------------------------- guarantees

  /** A nil answer to SET NX, on which the entry is acknowledged without calling back, is right exactly
      when the key is neither stray nor torn: then, and only then, a callback run that returned
      kDelivered or kInvalidTarget is still within its period. */
  lemma NilIsRightExactly(s: State)
    requires Reachable(s) && s.pc.Acquiring? && LiveKey(s, s.pc.msg)
    ensures Apply(s, Acquire(Ok)).pc == Acking(s.pc.e)
    ensures (exists i :: 0 <= i < |s.attempts| && Current(s, s.attempts[i], s.pc.msg) && Finished(s.attempts[i]))
       <==> s.pc.msg !in s.stray && s.pc.msg !in s.torn
  {
    hide Reachable;
    ReachableAccounts(s);
    var m := s.pc.msg;
    assert KeyInv(s, m);
    if m !in s.stray && m !in s.torn {
      var i :| 0 <= i < |s.attempts| && Behind(s, s.attempts[i], m) && Finished(s.attempts[i]);
      assert Current(s, s.attempts[i], m);
    }
  }

  /** What became of an acknowledged well-formed entry's message: the callback returned kDelivered or
      kInvalidTarget for it, or a crash cut an attempt short, or a key of its was left behind by a lost
      reply of the SET that made it, by a failed DEL, or by a crash before the DEL. */
  lemma AckedWasAttempted(s: State, e: EntryId)
    requires Reachable(s) && e in s.acked && e < |s.stream| && s.stream[e].Some?
    ensures var m := s.stream[e].value.messageId;
      || (exists i :: 0 <= i < |s.attempts| && s.attempts[i].msg == m && Finished(s.attempts[i]))
      || (exists i :: 0 <= i < |s.attempts| && s.attempts[i].msg == m && Cut(s, i))
      || m in s.strayed
  {
    hide Reachable;
    ReachableAccounts(s);
    assert Accounted(s, e);
  }

  /** An acknowledged entry is never pending, so never handled, again. */
  lemma {:induction false} AckedForGood(s: State, steps: seq<Step>, e: EntryId)
    requires Inv(s) && Legal(s, steps) && e in s.acked
    ensures e in After(s, steps).acked && e !in After(s, steps).pending
    decreases |steps|
  {
    if steps == [] {
      assert GroupInv(s);
    } else {
      hide Inv, Apply, Enabled;
      AckedStays(s, steps[0], e);
      StepKeeps(s, steps[0]);
      AckedForGood(Apply(s, steps[0]), steps[1..], e);
    }
  }

  lemma AckedStays(s: State, step: Step, e: EntryId)
    requires Enabled(s, step) && e in s.acked
    ensures e in Apply(s, step).acked
  {
    hide Unread;
  }
}
