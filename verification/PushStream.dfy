/** The crash-tolerant stream consumer (src/stream/redis_push_stream.cc:92-115, 195-222, 242-253).
    Redis commands are atomic; a command may fail unexecuted, or execute and lose its reply. The
    consumer may crash between any two of them and start again; entries are published, claimed
    and re-claimed at will, and time passes. */
module PushStream {
  import opened PushCodec
  import opened Wrappers

  type MsgId = string
  type EntryId = nat

  const DEDUP_TTL: int := 86400
  const BATCH: int := 20

  datatype Outcome = Delivered | InvalidTarget | Retry

  /** What follows a claim of the dedup key: the delivery callback and its outcome. There is no outcome
      before the callback returns, nor ever if the consumer crashes first, whether the callback had been
      entered or not. */
  datatype Attempt = Attempt(msg: MsgId, acquiredAt: int, outcome: Option<Outcome>)

  datatype Pc =
    | Down
    | Ready
    | Burying(e: EntryId)
    | Acquiring(e: EntryId, msg: MsgId)
    | Delivering(e: EntryId, msg: MsgId)
    | Releasing(e: EntryId, msg: MsgId)
    | Acking(e: EntryId)

  /** `stream`, `read`, `pending` and `acked` are the Redis stream, each entry kept as what it decodes to,
      and its consumer group; `keys` holds the expiry time of each dedup key; `buried` the source ids in
      the dead-letter stream.
      `attempts`, `claimed`, `stray`, `strayed` and `torn` are history: a message is stray from when its
      live key is left with no delivery behind it until the key is set or deleted again, and strayed
      from then on; it is torn likewise from when a crash leaves its live key to an attempt cut short. */
  datatype State = State(stream: seq<Option<Event>>, read: nat, pending: set<EntryId>, acked: set<EntryId>,
                         keys: map<MsgId, int>, buried: set<EntryId>, now: int,
                         todo: seq<EntryId>, pc: Pc, attempts: seq<Attempt>, claimed: set<MsgId>,
                         stray: set<MsgId>, strayed: set<MsgId>, torn: set<MsgId>)

  const Init := State([], 0, {}, {}, map[], {}, 0, [], Down, [], {}, {}, {}, {})

  datatype Reply = Ok | Lost | Failed

  datatype Step =
    | Publish(f: Fields)
    | Tick(seconds: nat)
    | Start
    | Crash
    | ClaimPending(es: seq<EntryId>, reply: Reply)
    | ReadNew(n: nat, reply: Reply)
    | Take(callback: bool)
    | Bury(reply: Reply)
    | Acquire(reply: Reply)
    | Deliver(o: Outcome)
    | Release(reply: Reply)
    | Ack(reply: Reply)

  /** The next n entry ids of the stream. */
  function Unread(read: nat, n: nat): (es: seq<EntryId>)
    ensures forall e :: e in es <==> read <= e < read + n
    decreases n
  {
    if n == 0 then [] else [read] + Unread(read + 1, n - 1)
  }

  predicate LiveKey(s: State, m: MsgId) {
    m in s.keys && s.now < s.keys[m]
  }

  predicate Enabled(s: State, step: Step) {
    match step
    case Publish(_) => true
    case Tick(_) => true
    case Start => s.pc.Down?
    case Crash => !s.pc.Down?
    case ClaimPending(es, _) => s.pc.Ready? && |es| <= BATCH && forall e :: e in es ==> e in s.pending
    case ReadNew(n, _) => s.pc.Ready? && n <= BATCH && s.read + n <= |s.stream|
    case Take(_) => s.pc.Ready? && s.todo != [] && s.todo[0] < |s.stream|
    case Bury(_) => s.pc.Burying?
    case Acquire(_) => s.pc.Acquiring?
    case Deliver(_) => s.pc.Delivering? && s.attempts != []
    case Release(_) => s.pc.Releasing?
    case Ack(_) => s.pc.Acking?
  }

  function Apply(s: State, step: Step): State
    requires Enabled(s, step)
  {
    match step
    case Publish(f) => s.(stream := s.stream + [Decode(f)])
    case Tick(n) => s.(now := s.now + n)
    case Start => s.(pc := Ready, todo := [])
    case Crash => Abandon(s).(pc := Down, todo := [])
    case ClaimPending(es, reply) => if reply.Ok? then s.(todo := s.todo + es) else s
    case ReadNew(n, reply) =>
      var unread := Unread(s.read, n);
      if reply.Failed? then s
      else s.(read := s.read + n, pending := s.pending + (set e | e in unread),
              todo := if reply.Ok? then s.todo + unread else s.todo)
    case Take(callback) =>
      var e := s.todo[0];
      var ev := s.stream[e];
      s.(todo := s.todo[1..],
         pc := if ev.None? then Burying(e) else if callback then Acquiring(e, ev.value.messageId) else Ready)
    case Bury(reply) =>
      s.(buried := if reply.Failed? then s.buried else s.buried + {s.pc.e},
         pc := if reply.Ok? then Acking(s.pc.e) else Ready)
    case Acquire(reply) => ApplyAcquire(s, s.pc.e, s.pc.msg, reply)
    case Deliver(o) =>
      var last := |s.attempts| - 1;
      s.(attempts := s.attempts[last := s.attempts[last].(outcome := Some(o))],
         pc := if o.Retry? then Releasing(s.pc.e, s.pc.msg) else Acking(s.pc.e))
    case Release(reply) =>
      if reply.Failed? then Strand(s, s.pc.msg).(pc := Ready)
      else s.(keys := s.keys - {s.pc.msg}, stray := s.stray - {s.pc.msg}, torn := s.torn - {s.pc.msg}, pc := Ready)
    case Ack(reply) =>
      if reply.Failed? then s.(pc := Ready)
      else s.(pending := s.pending - {s.pc.e},
              acked := if s.pc.e in s.pending then s.acked + {s.pc.e} else s.acked, pc := Ready)
  }

  /** SET key NX EX: nil when the key is live, else set with a fresh expiry. */
  function ApplyAcquire(s: State, e: EntryId, m: MsgId, reply: Reply): State {
    if reply.Failed? then s.(pc := Ready)
    else if LiveKey(s, m) then s.(pc := if reply.Ok? then Acking(e) else Ready)
    else
      var s' := s.(keys := s.keys[m := s.now + DEDUP_TTL], claimed := s.claimed + {m}, torn := s.torn - {m});
      if reply.Ok? then
        s'.(attempts := s.attempts + [Attempt(m, s.now, None)], stray := s.stray - {m}, pc := Delivering(e, m))
      else Strand(s', m).(pc := Ready)
  }

  /** The key of m, if live, stays behind with no delivery. */
  function Strand(s: State, m: MsgId): State {
    if LiveKey(s, m) then s.(stray := s.stray + {m}, strayed := s.strayed + {m}) else s
  }

  /** What a crash leaves of the entry in hand. */
  function Abandon(s: State): State {
    if s.pc.Releasing? then Strand(s, s.pc.msg)
    else if s.pc.Delivering? && LiveKey(s, s.pc.msg) then s.(torn := s.torn + {s.pc.msg})
    else s
  }

  predicate Legal(s: State, steps: seq<Step>)
    decreases |steps|
  {
    steps == [] || (Enabled(s, steps[0]) && Legal(Apply(s, steps[0]), steps[1..]))
  }

  function After(s: State, steps: seq<Step>): State
    requires Legal(s, steps)
    decreases |steps|
  {
    if steps == [] then s else After(Apply(s, steps[0]), steps[1..])
  }

  ghost predicate Reachable(s: State) {
    exists steps :: Legal(Init, steps) && s == After(Init, steps)
  }

  // ---------------------------------------------------------------- at most once

  /** An attempt that delivered, or may have: everything but a reported kRetry. */
  predicate MayHaveDelivered(a: Attempt) {
    a.outcome != Some(Retry)
  }

  /** Attempts for one message that are not both harmless are a full dedup period apart. */
  ghost predicate Spaced(attempts: seq<Attempt>) {
    forall i, j :: 0 <= i < j < |attempts| && attempts[i].msg == attempts[j].msg && MayHaveDelivered(attempts[i]) ==>
      attempts[i].acquiredAt + DEDUP_TTL <= attempts[j].acquiredAt
  }

  /** The key of an attempt that may have delivered guards its message for the dedup period. */
  ghost predicate Guarded(s: State, a: Attempt) {
    MayHaveDelivered(a) ==>
      s.now >= a.acquiredAt + DEDUP_TTL || (a.msg in s.keys && s.keys[a.msg] >= a.acquiredAt + DEDUP_TTL)
  }

  /** While the callback or the release runs, the latest attempt is the one in hand. */
  ghost predicate InHand(s: State) {
    && (s.pc.Delivering? ==>
          s.attempts != [] && s.attempts[|s.attempts| - 1].msg == s.pc.msg
          && s.attempts[|s.attempts| - 1].outcome.None?)
    && (s.pc.Releasing? ==>
          s.attempts != [] && s.attempts[|s.attempts| - 1].msg == s.pc.msg
          && s.attempts[|s.attempts| - 1].outcome == Some(Retry))
  }

  ghost predicate AtMostOnceInv(s: State) {
    && Spaced(s.attempts)
    && (forall i :: 0 <= i < |s.attempts| ==> Guarded(s, s.attempts[i]) && s.attempts[i].acquiredAt <= s.now)
    && InHand(s)
  }

  lemma AtMostOnceStep(s: State, step: Step)
    requires AtMostOnceInv(s) && Enabled(s, step)
    ensures AtMostOnceInv(Apply(s, step))
  {
    hide Unread;
    match step
    case Acquire(reply) => AcquireSpaced(s, reply);
    case Deliver(o) => DeliverSpaced(s, o);
    case Release(reply) => ReleaseSpaced(s, reply);
    case _ =>
  }

  lemma DeliverSpaced(s: State, o: Outcome)
    requires AtMostOnceInv(s) && Enabled(s, Deliver(o))
    ensures AtMostOnceInv(Apply(s, Deliver(o)))
  {
  }

  lemma ReleaseSpaced(s: State, reply: Reply)
    requires AtMostOnceInv(s) && Enabled(s, Release(reply))
    ensures AtMostOnceInv(Apply(s, Release(reply)))
  {
  }

  lemma AcquireSpaced(s: State, reply: Reply)
    requires AtMostOnceInv(s) && s.pc.Acquiring?
    ensures AtMostOnceInv(ApplyAcquire(s, s.pc.e, s.pc.msg, reply))
  {
  }

  // ---------------------------------------------------------------- acknowledgement

  /** What entitles an entry to be acknowledged. */
  ghost predicate Settled(s: State, e: EntryId) {
    e < |s.stream| && match s.stream[e]
                      case None => e in s.buried
                      case Some(ev) => ev.messageId in s.claimed
  }

  ghost predicate GroupInv(s: State) {
    && s.read <= |s.stream|
    && (forall e: EntryId :: e < s.read <==> e in s.pending || e in s.acked)
    && s.pending !! s.acked
    && (forall e :: e in s.todo ==> e < s.read)
    && s.keys.Keys <= s.claimed
    && (forall e :: e in s.acked ==> Settled(s, e))
    && (s.pc.Burying? ==> s.pc.e < |s.stream| && s.stream[s.pc.e].None?)
    && (s.pc.Acquiring? || s.pc.Delivering? || s.pc.Releasing? ==>
          s.pc.e < |s.stream| && s.stream[s.pc.e].Some? && s.stream[s.pc.e].value.messageId == s.pc.msg)
    && (s.pc.Delivering? || s.pc.Releasing? ==> s.pc.msg in s.claimed)
    && (s.pc.Acking? ==> Settled(s, s.pc.e))
  }

  lemma GroupRead(s: State, n: nat, reply: Reply)
    requires GroupInv(s) && Enabled(s, ReadNew(n, reply))
    ensures GroupInv(Apply(s, ReadNew(n, reply)))
  {
  }

  lemma GroupAcquire(s: State, reply: Reply)
    requires GroupInv(s) && s.pc.Acquiring?
    ensures GroupInv(ApplyAcquire(s, s.pc.e, s.pc.msg, reply))
  {
  }

  lemma GroupAck(s: State, reply: Reply)
    requires GroupInv(s) && Enabled(s, Ack(reply))
    ensures GroupInv(Apply(s, Ack(reply)))
  {
  }

  lemma GroupTake(s: State, callback: bool)
    requires GroupInv(s) && Enabled(s, Take(callback))
    ensures GroupInv(Apply(s, Take(callback)))
  {
    assert s.todo[0] in s.todo;
    assert forall e :: e in s.todo[1..] ==> e in s.todo;
  }

  lemma GroupStep(s: State, step: Step)
    requires GroupInv(s) && Enabled(s, step)
    ensures GroupInv(Apply(s, step))
  {
    hide Unread;
    match step
    case ReadNew(n, reply) => GroupRead(s, n, reply);
    case Take(callback) => GroupTake(s, callback);
    case Ack(reply) => GroupAck(s, reply);
    case Acquire(reply) => GroupAcquire(s, reply);
    case Publish(f) =>
    case _ =>
  }

  // ---------------------------------------------------------------- every run

  lemma {:induction false} RunKeeps(s: State, steps: seq<Step>)
    requires Legal(s, steps) && AtMostOnceInv(s) && GroupInv(s)
    ensures AtMostOnceInv(After(s, steps)) && GroupInv(After(s, steps))
    decreases |steps|
  {
    hide AtMostOnceInv, GroupInv, Apply, Enabled;
    if steps != [] {
      AtMostOnceStep(s, steps[0]);
      GroupStep(s, steps[0]);
      RunKeeps(Apply(s, steps[0]), steps[1..]);
    }
  }

  lemma ReachableInv(s: State)
    requires Reachable(s)
    ensures AtMostOnceInv(s) && GroupInv(s)
  {
    hide Apply, Enabled;
    var steps :| Legal(Init, steps) && s == After(Init, steps);
    RunKeeps(Init, steps);
  }

  /** At most one delivery per dedup period: across crashes, re-claims, duplicate publishes, lost
      replies and failed DELs, two callback runs for one message of which the first delivered (or
      may have) acquired the dedup key at least a full period apart. */
  lemma AtMostOneDelivery(s: State, i: nat, j: nat)
    requires Reachable(s) && i < j < |s.attempts| && s.attempts[i].msg == s.attempts[j].msg
    requires MayHaveDelivered(s.attempts[i])
    ensures s.attempts[j].acquiredAt - s.attempts[i].acquiredAt >= DEDUP_TTL
  {
    hide Reachable;
    ReachableInv(s);
  }

  /** While the dedup period of a possible delivery lasts its key is live, so no SET NX succeeds. */
  lemma DeliveryIsGuarded(s: State, i: nat)
    requires Reachable(s) && i < |s.attempts| && MayHaveDelivered(s.attempts[i])
    requires s.now < s.attempts[i].acquiredAt + DEDUP_TTL
    ensures LiveKey(s, s.attempts[i].msg)
  {
    hide Reachable;
    ReachableInv(s);
    assert Guarded(s, s.attempts[i]);
  }

  /** No entry is lost or acknowledged early: every entry read is either still pending or
      acknowledged, never both, and an acknowledged one was dead-lettered if it is malformed, and
      otherwise its message's dedup key had been claimed. */
  lemma AckedOnlyWhenSettled(s: State, e: EntryId)
    requires Reachable(s)
    ensures e < s.read <==> e in s.pending || e in s.acked
    ensures !(e in s.pending && e in s.acked)
    ensures e in s.acked ==> Settled(s, e)
  {
    hide Reachable;
    ReachableInv(s);
  }
}
