/** The dedup/create section of ChatService::sendMessage (src/service/chat_service.cc:182-219) run by
    any number of calls at once over the transactions of MessageStore. The cache may answer anything at
    any time: it stands for every content, expiry, other server and failure. */
module ConcurrentSends {
  import opened Wrappers
  import M = MessageStore

  type SendId = nat

  /** Where a call of sendMessage stands. `Hit` and `Returned` are answers: the message found under the
      cached id, and whatever createMessage call i returned. */
  datatype Pc =
    | Looking
    | Checking(cachedId: string)
    | Missed
    | Creating(call: M.CallId)
    | Hit(result: M.Result)
    | Returned(call: M.CallId)

  datatype Send = Send(m: M.Message, pc: Pc)

  datatype State = State(store: M.State, sends: seq<Send>)

  const Init := State(M.Init, [])

  datatype Step =
    | Begin(m: M.Message)
    | Lookup(k: SendId, answer: Option<string>)
    | Check(k: SendId, fails: bool)
    | Create(k: SendId)
    | Store(step: M.Step)
    | Return(k: SendId)

  predicate Enabled(s: State, step: Step) {
    match step
    case Begin(_) => true
    case Lookup(k, _) => k < |s.sends| && s.sends[k].pc.Looking?
    case Check(k, _) => k < |s.sends| && s.sends[k].pc.Checking?
    case Create(k) => k < |s.sends| && s.sends[k].pc.Missed?
    case Store(t) => !t.Enter? && M.Enabled(s.store, t)
    case Return(k) =>
      k < |s.sends| && s.sends[k].pc.Creating? && s.sends[k].pc.call < |s.store.calls|
      && s.store.calls[s.sends[k].pc.call].result.Some?
  }

  function Set(s: State, k: SendId, pc: Pc): State
    requires k < |s.sends|
  {
    s.(sends := s.sends[k := s.sends[k].(pc := pc)])
  }

  function Apply(s: State, step: Step): State
    requires Enabled(s, step)
  {
    match step
    case Begin(m) => s.(sends := s.sends + [Send(m, Looking)])
    case Lookup(k, answer) => Set(s, k, if answer.Some? && answer.value != "" then Checking(answer.value) else Missed)
    case Check(k, fails) => Set(s, k, Checked(s, s.sends[k].m, s.sends[k].pc.cachedId, fails))
    case Create(k) => Set(s, k, Creating(|s.store.calls|)).(store := M.Apply(s.store, M.Enter(s.sends[k].m)))
    case Store(t) => s.(store := M.Apply(s.store, t))
    case Return(k) => Set(s, k, Returned(s.sends[k].pc.call))
  }

  /** findMessageByClientMsgId, and the comparison with the cached id. */
  function Checked(s: State, m: M.Message, cachedId: string, fails: bool): Pc {
    var r := M.Find(s.store.rows, m);
    if !fails && r >= 0 && s.store.rows[r].m.id == cachedId
    then Hit(M.Stored(s.store.rows[r].m.id, s.store.rows[r].seqno, false))
    else Missed
  }

  predicate Legal(s: State, steps: seq<Step>)
    decreases |steps|
  {
    steps == [] || (Enabled(s, steps[0]) && Legal(Apply(s, steps[0]), steps[1..]))
  }

  function After(s: State, steps: seq<Step>): State
    requires Legal(s, steps)
    decreases |steps|
  {
    if steps == [] then s else After(Apply(s, steps[0]), steps[1..])
  }

  ghost predicate Reachable(s: State) {
    exists steps :: Legal(Init, steps) && s == After(Init, steps)
  }

  /** What a call of sendMessage has to go on, once it has something. */
  function Answer(s: State, k: SendId): Option<M.Result>
    requires k < |s.sends|
  {
    match s.sends[k].pc
    case Hit(result) => Some(result)
    case Returned(i) => if i < |s.store.calls| then s.store.calls[i].result else None
    case _ => None
  }

  // ---------------------------------------------------------------- the invariant

  /** The createMessage call of a send that has made one. */
  function CallOf(x: Send): Option<M.CallId> {
    if x.pc.Creating? || x.pc.Returned? then Some(x.pc.call) else None
  }

  /** A committed row with this key, id and sequence. */
  ghost predicate Committed(rows: seq<M.Row>, m: M.Message, result: M.Result) {
    result.Stored? && exists r :: 0 <= r < |rows| && M.SameKey(rows[r].m, m) && rows[r].m.id == result.id
                                  && rows[r].seqno == result.seqno
  }

  ghost predicate SendOk(store: M.State, x: Send) {
    && (x.pc.Hit? ==> Committed(store.rows, x.m, x.pc.result) && !x.pc.result.created)
    && (CallOf(x).Some? ==> CallOf(x).value < |store.calls| && store.calls[CallOf(x).value].m == x.m)
  }

  ghost predicate SendsOk(s: State) {
    && (forall k :: 0 <= k < |s.sends| ==> SendOk(s.store, s.sends[k]))
    && (forall j, k :: 0 <= j < k < |s.sends| && CallOf(s.sends[j]).Some? && CallOf(s.sends[k]).Some? ==>
          CallOf(s.sends[j]).value != CallOf(s.sends[k]).value)
  }

  ghost predicate Inv(s: State) {
    M.Inv(s.store) && SendsOk(s)
  }

  /** The store only gains rows and calls. */
  lemma StoreGrows(s: M.State, t: M.Step)
    requires M.Enabled(s, t)
    ensures s.rows <= M.Apply(s, t).rows && |s.calls| <= |M.Apply(s, t).calls|
    ensures forall i :: 0 <= i < |s.calls| ==> M.Apply(s, t).calls[i].m == s.calls[i].m
  {
  }

  lemma SendStays(store: M.State, t: M.Step, x: Send)
    requires M.Enabled(store, t) && SendOk(store, x)
    ensures SendOk(M.Apply(store, t), x)
  {
    StoreGrows(store, t);
    hide M.Apply, M.Enabled;
    if x.pc.Hit? {
      var rows, rows' := store.rows, M.Apply(store, t).rows;
      var r :| 0 <= r < |rows| && M.SameKey(rows[r].m, x.m) && rows[r].m.id == x.pc.result.id
               && rows[r].seqno == x.pc.result.seqno;
      assert rows'[r] == rows[r];
    }
  }

  lemma StoreKeeps(s: State, t: M.Step)
    requires SendsOk(s) && M.Enabled(s.store, t)
    ensures SendsOk(s.(store := M.Apply(s.store, t)))
  {
    hide M.Apply, M.Enabled, SendOk;
    forall k | 0 <= k < |s.sends| ensures SendOk(M.Apply(s.store, t), s.sends[k]) {
      SendStays(s.store, t, s.sends[k]);
    }
  }

  lemma CheckKeeps(s: State, k: SendId, fails: bool)
    requires SendsOk(s) && Enabled(s, Check(k, fails))
    ensures SendsOk(Apply(s, Check(k, fails)))
  {
    hide M.Find;
  }

  lemma CreateKeeps(s: State, k: SendId)
    requires SendsOk(s) && Enabled(s, Create(k))
    ensures SendsOk(Apply(s, Create(k)))
  {
    StoreKeeps(s, M.Enter(s.sends[k].m));
    var t := s.(store := M.Apply(s.store, M.Enter(s.sends[k].m)));
    assert SendsOk(t);
    assert forall j :: 0 <= j < |s.sends| ==> SendOk(s.store, s.sends[j]);
  }

  lemma StepKeeps(s: State, step: Step)
    requires Inv(s) && Enabled(s, step)
    ensures Inv(Apply(s, step))
  {
    hide M.Inv;
    match step
    case Store(t) =>
      StoreKeeps(s, t);
      M.StepKeeps(s.store, t);
    case Create(k) =>
      CreateKeeps(s, k);
      M.StepKeeps(s.store, M.Enter(s.sends[k].m));
    case Check(k, fails) => CheckKeeps(s, k, fails);
    case _ => QuietKeeps(s, step);
  }

  lemma QuietKeeps(s: State, step: Step)
    requires SendsOk(s) && Enabled(s, step) && (step.Begin? || step.Lookup? || step.Return?)
    ensures SendsOk(Apply(s, step))
  {
  }

  lemma {:induction false} RunKeeps(s: State, steps: seq<Step>)
    requires Inv(s) && Legal(s, steps)
    ensures Inv(After(s, steps))
    decreases |steps|
  {
    hide Inv, Apply, Enabled;
    if steps != [] {
      StepKeeps(s, steps[0]);
      RunKeeps(Apply(s, steps[0]), steps[1..]);
    }
  }

  lemma ReachableInv(s: State)
    requires Reachable(s)
    ensures Inv(s)
  {
    hide Apply, Enabled;
    var steps :| Legal(Init, steps) && s == After(Init, steps);
    RunKeeps(Init, steps);
  }

  // ---------------------------------------------------------------- guarantees

  /** An answer with a message names a committed row of that key; its call wrote the row if created. */
  lemma AnswerIsCommitted(s: State, k: SendId) returns (r: nat)
    requires Inv(s) && k < |s.sends| && Answer(s, k).Some? && Answer(s, k).value.Stored?
    ensures r < |s.store.rows| && M.SameKey(s.store.rows[r].m, s.sends[k].m)
    ensures s.store.rows[r].m.id == Answer(s, k).value.id && s.store.rows[r].seqno == Answer(s, k).value.seqno
    ensures Answer(s, k).value.created ==> CallOf(s.sends[k]) == Some(s.store.rows[r].writer)
  {
    hide M.TablesOk, M.HeldOk;
    assert SendOk(s.store, s.sends[k]);
    var rows, m, a := s.store.rows, s.sends[k].m, Answer(s, k).value;
    if s.sends[k].pc.Hit? {
      r :| 0 <= r < |rows| && M.SameKey(rows[r].m, m) && rows[r].m.id == a.id && rows[r].seqno == a.seqno;
    } else {
      var i := s.sends[k].pc.call;
      assert M.CallOk(s.store, i);
      r :| 0 <= r < |rows| && M.SameKey(rows[r].m, m) && rows[r].m.id == a.id && rows[r].seqno == a.seqno
           && (a.created <==> rows[r].writer == i);
    }
  }

  /** Dedup is safe under concurrency: whatever the cache answers and however calls interleave, all
      sends of one sender and client id that get a message get the same committed one, and at most one
      of them is told it is new. */
  lemma AnswersAgree(s: State, j: SendId, k: SendId)
    requires Reachable(s) && j < |s.sends| && k < |s.sends| && M.SameKey(s.sends[j].m, s.sends[k].m)
    requires Answer(s, j).Some? && Answer(s, j).value.Stored? && Answer(s, k).Some? && Answer(s, k).value.Stored?
    ensures Answer(s, j).value.id == Answer(s, k).value.id
    ensures Answer(s, j).value.seqno == Answer(s, k).value.seqno
    ensures Answer(s, j).value.created && Answer(s, k).value.created ==> j == k
  {
    hide Reachable;
    ReachableInv(s);
    var q := AnswerIsCommitted(s, j);
    var r := AnswerIsCommitted(s, k);
    assert M.Distinct(s.store.rows);
    assert M.Collides(s.store.rows[q].m, s.store.rows[r].m);
    assert q == r;
  }

  /** A cache hit is invisible: it gives, in that very state, what a createMessage call with no cache in
      front of it would give, and like it changes no table. */
  lemma HitIsARead(s: State, k: SendId)
    requires Enabled(s, Check(k, false)) && Apply(s, Check(k, false)).sends[k].pc.Hit?
    ensures var i, enter := |s.store.calls|, M.Enter(s.sends[k].m);
      var entered := M.Apply(s.store, enter);
      && M.Enabled(entered, M.Read(i))
      && M.Apply(entered, M.Read(i)).calls[i].result == Some(Apply(s, Check(k, false)).sends[k].pc.result)
      && M.Apply(entered, M.Read(i)).rows == s.store.rows == Apply(s, Check(k, false)).store.rows
  {
  }
}
