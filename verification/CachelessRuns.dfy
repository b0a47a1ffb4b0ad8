/** Dedup transparency under concurrency: every run of the sends of ConcurrentSends with a cache has a
    run without one that stores the same messages and answers every send alike
    (src/service/chat_service.cc:182-208). */
module CachelessRuns {
  import opened ConcurrentSends
  import opened Wrappers
  import M = MessageStore

  // ---------------------------------------------------------------- the stores of the two runs

  /** b holds the calls of a, call i under id f[i], and beside them only calls that are done; the tables
      are the same up to those ids. */
  ghost predicate SameCalls(a: M.State, b: M.State, f: seq<nat>) {
    && |f| == |a.calls|
    && (forall i :: 0 <= i < |f| ==> f[i] < |b.calls| && b.calls[f[i]] == a.calls[i])
    && (forall i, j :: 0 <= i < j < |f| ==> f[i] < f[j])
    && (forall x :: 0 <= x < |b.calls| && x !in f ==> b.calls[x].pc.Done?)
  }

  ghost predicate SameRows(a: seq<M.Row>, b: seq<M.Row>, f: seq<nat>) {
    && |a| == |b|
    && forall r :: 0 <= r < |a| ==>
         b[r].m == a[r].m && b[r].seqno == a[r].seqno && a[r].writer < |f| && b[r].writer == f[a[r].writer]
  }

  ghost predicate SameLocks(a: map<string, M.CallId>, b: map<string, M.CallId>, f: seq<nat>) {
    a.Keys == b.Keys && forall conv :: conv in a ==> a[conv] < |f| && b[conv] == f[a[conv]]
  }

  ghost predicate SameStore(a: M.State, b: M.State, f: seq<nat>) {
    SameCalls(a, b, f) && SameRows(a.rows, b.rows, f) && SameLocks(a.locks, b.locks, f) && a.lastSeq == b.lastSeq
  }

  /** The step of the same call in the other run. */
  function Renamed(t: M.Step, f: seq<nat>): M.Step
    requires !t.Enter? && t.i < |f|
  {
    match t
    case Read(i) => M.Read(f[i])
    case Upsert(i) => M.Upsert(f[i])
    case Allocate(i) => M.Allocate(f[i])
    case Insert(i) => M.Insert(f[i])
    case Commit(i, reply) => M.Commit(f[i], reply)
    case Resolve(i, committed) => M.Resolve(f[i], committed)
    case Reread(i) => M.Reread(f[i])
    case Fail(i) => M.Fail(f[i])
  }

  lemma {:induction false} FindSame(a: seq<M.Row>, b: seq<M.Row>, m: M.Message)
    requires |a| == |b| && forall r :: 0 <= r < |a| ==> b[r].m == a[r].m
    ensures M.Find(a, m) == M.Find(b, m)
  {
    if a != [] {
      FindSame(a[..|a| - 1], b[..|b| - 1], m);
    }
  }

  lemma SetSame(a: M.State, b: M.State, f: seq<nat>, i: M.CallId, c: M.Call)
    requires SameCalls(a, b, f) && i < |a.calls|
    ensures SameCalls(M.Set(a, i, c), M.Set(b, f[i], c), f)
  {
    assert f[i] in f;
  }

  lemma RollbackSame(a: M.State, b: M.State, f: seq<nat>, i: M.CallId, c: M.Call)
    requires SameStore(a, b, f) && i < |a.calls|
    ensures SameStore(M.Rollback(a, i, c), M.Rollback(b, f[i], c), f)
  {
    SetSame(a, b, f, i, c);
    var conv := a.calls[i].m.conv;
    if conv in a.locks {
      var j := a.locks[conv];
      assert j < i || j == i || i < j;
    }
    hide SameCalls, SameRows;
  }

  lemma CommitSame(a: M.State, b: M.State, f: seq<nat>, i: M.CallId, n: int, c: M.Call)
    requires SameStore(a, b, f) && i < |a.calls|
    ensures SameStore(M.CommitRow(a, i, n, c), M.CommitRow(b, f[i], n, c), f)
  {
    RollbackSame(a, b, f, i, c);
    assert b.calls[f[i]] == a.calls[i];
    var m := a.calls[i].m;
    RowSame(a.rows, b.rows, f, M.Row(m, n, i));
    hide SameRows, SameLocks;
  }

  lemma RowSame(a: seq<M.Row>, b: seq<M.Row>, f: seq<nat>, row: M.Row)
    requires SameRows(a, b, f) && row.writer < |f|
    ensures SameRows(a + [row], b + [row.(writer := f[row.writer])], f)
  {
  }

  lemma FetchedSame(a: M.State, b: M.State, f: seq<nat>, i: M.CallId, otherwise: M.Call)
    requires SameStore(a, b, f) && i < |a.calls|
    ensures SameStore(M.Fetched(a, i, otherwise), M.Fetched(b, f[i], otherwise), f)
  {
    FindSame(a.rows, b.rows, a.calls[i].m);
    assert b.calls[f[i]] == a.calls[i];
    var r := M.Find(a.rows, a.calls[i].m);
    hide M.Find, SameLocks;
    if r >= 0 {
      SetSame(a, b, f, i, a.calls[i].(pc := M.Done, result := Some(M.Stored(a.rows[r].m.id, a.rows[r].seqno, false))));
    } else {
      SetSame(a, b, f, i, otherwise);
    }
  }

  /** An INSERT waits in one run exactly when it waits in the other. */
  lemma UnblockedSame(a: M.State, b: M.State, f: seq<nat>, i: M.CallId)
    requires SameCalls(a, b, f) && i < |a.calls| && M.Unblocked(a, i)
    ensures M.Unblocked(b, f[i])
  {
    forall x | 0 <= x < |b.calls| && M.HoldsRow(b.calls[x]) ensures !M.Collides(b.calls[x].m, b.calls[f[i]].m) {
      var j :| 0 <= j < |f| && f[j] == x;
      assert b.calls[x] == a.calls[j];
    }
  }

  lemma InsertSame(a: M.State, b: M.State, f: seq<nat>, i: M.CallId)
    requires SameStore(a, b, f) && M.Enabled(a, M.Insert(i))
    ensures M.Enabled(b, M.Insert(f[i])) && SameStore(M.Apply(a, M.Insert(i)), M.Apply(b, M.Insert(f[i])), f)
  {
    UnblockedSame(a, b, f, i);
    assert b.calls[f[i]] == a.calls[i];
    var m := a.calls[i].m;
    assert (exists r :: 0 <= r < |a.rows| && M.Collides(a.rows[r].m, m))
      <==> (exists r :: 0 <= r < |b.rows| && M.Collides(b.rows[r].m, m)) by { CollidesSame(a.rows, b.rows, f, m); }
    hide M.Collides, M.Unblocked;
    RollbackSame(a, b, f, i, a.calls[i].(pc := M.Rereading));
    SetSame(a, b, f, i, a.calls[i].(pc := M.Inserted(a.calls[i].pc.seqno)));
  }

  lemma CollidesSame(a: seq<M.Row>, b: seq<M.Row>, f: seq<nat>, m: M.Message)
    requires SameRows(a, b, f)
    ensures (exists r :: 0 <= r < |a| && M.Collides(a[r].m, m)) <==> (exists r :: 0 <= r < |b| && M.Collides(b[r].m, m))
  {
    if r :| 0 <= r < |a| && M.Collides(a[r].m, m) { assert M.Collides(b[r].m, m); }
    if r :| 0 <= r < |b| && M.Collides(b[r].m, m) { assert M.Collides(a[r].m, m); }
  }

  lemma CommitStepSame(a: M.State, b: M.State, f: seq<nat>, i: M.CallId, reply: M.CommitReply)
    requires SameStore(a, b, f) && M.Enabled(a, M.Commit(i, reply))
    ensures M.Enabled(b, M.Commit(f[i], reply))
    ensures SameStore(M.Apply(a, M.Commit(i, reply)), M.Apply(b, M.Commit(f[i], reply)), f)
  {
    assert b.calls[f[i]] == a.calls[i];
    var n, c := a.calls[i].pc.seqno, a.calls[i];
    CommitSame(a, b, f, i, n, c.(pc := M.Done, result := Some(M.Stored(c.m.id, n, true))));
    RollbackSame(a, b, f, i, c.(pc := M.Done, result := Some(M.Error)));
    SetSame(a, b, f, i, c.(pc := M.Orphaned(n), result := Some(M.Error)));
    hide M.CommitRow, M.Rollback;
  }

  lemma ResolveSame(a: M.State, b: M.State, f: seq<nat>, i: M.CallId, committed: bool)
    requires SameStore(a, b, f) && M.Enabled(a, M.Resolve(i, committed))
    ensures M.Enabled(b, M.Resolve(f[i], committed))
    ensures SameStore(M.Apply(a, M.Resolve(i, committed)), M.Apply(b, M.Resolve(f[i], committed)), f)
  {
    assert b.calls[f[i]] == a.calls[i];
    var n, c := a.calls[i].pc.seqno, a.calls[i];
    CommitSame(a, b, f, i, n, c.(pc := M.Done));
    RollbackSame(a, b, f, i, c.(pc := M.Done));
    hide M.CommitRow, M.Rollback;
  }

  lemma UpsertSame(a: M.State, b: M.State, f: seq<nat>, i: M.CallId)
    requires SameStore(a, b, f) && M.Enabled(a, M.Upsert(i))
    ensures M.Enabled(b, M.Upsert(f[i])) && SameStore(M.Apply(a, M.Upsert(i)), M.Apply(b, M.Upsert(f[i])), f)
  {
    assert b.calls[f[i]] == a.calls[i];
    SetSame(a, b, f, i, a.calls[i].(pc := M.Locked));
    hide SameRows;
  }

  /** A step of a call and the step of its counterpart keep the stores the same. */
  lemma StoreStepSame(a: M.State, b: M.State, f: seq<nat>, t: M.Step)
    requires SameStore(a, b, f) && M.Enabled(a, t) && !t.Enter?
    ensures t.i < |f| && M.Enabled(b, Renamed(t, f)) && SameStore(M.Apply(a, t), M.Apply(b, Renamed(t, f)), f)
  {
    var i := t.i;
    assert i < |f| && b.calls[f[i]] == a.calls[i];
    hide M.Find, M.Rollback, M.Fetched;
    match t
    case Read(_) => FetchedSame(a, b, f, i, a.calls[i].(pc := M.Starting));
    case Upsert(_) => UpsertSame(a, b, f, i);
    case Allocate(_) => SetSame(a, b, f, i, a.calls[i].(pc := M.Allocated(M.LastSeq(a, a.calls[i].m.conv) + 1)));
    case Insert(_) => InsertSame(a, b, f, i);
    case Commit(_, reply) => CommitStepSame(a, b, f, i, reply);
    case Resolve(_, committed) => ResolveSame(a, b, f, i, committed);
    case Reread(_) => FetchedSame(a, b, f, i, a.calls[i].(pc := M.Done, result := Some(M.Error)));
    case Fail(_) => RollbackSame(a, b, f, i, a.calls[i].(pc := M.Done, result := Some(M.Error)));
  }

  /** A call entered in both runs. */
  lemma EnterSame(a: M.State, b: M.State, f: seq<nat>, m: M.Message)
    requires SameStore(a, b, f)
    ensures SameStore(M.Apply(a, M.Enter(m)), M.Apply(b, M.Enter(m)), f + [|b.calls|])
  {
    EnterCalls(a, b, f, m);
    hide SameCalls;
  }

  lemma EnterCalls(a: M.State, b: M.State, f: seq<nat>, m: M.Message)
    requires SameCalls(a, b, f)
    ensures SameCalls(M.Apply(a, M.Enter(m)), M.Apply(b, M.Enter(m)), f + [|b.calls|])
  {
    var g := f + [|b.calls|];
    assert g[|f|] in g && forall x :: x in f ==> x in g;
  }

  /** A call that is entered in the second run alone and reads an existing message. */
  lemma ReadAlone(a: M.State, b: M.State, f: seq<nat>, m: M.Message)
    requires SameStore(a, b, f) && M.Find(a.rows, m) >= 0
    ensures var i, r := |b.calls|, M.Find(a.rows, m);
      var entered := M.Apply(b, M.Enter(m));
      && M.Enabled(entered, M.Read(i))
      && var b' := M.Apply(entered, M.Read(i));
         && SameStore(a, b', f) && b.calls <= b'.calls && |b'.calls| == i + 1
         && b'.calls[i] == M.Call(m, M.Done, Some(M.Stored(a.rows[r].m.id, a.rows[r].seqno, false)))
  {
    FindSame(a.rows, b.rows, m);
    hide M.Find, SameLocks;
  }

  // ---------------------------------------------------------------- the sends of the two runs

  /** Where a send stands without the cache: a hit has called createMessage and got the same from it. */
  ghost predicate SameSend(x: Send, y: Send, b: M.State, f: seq<nat>) {
    && y.m == x.m
    && match x.pc
       case Looking => y.pc.Looking?
       case Checking(_) => y.pc.Missed?
       case Missed => y.pc.Missed?
       case Creating(i) => i < |f| && y.pc == Creating(f[i])
       case Returned(i) => i < |f| && y.pc == Returned(f[i])
       case Hit(result) =>
         && y.pc.Returned? && y.pc.call < |b.calls|
         && b.calls[y.pc.call].pc.Done? && b.calls[y.pc.call].result == Some(result)
  }

  ghost predicate SameSends(s: State, t: State, f: seq<nat>) {
    |s.sends| == |t.sends| && forall k :: 0 <= k < |s.sends| ==> SameSend(s.sends[k], t.sends[k], t.store, f)
  }

  ghost predicate Same(s: State, t: State, f: seq<nat>) {
    SameStore(s.store, t.store, f) && SameSends(s, t, f)
  }

  /** A run in which the cache is never asked, or never has anything. */
  predicate Cacheless(steps: seq<Step>) {
    forall k :: 0 <= k < |steps| ==> !steps[k].Check? && (steps[k].Lookup? ==> steps[k].answer.None?)
  }

  /** A done call does not change any more. */
  lemma DoneStays(b: M.State, t: M.Step, x: M.CallId)
    requires M.Enabled(b, t) && x < |b.calls| && b.calls[x].pc.Done?
    ensures M.Apply(b, t).calls[x] == b.calls[x]
  {
  }

  lemma SendStaysSame(x: Send, y: Send, b: M.State, t: M.Step, f: seq<nat>)
    requires SameSend(x, y, b, f) && M.Enabled(b, t)
    ensures SameSend(x, y, M.Apply(b, t), f)
  {
    if x.pc.Hit? { DoneStays(b, t, y.pc.call); }
    hide M.Apply, M.Enabled;
  }

  lemma StoreSim(s: State, t: State, f: seq<nat>, step: M.Step)
    requires Same(s, t, f) && Enabled(s, Store(step))
    ensures step.i < |f| && Enabled(t, Store(Renamed(step, f)))
    ensures Same(Apply(s, Store(step)), Apply(t, Store(Renamed(step, f))), f)
  {
    StoreStepSame(s.store, t.store, f, step);
    hide M.Apply, M.Enabled, SameStore, SameSend;
    forall k | 0 <= k < |s.sends|
      ensures SameSend(s.sends[k], t.sends[k], M.Apply(t.store, Renamed(step, f)), f)
    {
      SendStaysSame(s.sends[k], t.sends[k], t.store, Renamed(step, f), f);
    }
  }

  lemma CreateSim(s: State, t: State, f: seq<nat>, k: SendId)
    requires Same(s, t, f) && Enabled(s, Create(k))
    ensures Enabled(t, Create(k)) && Same(Apply(s, Create(k)), Apply(t, Create(k)), f + [|t.store.calls|])
  {
    var m, g := s.sends[k].m, f + [|t.store.calls|];
    EnterSame(s.store, t.store, f, m);
    var b' := M.Apply(t.store, M.Enter(m));
    forall j | 0 <= j < |s.sends| && j != k ensures SameSend(s.sends[j], t.sends[j], b', g) {
      SendStaysSame(s.sends[j], t.sends[j], t.store, M.Enter(m), f);
    }
    assert |f| == |s.store.calls|;
    hide SameStore;
  }

  lemma QuietSim(s: State, t: State, f: seq<nat>, step: Step)
    requires Same(s, t, f) && Enabled(s, step) && (step.Begin? || step.Return?)
    ensures Enabled(t, step) && Same(Apply(s, step), Apply(t, step), f)
  {
    hide SameRows, SameLocks;
  }

  lemma LookupSim(s: State, t: State, f: seq<nat>, k: SendId, answer: Option<string>)
    requires Same(s, t, f) && Enabled(s, Lookup(k, answer))
    ensures Enabled(t, Lookup(k, None)) && Same(Apply(s, Lookup(k, answer)), Apply(t, Lookup(k, None)), f)
  {
    hide SameStore;
  }

  lemma MissSim(s: State, t: State, f: seq<nat>, k: SendId, fails: bool)
    requires Same(s, t, f) && Enabled(s, Check(k, fails)) && !Apply(s, Check(k, fails)).sends[k].pc.Hit?
    ensures Same(Apply(s, Check(k, fails)), t, f)
  {
    hide SameStore, M.Find;
  }

  /** What a hit is without the cache. */
  function Instead(k: SendId, i: M.CallId): seq<Step> {
    [Create(k), Store(M.Read(i)), Return(k)]
  }

  lemma HitSim(s: State, t: State, f: seq<nat>, k: SendId, fails: bool) returns (t': State)
    requires Same(s, t, f) && Enabled(s, Check(k, fails)) && Apply(s, Check(k, fails)).sends[k].pc.Hit?
    ensures Legal(t, Instead(k, |t.store.calls|)) && t' == After(t, Instead(k, |t.store.calls|))
    ensures Same(Apply(s, Check(k, fails)), t', f)
  {
    var i, m := |t.store.calls|, s.sends[k].m;
    ReadAlone(s.store, t.store, f, m);
    var t1 := Apply(t, Create(k));
    var t2 := Apply(t1, Store(M.Read(i)));
    t' := Apply(t2, Return(k));
    var entered := M.Apply(t.store, M.Enter(m));
    forall j | 0 <= j < |s.sends| && j != k ensures SameSend(s.sends[j], t.sends[j], t'.store, f) {
      SendStaysSame(s.sends[j], t.sends[j], t.store, M.Enter(m), f);
      SendStaysSame(s.sends[j], t.sends[j], entered, M.Read(i), f);
    }
    hide M.Apply, SameStore, M.Find;
    assert Same(Apply(s, Check(k, fails)), t', f);
    ThreeSteps(t, Create(k), Store(M.Read(i)), Return(k));
  }

  lemma ThreeSteps(t: State, x: Step, y: Step, z: Step)
    requires Enabled(t, x) && Enabled(Apply(t, x), y) && Enabled(Apply(Apply(t, x), y), z)
    ensures Legal(t, [x, y, z]) && After(t, [x, y, z]) == Apply(Apply(Apply(t, x), y), z)
  {
    hide Apply, Enabled, Legal, After;
    OneStep(t, x);
    OneStep(Apply(t, x), y);
    OneStep(Apply(Apply(t, x), y), z);
    Joined(Apply(t, x), [y], [z]);
    assert [y] + [z] == [y, z];
    Joined(t, [x], [y, z]);
    assert [x] + [y, z] == [x, y, z];
  }

  /** One step of the cached run, and the steps of the cacheless run that match it. */
  lemma Match(s: State, t: State, f: seq<nat>, step: Step) returns (steps: seq<Step>, g: seq<nat>)
    requires Same(s, t, f) && Enabled(s, step)
    ensures Legal(t, steps) && Cacheless(steps) && Same(Apply(s, step), After(t, steps), g)
  {
    g := f;
    match step
    case Lookup(k, answer) =>
      LookupSim(s, t, f, k, answer);
      steps := [Lookup(k, None)];
      OneStep(t, steps[0]);
    case Check(k, fails) =>
      if Apply(s, step).sends[k].pc.Hit? {
        var t' := HitSim(s, t, f, k, fails);
        steps := Instead(k, |t.store.calls|);
      } else {
        MissSim(s, t, f, k, fails);
        steps := [];
      }
    case Create(k) =>
      CreateSim(s, t, f, k);
      steps, g := [step], f + [|t.store.calls|];
      OneStep(t, step);
    case Store(x) =>
      StoreSim(s, t, f, x);
      steps := [Store(Renamed(x, f))];
      OneStep(t, steps[0]);
    case Begin(_) =>
      QuietSim(s, t, f, step);
      steps := [step];
      OneStep(t, step);
    case Return(_) =>
      QuietSim(s, t, f, step);
      steps := [step];
      OneStep(t, step);
  }

  lemma OneStep(t: State, step: Step)
    requires Enabled(t, step)
    ensures Legal(t, [step]) && After(t, [step]) == Apply(t, step)
  {
    hide Apply, Enabled;
    assert [step][1..] == [];
    assert Legal(Apply(t, step), []) && After(Apply(t, step), []) == Apply(t, step);
  }

  lemma {:induction false} Joined(t: State, first: seq<Step>, second: seq<Step>)
    requires Legal(t, first) && Legal(After(t, first), second)
    ensures Legal(t, first + second) && After(t, first + second) == After(After(t, first), second)
    decreases |first|
  {
    hide Apply, Enabled;
    if first == [] {
      assert first + second == second;
    } else {
      assert (first + second)[1..] == first[1..] + second;
      Joined(Apply(t, first[0]), first[1..], second);
    }
  }

  lemma {:induction false} Simulate(s: State, t: State, f: seq<nat>, steps: seq<Step>)
      returns (plain: seq<Step>, g: seq<nat>)
    requires Same(s, t, f) && Legal(s, steps)
    ensures Legal(t, plain) && Cacheless(plain) && Same(After(s, steps), After(t, plain), g)
    decreases |steps|
  {
    hide Same, Apply, Enabled;
    if steps == [] {
      plain, g := [], f;
    } else {
      var first, h := Match(s, t, f, steps[0]);
      var rest;
      rest, g := Simulate(Apply(s, steps[0]), After(t, first), h, steps[1..]);
      Joined(t, first, rest);
      plain := first + rest;
    }
  }

  /** What a client and the database can tell apart: the answers of the sends and the stored messages. */
  ghost predicate Indistinguishable(s: State, t: State) {
    && |s.sends| == |t.sends|
    && (forall k :: 0 <= k < |s.sends| ==> s.sends[k].m == t.sends[k].m && Answer(s, k) == Answer(t, k))
    && |s.store.rows| == |t.store.rows|
    && (forall r :: 0 <= r < |s.store.rows| ==>
          s.store.rows[r].m == t.store.rows[r].m && s.store.rows[r].seqno == t.store.rows[r].seqno)
    && s.store.lastSeq == t.store.lastSeq
  }

  /** The cache is invisible: whatever it answers and however sends and transactions interleave and
      fail, there is a run in which it is never asked, or never has anything, that stores the same
      messages under the same numbers and gives every send the same answer. */
  lemma CacheIsInvisible(steps: seq<Step>) returns (plain: seq<Step>)
    requires Legal(Init, steps)
    ensures Legal(Init, plain) && Cacheless(plain) && Indistinguishable(After(Init, steps), After(Init, plain))
  {
    assert Same(Init, Init, []);
    hide Legal, After, Cacheless;
    var f;
    plain, f := Simulate(Init, Init, [], steps);
    SameIsIndistinguishable(After(Init, steps), After(Init, plain), f);
  }

  lemma SameIsIndistinguishable(s: State, t: State, f: seq<nat>)
    requires Same(s, t, f)
    ensures Indistinguishable(s, t)
  {
    forall k | 0 <= k < |s.sends| ensures s.sends[k].m == t.sends[k].m && Answer(s, k) == Answer(t, k) {
      assert SameSend(s.sends[k], t.sends[k], t.store, f);
    }
  }
}
