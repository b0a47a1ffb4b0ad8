/** The one-call-at-a-time view of createMessage in ChatService against its transactions in MessageStore
    (src/db/message_repository.cc:324-419). */
module OneCall {
  import opened Wrappers
  import C = ChatService
  import M = MessageStore

  function AsMessage(fold: C.Collation, x: C.Record): M.Message {
    M.Message(x.id, x.conv, x.sender, fold(x.client), x.content)
  }

  /** The same table, seen one call at a time and by the transactions. */
  ghost predicate SameTable(fold: C.Collation, records: seq<C.Record>, rows: seq<M.Row>) {
    && |records| == |rows|
    && forall k :: 0 <= k < |rows| ==> rows[k].m == AsMessage(fold, records[k]) && rows[k].seqno == records[k].seqno
  }

  lemma {:induction false} CountMatches(fold: C.Collation, records: seq<C.Record>, rows: seq<M.Row>, conv: string)
    requires SameTable(fold, records, rows)
    ensures C.LastSeq(records, conv) == M.Count(rows, conv)
  {
    if rows != [] {
      var n := |rows| - 1;
      CountMatches(fold, records[..n], rows[..n], conv);
      CountLast(records[..n], records[n], conv);
      assert records == records[..n] + [records[n]];
    }
  }

  lemma {:induction false} CountLast(records: seq<C.Record>, x: C.Record, conv: string)
    ensures C.LastSeq(records + [x], conv) == C.LastSeq(records, conv) + if x.conv == conv then 1 else 0
  {
    if records == [] {
      assert records + [x] == [x];
    } else {
      assert (records + [x])[1..] == records[1..] + [x];
      CountLast(records[1..], x, conv);
    }
  }

  /** Both look-ups find the one row with the key, or none. */
  lemma FindMatches(fold: C.Collation, records: seq<C.Record>, rows: seq<M.Row>, x: C.Record)
    requires SameTable(fold, records, rows) && M.Distinct(rows)
    ensures var found, r := C.Find(fold, records, x.sender, x.client), M.Find(rows, AsMessage(fold, x));
      && (found.Some? <==> r >= 0)
      && (r >= 0 ==> found.value.id == rows[r].m.id && found.value.seqno == rows[r].seqno)
  {
    hide C.Find, M.Find;
    var found, m := C.Find(fold, records, x.sender, x.client), AsMessage(fold, x);
    var r := M.Find(rows, m);
    if r >= 0 { assert records[r] in records; }
    if found.Some? {
      var k :| 0 <= k < |records| && records[k] == found.value;
      assert M.SameKey(rows[k].m, m);
      assert r >= 0 && M.Collides(rows[k].m, rows[r].m);
      assert k == r;
    }
  }

  lemma SameTableGrows(fold: C.Collation, records: seq<C.Record>, rows: seq<M.Row>, x: C.Record, i: M.CallId)
    requires SameTable(fold, records, rows)
    ensures SameTable(fold, records + [x], rows + [M.Row(AsMessage(fold, x), x.seqno, i)])
  {
  }

  /** No transaction is open on the conversation and none holds an uncommitted row. */
  ghost predicate Quiet(s: M.State, conv: string) {
    conv !in s.locks && forall i :: 0 <= i < |s.calls| ==> !M.HoldsRow(s.calls[i])
  }

  lemma Chain(s: M.State, step: M.Step, rest: seq<M.Step>)
    requires M.Enabled(s, step) && M.Legal(M.Apply(s, step), rest)
    ensures M.Legal(s, [step] + rest) && M.After(s, [step] + rest) == M.After(M.Apply(s, step), rest)
  {
    hide M.Apply, M.Enabled;
    assert ([step] + rest)[1..] == rest;
  }

  /** The store with one more call, at this point of createMessage. */
  function With(s: M.State, m: M.Message, pc: M.Pc, locked: bool): M.State {
    s.(calls := s.calls + [M.Call(m, pc, None)], locks := if locked then s.locks[m.conv := |s.calls|] else s.locks)
  }

  /** The steps of one new call of createMessage and of nobody else. */
  predicate Alone(steps: seq<M.Step>, m: M.Message, i: M.CallId) {
    steps != [] && steps[0] == M.Enter(m) && forall k :: 0 < k < |steps| ==> !steps[k].Enter? && steps[k].i == i
  }

  lemma FoundCall(s: M.State, m: M.Message) returns (steps: seq<M.Step>)
    requires M.Find(s.rows, m) >= 0
    ensures Alone(steps, m, |s.calls|)
    ensures var i, r := |s.calls|, M.Find(s.rows, m);
      && M.Legal(s, steps) && M.After(s, steps).rows == s.rows && i < |M.After(s, steps).calls|
      && M.After(s, steps).calls[i].result == Some(M.Stored(s.rows[r].m.id, s.rows[r].seqno, false))
  {
    hide M.Find, M.Legal, M.After;
    var i := |s.calls|;
    var s1 := M.Apply(s, M.Enter(m));
    NoSteps(M.Apply(s1, M.Read(i)));
    Chain(s1, M.Read(i), []);
    Chain(s, M.Enter(m), [M.Read(i)] + []);
    steps := [M.Enter(m)] + ([M.Read(i)] + []);
  }

  lemma NoSteps(s: M.State)
    ensures M.Legal(s, []) && M.After(s, []) == s
  {
  }

  lemma Starts(s: M.State, m: M.Message)
    requires M.Find(s.rows, m) < 0 && m.conv !in s.locks
    ensures var i := |s.calls|;
      && M.Apply(s, M.Enter(m)) == With(s, m, M.Reading, false)
      && M.Apply(With(s, m, M.Reading, false), M.Read(i)) == With(s, m, M.Starting, false)
      && M.Enabled(With(s, m, M.Starting, false), M.Upsert(i))
      && M.Apply(With(s, m, M.Starting, false), M.Upsert(i)) == With(s, m, M.Locked, true)
  {
    hide M.Find;
  }

  lemma Inserts(s: M.State, m: M.Message)
    requires M.Find(s.rows, m) < 0 && Quiet(s, m.conv) && forall k :: 0 <= k < |s.rows| ==> s.rows[k].m.id != m.id
    ensures var i, n := |s.calls|, M.LastSeq(s, m.conv) + 1;
      && M.Enabled(With(s, m, M.Locked, true), M.Allocate(i))
      && M.Apply(With(s, m, M.Locked, true), M.Allocate(i)) == With(s, m, M.Allocated(n), true)
      && M.Enabled(With(s, m, M.Allocated(n), true), M.Insert(i))
      && M.Apply(With(s, m, M.Allocated(n), true), M.Insert(i)) == With(s, m, M.Inserted(n), true)
  {
    hide M.Find;
  }

  lemma Commits(s: M.State, m: M.Message, n: int) returns (s': M.State)
    ensures var commit := M.Commit(|s.calls|, M.Acknowledged);
      M.Enabled(With(s, m, M.Inserted(n), true), commit) && s' == M.Apply(With(s, m, M.Inserted(n), true), commit)
    ensures s'.rows == s.rows + [M.Row(m, n, |s.calls|)] && |s.calls| < |s'.calls|
    ensures s'.calls[|s.calls|].result == Some(M.Stored(m.id, n, true))
  {
    s' := M.Apply(With(s, m, M.Inserted(n), true), M.Commit(|s.calls|, M.Acknowledged));
  }

  lemma NewCall(s: M.State, m: M.Message) returns (steps: seq<M.Step>)
    requires M.Find(s.rows, m) < 0 && Quiet(s, m.conv) && forall k :: 0 <= k < |s.rows| ==> s.rows[k].m.id != m.id
    ensures Alone(steps, m, |s.calls|)
    ensures var i, n := |s.calls|, M.LastSeq(s, m.conv) + 1;
      && M.Legal(s, steps) && M.After(s, steps).rows == s.rows + [M.Row(m, n, i)]
      && i < |M.After(s, steps).calls| && M.After(s, steps).calls[i].result == Some(M.Stored(m.id, n, true))
  {
    var i, n := |s.calls|, M.LastSeq(s, m.conv) + 1;
    assert M.Enabled(s, M.Enter(m)) && M.Enabled(With(s, m, M.Reading, false), M.Read(i));
    Starts(s, m);
    Inserts(s, m);
    var s' := Commits(s, m, n);
    hide M.Apply, M.Enabled, M.Legal, M.After, With, M.Find, Quiet;
    NoSteps(s');
    Chain(With(s, m, M.Inserted(n), true), M.Commit(i, M.Acknowledged), []);
    steps := [M.Commit(i, M.Acknowledged)] + [];
    Chain(With(s, m, M.Allocated(n), true), M.Insert(i), steps);
    steps := [M.Insert(i)] + steps;
    Chain(With(s, m, M.Locked, true), M.Allocate(i), steps);
    steps := [M.Allocate(i)] + steps;
    Chain(With(s, m, M.Starting, false), M.Upsert(i), steps);
    steps := [M.Upsert(i)] + steps;
    Chain(With(s, m, M.Reading, false), M.Read(i), steps);
    steps := [M.Read(i)] + steps;
    Chain(s, M.Enter(m), steps);
    steps := [M.Enter(m)] + steps;
  }

  lemma TableFacts(s: M.State, conv: string)
    requires M.Inv(s)
    ensures M.LastSeq(s, conv) == M.Count(s.rows, conv) && M.Distinct(s.rows)
  {
    hide M.CallOk, M.HeldOk, M.Dense, M.Distinct, M.Count;
  }

  /** The one-call view is the transactions' own: a createMessage call run alone, statement by statement,
      ends with the table and the result that ChatService.Create gives. */
  lemma UndisturbedCallIsCreate(fold: C.Collation, records: seq<C.Record>, s: M.State, pending: C.Record)
      returns (steps: seq<M.Step>)
    requires M.Inv(s) && SameTable(fold, records, s.rows) && Quiet(s, pending.conv)
    requires forall k :: 0 <= k < |records| ==> records[k].id != pending.id
    ensures Alone(steps, AsMessage(fold, pending), |s.calls|)
    ensures M.Legal(s, steps) && |s.calls| < |M.After(s, steps).calls|
    ensures var (records', stored, created) := C.Create(fold, records, pending);
      && SameTable(fold, records', M.After(s, steps).rows)
      && M.After(s, steps).calls[|s.calls|].result == Some(M.Stored(stored.id, stored.seqno, created))
  {
    TableFacts(s, pending.conv);
    hide M.Inv, M.Apply, M.Legal, M.After, M.Find, C.Find, SameTable, Quiet, Alone;
    FindMatches(fold, records, s.rows, pending);
    if M.Find(s.rows, AsMessage(fold, pending)) >= 0 {
      steps := FoundCall(s, AsMessage(fold, pending));
    } else {
      steps := NewIsCreate(fold, records, s, pending);
    }
  }

  lemma NewIsCreate(fold: C.Collation, records: seq<C.Record>, s: M.State, pending: C.Record)
      returns (steps: seq<M.Step>)
    requires SameTable(fold, records, s.rows) && Quiet(s, pending.conv)
    requires forall k :: 0 <= k < |records| ==> records[k].id != pending.id
    requires M.Find(s.rows, AsMessage(fold, pending)) < 0
    requires M.LastSeq(s, pending.conv) == M.Count(s.rows, pending.conv)
    ensures Alone(steps, AsMessage(fold, pending), |s.calls|)
    ensures var stored := pending.(seqno := C.LastSeq(records, pending.conv) + 1);
      && M.Legal(s, steps) && |s.calls| < |M.After(s, steps).calls|
      && SameTable(fold, records + [stored], M.After(s, steps).rows)
      && M.After(s, steps).calls[|s.calls|].result == Some(M.Stored(stored.id, stored.seqno, true))
  {
    var m := AsMessage(fold, pending);
    assert forall k :: 0 <= k < |s.rows| ==> s.rows[k].m.id != m.id;
    hide M.Apply, M.Legal, M.After, M.Find, M.Count, C.LastSeq, SameTable, Quiet;
    steps := NewCall(s, m);
    CountMatches(fold, records, s.rows, pending.conv);
    SameTableGrows(fold, records, s.rows, pending.(seqno := M.LastSeq(s, pending.conv) + 1), |s.calls|);
  }
}
