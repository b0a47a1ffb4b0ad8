/** Concurrent idempotent createMessage transactions (src/db/message_repository.cc:324-419) over the
    tables of sql/001_create_chat_tables.sql. Any number of calls run interleaved, one statement
    at a time; statements, connections and commits may fail at any point. */
module MessageStore {
  import opened Wrappers

  type CallId = nat

  /** A message to store. `clientKey` is what the unique index compares: the sender's client
      message id under the column's collation. */
  datatype Message = Message(id: string, conv: string, sender: int, clientKey: string, content: string)

  /** A committed row of `messages`, with the call that wrote it. */
  datatype Row = Row(m: Message, seqno: int, writer: CallId)

  datatype Result = Stored(id: string, seqno: int, created: bool) | Error

  datatype Pc =
    | Reading
    | Starting
    | Locked                    // conversation row upserted and locked
    | Allocated(seqno: int)     // last_seq incremented in the transaction
    | Inserted(seqno: int)      // message row inserted, not committed
    | Orphaned(seqno: int)      // COMMIT sent, reply lost, server undecided
    | Rereading                 // rolled back after a duplicate-key error
    | Done

  datatype Call = Call(m: Message, pc: Pc, result: Option<Result>)

  /** lastSeq and rows are committed state; locks are the row locks on conversations. */
  datatype State = State(rows: seq<Row>, lastSeq: map<string, int>, locks: map<string, CallId>, calls: seq<Call>)

  const Init := State([], map[], map[], [])

  datatype CommitReply = Acknowledged | Rejected | Unknown

  datatype Step =
    | Enter(m: Message)
    | Read(i: CallId)
    | Upsert(i: CallId)
    | Allocate(i: CallId)
    | Insert(i: CallId)
    | Commit(i: CallId, reply: CommitReply)
    | Resolve(i: CallId, committed: bool)
    | Reread(i: CallId)
    | Fail(i: CallId)

  predicate SameKey(a: Message, b: Message) {
    a.sender == b.sender && a.clientKey == b.clientKey
  }

  /** Index of the committed row with m's client key, or -1. */
  function Find(rows: seq<Row>, m: Message): (r: int)
    ensures -1 <= r < |rows|
    ensures r >= 0 ==> SameKey(rows[r].m, m)
    ensures r == -1 ==> forall k :: 0 <= k < |rows| ==> !SameKey(rows[k].m, m)
  {
    if rows == [] then -1
    else if SameKey(rows[|rows| - 1].m, m) then |rows| - 1
    else Find(rows[..|rows| - 1], m)
  }

  predicate HoldsRow(c: Call) {
    c.pc.Inserted? || c.pc.Orphaned?
  }

  predicate Collides(a: Message, b: Message) {
    SameKey(a, b) || a.id == b.id
  }

  /** The INSERT waits while another transaction holds an uncommitted row it would collide with. */
  predicate Unblocked(s: State, i: CallId)
    requires i < |s.calls|
  {
    forall j :: 0 <= j < |s.calls| && HoldsRow(s.calls[j]) ==> !Collides(s.calls[j].m, s.calls[i].m)
  }

  predicate Enabled(s: State, step: Step) {
    match step
    case Enter(_) => true
    case Read(i) => i < |s.calls| && s.calls[i].pc.Reading?
    case Upsert(i) => i < |s.calls| && s.calls[i].pc.Starting? && s.calls[i].m.conv !in s.locks
    case Allocate(i) => i < |s.calls| && s.calls[i].pc.Locked?
    case Insert(i) => i < |s.calls| && s.calls[i].pc.Allocated? && Unblocked(s, i)
    case Commit(i, _) => i < |s.calls| && s.calls[i].pc.Inserted?
    case Resolve(i, _) => i < |s.calls| && s.calls[i].pc.Orphaned?
    case Reread(i) => i < |s.calls| && s.calls[i].pc.Rereading?
    case Fail(i) => i < |s.calls| && !s.calls[i].pc.Done? && !s.calls[i].pc.Orphaned?
  }

  function Set(s: State, i: CallId, c: Call): State
    requires i < |s.calls|
  {
    s.(calls := s.calls[i := c])
  }

  function LastSeq(s: State, conv: string): int {
    if conv in s.lastSeq then s.lastSeq[conv] else 0
  }

  /** End the transaction of call i without effect. */
  function Rollback(s: State, i: CallId, c: Call): State
    requires i < |s.calls|
  {
    var s' := Set(s, i, c);
    if s.calls[i].m.conv in s.locks && s.locks[s.calls[i].m.conv] == i then
      s'.(locks := s.locks - {s.calls[i].m.conv})
    else s'
  }

  /** Make call i's row and its conversation's new last_seq visible. */
  function CommitRow(s: State, i: CallId, seqno: int, c: Call): State
    requires i < |s.calls|
  {
    var m := s.calls[i].m;
    Rollback(s, i, c).(rows := s.rows + [Row(m, seqno, i)], lastSeq := s.lastSeq[m.conv := seqno])
  }

  function Fetched(s: State, i: CallId, otherwise: Call): State
    requires i < |s.calls|
  {
    var r := Find(s.rows, s.calls[i].m);
    if r >= 0 then
      Set(s, i, s.calls[i].(pc := Done, result := Some(Stored(s.rows[r].m.id, s.rows[r].seqno, false))))
    else
      Set(s, i, otherwise)
  }

  /** Only Enter adds a call. */
  function Apply(s: State, step: Step): (r: State)
    requires Enabled(s, step)
    ensures |r.calls| == |s.calls| + if step.Enter? then 1 else 0
  {
    match step
    case Enter(m) => s.(calls := s.calls + [Call(m, Reading, None)])
    case Read(i) => Fetched(s, i, s.calls[i].(pc := Starting))
    case Upsert(i) => Set(s, i, s.calls[i].(pc := Locked)).(locks := s.locks[s.calls[i].m.conv := i])
    case Allocate(i) => Set(s, i, s.calls[i].(pc := Allocated(LastSeq(s, s.calls[i].m.conv) + 1)))
    case Insert(i) =>
      if exists r :: 0 <= r < |s.rows| && Collides(s.rows[r].m, s.calls[i].m) then
        Rollback(s, i, s.calls[i].(pc := Rereading))
      else
        Set(s, i, s.calls[i].(pc := Inserted(s.calls[i].pc.seqno)))
    case Commit(i, reply) =>
      var n := s.calls[i].pc.seqno;
      match reply {
        case Acknowledged =>
          CommitRow(s, i, n, s.calls[i].(pc := Done, result := Some(Stored(s.calls[i].m.id, n, true))))
        case Rejected => Rollback(s, i, s.calls[i].(pc := Done, result := Some(Error)))
        case Unknown => Set(s, i, s.calls[i].(pc := Orphaned(n), result := Some(Error)))
      }
    case Resolve(i, committed) =>
      if committed then CommitRow(s, i, s.calls[i].pc.seqno, s.calls[i].(pc := Done))
      else Rollback(s, i, s.calls[i].(pc := Done))
    case Reread(i) => Fetched(s, i, s.calls[i].(pc := Done, result := Some(Error)))
    case Fail(i) => Rollback(s, i, s.calls[i].(pc := Done, result := Some(Error)))
  }

  predicate Legal(s: State, steps: seq<Step>)
    decreases |steps|
  {
    steps == [] || (Enabled(s, steps[0]) && Legal(Apply(s, steps[0]), steps[1..]))
  }

  function After(s: State, steps: seq<Step>): State
    requires Legal(s, steps)
    decreases |steps|
  {
    if steps == [] then s else After(Apply(s, steps[0]), steps[1..])
  }

  ghost predicate Reachable(s: State) {
    exists steps :: Legal(Init, steps) && s == After(Init, steps)
  }

  // ---------------------------------------------------------------- the invariant

  /** How many rows conversation `conv` has. */
  function Count(rows: seq<Row>, conv: string): nat {
    if rows == [] then 0
    else Count(rows[..|rows| - 1], conv) + (if rows[|rows| - 1].m.conv == conv then 1 else 0)
  }

  /** Each row's sequence is one more than the number of rows its conversation had before it. */
  ghost predicate Dense(rows: seq<Row>) {
    forall r :: 0 <= r < |rows| ==> rows[r].seqno == Count(rows[..r], rows[r].m.conv) + 1
  }

  ghost predicate Distinct(rows: seq<Row>) {
    forall q, r :: 0 <= q < r < |rows| ==> !Collides(rows[q].m, rows[r].m) && rows[q].writer != rows[r].writer
  }

  ghost predicate TablesOk(s: State) {
    Dense(s.rows) && Distinct(s.rows) && forall conv :: LastSeq(s, conv) == Count(s.rows, conv)
  }

  predicate InTransaction(c: Call) {
    c.pc.Locked? || c.pc.Allocated? || HoldsRow(c)
  }

  /** The transaction of call i: it owns its conversation's lock, has the next sequence, and holds
      a row that collides with nothing committed. */
  ghost predicate CallOk(s: State, i: CallId)
    requires i < |s.calls|
  {
    var c := s.calls[i];
    && (InTransaction(c) ==> c.m.conv in s.locks && s.locks[c.m.conv] == i)
    && (c.pc.Allocated? || HoldsRow(c) ==> c.pc.seqno == LastSeq(s, c.m.conv) + 1)
    && (HoldsRow(c) ==> forall r :: 0 <= r < |s.rows| ==> !Collides(s.rows[r].m, c.m))
    && (!c.pc.Done? ==> forall r :: 0 <= r < |s.rows| ==> s.rows[r].writer != i)
    && (c.result.Some? <==> c.pc.Done? || c.pc.Orphaned?)
    && (c.result.Some? && c.result.value.Stored? ==> Confirmed(s.rows, c.m, i, c.result.value))
  }

  /** A successful result is about a committed row with the call's key, its own if created. */
  ghost predicate Confirmed(rows: seq<Row>, m: Message, i: CallId, res: Result)
    requires res.Stored?
  {
    exists r :: 0 <= r < |rows| && SameKey(rows[r].m, m) && rows[r].m.id == res.id && rows[r].seqno == res.seqno
                && (res.created <==> rows[r].writer == i)
  }

  /** Uncommitted rows do not collide with each other, and rows remember calls that exist. */
  ghost predicate HeldOk(s: State) {
    && (forall i, j :: 0 <= i < j < |s.calls| && HoldsRow(s.calls[i]) && HoldsRow(s.calls[j]) ==>
          !Collides(s.calls[i].m, s.calls[j].m))
    && (forall r :: 0 <= r < |s.rows| ==> s.rows[r].writer < |s.calls|)
  }

  ghost predicate Inv(s: State) {
    TablesOk(s) && HeldOk(s) && forall i :: 0 <= i < |s.calls| ==> CallOk(s, i)
  }

  // ---------------------------------------------------------------- preservation

  lemma AppendDense(rows: seq<Row>, row: Row)
    requires Dense(rows) && row.seqno == Count(rows, row.m.conv) + 1
    ensures Dense(rows + [row])
    ensures forall conv :: Count(rows + [row], conv) == Count(rows, conv) + (if row.m.conv == conv then 1 else 0)
  {
    var rows' := rows + [row];
    assert rows'[..|rows|] == rows;
    forall r | 0 <= r < |rows'| ensures rows'[r].seqno == Count(rows'[..r], rows'[r].m.conv) + 1 {
      assert rows'[..r] == rows[..r];
    }
  }

  lemma CommitTables(s: State, i: CallId, c: Call)
    requires TablesOk(s) && i < |s.calls| && HoldsRow(s.calls[i]) && CallOk(s, i)
    ensures TablesOk(CommitRow(s, i, s.calls[i].pc.seqno, c))
  {
    hide Count;
    AppendDense(s.rows, Row(s.calls[i].m, s.calls[i].pc.seqno, i));
  }

  lemma StepTables(s: State, step: Step)
    requires Inv(s) && Enabled(s, step)
    ensures TablesOk(Apply(s, step))
  {
    hide Count, Dense, Distinct;
    match step
    case Commit(i, reply) =>
      if reply.Acknowledged? {
        CommitTables(s, i, s.calls[i].(pc := Done, result := Some(Stored(s.calls[i].m.id, s.calls[i].pc.seqno, true))));
      }
    case Resolve(i, committed) =>
      if committed { CommitTables(s, i, s.calls[i].(pc := Done)); }
    case _ =>
  }

  lemma ConfirmedGrows(rows: seq<Row>, row: Row, m: Message, i: CallId, res: Result)
    requires res.Stored? && Confirmed(rows, m, i, res)
    ensures Confirmed(rows + [row], m, i, res)
  {
    var r :| 0 <= r < |rows| && SameKey(rows[r].m, m) && rows[r].m.id == res.id && rows[r].seqno == res.seqno
             && (res.created <==> rows[r].writer == i);
    assert (rows + [row])[r] == rows[r];
  }

  /** Other calls do not notice call i's commit. */
  lemma CommitOther(s: State, i: CallId, c: Call, k: CallId)
    requires HeldOk(s) && i < |s.calls| && HoldsRow(s.calls[i]) && CallOk(s, i)
    requires k < |s.calls| && k != i && CallOk(s, k)
    ensures CallOk(CommitRow(s, i, s.calls[i].pc.seqno, c), k)
  {
    hide Confirmed;
    var row, d := Row(s.calls[i].m, s.calls[i].pc.seqno, i), s.calls[k];
    if d.result.Some? && d.result.value.Stored? {
      ConfirmedGrows(s.rows, row, d.m, k, d.result.value);
    }
  }

  lemma CommitOwn(s: State, i: CallId)
    requires i < |s.calls| && HoldsRow(s.calls[i]) && CallOk(s, i)
    ensures s.calls[i].pc.Inserted? ==> CallOk(Apply(s, Commit(i, Acknowledged)), i)
    ensures s.calls[i].pc.Orphaned? ==> CallOk(Apply(s, Resolve(i, true)), i)
  {
    assert (s.rows + [Row(s.calls[i].m, s.calls[i].pc.seqno, i)])[|s.rows|].writer == i;
  }

  predicate Commits(step: Step) {
    (step.Commit? && step.reply.Acknowledged?) || (step.Resolve? && step.committed)
  }

  lemma InsertOther(s: State, i: CallId, k: CallId)
    requires Enabled(s, Insert(i)) && k < |s.calls| && i != k && CallOk(s, k) && CallOk(s, i)
    ensures CallOk(Apply(s, Insert(i)), k)
  {
    hide Confirmed, Collides;
  }

  lemma StepOther(s: State, step: Step, k: CallId)
    requires Inv(s) && Enabled(s, step) && k < |s.calls| && (step.Enter? || step.i != k)
    ensures CallOk(Apply(s, step), k)
  {
    hide TablesOk, HeldOk, Confirmed;
    assert CallOk(s, k);
    match step
    case Enter(m) =>
    case Upsert(i) =>
    case Insert(i) => InsertOther(s, i, k);
    case Commit(i, reply) =>
      assert CallOk(s, i);
      var n := s.calls[i].pc.seqno;
      if reply.Acknowledged? {
        CommitOther(s, i, s.calls[i].(pc := Done, result := Some(Stored(s.calls[i].m.id, n, true))), k);
      }
    case Resolve(i, committed) =>
      assert CallOk(s, i);
      if committed { CommitOther(s, i, s.calls[i].(pc := Done), k); }
    case _ =>
  }

  /** The read statements: a committed row with the call's key was not written by the call itself. */
  lemma FetchedOwn(s: State, i: CallId, otherwise: Call)
    requires i < |s.calls| && CallOk(s, i) && !s.calls[i].pc.Done? && !InTransaction(s.calls[i])
    requires Find(s.rows, s.calls[i].m) < 0 ==> CallOk(Set(s, i, otherwise), i)
    ensures CallOk(Fetched(s, i, otherwise), i)
  {
    var r := Find(s.rows, s.calls[i].m);
    if r >= 0 {
      assert s.rows[r].writer != i;
    }
  }

  lemma StepOwn(s: State, step: Step)
    requires Inv(s) && Enabled(s, step) && !step.Enter?
    ensures CallOk(Apply(s, step), step.i)
  {
    hide TablesOk, HeldOk, Confirmed, Collides;
    var i := step.i;
    assert CallOk(s, i);
    if Commits(step) {
      CommitOwn(s, i);
    } else if step.Read? {
      FetchedOwn(s, i, s.calls[i].(pc := Starting));
    } else if step.Reread? {
      FetchedOwn(s, i, s.calls[i].(pc := Done, result := Some(Error)));
    }
  }

  lemma InsertHeld(s: State, i: nat)
    requires Inv(s) && Enabled(s, Insert(i))
    ensures HeldOk(Apply(s, Insert(i)))
  {
    hide TablesOk, CallOk, Collides;
    var s' := Apply(s, Insert(i));
    forall j, k | 0 <= j < k < |s'.calls| && HoldsRow(s'.calls[j]) && HoldsRow(s'.calls[k])
      ensures !Collides(s'.calls[j].m, s'.calls[k].m)
    {
      CollidesBack(s.calls[j].m, s.calls[k].m);
    }
  }

  lemma StepHeld(s: State, step: Step)
    requires Inv(s) && Enabled(s, step)
    ensures HeldOk(Apply(s, step))
  {
    if step.Insert? {
      InsertHeld(s, step.i);
    } else {
      var s' := Apply(s, step);
      WritersExist(s, step);
      hide TablesOk, CallOk, Collides, Apply;
      forall j, k | 0 <= j < k < |s'.calls| && HoldsRow(s'.calls[j]) && HoldsRow(s'.calls[k])
        ensures !Collides(s'.calls[j].m, s'.calls[k].m)
      {
        HeldBefore(s, step, j);
        HeldBefore(s, step, k);
      }
    }
  }

  /** Only an INSERT makes a call hold a row. */
  lemma HeldBefore(s: State, step: Step, k: CallId)
    requires Enabled(s, step) && !step.Insert? && k < |Apply(s, step).calls| && HoldsRow(Apply(s, step).calls[k])
    ensures k < |s.calls| && HoldsRow(s.calls[k]) && s.calls[k].m == Apply(s, step).calls[k].m
  {
  }

  lemma WritersExist(s: State, step: Step)
    requires HeldOk(s) && Enabled(s, step)
    ensures forall r :: 0 <= r < |Apply(s, step).rows| ==> Apply(s, step).rows[r].writer < |Apply(s, step).calls|
  {
    hide Collides;
  }

  lemma CollidesBack(a: Message, b: Message)
    ensures Collides(a, b) == Collides(b, a)
  {
  }

  lemma StepKeeps(s: State, step: Step)
    requires Inv(s) && Enabled(s, step)
    ensures Inv(Apply(s, step))
  {
    hide TablesOk, HeldOk, CallOk, Collides;
    StepTables(s, step);
    StepHeld(s, step);
    var s' := Apply(s, step);
    forall k | 0 <= k < |s'.calls| ensures CallOk(s', k) {
      if step.Enter? && k == |s.calls| {
        EnterOwn(s, step.m);
      } else if step.Enter? || step.i != k {
        StepOther(s, step, k);
      } else {
        StepOwn(s, step);
      }
    }
  }

  lemma EnterOwn(s: State, m: Message)
    requires HeldOk(s)
    ensures CallOk(Apply(s, Enter(m)), |s.calls|)
  {
  }

  lemma {:induction false} RunKeeps(s: State, steps: seq<Step>)
    requires Inv(s) && Legal(s, steps)
    ensures Inv(After(s, steps))
    decreases |steps|
  {
    hide Inv, Apply, Enabled;
    if steps != [] {
      StepKeeps(s, steps[0]);
      RunKeeps(Apply(s, steps[0]), steps[1..]);
    }
  }

  lemma ReachableInv(s: State)
    requires Reachable(s)
    ensures Inv(s)
  {
    hide Apply, Enabled;
    var steps :| Legal(Init, steps) && s == After(Init, steps);
    RunKeeps(Init, steps);
  }

  // ---------------------------------------------------------------- the guarantees

  predicate Succeeded(c: Call) {
    c.result.Some? && c.result.value.Stored?
  }

  /** Idempotence: all successful calls for one sender and client id return the same message id and
      sequence, and at most one of them returns created = true. */
  lemma OneMessagePerKey(s: State, i: CallId, j: CallId)
    requires Reachable(s) && i < |s.calls| && j < |s.calls|
    requires Succeeded(s.calls[i]) && Succeeded(s.calls[j]) && SameKey(s.calls[i].m, s.calls[j].m)
    ensures s.calls[i].result.value.id == s.calls[j].result.value.id
    ensures s.calls[i].result.value.seqno == s.calls[j].result.value.seqno
    ensures s.calls[i].result.value.created && s.calls[j].result.value.created ==> i == j
  {
    hide Reachable, Dense, Count;
    ReachableInv(s);
    assert CallOk(s, i) && CallOk(s, j);
  }

  /** Every committed row is the message of the call that wrote it. */
  ghost predicate AsSent(s: State) {
    forall r :: 0 <= r < |s.rows| ==> s.rows[r].writer < |s.calls| && s.rows[r].m == s.calls[s.rows[r].writer].m
  }

  lemma StepAsSent(s: State, step: Step)
    requires Enabled(s, step) && AsSent(s)
    ensures AsSent(Apply(s, step))
  {
    var s' := Apply(s, step);
    forall r | 0 <= r < |s'.rows|
      ensures s'.rows[r].writer < |s'.calls| && s'.rows[r].m == s'.calls[s'.rows[r].writer].m
    {
      assert r < |s.rows| ==> s'.rows[r] == s.rows[r];
    }
  }

  lemma {:induction false} RowsAreAsSent(s: State, steps: seq<Step>)
    requires AsSent(s) && Legal(s, steps)
    ensures AsSent(After(s, steps))
    decreases |steps|
  {
    hide AsSent, Apply, Enabled;
    if steps != [] {
      StepAsSent(s, steps[0]);
      RowsAreAsSent(Apply(s, steps[0]), steps[1..]);
    }
  }

  /** A successful result names a committed row, and the call wrote it exactly if told created. */
  lemma SuccessIsCommitted(s: State, i: CallId)
    requires Reachable(s) && i < |s.calls| && Succeeded(s.calls[i])
    ensures exists r :: 0 <= r < |s.rows| && SameKey(s.rows[r].m, s.calls[i].m)
              && s.rows[r].m.id == s.calls[i].result.value.id && s.rows[r].seqno == s.calls[i].result.value.seqno
              && (s.calls[i].result.value.created <==> s.rows[r].writer == i)
  {
    hide Reachable, Dense, Count;
    ReachableInv(s);
    assert CallOk(s, i);
  }

  /** Each conversation's committed sequences are exactly 1..last_seq: every number in the range
      belongs to exactly one row, and no row has a number outside it. */
  lemma SequencesAreDense(s: State, conv: string, n: int)
    requires Reachable(s)
    ensures (exists r :: 0 <= r < |s.rows| && s.rows[r].m.conv == conv && s.rows[r].seqno == n)
            <==> 1 <= n <= LastSeq(s, conv)
    ensures forall q, r :: 0 <= q < r < |s.rows| && s.rows[q].m.conv == s.rows[r].m.conv ==>
              s.rows[q].seqno < s.rows[r].seqno
  {
    hide Reachable, Distinct, Count;
    ReachableInv(s);
    if 1 <= n <= LastSeq(s, conv) {
      var r := RowWithSeq(s.rows, conv, n);
    }
    forall r | 0 <= r < |s.rows| && s.rows[r].m.conv == conv ensures 1 <= s.rows[r].seqno <= LastSeq(s, conv) {
      CountGrows(s.rows, r, |s.rows|, conv);
    }
    forall q, r | 0 <= q < r < |s.rows| && s.rows[q].m.conv == s.rows[r].m.conv
      ensures s.rows[q].seqno < s.rows[r].seqno
    {
      CountGrows(s.rows, q, r, s.rows[q].m.conv);
    }
  }

  lemma {:induction false} CountGrows(rows: seq<Row>, q: nat, r: nat, conv: string)
    requires q < r <= |rows|
    ensures Count(rows[..q], conv) + (if rows[q].m.conv == conv then 1 else 0) <= Count(rows[..r], conv)
    ensures rows[..|rows|] == rows
    decreases r
  {
    assert rows[..r][..r - 1] == rows[..r - 1];
    if q + 1 < r {
      CountGrows(rows, q, r - 1, conv);
    }
  }

  lemma {:induction false} RowWithSeq(rows: seq<Row>, conv: string, n: int) returns (r: nat)
    requires Dense(rows) && 1 <= n <= Count(rows, conv)
    ensures r < |rows| && rows[r].m.conv == conv && rows[r].seqno == n
  {
    var front := rows[..|rows| - 1];
    if rows[|rows| - 1].m.conv == conv && n == Count(rows, conv) {
      r := |rows| - 1;
    } else {
      assert forall k :: 0 <= k < |front| ==> front[..k] == rows[..k];
      r := RowWithSeq(front, conv, n);
    }
  }
}
