/** Per-connection request serialization with delivery fences (src/TcpServer.cc:544-976).
    The system is a transition system: one I/O thread with a program counter, any number of
    worker jobs, the completed-response queue and the post-delivery event queue. A run is a
    sequence of `Step`s in any interleaving. */
module RequestFlow {
  import opened ConnectionContext
  import opened Wrappers

  type ConnId = nat

  /** IMessageHandler's OutboundMessage and HandleResult; session actions are in ConnectionTable. */
  datatype Push = Push(target: ConnId, payload: string, messageId: string)
  datatype HandleResult = HandleResult(response: string, pushes: seq<Push>, delivered: seq<string>)

  /** A cross-connection mark job: marking in the database, target looked up, fence lowered. */
  datatype MarkPc = Marking | Found | Lowered

  datatype Work =
    | Handle(conn: ConnId, ordinal: nat, request: Packet)                          // worker job
    | FinishMark(conn: ConnId)                                                     // worker job
    | CrossMark(conn: ConnId, pc: MarkPc)                                          // worker job
    | Reply(conn: ConnId, ordinal: nat, closeAfter: bool, result: HandleResult)    // completed queue
    | FinishEvent(conn: ConnId)                                                    // event queue
    | ReleaseEvent(conn: ConnId)                                                   // event queue

  /** What a connection's send buffer received, in order. */
  datatype Output = Response(ordinal: nat, payload: string) | Pushed(payload: string)

  datatype Conn = Conn(gate: Gate, received: seq<Packet>, dispatched: seq<Packet>, out: seq<Output>)

  datatype Stage =
    | Responding
    | Pushing(left: seq<Push>)
    | Fencing
    | FenceSubmitting(target: ConnId)
    | FencePosting(target: ConnId)
    | Finishing

  datatype Io =
    | Idle
    | Busy(conn: ConnId, ordinal: nat, result: HandleResult, stage: Stage,
           deferred: bool, sameIds: seq<string>, cross: set<ConnId>)

  datatype State = State(conns: map<ConnId, Conn>, nextConn: ConnId, jobs: seq<Work>,
                         completed: seq<Work>, events: seq<Work>, io: Io)

  const Init := State(map[], 1, [], [], [], Idle)

  datatype Step =
    | Accept
    | Close(c: ConnId)
    | Receive(c: ConnId, packet: Packet, submitted: bool)
    | HandlerReturns(i: nat, result: HandleResult)
    | HandlerThrows(i: nat)
    | FinishMarked(i: nat)
    | CrossAdvance(i: nat)
    | IoTake
    | IoRespond(written: bool, submitted: bool)
    | IoPush(bound: bool, written: bool)
    | IoFence(t: ConnId)
    | IoFenceSubmit(submitted: bool)
    | IoFencePost
    | IoSame(submitted: bool)
    | IoFinish(submitted: bool)
    | IoEvent(submitted: bool)

  // ---------------------------------------------------------------- transitions

  function Without<T>(s: seq<T>, i: nat): seq<T>
    requires i < |s|
  {
    s[..i] + s[i + 1..]
  }

  function CloseConn(s: State, c: ConnId): State {
    s.(conns := s.conns - {c})
  }

  function Append(s: State, c: ConnId, o: Output): State {
    if c in s.conns then s.(conns := s.conns[c := s.conns[c].(out := s.conns[c].out + [o])]) else s
  }

  function AddMarks(s: State, c: ConnId, n: int): State {
    if c in s.conns then
      var g := s.conns[c].gate;
      s.(conns := s.conns[c := s.conns[c].(gate := g.(marks := g.marks + n))])
    else s
  }

  /** submitRequestTask with the request the gate let through; a failed submission closes. */
  function Submit(s: State, c: ConnId, g: Gate, next: Option<Packet>, submitted: bool): State
    requires c in s.conns
  {
    if next.None? then
      s.(conns := s.conns[c := s.conns[c].(gate := g)])
    else if submitted then
      var conn := s.conns[c];
      s.(conns := s.conns[c := conn.(gate := g, dispatched := conn.dispatched + [next.value])],
         jobs := s.jobs + [Handle(c, |conn.dispatched|, next.value)])
    else
      CloseConn(s, c)
  }

  /** finishCurrentRequestAndSubmitNext. */
  function FinishCurrent(s: State, c: ConnId, submitted: bool): State {
    if c in s.conns then
      var (g, next) := FinishAndPop(s.conns[c].gate);
      Submit(s, c, g, next, submitted)
    else s
  }

  /** submitNextQueuedRequestIfIdle. */
  function ResumeIfIdle(s: State, c: ConnId, submitted: bool): State {
    if c in s.conns then
      var (g, next) := PopIfIdle(s.conns[c].gate);
      Submit(s, c, g, next, submitted)
    else s
  }

  predicate Enabled(s: State, step: Step) {
    match step
    case Accept => s.io.Idle?
    case Close(c) => s.io.Idle? && c in s.conns
    case Receive(c, p, _) => s.io.Idle? && c in s.conns && p != ""
    case HandlerReturns(i, _) => i < |s.jobs| && s.jobs[i].Handle?
    case HandlerThrows(i) => i < |s.jobs| && s.jobs[i].Handle?
    case FinishMarked(i) => i < |s.jobs| && s.jobs[i].FinishMark?
    case CrossAdvance(i) => i < |s.jobs| && s.jobs[i].CrossMark?
    case IoTake => s.io.Idle? && s.completed != [] && s.completed[0].Reply?
    case IoRespond(_, _) => s.io.Busy? && s.io.stage.Responding?
    case IoPush(_, _) => s.io.Busy? && s.io.stage.Pushing? && s.io.stage.left != []
    case IoFence(t) => s.io.Busy? && (s.io.stage == Pushing([]) || s.io.stage.Fencing?) && t in s.io.cross
    case IoFenceSubmit(_) => s.io.Busy? && s.io.stage.FenceSubmitting?
    case IoFencePost => s.io.Busy? && s.io.stage.FencePosting?
    case IoSame(_) => s.io.Busy? && (s.io.stage == Pushing([]) || s.io.stage.Fencing?) && s.io.cross == {}
    case IoFinish(_) => s.io.Busy? && s.io.stage.Finishing?
    case IoEvent(_) => s.io.Idle? && s.events != [] && (s.events[0].FinishEvent? || s.events[0].ReleaseEvent?)
  }

  function Apply(s: State, step: Step): State
    requires Enabled(s, step)
  {
    match step
    case Accept =>
      s.(conns := s.conns[s.nextConn := Conn(OpenGate, [], [], [])], nextConn := s.nextConn + 1)
    case Close(c) => CloseConn(s, c)
    case Receive(c, p, submitted) => ApplyReceive(s, c, p, submitted)
    case HandlerReturns(i, r) => ApplyHandled(s, i, false, r)
    case HandlerThrows(i) => ApplyHandled(s, i, true, HandleResult("", [], []))
    case FinishMarked(i) =>
      s.(jobs := Without(s.jobs, i), events := s.events + [FinishEvent(s.jobs[i].conn)])
    case CrossAdvance(i) => ApplyCross(s, i)
    case IoTake => ApplyTake(s)
    case IoRespond(written, submitted) => ApplyRespond(s, written, submitted)
    case IoPush(bound, written) => ApplyPush(s, bound, written)
    case IoFence(t) => ApplyFence(s, t)
    case IoFenceSubmit(submitted) => ApplyFenceSubmit(s, submitted)
    case IoFencePost =>
      s.(events := s.events + [ReleaseEvent(s.io.stage.target)], io := s.io.(stage := Fencing))
    case IoSame(submitted) =>
      if s.io.sameIds != [] && submitted then
        s.(jobs := s.jobs + [FinishMark(s.io.conn)], io := s.io.(stage := Finishing, deferred := true))
      else
        s.(io := s.io.(stage := Finishing))
    case IoFinish(submitted) =>
      var s' := s.(io := Idle);
      if s.io.deferred then s' else FinishCurrent(s', s.io.conn, submitted)
    case IoEvent(submitted) =>
      var e := s.events[0];
      var s' := s.(events := Without(s.events, 0));
      if e.FinishEvent? then FinishCurrent(s', e.conn, submitted) else ResumeIfIdle(s', e.conn, submitted)
  }

  /** One packet of onReadable. */
  function ApplyReceive(s: State, c: ConnId, p: Packet, submitted: bool): State
    requires c in s.conns
  {
    var conn := s.conns[c];
    var (g, started) := StartOrQueue(conn.gate, p);
    var s' := s.(conns := s.conns[c := conn.(received := conn.received + [p])]);
    Submit(s', c, g, if started then Some(p) else None, submitted)
  }

  /** The end of the worker lambda: the reply is queued if the connection still exists. */
  function ApplyHandled(s: State, i: nat, closeAfter: bool, r: HandleResult): State
    requires i < |s.jobs| && s.jobs[i].Handle?
  {
    var j := s.jobs[i];
    var s' := s.(jobs := Without(s.jobs, i));
    if j.conn in s.conns then
      s'.(completed := s.completed + [Reply(j.conn, j.ordinal, closeAfter, r)])
    else s'
  }

  /** One step of a cross-connection mark job (src/TcpServer.cc:904-917). */
  function ApplyCross(s: State, i: nat): State
    requires i < |s.jobs| && s.jobs[i].CrossMark?
  {
    var j := s.jobs[i];
    var rest := s.(jobs := Without(s.jobs, i));
    match j.pc
    case Marking =>
      if j.conn in s.conns then rest.(jobs := rest.jobs + [CrossMark(j.conn, Found)]) else rest
    case Found =>
      AddMarks(rest.(jobs := rest.jobs + [CrossMark(j.conn, Lowered)]), j.conn, -1)
    case Lowered =>
      rest.(events := s.events + [ReleaseEvent(j.conn)])
  }

  function ApplyTake(s: State): State
    requires s.completed != [] && s.completed[0].Reply?
  {
    var t := s.completed[0];
    var s' := s.(completed := Without(s.completed, 0));
    if t.conn !in s.conns then s'
    else if t.closeAfter then CloseConn(s', t.conn)
    else s'.(io := Busy(t.conn, t.ordinal, t.result, Responding, false, [], {}))
  }

  /** Queue the response and submit the offline-pull mark job (src/TcpServer.cc:820-849). */
  function ApplyRespond(s: State, written: bool, submitted: bool): State
    requires s.io.Busy?
  {
    var r := s.io.result;
    var next := s.(io := s.io.(stage := Pushing(r.pushes)));
    if r.response == "" then next
    else if !written then CloseConn(s, s.io.conn).(io := Idle)
    else
      var sent := Append(next, s.io.conn, Response(s.io.ordinal, r.response));
      if r.delivered != [] && submitted then
        sent.(jobs := s.jobs + [FinishMark(s.io.conn)], io := next.io.(deferred := true))
      else sent
  }

  /** One iteration of the push loop (src/TcpServer.cc:863-891). */
  function ApplyPush(s: State, bound: bool, written: bool): State
    requires s.io.Busy? && s.io.stage.Pushing? && s.io.stage.left != []
  {
    var p := s.io.stage.left[0];
    var s' := s.(io := s.io.(stage := Pushing(s.io.stage.left[1..])));
    if !bound || p.target !in s.conns || p.payload == "" then s'
    else if !written then CloseConn(s', p.target)
    else
      var sent := Append(s', p.target, Pushed(p.payload));
      if p.messageId == "" then sent
      else if p.target == s.io.conn then
        sent.(io := s'.io.(sameIds := s.io.sameIds + [p.messageId]))
      else
        sent.(io := s'.io.(cross := s.io.cross + {p.target}))
  }

  /** Raise the fence of one push target (src/TcpServer.cc:894-899). */
  function ApplyFence(s: State, t: ConnId): State
    requires s.io.Busy?
  {
    var io := s.io.(cross := s.io.cross - {t});
    if t in s.conns then
      AddMarks(s, t, 1).(io := io.(stage := FenceSubmitting(t)))
    else
      s.(io := io.(stage := Fencing))
  }

  /** Submit its mark job, or lower the fence again (src/TcpServer.cc:903-926). */
  function ApplyFenceSubmit(s: State, submitted: bool): State
    requires s.io.Busy? && s.io.stage.FenceSubmitting?
  {
    var t := s.io.stage.target;
    if submitted then
      s.(jobs := s.jobs + [CrossMark(t, Marking)], io := s.io.(stage := Fencing))
    else
      AddMarks(s, t, -1).(io := s.io.(stage := FencePosting(t)))
  }

  // ---------------------------------------------------------------- runs

  predicate Legal(s: State, steps: seq<Step>)
    decreases |steps|
  {
    steps == [] || (Enabled(s, steps[0]) && Legal(Apply(s, steps[0]), steps[1..]))
  }

  function After(s: State, steps: seq<Step>): State
    requires Legal(s, steps)
    decreases |steps|
  {
    if steps == [] then s else After(Apply(s, steps[0]), steps[1..])
  }

  /** The handler answered `c` with both a mark-on-response list and a marked push to `c` itself. */
  predicate FinishesTwice(c: ConnId, r: HandleResult) {
    r.response != "" && r.delivered != [] && exists p :: p in r.pushes && MarksOwn(c, p)
  }

  predicate MarksOwn(c: ConnId, p: Push) {
    p.target == c && p.payload != "" && p.messageId != ""
  }

  /** The hypothesis the server needs of its handler, step by step. */
  predicate Disciplined(s: State, step: Step) {
    step.HandlerReturns? && step.i < |s.jobs| && s.jobs[step.i].Handle? ==>
      !FinishesTwice(s.jobs[step.i].conn, step.result)
  }

  predicate DisciplinedRun(s: State, steps: seq<Step>)
    requires Legal(s, steps)
    decreases |steps|
  {
    steps != [] ==> Disciplined(s, steps[0]) && DisciplinedRun(Apply(s, steps[0]), steps[1..])
  }

  // ---------------------------------------------------------------- the ledger

  /** What outstanding work is worth to one connection:
      token: it will finish the current request; fence: it holds the fence up; release: it will
      make the I/O thread look at the queue again; unanswered: the current request has no response yet. */
  datatype Books = Books(token: int, fence: int, release: int, unanswered: int)

  const Zero := Books(0, 0, 0, 0)

  function Plus(a: Books, b: Books): Books {
    Books(a.token + b.token, a.fence + b.fence, a.release + b.release, a.unanswered + b.unanswered)
  }

  function Worth(w: Work, c: ConnId): Books {
    if w.conn != c then Zero else
    match w
    case Handle(_, _, _) => Books(1, 0, 0, 1)
    case Reply(_, _, _, _) => Books(1, 0, 0, 1)
    case FinishMark(_) => Books(1, 0, 0, 0)
    case FinishEvent(_) => Books(1, 0, 0, 0)
    case CrossMark(_, pc) => Books(0, if pc.Lowered? then 0 else 1, 1, 0)
    case ReleaseEvent(_) => Books(0, 0, 1, 0)
  }

  function Sum(ws: seq<Work>, c: ConnId): (b: Books)
    ensures 0 <= b.fence <= b.release && 0 <= b.unanswered <= b.token
  {
    if ws == [] then Zero else Plus(Worth(ws[0], c), Sum(ws[1..], c))
  }

  function IoWorth(io: Io, c: ConnId): Books {
    if io.Idle? then Zero else
    Books(if io.conn == c && !io.deferred then 1 else 0,
          if io.stage == FenceSubmitting(c) then 1 else 0,
          if io.stage == FenceSubmitting(c) || io.stage == FencePosting(c) then 1 else 0,
          if io.conn == c && !io.deferred && io.stage.Responding? then 1 else 0)
  }

  function Ledger(s: State, c: ConnId): (b: Books)
    ensures 0 <= b.fence <= b.release && 0 <= b.unanswered <= b.token
  {
    hide Sum;
    Plus(Plus(Sum(s.jobs, c), Sum(s.completed, c)), Plus(Sum(s.events, c), IoWorth(s.io, c)))
  }

  lemma {:induction false} Appended(ws: seq<Work>, w: Work, c: ConnId)
    ensures Sum(ws + [w], c) == Plus(Sum(ws, c), Worth(w, c))
  {
    if ws == [] {
      assert (ws + [w])[1..] == [];
    } else {
      assert (ws + [w])[1..] == ws[1..] + [w];
      Appended(ws[1..], w, c);
    }
  }

  lemma {:induction false} Removed(ws: seq<Work>, i: nat, c: ConnId)
    requires i < |ws|
    ensures Sum(ws, c) == Plus(Sum(Without(ws, i), c), Worth(ws[i], c))
  {
    if i == 0 {
      assert Without(ws, 0) == ws[1..];
    } else {
      assert Without(ws, i)[1..] == Without(ws[1..], i - 1);
      Removed(ws[1..], i - 1, c);
    }
  }

  // ---------------------------------------------------------------- the invariant

  ghost predicate InOrder(out: seq<Output>) {
    forall i, j :: 0 <= i < j < |out| && out[i].Response? && out[j].Response? ==> out[i].ordinal < out[j].ordinal
  }

  /** Every response already buffered answers one of the first n requests. */
  ghost predicate AnswersBelow(out: seq<Output>, n: int) {
    forall i :: 0 <= i < |out| && out[i].Response? ==> out[i].ordinal < n
  }

  ghost predicate ConnOk(conn: Conn, b: Books) {
    && b.token == (if conn.gate.inFlight then 1 else 0)
    && conn.gate.marks == b.fence
    && (!conn.gate.inFlight && conn.gate.pending != [] ==> b.release > 0)
    && conn.received == conn.dispatched + conn.gate.pending
    && InOrder(conn.out)
    && AnswersBelow(conn.out, |conn.dispatched| - b.unanswered)
  }

  /** Connection ids are given out from 1 upwards and never reused. */
  predicate Given(s: State, c: ConnId) {
    0 < c < s.nextConn
  }

  /** An open connection's books balance; an id not yet given out has none. */
  ghost predicate Entry(s: State, c: ConnId) {
    && (c in s.conns ==> Given(s, c) && ConnOk(s.conns[c], Ledger(s, c)))
    && (!Given(s, c) ==> Ledger(s, c) == Zero)
  }

  /** A job or reply in flight is about the latest dispatched request of its connection. */
  ghost predicate Latest(conns: map<ConnId, Conn>, w: Work) {
    (w.Handle? || w.Reply?) && w.conn in conns ==>
      && w.ordinal + 1 == |conns[w.conn].dispatched|
      && (w.Handle? ==> w.request == conns[w.conn].dispatched[w.ordinal])
      && (w.Reply? && !w.closeAfter ==> !FinishesTwice(w.conn, w.result))
  }

  ghost predicate AllLatest(conns: map<ConnId, Conn>, ws: seq<Work>) {
    forall w {:trigger Latest(conns, w)} :: w in ws ==> Latest(conns, w)
  }

  ghost predicate IoOk(s: State) {
    s.io.Busy? ==>
      && Given(s, s.io.conn)
      && (s.io.stage.Responding? ==>
            && !s.io.deferred && s.io.sameIds == []
            && !FinishesTwice(s.io.conn, s.io.result)
            && (s.io.conn in s.conns ==> s.io.ordinal + 1 == |s.conns[s.io.conn].dispatched|))
      && (s.io.stage.Finishing? ==> s.io.cross == {})
      && (s.io.deferred && !s.io.stage.Finishing? ==> s.io.sameIds == [])
      && (s.io.deferred && s.io.stage.Pushing? ==>
            forall p :: p in s.io.stage.left ==> !MarksOwn(s.io.conn, p))
  }

  ghost predicate WorkInv(s: State) {
    s.nextConn > 0 && AllLatest(s.conns, s.jobs) && AllLatest(s.conns, s.completed) && IoOk(s)
  }

  ghost predicate Inv(s: State) {
    (forall c :: Entry(s, c)) && WorkInv(s)
  }

  // ---------------------------------------------------------------- preservation: Submit

  /** What the gate hands to Submit: no token of c is left, and `next` is taken off the queue. */
  ghost predicate ReadyToSubmit(s: State, c: ConnId, g: Gate, next: Option<Packet>)
    requires c in s.conns
  {
    var conn, b := s.conns[c], Ledger(s, c);
    && Given(s, c)
    && b.token == 0
    && g.inFlight == next.Some?
    && g.marks == b.fence
    && (next.None? && g.pending != [] ==> b.release > 0)
    && conn.received == conn.dispatched + (if next.Some? then [next.value] else []) + g.pending
    && InOrder(conn.out)
    && AnswersBelow(conn.out, |conn.dispatched|)
  }

  lemma SubmitEntry(s: State, c: ConnId, g: Gate, next: Option<Packet>, submitted: bool, d: ConnId)
    requires c in s.conns && ReadyToSubmit(s, c, g, next)
    requires d != c ==> Entry(s, d)
    ensures Entry(Submit(s, c, g, next, submitted), d)
  {
    hide InOrder, AnswersBelow, Ledger, Sum;
    SubmitLedger(s, c, g, next, submitted, d);
  }

  lemma SubmitLedger(s: State, c: ConnId, g: Gate, next: Option<Packet>, submitted: bool, d: ConnId)
    requires c in s.conns
    ensures var b, n := Ledger(s, d), if next.Some? && submitted && c == d then 1 else 0;
      Ledger(Submit(s, c, g, next, submitted), d) == b.(token := b.token + n, unanswered := b.unanswered + n)
  {
    hide Sum;
    if next.Some? && submitted {
      Appended(s.jobs, Handle(c, |s.conns[c].dispatched|, next.value), d);
    }
  }

  ghost predicate NoneOf(ws: seq<Work>, c: ConnId) {
    forall w :: w in ws && (w.Handle? || w.Reply?) ==> w.conn != c
  }

  lemma NoneInFlight(ws: seq<Work>, c: ConnId)
    requires Sum(ws, c).token == 0
    ensures NoneOf(ws, c)
  {
    forall w | w in ws ensures (w.Handle? || w.Reply?) ==> w.conn != c {
      var i :| 0 <= i < |ws| && ws[i] == w;
      Removed(ws, i, c);
    }
  }

  lemma SubmitWork(s: State, c: ConnId, g: Gate, next: Option<Packet>, submitted: bool)
    requires c in s.conns && NoneOf(s.jobs, c) && NoneOf(s.completed, c)
    requires s.io.Idle? || s.io.conn != c || !s.io.stage.Responding?
    requires WorkInv(s)
    ensures WorkInv(Submit(s, c, g, next, submitted))
  {
    var s' := Submit(s, c, g, next, submitted);
    forall w | w in s'.jobs ensures Latest(s'.conns, w) {
      assert w in s.jobs ==> Latest(s.conns, w);
    }
    forall w | w in s'.completed ensures Latest(s'.conns, w) {
      assert Latest(s.conns, w);
    }
  }

  lemma SubmitKeeps(s: State, c: ConnId, g: Gate, next: Option<Packet>, submitted: bool)
    requires c in s.conns && ReadyToSubmit(s, c, g, next)
    requires WorkInv(s) && forall d :: d != c ==> Entry(s, d)
    ensures Inv(Submit(s, c, g, next, submitted))
  {
    hide Sum;
    NoneInFlight(s.jobs, c);
    NoneInFlight(s.completed, c);
    SubmitWork(s, c, g, next, submitted);
    forall d { SubmitEntry(s, c, g, next, submitted, d); }
  }

  // ---------------------------------------------------------------- preservation: the steps

  ghost predicate SameDispatched(conns: map<ConnId, Conn>, conns': map<ConnId, Conn>) {
    forall c :: c in conns' ==> c in conns && conns'[c].dispatched == conns[c].dispatched
  }

  lemma LatestFrame(conns: map<ConnId, Conn>, conns': map<ConnId, Conn>, ws: seq<Work>, ws': seq<Work>)
    requires SameDispatched(conns, conns') && AllLatest(conns, ws)
    requires forall w :: w in ws' ==> w in ws || !(w.Handle? || w.Reply?)
    ensures AllLatest(conns', ws')
  {
    forall w | w in ws' ensures Latest(conns', w) {
      assert w in ws ==> Latest(conns, w);
    }
  }

  lemma CloseKeeps(s: State, c: ConnId)
    requires WorkInv(s) && forall d :: d != c ==> Entry(s, d)
    requires Given(s, c)
    ensures Inv(CloseConn(s, c))
  {
    hide Sum;
    var s' := CloseConn(s, c);
    LatestFrame(s.conns, s'.conns, s.jobs, s'.jobs);
    LatestFrame(s.conns, s'.conns, s.completed, s'.completed);
    forall d ensures Entry(s', d) {
      assert d != c ==> Entry(s, d);
    }
  }

  lemma AcceptKeeps(s: State)
    requires Inv(s) && Enabled(s, Accept)
    ensures Inv(Apply(s, Accept))
  {
    hide Sum;
    var s' := Apply(s, Accept);
    forall w | w in s.jobs || w in s.completed ensures Latest(s'.conns, w) {
      assert Entry(s, s.nextConn) && Latest(s.conns, w);
      NoTokenNoWork(s, w);
    }
    forall d ensures Entry(s', d) {
      assert Entry(s, d);
    }
  }

  /** An id that was never given out appears in no job and no reply. */
  lemma NoTokenNoWork(s: State, w: Work)
    requires Ledger(s, s.nextConn) == Zero && (w in s.jobs || w in s.completed)
    ensures w.Handle? || w.Reply? ==> w.conn != s.nextConn
  {
    hide Sum;
    NoneInFlight(s.jobs, s.nextConn);
    NoneInFlight(s.completed, s.nextConn);
  }

  /** finishCurrentRequestAndSubmitNext, once the finished request's token is spent. */
  lemma FinishKeeps(s: State, c: ConnId, submitted: bool)
    requires WorkInv(s) && forall d :: d != c ==> Entry(s, d)
    requires c in s.conns ==>
      && Given(s, c)
      && Ledger(s, c).token == 0
      && ConnOk(s.conns[c].(gate := s.conns[c].gate.(inFlight := true)), Ledger(s, c).(token := 1))
    requires c !in s.conns ==> Entry(s, c)
    ensures Inv(FinishCurrent(s, c, submitted))
  {
    hide Sum;
    if c in s.conns {
      var (g, next) := FinishAndPop(s.conns[c].gate);
      SubmitKeeps(s, c, g, next, submitted);
    }
  }

  lemma ReceiveKeeps(s: State, c: ConnId, p: Packet, submitted: bool)
    requires Inv(s) && c in s.conns && p != ""
    ensures Inv(ApplyReceive(s, c, p, submitted))
  {
    hide Sum;
    var conn := s.conns[c];
    assert Entry(s, c);
    var (g, started) := StartOrQueue(conn.gate, p);
    var s1 := s.(conns := s.conns[c := conn.(received := conn.received + [p])]);
    LatestFrame(s.conns, s1.conns, s.jobs, s1.jobs);
    LatestFrame(s.conns, s1.conns, s.completed, s1.completed);
    forall d ensures d != c ==> Entry(s1, d) { assert Entry(s, d); }
    if started {
      SubmitKeeps(s1, c, g, Some(p), submitted);
    } else {
      var s2 := Submit(s1, c, g, None, submitted);
      LatestFrame(s.conns, s2.conns, s.jobs, s2.jobs);
      LatestFrame(s.conns, s2.conns, s.completed, s2.completed);
      forall d ensures Entry(s2, d) { assert d != c ==> Entry(s1, d); }
    }
  }

  lemma HandledEntry(s: State, i: nat, closeAfter: bool, r: HandleResult, d: ConnId)
    requires i < |s.jobs| && s.jobs[i].Handle? && Entry(s, d)
    ensures Entry(ApplyHandled(s, i, closeAfter, r), d)
  {
    hide Sum;
    var j := s.jobs[i];
    Removed(s.jobs, i, d);
    Appended(s.completed, Reply(j.conn, j.ordinal, closeAfter, r), d);
  }

  lemma HandledKeeps(s: State, i: nat, closeAfter: bool, r: HandleResult)
    requires Inv(s) && i < |s.jobs| && s.jobs[i].Handle?
    requires closeAfter || !FinishesTwice(s.jobs[i].conn, r)
    ensures Inv(ApplyHandled(s, i, closeAfter, r))
  {
    hide Sum, Ledger;
    var s' := ApplyHandled(s, i, closeAfter, r);
    assert Latest(s.conns, s.jobs[i]);
    LatestFrame(s.conns, s'.conns, s.jobs, s'.jobs);
    forall w | w in s'.completed ensures Latest(s'.conns, w) {
      assert w in s.completed ==> Latest(s.conns, w);
    }
    forall d { HandledEntry(s, i, closeAfter, r, d); }
  }

  lemma FinishMarkedEntry(s: State, i: nat, d: ConnId)
    requires i < |s.jobs| && s.jobs[i].FinishMark? && Entry(s, d)
    ensures Entry(Apply(s, FinishMarked(i)), d)
  {
    hide Sum;
    Removed(s.jobs, i, d);
    Appended(s.events, FinishEvent(s.jobs[i].conn), d);
  }

  lemma FinishMarkedKeeps(s: State, i: nat)
    requires Inv(s) && Enabled(s, FinishMarked(i))
    ensures Inv(Apply(s, FinishMarked(i)))
  {
    hide Sum, Ledger;
    LatestFrame(s.conns, s.conns, s.jobs, Without(s.jobs, i));
    forall d { FinishMarkedEntry(s, i, d); }
  }

  lemma CrossEntry(s: State, i: nat, d: ConnId)
    requires i < |s.jobs| && s.jobs[i].CrossMark? && !s.jobs[i].pc.Found? && Entry(s, d)
    ensures Entry(ApplyCross(s, i), d)
  {
    hide Sum, ConnOk;
    var c := s.jobs[i].conn;
    Removed(s.jobs, i, d);
    if s.jobs[i].pc.Marking? {
      Appended(Without(s.jobs, i), CrossMark(c, Found), d);
    } else {
      Appended(s.events, ReleaseEvent(c), d);
    }
    assert d in s.conns || !Given(s, d) ==> Ledger(ApplyCross(s, i), d) == Ledger(s, d);
  }

  lemma CrossLowers(s: State, i: nat, d: ConnId)
    requires i < |s.jobs| && s.jobs[i].CrossMark? && s.jobs[i].pc.Found? && Entry(s, d)
    ensures Entry(ApplyCross(s, i), d)
  {
    hide InOrder, AnswersBelow, Ledger, Sum;
    LoweredLedger(s, i, d);
  }

  lemma LoweredLedger(s: State, i: nat, d: ConnId)
    requires i < |s.jobs| && s.jobs[i].CrossMark? && s.jobs[i].pc.Found?
    ensures var b := Ledger(s, d);
      Ledger(ApplyCross(s, i), d) == b.(fence := b.fence - if s.jobs[i].conn == d then 1 else 0)
  {
    hide Sum;
    Removed(s.jobs, i, d);
    Appended(Without(s.jobs, i), CrossMark(s.jobs[i].conn, Lowered), d);
  }

  lemma CrossKeeps(s: State, i: nat)
    requires Inv(s) && Enabled(s, CrossAdvance(i))
    ensures Inv(ApplyCross(s, i))
  {
    hide Sum, Ledger;
    var s' := ApplyCross(s, i);
    LatestFrame(s.conns, s'.conns, s.jobs, s'.jobs);
    LatestFrame(s.conns, s'.conns, s.completed, s'.completed);
    forall d ensures Entry(s', d) {
      if s.jobs[i].pc.Found? { CrossLowers(s, i, d); } else { CrossEntry(s, i, d); }
    }
  }

  lemma TakeEntry(s: State, d: ConnId)
    requires s.completed != [] && s.completed[0].Reply? && Entry(s, d)
    requires s.io.Idle? && (s.completed[0].conn in s.conns ==> Given(s, s.completed[0].conn))
    ensures Entry(ApplyTake(s), d)
  {
    hide Sum;
    Removed(s.completed, 0, d);
  }

  lemma TakeKeeps(s: State)
    requires Inv(s) && Enabled(s, IoTake)
    ensures Inv(ApplyTake(s))
  {
    hide Sum, Ledger;
    var s' := ApplyTake(s);
    assert Latest(s.conns, s.completed[0]) && Entry(s, s.completed[0].conn);
    LatestFrame(s.conns, s'.conns, s.jobs, s'.jobs);
    LatestFrame(s.conns, s'.conns, s.completed, s'.completed);
    forall d { TakeEntry(s, d); }
  }

  lemma RespondEntry(s: State, written: bool, submitted: bool, d: ConnId)
    requires s.io.Busy? && s.io.stage.Responding? && IoOk(s) && Entry(s, d)
    ensures Entry(ApplyRespond(s, written, submitted), d)
  {
    hide Sum, FinishesTwice;
    Appended(s.jobs, FinishMark(s.io.conn), d);
  }

  lemma RespondKeeps(s: State, written: bool, submitted: bool)
    requires Inv(s) && Enabled(s, IoRespond(written, submitted))
    ensures Inv(ApplyRespond(s, written, submitted))
  {
    hide Sum, Ledger;
    var s' := ApplyRespond(s, written, submitted);
    LatestFrame(s.conns, s'.conns, s.jobs, s'.jobs);
    LatestFrame(s.conns, s'.conns, s.completed, s'.completed);
    forall d { RespondEntry(s, written, submitted, d); }
  }

  lemma PushEntry(s: State, bound: bool, written: bool, d: ConnId)
    requires Enabled(s, IoPush(bound, written)) && Entry(s, d)
    ensures Entry(ApplyPush(s, bound, written), d)
  {
    hide Sum;
  }

  lemma PushKeeps(s: State, bound: bool, written: bool)
    requires Inv(s) && Enabled(s, IoPush(bound, written))
    ensures Inv(ApplyPush(s, bound, written))
  {
    hide Sum, Ledger;
    var s' := ApplyPush(s, bound, written);
    assert s.io.stage.left[0] in s.io.stage.left;
    assert forall p :: p in s.io.stage.left[1..] ==> p in s.io.stage.left;
    LatestFrame(s.conns, s'.conns, s.jobs, s'.jobs);
    LatestFrame(s.conns, s'.conns, s.completed, s'.completed);
    forall d { PushEntry(s, bound, written, d); }
  }

  lemma FenceEntry(s: State, t: ConnId, d: ConnId)
    requires Enabled(s, IoFence(t)) && Entry(s, d)
    ensures Entry(ApplyFence(s, t), d)
  {
    hide Sum;
  }

  lemma FenceSubmitEntry(s: State, submitted: bool, d: ConnId)
    requires Enabled(s, IoFenceSubmit(submitted)) && Entry(s, d) && Given(s, s.io.stage.target)
    ensures Entry(ApplyFenceSubmit(s, submitted), d)
  {
    hide Sum;
    Appended(s.jobs, CrossMark(s.io.stage.target, Marking), d);
  }

  lemma FencePostEntry(s: State, d: ConnId)
    requires Enabled(s, IoFencePost) && Entry(s, d)
    ensures Entry(Apply(s, IoFencePost), d)
  {
    hide Sum;
    Appended(s.events, ReleaseEvent(s.io.stage.target), d);
  }

  lemma FenceKeeps(s: State, step: Step)
    requires Inv(s) && Enabled(s, step)
    requires step.IoFence? || step.IoFenceSubmit? || step.IoFencePost?
    ensures Inv(Apply(s, step))
  {
    hide Sum, Ledger;
    var s' := Apply(s, step);
    LatestFrame(s.conns, s'.conns, s.jobs, s'.jobs);
    LatestFrame(s.conns, s'.conns, s.completed, s'.completed);
    forall d ensures Entry(s', d) {
      match step
      case IoFence(t) => FenceEntry(s, t, d);
      case IoFenceSubmit(submitted) =>
        assert Given(s, s.io.stage.target) by { HeldFenceIsOld(s); }
        FenceSubmitEntry(s, submitted, d);
      case IoFencePost => FencePostEntry(s, d);
    }
  }

  lemma HeldFenceIsOld(s: State)
    requires s.io.Busy? && s.io.stage.FenceSubmitting? && Entry(s, s.io.stage.target)
    ensures Given(s, s.io.stage.target)
  {
    hide Sum;
  }

  lemma SameKeeps(s: State, submitted: bool)
    requires Inv(s) && Enabled(s, IoSame(submitted))
    ensures Inv(Apply(s, IoSame(submitted)))
  {
    hide Sum;
    var s' := Apply(s, IoSame(submitted));
    LatestFrame(s.conns, s'.conns, s.jobs, s'.jobs) by { hide Ledger; }
    forall d ensures Entry(s', d) {
      assert Entry(s, d);
      Appended(s.jobs, FinishMark(s.io.conn), d);
    }
  }

  lemma IoFinishKeeps(s: State, submitted: bool)
    requires Inv(s) && Enabled(s, IoFinish(submitted))
    ensures Inv(Apply(s, IoFinish(submitted)))
  {
    hide Sum;
    var s1 := s.(io := Idle);
    if s.io.deferred {
      forall d ensures Entry(s1, d) { assert Entry(s, d); }
    } else {
      assert Entry(s, s.io.conn);
      forall d ensures d != s.io.conn ==> Entry(s1, d) { assert Entry(s, d); }
      FinishKeeps(s1, s.io.conn, submitted);
    }
  }

  /** The books of every connection after the head event has been taken off the queue. */
  lemma EventTaken(s: State, d: ConnId)
    requires s.events != []
    ensures Ledger(s, d) == Plus(Ledger(s.(events := Without(s.events, 0)), d), Worth(s.events[0], d))
  {
    hide Sum;
    Removed(s.events, 0, d);
  }

  lemma EventKeeps(s: State, submitted: bool)
    requires Inv(s) && Enabled(s, IoEvent(submitted))
    ensures Inv(Apply(s, IoEvent(submitted)))
  {
    hide Sum, Ledger;
    var e := s.events[0];
    var s1 := s.(events := Without(s.events, 0));
    forall d ensures d != e.conn ==> Entry(s1, d) {
      assert Entry(s, d);
      EventTaken(s, d);
    }
    assert Entry(s, e.conn);
    EventTaken(s, e.conn);
    if e.FinishEvent? {
      FinishKeeps(s1, e.conn, submitted);
    } else if e.conn in s.conns {
      var (g, next) := PopIfIdle(s.conns[e.conn].gate);
      if next.Some? || !g.inFlight {
        SubmitKeeps(s1, e.conn, g, next, submitted);
      } else {
        assert Apply(s, IoEvent(submitted)) == s1;
      }
    }
  }

  lemma StepKeeps(s: State, step: Step)
    requires Inv(s) && Enabled(s, step) && Disciplined(s, step)
    ensures Inv(Apply(s, step))
  {
    hide Sum, Ledger, WorkInv;
    if step.Close? { assert Entry(s, step.c); }
    hide Entry;
    match step
    case Accept => AcceptKeeps(s);
    case Close(c) => CloseKeeps(s, c);
    case Receive(c, p, submitted) => ReceiveKeeps(s, c, p, submitted);
    case HandlerReturns(i, r) => HandledKeeps(s, i, false, r);
    case HandlerThrows(i) => HandledKeeps(s, i, true, HandleResult("", [], []));
    case FinishMarked(i) => FinishMarkedKeeps(s, i);
    case CrossAdvance(i) => CrossKeeps(s, i);
    case IoTake => TakeKeeps(s);
    case IoRespond(written, submitted) => RespondKeeps(s, written, submitted);
    case IoPush(bound, written) => PushKeeps(s, bound, written);
    case IoFence(t) => FenceKeeps(s, step);
    case IoFenceSubmit(submitted) => FenceKeeps(s, step);
    case IoFencePost => FenceKeeps(s, step);
    case IoSame(submitted) => SameKeeps(s, submitted);
    case IoFinish(submitted) => IoFinishKeeps(s, submitted);
    case IoEvent(submitted) => EventKeeps(s, submitted);
  }

  // ---------------------------------------------------------------- every run

  lemma {:induction false} RunKeeps(s: State, steps: seq<Step>)
    requires Inv(s) && Legal(s, steps) && DisciplinedRun(s, steps)
    ensures Inv(After(s, steps))
    decreases |steps|
  {
    hide Inv, Apply, Enabled;
    if steps != [] {
      StepKeeps(s, steps[0]);
      RunKeeps(Apply(s, steps[0]), steps[1..]);
    }
  }

  ghost predicate Reachable(s: State) {
    exists steps :: Legal(Init, steps) && DisciplinedRun(Init, steps) && s == After(Init, steps)
  }

  lemma NoBooks(ws: seq<Work>, c: ConnId)
    requires ws == []
    ensures Sum(ws, c) == Zero
  {
  }

  lemma NoWorkNoBooks(s: State, c: ConnId)
    requires s.jobs == [] && s.completed == [] && s.events == [] && s.io.Idle?
    ensures Ledger(s, c) == Zero
  {
    hide Sum;
    NoBooks(s.jobs, c);
    NoBooks(s.completed, c);
    NoBooks(s.events, c);
  }

  lemma InitInv()
    ensures Inv(Init)
  {
    hide Sum, Ledger;
    forall c ensures Entry(Init, c) { NoWorkNoBooks(Init, c); }
  }

  lemma ReachableInv(s: State)
    requires Reachable(s)
    ensures Inv(s)
  {
    hide Apply, Enabled, Inv;
    var steps :| Legal(Init, steps) && DisciplinedRun(Init, steps) && s == After(Init, steps);
    InitInv();
    RunKeeps(Init, steps);
  }

  lemma TwoTokens(ws: seq<Work>, i: nat, j: nat, c: ConnId)
    requires i < j < |ws|
    ensures Sum(ws, c).token >= Worth(ws[i], c).token + Worth(ws[j], c).token
  {
    hide Sum, Worth;
    Removed(ws, i, c);
    assert Without(ws, i)[j - 1] == ws[j];
    Removed(Without(ws, i), j - 1, c);
  }

  /** Token conservation: an open connection owns exactly one task, reply, finish job or finish
      event while a request of it is in flight, and none otherwise; so two requests of one
      connection are never with the workers together. */
  lemma TokenConservation(s: State, c: ConnId)
    requires Reachable(s) && c in s.conns
    ensures Ledger(s, c).token == (if s.conns[c].gate.inFlight then 1 else 0)
    ensures forall i, j :: 0 <= i < j < |s.jobs| && s.jobs[i].Handle? && s.jobs[j].Handle? ==>
              !(s.jobs[i].conn == c && s.jobs[j].conn == c)
  {
    hide Sum, Reachable;
    ReachableInv(s);
    assert Entry(s, c);
    forall i, j | 0 <= i < j < |s.jobs| && s.jobs[i].Handle? && s.jobs[j].Handle?
      ensures !(s.jobs[i].conn == c && s.jobs[j].conn == c)
    {
      TwoTokens(s.jobs, i, j, c);
    }
  }

  /** No stall: an idle connection with queued requests is still owed a look by some mark job or
      release event, so a server with no work left has dispatched everything it received. */
  lemma NoStall(s: State, c: ConnId)
    requires Reachable(s) && c in s.conns
    ensures !s.conns[c].gate.inFlight && s.conns[c].gate.pending != [] ==> Ledger(s, c).release > 0
    ensures s.jobs == [] && s.completed == [] && s.events == [] && s.io.Idle? ==>
              s.conns[c].gate == OpenGate && s.conns[c].dispatched == s.conns[c].received
  {
    hide Sum, Reachable, Ledger;
    ReachableInv(s);
    assert Entry(s, c);
    if s.jobs == [] && s.completed == [] && s.events == [] && s.io.Idle? {
      NoWorkNoBooks(s, c);
    }
  }

  /** Order: packets are dispatched in arrival order and none is lost or repeated, the job a
      worker runs is the latest dispatched request, and responses enter the send buffer in
      request order. */
  lemma ArrivalOrder(s: State, c: ConnId)
    requires Reachable(s) && c in s.conns
    ensures s.conns[c].received == s.conns[c].dispatched + s.conns[c].gate.pending
    ensures forall w :: w in s.jobs && w.Handle? && w.conn == c ==>
              w.ordinal + 1 == |s.conns[c].dispatched| && w.request == s.conns[c].received[w.ordinal]
    ensures InOrder(s.conns[c].out) && AnswersBelow(s.conns[c].out, |s.conns[c].dispatched|)
  {
    hide Sum, Ledger, Reachable;
    ReachableInv(s);
    assert Entry(s, c);
    forall w | w in s.jobs && w.Handle? && w.conn == c
      ensures w.ordinal + 1 == |s.conns[c].dispatched| && w.request == s.conns[c].received[w.ordinal]
    {
      assert Latest(s.conns, w);
    }
  }

  /** A mark job for a push to c whose database update has not finished. */
  predicate UnfinishedMark(w: Work, c: ConnId) {
    w.conn == c && (w.FinishMark? || (w.CrossMark? && w.pc.Marking?))
  }

  ghost predicate Dispatches(s: State, step: Step, c: ConnId)
    requires Enabled(s, step)
  {
    c in s.conns && c in Apply(s, step).conns
    && |Apply(s, step).conns[c].dispatched| > |s.conns[c].dispatched|
  }

  /** Delivery fence: the fence counter is the number of mark jobs still holding it, and when a
      request of c is dispatched every mark job for an earlier push to c has finished and no
      push to c is still waiting for its fence. */
  lemma DeliveryFence(s: State, step: Step, c: ConnId)
    requires Reachable(s) && Enabled(s, step) && c in s.conns
    ensures s.conns[c].gate.marks == Ledger(s, c).fence >= 0
    ensures Dispatches(s, step, c) ==>
              && (forall w :: w in s.jobs ==> !UnfinishedMark(w, c))
              && (s.io.Busy? ==> s.io.stage.Finishing? && s.io.cross == {})
  {
    hide Sum, Reachable;
    ReachableInv(s);
    assert Entry(s, c);
    if Dispatches(s, step, c) {
      DispatchPoint(s, step, c);
      forall w | w in s.jobs ensures !UnfinishedMark(w, c) {
        var i :| 0 <= i < |s.jobs| && s.jobs[i] == w;
        Removed(s.jobs, i, c);
      }
    }
  }

  /** Requests are dispatched by Receive, IoFinish and IoEvent only, past an open gate. */
  lemma DispatchPoint(s: State, step: Step, c: ConnId)
    requires Inv(s) && Enabled(s, step) && Dispatches(s, step, c)
    ensures s.io.Busy? ==> s.io.stage.Finishing? && s.io.cross == {}
    ensures Sum(s.jobs, c).token == 0 && Sum(s.jobs, c).fence == 0
  {
    hide Sum;
    assert Entry(s, c);
    if step.IoEvent? {
      Removed(s.events, 0, c);
    }
  }

  // ---------------------------------------------------------------- the hypothesis is exact

  /** What a handler may answer on a connection. */
  type Policy = (ConnId, HandleResult) -> bool

  ghost predicate Obeys(h: Policy, s: State, steps: seq<Step>)
    requires Legal(s, steps)
    decreases |steps|
  {
    steps != [] ==>
      && (steps[0].HandlerReturns? ==> h(s.jobs[steps[0].i].conn, steps[0].result))
      && Obeys(h, Apply(s, steps[0]), steps[1..])
  }

  lemma {:induction false} Extend(h: Policy, s: State, first: seq<Step>, second: seq<Step>)
    requires Legal(s, first) && Obeys(h, s, first)
    requires Legal(After(s, first), second) && Obeys(h, After(s, first), second)
    ensures Legal(s, first + second) && Obeys(h, s, first + second)
    ensures After(s, first + second) == After(After(s, first), second)
    decreases |first|
  {
    hide Apply, Enabled;
    if first == [] {
      assert first + second == second;
    } else {
      assert (first + second)[1..] == first[1..] + second;
      Extend(h, Apply(s, first[0]), first[1..], second);
    }
  }

  lemma {:induction false} PolicyKeeps(h: Policy, s: State, steps: seq<Step>)
    requires Inv(s) && Legal(s, steps) && Obeys(h, s, steps)
    requires forall c, r :: c > 0 && h(c, r) ==> !FinishesTwice(c, r)
    ensures Inv(After(s, steps))
    decreases |steps|
  {
    hide WorkInv, Apply, FinishesTwice, Sum;
    if steps != [] {
      if steps[0].HandlerReturns? {
        var i := steps[0].i;
        assert Entry(s, s.jobs[i].conn);
        Removed(s.jobs, i, s.jobs[i].conn);
      }
      hide Entry, Ledger;
      StepKeeps(s, steps[0]);
      PolicyKeeps(h, Apply(s, steps[0]), steps[1..]);
    }
  }

  /** The push loop with every own marked push written and every other push not bound. */
  lemma {:induction false} PushOwnOnly(h: Policy, s: State) returns (steps: seq<Step>)
    requires s.io.Busy? && s.io.stage.Pushing? && s.io.conn in s.conns && s.io.cross == {}
    ensures Legal(s, steps) && Obeys(h, s, steps)
    ensures var s' := After(s, steps);
            && s'.io.Busy? && s'.io.stage == Pushing([]) && s'.io.conn == s.io.conn && s'.io.cross == {}
            && s'.io.conn in s'.conns && s'.jobs == s.jobs
            && |s'.io.sameIds| >= |s.io.sameIds|
            && ((exists p :: p in s.io.stage.left && MarksOwn(s.io.conn, p)) ==> s'.io.sameIds != [])
    decreases |s.io.stage.left|
  {
    if s.io.stage.left == [] {
      steps := [];
    } else {
      var p := s.io.stage.left[0];
      var step := IoPush(MarksOwn(s.io.conn, p), true);
      var rest := PushOwnOnly(h, Apply(s, step));
      steps := [step] + rest;
      assert steps[1..] == rest;
      assert forall q :: q in s.io.stage.left ==> q == p || q in s.io.stage.left[1..];
    }
  }

  lemma Prepend(h: Policy, s: State, step: Step, rest: seq<Step>)
    requires Enabled(s, step) && Legal(Apply(s, step), rest) && Obeys(h, Apply(s, step), rest)
    requires step.HandlerReturns? ==> h(s.jobs[step.i].conn, step.result)
    ensures Legal(s, [step] + rest) && Obeys(h, s, [step] + rest)
    ensures After(s, [step] + rest) == After(Apply(s, step), rest)
  {
    hide Apply, Enabled;
    assert ([step] + rest)[1..] == rest;
  }

  /** From any quiet point with a request of c at the workers, an answer that finishes twice
      leads to two finish jobs for the one request. */
  lemma DoubleFinish(h: Policy, s: State, i: nat, r: HandleResult) returns (steps: seq<Step>)
    requires s.io.Idle? && s.completed == [] && i < |s.jobs| && s.jobs[i].Handle? && s.jobs[i].conn in s.conns
    requires FinishesTwice(s.jobs[i].conn, r) && h(s.jobs[i].conn, r)
    ensures Legal(s, steps) && Obeys(h, s, steps)
    ensures s.jobs[i].conn in After(s, steps).conns && Ledger(After(s, steps), s.jobs[i].conn).token >= 2
  {
    hide Sum, Legal, After, Obeys;
    var c := s.jobs[i].conn;
    var s1 := Apply(s, HandlerReturns(i, r));
    var s2 := Apply(s1, IoTake);
    var s3 := Apply(s2, IoRespond(true, true));
    Appended(s2.jobs, FinishMark(c), c);
    var pushes := PushOwnOnly(h, s3);
    var s4 := After(s3, pushes);
    Appended(s4.jobs, FinishMark(c), c);
    NoSteps(h, Apply(s4, IoSame(true)));
    Prepend(h, s4, IoSame(true), []);
    Extend(h, s3, pushes, [IoSame(true)] + []);
    Prepend(h, s2, IoRespond(true, true), pushes + ([IoSame(true)] + []));
    Prepend(h, s1, IoTake, [IoRespond(true, true)] + (pushes + ([IoSame(true)] + [])));
    steps := [HandlerReturns(i, r)] + ([IoTake] + ([IoRespond(true, true)] + (pushes + ([IoSame(true)] + []))));
    Prepend(h, s, HandlerReturns(i, r), [IoTake] + ([IoRespond(true, true)] + (pushes + ([IoSame(true)] + []))));
  }

  lemma NoSteps(h: Policy, s: State)
    ensures Legal(s, []) && Obeys(h, s, []) && After(s, []) == s
  {
  }

  /** Accept until id n exists; every id up to n is open and idle. */
  lemma {:induction false} AcceptMany(h: Policy, n: nat) returns (steps: seq<Step>)
    ensures Legal(Init, steps) && Obeys(h, Init, steps)
    ensures var s := After(Init, steps);
            && s.nextConn == n + 1 && s.io.Idle? && s.jobs == [] && s.completed == []
            && forall c :: 0 < c <= n ==> c in s.conns && s.conns[c].gate == OpenGate
  {
    if n == 0 {
      steps := [];
    } else {
      hide Legal, After, Obeys;
      var before := AcceptMany(h, n - 1);
      var s := After(Init, before);
      NoSteps(h, Apply(s, Accept));
      Prepend(h, s, Accept, []);
      steps := before + ([Accept] + []);
      Extend(h, Init, before, [Accept] + []);
    }
  }

  ghost predicate ConservesTokens(s: State) {
    forall c :: c in s.conns ==> Ledger(s, c).token == (if s.conns[c].gate.inFlight then 1 else 0)
  }

  /** Token conservation holds in every run of a handler exactly when the handler never answers
      a connection with both a mark-on-response list and a marked push to that same connection. */
  lemma DisciplineIsExact(h: Policy)
    ensures (forall steps :: Legal(Init, steps) && Obeys(h, Init, steps) ==> ConservesTokens(After(Init, steps)))
            <==> (forall c, r :: c > 0 && h(c, r) ==> !FinishesTwice(c, r))
  {
    hide Legal, After, Obeys, FinishesTwice, Sum;
    if c, r :| c > 0 && h(c, r) && FinishesTwice(c, r) {
      var steps := Violation(h, c, r);
      assert !ConservesTokens(After(Init, steps));
    } else {
      forall steps | Legal(Init, steps) && Obeys(h, Init, steps) ensures ConservesTokens(After(Init, steps)) {
        InitInv();
        PolicyKeeps(h, Init, steps);
        var s := After(Init, steps);
        forall c | c in s.conns ensures Ledger(s, c).token == (if s.conns[c].gate.inFlight then 1 else 0) {
          assert Entry(s, c);
        }
      }
    }
  }

  lemma Violation(h: Policy, c: ConnId, r: HandleResult) returns (steps: seq<Step>)
    requires c > 0 && h(c, r) && FinishesTwice(c, r)
    ensures Legal(Init, steps) && Obeys(h, Init, steps)
    ensures c in After(Init, steps).conns && Ledger(After(Init, steps), c).token >= 2
  {
    hide Legal, After, Obeys, FinishesTwice, Sum;
    var accepts := AcceptMany(h, c);
    var s := After(Init, accepts);
    var s' := Apply(s, Receive(c, "a", true));
    var double := DoubleFinish(h, s', 0, r);
    Prepend(h, s, Receive(c, "a", true), double);
    steps := accepts + ([Receive(c, "a", true)] + double);
    Extend(h, Init, accepts, [Receive(c, "a", true)] + double);
  }
}
