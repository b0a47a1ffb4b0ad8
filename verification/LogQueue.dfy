/** The asynchronous logger: a bounded queue that sheds low-priority lines
    (src/common/logger.cc:184, 330-481). One step per critical section of queue_mutex_, and one for
    what the worker does with the lock released. */
module LogQueue {

  datatype Level = Debug | Info | Warn | Error

  predicate Low(level: Level) {
    level.Debug? || level.Info?
  }

  /** A line is named by its place among the lines let through the gate. A flush item stands for its
      barrier; `mark` is how many lines had been let through when Flush was called. */
  datatype Item = Log(line: nat, level: Level) | Flush(barrier: nat, mark: nat)

  /** The worker between two waits. */
  datatype Worker =
    | Idle
    | Handling(dropped: nat, item: Item)
    | Reporting(dropped: nat)
    | Leaving(dropped: nat)
    | Exited

  /** The logger's fields, then what has happened: `out` is what the worker has dealt with, in order,
      `reported` how many drops its summaries have announced. */
  datatype State = State(
    queue: seq<Item>, queuedLogs: int, dropped: nat, capacity: nat,
    accepting: bool, stop: bool, running: bool, worker: Worker,
    accepted: seq<Level>, out: seq<Item>, lost: set<nat>, reported: nat, flushes: nat)

  datatype Step =
    | Write(level: Level)
    | FlushCall
    | CloseGate
    | RequestStop
    | Take
    | Finish

  function Started(capacity: nat): State {
    State([], 0, 0, capacity, true, false, true, Idle, [], [], {}, 0, 0)
  }

  // ---------------------------------------------------------------- the steps

  /** The first low-priority log item, or the length. */
  function OldestLow(queue: seq<Item>): (k: nat)
    ensures k <= |queue|
    ensures k < |queue| ==> queue[k].Log? && Low(queue[k].level)
    ensures forall i :: 0 <= i < k ==> !(queue[i].Log? && Low(queue[i].level))
  {
    if queue == [] || (queue[0].Log? && Low(queue[0].level)) then 0
    else 1 + OldestLow(queue[1..])
  }

  function Without(queue: seq<Item>, k: nat): seq<Item>
    requires k < |queue|
  {
    queue[..k] + queue[k + 1..]
  }

  function Refused(s: State, level: Level): State {
    s.(accepted := s.accepted + [level], lost := s.lost + {|s.accepted|}, dropped := s.dropped + 1)
  }

  function Pushed(s: State, level: Level): State {
    s.(accepted := s.accepted + [level], queue := s.queue + [Log(|s.accepted|, level)], queuedLogs := s.queuedLogs + 1)
  }

  function Evicted(s: State, k: nat): State
    requires k < |s.queue| && s.queue[k].Log?
  {
    s.(queue := Without(s.queue, k), queuedLogs := s.queuedLogs - 1, dropped := s.dropped + 1,
       lost := s.lost + {s.queue[k].line})
  }

  function AfterWrite(s: State, level: Level): State {
    if !s.accepting || s.stop then s
    else if s.queuedLogs < s.capacity then Pushed(s, level)
    else if Low(level) then Refused(s, level)
    else
      var k := OldestLow(s.queue);
      if k == |s.queue| then Refused(s, level) else Pushed(Evicted(s, k), level)
  }

  /** With the worker gone, Flush flushes the sinks itself and returns. */
  function AfterFlushCall(s: State): State {
    var item := Flush(s.flushes, |s.accepted|);
    if s.running then s.(queue := s.queue + [item], flushes := s.flushes + 1)
    else s.(out := s.out + [item], flushes := s.flushes + 1)
  }

  predicate CanTake(s: State) {
    s.worker.Idle? && (s.stop || s.queue != [] || s.dropped > 0)
  }

  function AfterTake(s: State): State {
    var t := s.(dropped := 0);
    if s.queue != [] then
      t.(queue := s.queue[1..], queuedLogs := if s.queue[0].Log? then s.queuedLogs - 1 else s.queuedLogs,
         worker := Handling(s.dropped, s.queue[0]))
    else if s.stop then t.(running := false, worker := Leaving(s.dropped))
    else t.(worker := Reporting(s.dropped))
  }

  function AfterFinish(s: State): State {
    match s.worker
    case Handling(dropped, item) =>
      s.(reported := s.reported + dropped, out := s.out + [item], worker := Idle)
    case Reporting(dropped) => s.(reported := s.reported + dropped, worker := Idle)
    case Leaving(dropped) => s.(reported := s.reported + dropped, worker := Exited)
    case _ => s
  }

  predicate Enabled(s: State, step: Step) {
    match step
    case Write(_) => true
    case FlushCall => true
    case CloseGate => true
    case RequestStop => !s.accepting
    case Take => CanTake(s)
    case Finish => !s.worker.Idle? && !s.worker.Exited?
  }

  function Apply(s: State, step: Step): State
    requires Enabled(s, step)
  {
    match step
    case Write(level) => AfterWrite(s, level)
    case FlushCall => AfterFlushCall(s)
    case CloseGate => s.(accepting := false)
    case RequestStop => if s.running then s.(stop := true) else s
    case Take => AfterTake(s)
    case Finish => AfterFinish(s)
  }

  predicate Legal(s: State, steps: seq<Step>)
    decreases |steps|
  {
    steps == [] || (Enabled(s, steps[0]) && Legal(Apply(s, steps[0]), steps[1..]))
  }

  function After(s: State, steps: seq<Step>): State
    requires Legal(s, steps)
    decreases |steps|
  {
    if steps == [] then s else After(Apply(s, steps[0]), steps[1..])
  }

  // ---------------------------------------------------------------- the logger itself

  /** The search Write makes through a full queue. */
  method FindLow(queue: seq<Item>) returns (k: nat)
    ensures k == OldestLow(queue)
  {
    k := 0;
    while k < |queue| && !(queue[k].Log? && Low(queue[k].level))
      invariant k <= |queue|
      invariant OldestLow(queue) == k + OldestLow(queue[k..])
    {
      k := k + 1;
    }
  }

  class Logger {
    var queue: seq<Item>
    var queuedLogs: int
    var dropped: nat
    const capacity: nat
    var accepting: bool
    var stop: bool
    var running: bool
    var worker: Worker
    var lines: nat
    var flushes: nat
    ghost var accepted: seq<Level>
    ghost var out: seq<Item>
    ghost var lost: set<nat>
    ghost var reported: nat

    ghost function View(): State
      reads this
    {
      State(queue, queuedLogs, dropped, capacity, accepting, stop, running, worker,
            accepted, out, lost, reported, flushes)
    }

    /** Lines are numbered as they are let through. */
    ghost predicate Valid()
      reads this
    {
      lines == |accepted|
    }

    constructor (capacity: nat)
      ensures Valid() && View() == Started(capacity)
    {
      this.capacity := capacity;
      queue, queuedLogs, dropped := [], 0, 0;
      accepting, stop, running, worker := true, false, true, Idle;
      lines, flushes, accepted, out, lost, reported := 0, 0, [], [], {}, 0;
    }

    method Write(level: Level)
      requires Valid()
      modifies this
      ensures Valid() && View() == AfterWrite(old(View()), level)
    {
      if !accepting || stop {
        return;
      }
      var n := lines;
      lines, accepted := lines + 1, accepted + [level];
      if queuedLogs >= capacity {
        if Low(level) {
          dropped, lost := dropped + 1, lost + {n};
          return;
        }
        var k := FindLow(queue);
        if k == |queue| {
          dropped, lost := dropped + 1, lost + {n};
          return;
        }
        lost := lost + {queue[k].line};
        queue := queue[..k] + queue[k + 1..];
        queuedLogs, dropped := queuedLogs - 1, dropped + 1;
      }
      queue := queue + [Log(n, level)];
      queuedLogs := queuedLogs + 1;
    }

    method FlushCall()
      requires Valid()
      modifies this
      ensures Valid() && View() == AfterFlushCall(old(View()))
    {
      var item := Flush(flushes, lines);
      flushes := flushes + 1;
      if !running {
        out := out + [item];
        return;
      }
      queue := queue + [item];
    }

    /** The worker's critical section. */
    method Take()
      requires Valid() && CanTake(View())
      modifies this
      ensures Valid() && View() == AfterTake(old(View()))
    {
      var count := dropped;
      dropped := 0;
      if queue != [] {
        var item := queue[0];
        queue := queue[1..];
        if item.Log? {
          queuedLogs := queuedLogs - 1;
        }
        worker := Handling(count, item);
      } else if stop {
        running := false;
        worker := Leaving(count);
      } else {
        worker := Reporting(count);
      }
    }
  }

  // ---------------------------------------------------------------- what every step keeps

  function InHand(worker: Worker): seq<Item> {
    if worker.Handling? then [worker.item] else []
  }

  /** Everything let through and not lost, in the order the worker deals with it. */
  function All(s: State): seq<Item> {
    s.out + InHand(s.worker) + s.queue
  }

  function Unreported(worker: Worker): nat {
    if worker.Idle? || worker.Exited? then 0 else worker.dropped
  }

  function Logs(items: seq<Item>): nat {
    if items == [] then 0 else (if items[0].Log? then 1 else 0) + Logs(items[1..])
  }

  /** Lines keep their order, and a line behind a barrier came after the flush. */
  ghost predicate Ordered(items: seq<Item>) {
    forall i, j :: 0 <= i < j < |items| && items[j].Log? ==> Before(items[i], items[j].line)
  }

  predicate Before(item: Item, line: nat) {
    if item.Log? then item.line < line else item.mark <= line
  }

  predicate Known(item: Item, accepted: seq<Level>) {
    if item.Log? then item.line < |accepted| && accepted[item.line] == item.level else item.mark <= |accepted|
  }

  /** Each accepted line is among the items or among the lost, never both, and the numbers add up. */
  ghost predicate Books(items: seq<Item>, accepted: seq<Level>, lost: set<nat>) {
    && (forall i :: 0 <= i < |items| ==> Known(items[i], accepted))
    && (forall n :: 0 <= n < |accepted| ==> (Log(n, accepted[n]) in items <==> n !in lost))
    && (forall n :: n in lost ==> n < |accepted|)
    && Logs(items) + |lost| == |accepted|
  }

  ghost predicate Inv(s: State) {
    && s.queuedLogs == Logs(s.queue) <= s.capacity
    && Ordered(All(s))
    && Books(All(s), s.accepted, s.lost)
    && |s.lost| == s.reported + Unreported(s.worker) + s.dropped
    && (s.running <==> !(s.worker.Leaving? || s.worker.Exited?))
    && (!s.running ==> s.stop && s.queue == [] && s.dropped == 0)
  }

  lemma {:induction false} LogsConcat(a: seq<Item>, b: seq<Item>)
    ensures Logs(a + b) == Logs(a) + Logs(b)
  {
    if a == [] {
      assert a + b == b;
    } else {
      assert (a + b)[1..] == a[1..] + b;
      LogsConcat(a[1..], b);
    }
  }

  lemma LogsWithout(items: seq<Item>, k: nat)
    requires k < |items| && items[k].Log?
    ensures Logs(Without(items, k)) == Logs(items) - 1
  {
    LogsConcat(items[..k], items[k + 1..]);
    LogsConcat(items[..k], [items[k]] + items[k + 1..]);
    assert items == items[..k] + ([items[k]] + items[k + 1..]);
  }

  lemma BooksPush(items: seq<Item>, accepted: seq<Level>, lost: set<nat>, level: Level)
    requires Ordered(items) && Books(items, accepted, lost)
    ensures Ordered(items + [Log(|accepted|, level)])
    ensures Books(items + [Log(|accepted|, level)], accepted + [level], lost)
  {
    LogsConcat(items, [Log(|accepted|, level)]);
    var next, all := items + [Log(|accepted|, level)], accepted + [level];
    forall n | 0 <= n < |all| ensures Log(n, all[n]) in next <==> n !in lost {
      if n == |accepted| {
        assert next[|items|] == Log(n, all[n]);
      } else {
        assert all[n] == accepted[n];
        assert Log(n, all[n]) in items <==> Log(n, all[n]) in next;
      }
    }
  }

  lemma BooksRefuse(items: seq<Item>, accepted: seq<Level>, lost: set<nat>, level: Level)
    requires Books(items, accepted, lost)
    ensures Books(items, accepted + [level], lost + {|accepted|})
    ensures |lost + {|accepted|}| == |lost| + 1
  {
    var all := accepted + [level];
    forall n | 0 <= n < |all| ensures Log(n, all[n]) in items <==> n !in lost + {|accepted|} {
      if n < |accepted| { assert all[n] == accepted[n]; }
    }
  }

  lemma BooksFlush(items: seq<Item>, accepted: seq<Level>, lost: set<nat>, item: Item)
    requires Ordered(items) && Books(items, accepted, lost) && item.Flush? && item.mark == |accepted|
    ensures Ordered(items + [item]) && Books(items + [item], accepted, lost)
  {
    LogsConcat(items, [item]);
    forall n | 0 <= n < |accepted| ensures Log(n, accepted[n]) in items + [item] <==> n !in lost {
      assert Log(n, accepted[n]) in items <==> Log(n, accepted[n]) in items + [item];
    }
  }

  lemma BooksEvict(items: seq<Item>, accepted: seq<Level>, lost: set<nat>, k: nat)
    requires Ordered(items) && Books(items, accepted, lost) && k < |items| && items[k].Log?
    ensures Ordered(Without(items, k))
    ensures Books(Without(items, k), accepted, lost + {items[k].line})
    ensures |lost + {items[k].line}| == |lost| + 1
  {
    var gone, rest := items[k].line, Without(items, k);
    LogsWithout(items, k);
    assert Known(items[k], accepted) && gone !in lost;
    assert forall i :: 0 <= i < |rest| ==> rest[i] == items[if i < k then i else i + 1];
    forall n | 0 <= n < |accepted| ensures Log(n, accepted[n]) in rest <==> n !in lost + {gone} {
      WithoutMember(items, k, Log(n, accepted[n]));
    }
  }

  /** A log item other than the one taken out stays; the one taken out is gone, for lines are distinct. */
  lemma WithoutMember(items: seq<Item>, k: nat, item: Item)
    requires Ordered(items) && k < |items| && items[k].Log? && item.Log?
    ensures item in Without(items, k) <==> item in items && item != items[k]
  {
    var rest := Without(items, k);
    assert forall i :: 0 <= i < |rest| ==> rest[i] == items[if i < k then i else i + 1];
    if item in items && item != items[k] {
      var i :| 0 <= i < |items| && items[i] == item;
      assert rest[if i < k then i else i - 1] == item;
    }
  }

  lemma WriteKeeps(s: State, level: Level)
    requires Inv(s)
    ensures Inv(AfterWrite(s, level))
  {
    hide Books, Ordered;
    if s.accepting && !s.stop {
      if s.queuedLogs < s.capacity {
        PushKeeps(s, level);
      } else {
        var k := OldestLow(s.queue);
        if Low(level) || k == |s.queue| {
          BooksRefuse(All(s), s.accepted, s.lost, level);
        } else {
          EvictKeeps(s, k);
          PushKeeps(Evicted(s, k), level);
        }
      }
    }
  }

  lemma PushKeeps(s: State, level: Level)
    requires Inv(s) && s.running && s.queuedLogs < s.capacity
    ensures Inv(Pushed(s, level))
  {
    hide Books, Ordered;
    var item := Log(|s.accepted|, level);
    BooksPush(All(s), s.accepted, s.lost, level);
    assert All(Pushed(s, level)) == All(s) + [item];
    LogsConcat(s.queue, [item]);
  }

  lemma EvictKeeps(s: State, k: nat)
    requires Inv(s) && s.running && k < |s.queue| && s.queue[k].Log?
    ensures Inv(Evicted(s, k))
  {
    hide Books, Ordered;
    var at := |s.out + InHand(s.worker)|;
    BooksEvict(All(s), s.accepted, s.lost, at + k);
    assert All(Evicted(s, k)) == Without(All(s), at + k);
    LogsWithout(s.queue, k);
  }

  lemma FlushKeeps(s: State)
    requires Inv(s)
    ensures Inv(AfterFlushCall(s))
  {
    hide Books, Ordered;
    var item := Flush(s.flushes, |s.accepted|);
    BooksFlush(All(s), s.accepted, s.lost, item);
    assert All(AfterFlushCall(s)) == All(s) + [item];
    LogsConcat(s.queue, [item]);
  }

  lemma StepKeeps(s: State, step: Step)
    requires Inv(s) && Enabled(s, step)
    ensures Inv(Apply(s, step))
  {
    hide Books, Ordered;
    match step
    case Write(level) => WriteKeeps(s, level);
    case FlushCall => FlushKeeps(s);
    case CloseGate => assert All(Apply(s, step)) == All(s);
    case RequestStop => assert All(Apply(s, step)) == All(s);
    case Take => assert All(Apply(s, step)) == All(s);
    case Finish => assert All(Apply(s, step)) == All(s);
  }

  lemma {:induction false} RunKeeps(s: State, steps: seq<Step>)
    requires Inv(s) && Legal(s, steps)
    ensures Inv(After(s, steps))
    decreases |steps|
  {
    hide Inv, Apply, Enabled;
    if steps != [] {
      StepKeeps(s, steps[0]);
      RunKeeps(Apply(s, steps[0]), steps[1..]);
    }
  }

  lemma StartedInv(capacity: nat)
    ensures Inv(Started(capacity))
  {
  }

  // ---------------------------------------------------------------- guarantees

  /** In every run the counter is the number of queued lines and within capacity; each accepted line
      is in exactly one place, or lost; and every loss is reported or still counted. */
  lemma Conservation(capacity: nat, steps: seq<Step>)
    requires Legal(Started(capacity), steps)
    ensures var s := After(Started(capacity), steps);
      && s.queuedLogs == Logs(s.queue) <= capacity
      && (forall n :: 0 <= n < |s.accepted| ==> (Log(n, s.accepted[n]) in All(s) <==> n !in s.lost))
      && Logs(All(s)) + |s.lost| == |s.accepted|
      && |s.lost| == s.reported + Unreported(s.worker) + s.dropped
  {
    StartedInv(capacity);
    RunKeeps(Started(capacity), steps);
    SameCapacity(Started(capacity), steps);
  }

  lemma {:induction false} SameCapacity(s: State, steps: seq<Step>)
    requires Legal(s, steps)
    ensures After(s, steps).capacity == s.capacity
    decreases |steps|
  {
    if steps != [] { SameCapacity(Apply(s, steps[0]), steps[1..]); }
  }

  /** Lines come out in the order they were accepted, each at most once. */
  lemma OutputInOrder(capacity: nat, steps: seq<Step>, i: nat, j: nat)
    requires Legal(Started(capacity), steps)
    requires var out := After(Started(capacity), steps).out; i < j < |out| && out[i].Log? && out[j].Log?
    ensures var out := After(Started(capacity), steps).out; out[i].line < out[j].line
  {
    StartedInv(capacity);
    RunKeeps(Started(capacity), steps);
    var s := After(Started(capacity), steps);
    assert All(s)[i] == s.out[i] && All(s)[j] == s.out[j];
  }

  /** What is queued and not low-priority, a barrier included, is never thrown out. */
  lemma {:induction false} UrgentSurvives(s: State, steps: seq<Step>, item: Item)
    requires Legal(s, steps) && item in All(s) && !(item.Log? && Low(item.level))
    ensures item in All(After(s, steps))
    decreases |steps|
  {
    if steps != [] {
      UrgentStays(s, steps[0], item);
      UrgentSurvives(Apply(s, steps[0]), steps[1..], item);
    }
  }

  lemma UrgentQueued(s: State, level: Level, i: nat)
    requires i < |s.queue| && !(s.queue[i].Log? && Low(s.queue[i].level))
    ensures s.queue[i] in AfterWrite(s, level).queue
  {
    var k, q := OldestLow(s.queue), AfterWrite(s, level).queue;
    hide OldestLow;
    assert i != k;
    assert q[i] == s.queue[i] || (i > 0 && q[i - 1] == s.queue[i]);
  }

  lemma UrgentStays(s: State, step: Step, item: Item)
    requires Enabled(s, step) && item in All(s) && !(item.Log? && Low(item.level))
    ensures item in All(Apply(s, step))
  {
    hide OldestLow;
    var t := Apply(s, step);
    if item in s.queue {
      var i :| 0 <= i < |s.queue| && s.queue[i] == item;
      match step
      case Write(level) => UrgentQueued(s, level, i);
      case Take => assert t.worker.item == item || t.queue[i - 1] == item;
      case FlushCall => assert item in t.queue || t.queue == s.queue;
      case CloseGate =>
      case RequestStop =>
      case Finish =>
    }
  }

  ghost predicate HasFlush(items: seq<Item>, barrier: nat) {
    exists mark: nat :: Flush(barrier, mark) in items
  }

  /** Every flush asked for is waiting its turn or answered. */
  lemma {:induction false} FlushesKept(s: State, steps: seq<Step>)
    requires Legal(s, steps) && forall b :: 0 <= b < s.flushes ==> HasFlush(All(s), b)
    ensures forall b :: 0 <= b < After(s, steps).flushes ==> HasFlush(All(After(s, steps)), b)
    decreases |steps|
  {
    if steps != [] {
      var t := Apply(s, steps[0]);
      forall b | 0 <= b < t.flushes ensures HasFlush(All(t), b) {
        FlushKept(s, steps[0], b);
      }
      FlushesKept(t, steps[1..]);
    }
  }

  lemma FlushKept(s: State, step: Step, b: nat)
    requires Enabled(s, step) && (b < s.flushes ==> HasFlush(All(s), b)) && b < Apply(s, step).flushes
    ensures HasFlush(All(Apply(s, step)), b)
  {
    var t := Apply(s, step);
    if b < s.flushes {
      var mark: nat :| Flush(b, mark) in All(s);
      UrgentStays(s, step, Flush(b, mark));
    } else {
      assert Flush(b, |s.accepted|) in t.queue || Flush(b, |s.accepted|) in t.out;
      assert Flush(b, |s.accepted|) in All(t);
    }
  }

  /** A line let through is refused exactly when the queue is full and the line is low-priority or
      every queued one is urgent. */
  lemma RefusedExactly(s: State, level: Level)
    requires Inv(s) && s.accepting && !s.stop
    ensures |s.accepted| in AfterWrite(s, level).lost
       <==> Logs(s.queue) == s.capacity && (Low(level) || forall x :: x in s.queue && x.Log? ==> !Low(x.level))
  {
    assert |s.accepted| !in s.lost;
    var k := OldestLow(s.queue);
    if k < |s.queue| {
      assert s.queue[k] in s.queue;
      assert All(s)[|s.out + InHand(s.worker)| + k] == s.queue[k];
      assert Known(s.queue[k], s.accepted);
    }
  }

  /** When an urgent line needs room and there are low-priority lines, the oldest of them goes, and
      nothing else. */
  lemma OldestGoes(s: State, level: Level, x: Item) returns (gone: Item)
    requires Inv(s) && s.accepting && !s.stop && !Low(level) && Logs(s.queue) == s.capacity
    requires x in s.queue && x.Log? && Low(x.level)
    ensures gone in s.queue && gone.Log? && Low(gone.level) && gone.line <= x.line
    ensures AfterWrite(s, level).lost == s.lost + {gone.line}
    ensures forall y :: y in s.queue && y != gone ==> y in AfterWrite(s, level).queue
  {
    var k, at := OldestLow(s.queue), |s.out + InHand(s.worker)|;
    var i :| 0 <= i < |s.queue| && s.queue[i] == x;
    assert k <= i;
    gone := s.queue[k];
    assert All(s)[at + k] == gone && All(s)[at + i] == x;
    forall y | y in s.queue && y != gone ensures y in Without(s.queue, k) {
      var j :| 0 <= j < |s.queue| && s.queue[j] == y;
      assert Without(s.queue, k)[if j < k then j else j - 1] == y;
    }
  }

  /** When a flush has returned, every line accepted before the call has been written or counted as
      dropped. */
  lemma FlushIsABarrier(capacity: nat, steps: seq<Step>, flush: Item, n: nat)
    requires Legal(Started(capacity), steps)
    requires var s := After(Started(capacity), steps);
      flush.Flush? && flush in s.out && n < flush.mark && n < |s.accepted|
    ensures var s := After(Started(capacity), steps); Log(n, s.accepted[n]) in s.out || n in s.lost
  {
    StartedInv(capacity);
    RunKeeps(Started(capacity), steps);
    var s := After(Started(capacity), steps);
    var all, item := All(s), Log(n, s.accepted[n]);
    if n !in s.lost {
      assert item in all;
      var i :| 0 <= i < |s.out| && s.out[i] == flush;
      var j :| 0 <= j < |all| && all[j] == item;
      assert all[i] == flush;
      assert i < j ==> Before(flush, n);
      assert all[j] == s.out[j];
    }
  }

  /** Once the worker has left, every accepted line has been written or its loss announced, and every
      flush ever queued has been answered. */
  lemma ExitIsClean(capacity: nat, steps: seq<Step>)
    requires Legal(Started(capacity), steps) && After(Started(capacity), steps).worker.Exited?
    ensures var s := After(Started(capacity), steps);
      && (forall b :: 0 <= b < s.flushes ==> HasFlush(s.out, b))
      && Logs(s.out) + s.reported == |s.accepted|
      && |s.lost| == s.reported
  {
    StartedInv(capacity);
    RunKeeps(Started(capacity), steps);
    FlushesKept(Started(capacity), steps);
    var s := After(Started(capacity), steps);
    assert All(s) == s.out;
  }
}
