/** Offline paging and the delivered/read updates (src/db/message_repository.cc:429-548,
    src/service/chat_service.cc:311-351) over the messages table. */
module OfflineMessages {
  import opened Wrappers

  /** How far a stored message has come. */
  datatype Status = Stored | Delivered | Read

  /** A row of `messages`. An id is its rank in the column's collation, the order it is compared in. */
  datatype Row = Row(id: int, toUser: int, status: Status, createdAt: int, deliveredAt: Option<int>,
                     readAt: Option<int>)

  /** The paging order: (created_at, id). */
  predicate Before(a: Row, b: Row) {
    a.createdAt < b.createdAt || (a.createdAt == b.createdAt && a.id < b.id)
  }

  /** The table in index order; ids are a primary key. */
  ghost predicate Table(rows: seq<Row>) {
    forall i, j :: 0 <= i < j < |rows| ==> Before(rows[i], rows[j]) && rows[i].id != rows[j].id
  }

  // ---------------------------------------------------------------- the query

  /** The cursor's row: the subselect finds it by id among the user's messages. */
  function Find(rows: seq<Row>, user: int, id: int): Option<Row> {
    if rows == [] then None
    else if rows[0].id == id && rows[0].toUser == user then Some(rows[0])
    else Find(rows[1..], user, id)
  }

  /** WHERE: stored, for this user, and past the cursor; a cursor that is not found matches nothing. */
  predicate Selects(user: int, cursor: Option<int>, at: Option<Row>, r: Row) {
    r.toUser == user && r.status.Stored? && (cursor.None? || (at.Some? && Before(at.value, r)))
  }

  function Filter(rows: seq<Row>, user: int, cursor: Option<int>, at: Option<Row>): (out: seq<Row>)
    ensures forall r :: r in out <==> r in rows && Selects(user, cursor, at, r)
  {
    if rows == [] then []
    else if Selects(user, cursor, at, rows[0]) then [rows[0]] + Filter(rows[1..], user, cursor, at)
    else Filter(rows[1..], user, cursor, at)
  }

  /** Every message the query would return with no LIMIT, in order. */
  function Offline(rows: seq<Row>, user: int, cursor: Option<int>): seq<Row> {
    Filter(rows, user, cursor, if cursor.Some? then Find(rows, user, cursor.value) else None)
  }

  function SafeLimit(limit: int): (n: nat)
    ensures 1 <= n <= 100
  {
    var n := if limit > 0 then limit else 20;
    if n < 100 then n else 100
  }

  function Take(s: seq<Row>, n: nat): seq<Row> {
    if n < |s| then s[..n] else s
  }

  /** The page is the first rows of the whole answer, and has_more says whether any were cut off. */
  method ListOffline(rows: seq<Row>, user: int, limit: int, cursor: Option<int>) returns (page: seq<Row>, hasMore: bool)
    ensures page == Take(Offline(rows, user, cursor), SafeLimit(limit))
    ensures hasMore <==> |page| < |Offline(rows, user, cursor)|
  {
    var safe := SafeLimit(limit);
    var result := Take(Offline(rows, user, cursor), safe + 1);
    page, hasMore := [], false;
    var fetched := 0;
    while fetched < |result|
      invariant 0 <= fetched <= |result|
      invariant fetched <= safe && page == result[..fetched] && !hasMore
    {
      if |page| == safe {
        hasMore := true;
        break;
      }
      page := page + [result[fetched]];
      fetched := fetched + 1;
    }
  }

  // ---------------------------------------------------------------- status updates

  /** One UPDATE of markDelivered or markRead. */
  datatype Mark = MarkDelivered(ids: set<int>, now: int) | MarkRead(ids: set<int>, now: int)

  function MarkRow(m: Mark, user: int, r: Row): Row {
    if r.id !in m.ids || r.toUser != user then r
    else match m
      case MarkDelivered(_, now) =>
        if r.status.Stored? then r.(status := Delivered, deliveredAt := Some(now)) else r
      case MarkRead(_, now) =>
        if r.status.Read? then r
        else
          r.(deliveredAt := if r.deliveredAt.None? then Some(now) else r.deliveredAt,
             status := Read, readAt := Some(now))
  }

  function Update(rows: seq<Row>, user: int, m: Mark): (out: seq<Row>)
    ensures |out| == |rows|
    ensures forall i :: 0 <= i < |rows| ==> out[i] == MarkRow(m, user, rows[i])
  {
    if rows == [] then [] else [MarkRow(m, user, rows[0])] + Update(rows[1..], user, m)
  }

  function UpdateAll(rows: seq<Row>, user: int, ms: seq<Mark>): seq<Row>
    decreases |ms|
  {
    if ms == [] then rows else UpdateAll(Update(rows, user, ms[0]), user, ms[1..])
  }

  function Rank(s: Status): int {
    match s case Stored => 0 case Delivered => 1 case Read => 2
  }

  function Asked(m: Mark): int {
    if m.MarkRead? then 2 else 1
  }

  /** A message has its times exactly from the statuses on that set them, as when it is inserted. */
  predicate Stamped(r: Row) {
    (r.deliveredAt.Some? <==> !r.status.Stored?) && (r.readAt.Some? <==> r.status.Read?)
  }

  /** Updates keep every message stamped, so a delivery or read time once set is never changed. */
  lemma {:induction false} TimesAreForGood(rows: seq<Row>, user: int, ms: seq<Mark>, i: nat)
    requires i < |rows| && Stamped(rows[i])
    ensures |UpdateAll(rows, user, ms)| == |rows|
    ensures var r, r' := rows[i], UpdateAll(rows, user, ms)[i];
            && Stamped(r') && Rank(r.status) <= Rank(r'.status)
            && (r.deliveredAt.Some? ==> r'.deliveredAt == r.deliveredAt)
            && (r.readAt.Some? ==> r'.readAt == r.readAt)
    decreases |ms|
  {
    hide Update;
    if ms != [] {
      TimesAreForGood(Update(rows, user, ms[0]), user, ms[1..], i);
    }
  }

  /** Updates move exactly the user's own listed messages, forward to the asked status and never back,
      keep delivery times, and repeating one changes nothing. */
  lemma UpdatesMoveForward(rows: seq<Row>, user: int, m: Mark, i: nat)
    requires i < |rows|
    ensures var r, r' := rows[i], Update(rows, user, m)[i];
            && r'.id == r.id && r'.toUser == r.toUser && r'.createdAt == r.createdAt
            && Rank(r'.status) == (if r.id in m.ids && r.toUser == user && Rank(r.status) < Asked(m) then Asked(m)
                                   else Rank(r.status))
            && (r'.status != r.status ==> r'.deliveredAt.Some? && (r'.status.Read? ==> r'.readAt == Some(m.now)))
            && (Stamped(r) ==> Stamped(r') && (r.deliveredAt.Some? ==> r'.deliveredAt == r.deliveredAt))
            && (r.id !in m.ids || r.toUser != user ==> r' == r)
    ensures Update(Update(rows, user, m), user, m) == Update(rows, user, m)
  {
    hide Update;
    var once := Update(rows, user, m);
    var twice := Update(once, user, m);
    assert forall k :: 0 <= k < |once| ==> twice[k] == once[k];
  }

  // ---------------------------------------------------------------- paging

  /** One client round: a pull, then updates before the next pull. */
  datatype Round = Round(limit: int, marks: seq<Mark>)

  datatype Session = Session(rows: seq<Row>, cursor: Option<int>, returned: seq<Row>, hasMore: bool)

  /** The cursor of the next pull is the id of the last message returned. */
  function Pull(s: Session, user: int, limit: int): Session {
    var all := Offline(s.rows, user, s.cursor);
    var page := Take(all, SafeLimit(limit));
    Session(s.rows, if page == [] then s.cursor else Some(page[|page| - 1].id), s.returned + page, |page| < |all|)
  }

  function Run(s: Session, user: int, rounds: seq<Round>): Session
    decreases |rounds|
  {
    if rounds == [] then s
    else
      var p := Pull(s, user, rounds[0].limit);
      Run(p.(rows := UpdateAll(p.rows, user, rounds[0].marks)), user, rounds[1..])
  }

  function Ids(rows: seq<Row>): set<int> {
    set r | r in rows :: r.id
  }

  /** Updates concern messages already returned. */
  ghost predicate Fair(s: Session, user: int, rounds: seq<Round>)
    decreases |rounds|
  {
    rounds != [] ==>
      var p := Pull(s, user, rounds[0].limit);
      && (forall m :: m in rounds[0].marks ==> m.ids <= Ids(p.returned))
      && Fair(p.(rows := UpdateAll(p.rows, user, rounds[0].marks)), user, rounds[1..])
  }

  function Total(rounds: seq<Round>): nat {
    if rounds == [] then 0 else SafeLimit(rounds[0].limit) + Total(rounds[1..])
  }

  // ---------------------------------------------------------------- proofs

  lemma {:induction false} FilterIsTable(rows: seq<Row>, user: int, cursor: Option<int>, at: Option<Row>)
    requires Table(rows)
    ensures Table(Filter(rows, user, cursor, at))
  {
    if rows != [] {
      FilterIsTable(rows[1..], user, cursor, at);
      forall r | r in Filter(rows[1..], user, cursor, at) ensures Before(rows[0], r) && rows[0].id != r.id {
        var i :| 0 <= i < |rows[1..]| && rows[1..][i] == r;
        assert rows[i + 1] == r;
      }
    }
  }

  lemma {:induction false} FindsIt(rows: seq<Row>, user: int, i: nat)
    requires Table(rows) && i < |rows| && rows[i].toUser == user
    ensures Find(rows, user, rows[i].id) == Some(rows[i])
  {
    if i > 0 {
      assert rows[0].id != rows[i].id;
      FindsIt(rows[1..], user, i - 1);
    }
  }

  function Positioned(user: int, r: Row, rows: seq<Row>): seq<Row> {
    Filter(rows, user, Some(r.id), Some(r))
  }

  lemma FilterStep(rows: seq<Row>, user: int, cursor: Option<int>, at: Option<Row>)
    requires rows != []
    ensures Filter(rows, user, cursor, at)
            == (if Selects(user, cursor, at, rows[0]) then [rows[0]] else []) + Filter(rows[1..], user, cursor, at)
  {
  }

  /** Filtering past the n-th selected row leaves the rows after it. */
  lemma {:induction false} CutAfter(rows: seq<Row>, user: int, cursor: Option<int>, at: Option<Row>, n: nat)
    requires Table(rows) && 1 <= n <= |Filter(rows, user, cursor, at)|
    ensures var all := Filter(rows, user, cursor, at);
            Positioned(user, all[n - 1], rows) == all[n..]
  {
    var all := Filter(rows, user, cursor, at);
    assert rows != [];
    Tail(rows);
    hide Filter, Table, Before;
    var rest := Filter(rows[1..], user, cursor, at);
    FilterStep(rows, user, cursor, at);
    if Selects(user, cursor, at, rows[0]) && n == 1 {
      FilterStep(rows, user, Some(rows[0].id), Some(rows[0]));
      AllAfter(rows[1..], user, cursor, at, rows[0]);
    } else {
      var k := if Selects(user, cursor, at, rows[0]) then n - 1 else n;
      CutAfter(rows[1..], user, cursor, at, k);
      SkipHead(rows, user, rest[k - 1]);
    }
  }

  lemma SkipHead(rows: seq<Row>, user: int, last: Row)
    requires Table(rows) && rows != [] && last in rows[1..]
    ensures Positioned(user, last, rows) == Positioned(user, last, rows[1..])
  {
    BeforeAll(rows, last);
    FilterStep(rows, user, Some(last.id), Some(last));
  }

  lemma Tail(rows: seq<Row>)
    requires Table(rows) && rows != []
    ensures Table(rows[1..]) && forall i :: 0 <= i < |rows[1..]| ==> Before(rows[0], rows[1..][i])
    ensures !Before(rows[0], rows[0])
  {
  }

  lemma BeforeAll(rows: seq<Row>, r: Row)
    requires Table(rows) && rows != [] && r in rows[1..]
    ensures Before(rows[0], r) && !Before(r, rows[0])
  {
    var i :| 0 <= i < |rows[1..]| && rows[1..][i] == r;
    assert rows[i + 1] == r;
  }

  lemma {:induction false} AllAfter(rows: seq<Row>, user: int, cursor: Option<int>, at: Option<Row>, r: Row)
    requires Selects(user, cursor, at, r) && forall i :: 0 <= i < |rows| ==> Before(r, rows[i])
    ensures Filter(rows, user, Some(r.id), Some(r)) == Filter(rows, user, cursor, at)
  {
    if rows != [] {
      AllAfter(rows[1..], user, cursor, at, r);
    }
  }

  /** The next pull sees exactly what this page left. */
  lemma NextPage(rows: seq<Row>, user: int, cursor: Option<int>, n: nat)
    requires Table(rows) && 1 <= n <= |Offline(rows, user, cursor)|
    ensures Offline(rows, user, Some(Offline(rows, user, cursor)[n - 1].id)) == Offline(rows, user, cursor)[n..]
  {
    var at := if cursor.Some? then Find(rows, user, cursor.value) else None;
    var last := Offline(rows, user, cursor)[n - 1];
    assert last in Offline(rows, user, cursor);
    var i :| 0 <= i < |rows| && rows[i] == last;
    FindsIt(rows, user, i);
    CutAfter(rows, user, cursor, at, n);
  }

  lemma {:induction false} FindUpdated(rows: seq<Row>, user: int, m: Mark, id: int)
    ensures var f, f' := Find(rows, user, id), Find(Update(rows, user, m), user, id);
            f.Some? == f'.Some? && (f.Some? ==> f'.value == MarkRow(m, user, f.value))
  {
    if rows != [] {
      FindUpdated(rows[1..], user, m, id);
    }
  }

  lemma {:induction false} FilterUpdated(rows: seq<Row>, user: int, m: Mark, cursor: Option<int>,
                                         at: Option<Row>, at': Option<Row>)
    requires at.Some? == at'.Some? && (at.Some? ==> at'.value == MarkRow(m, user, at.value))
    requires forall r :: r in Filter(rows, user, cursor, at) ==> r.id !in m.ids
    ensures Filter(Update(rows, user, m), user, cursor, at') == Filter(rows, user, cursor, at)
  {
    if rows != [] {
      assert Selects(user, cursor, at, rows[0]) ==> rows[0] in Filter(rows, user, cursor, at);
      assert Update(rows, user, m)[1..] == Update(rows[1..], user, m);
      FilterUpdated(rows[1..], user, m, cursor, at, at');
    }
  }

  lemma UpdateIsTable(rows: seq<Row>, user: int, m: Mark)
    requires Table(rows)
    ensures Table(Update(rows, user, m))
  {
    hide Update;
    var rows' := Update(rows, user, m);
    forall i, j | 0 <= i < j < |rows'| ensures Before(rows'[i], rows'[j]) && rows'[i].id != rows'[j].id {
      assert Before(rows[i], rows[j]);
    }
  }

  lemma UpdateKeepsRest(rows: seq<Row>, user: int, m: Mark, cursor: Option<int>)
    requires forall r :: r in Offline(rows, user, cursor) ==> r.id !in m.ids
    ensures Offline(Update(rows, user, m), user, cursor) == Offline(rows, user, cursor)
  {
    hide Filter, Find, Update;
    var at := if cursor.Some? then Find(rows, user, cursor.value) else None;
    var rows' := Update(rows, user, m);
    var at' := if cursor.Some? then Find(rows', user, cursor.value) else None;
    if cursor.Some? { FindUpdated(rows, user, m, cursor.value); }
    FilterUpdated(rows, user, m, cursor, at, at');
  }

  lemma {:induction false} UpdatesKeepRest(rows: seq<Row>, user: int, ms: seq<Mark>, cursor: Option<int>)
    requires Table(rows)
    requires forall m, r :: m in ms && r in Offline(rows, user, cursor) ==> r.id !in m.ids
    ensures Table(UpdateAll(rows, user, ms))
    ensures Offline(UpdateAll(rows, user, ms), user, cursor) == Offline(rows, user, cursor)
    decreases |ms|
  {
    hide Offline, Table, Update;
    if ms != [] {
      assert ms[0] in ms;
      UpdateIsTable(rows, user, ms[0]);
      UpdateKeepsRest(rows, user, ms[0], cursor);
      assert forall k :: k in ms[1..] ==> k in ms;
      UpdatesKeepRest(Update(rows, user, ms[0]), user, ms[1..], cursor);
    }
  }

  /** The session has returned the first rows of `all`, and the rest is what it would still see. */
  ghost predicate OnTrack(s: Session, user: int, all: seq<Row>) {
    && Table(s.rows) && Table(all)
    && |s.returned| <= |all| && s.returned == all[..|s.returned|]
    && Offline(s.rows, user, s.cursor) == all[|s.returned|..]
  }

  lemma PullOnTrack(s: Session, user: int, limit: int, all: seq<Row>)
    requires OnTrack(s, user, all)
    ensures OnTrack(Pull(s, user, limit), user, all)
    ensures |Pull(s, user, limit).returned| == Min(|s.returned| + SafeLimit(limit), |all|)
    ensures Pull(s, user, limit).hasMore <==> |Pull(s, user, limit).returned| < |all|
  {
    hide Offline;
    var rest := Offline(s.rows, user, s.cursor);
    var page := Take(rest, SafeLimit(limit));
    if page != [] {
      NextPage(s.rows, user, s.cursor, |page|);
      assert page == rest[..|page|];
    }
  }

  lemma MarksOnTrack(s: Session, user: int, ms: seq<Mark>, all: seq<Row>)
    requires OnTrack(s, user, all) && forall m :: m in ms ==> m.ids <= Ids(s.returned)
    ensures OnTrack(s.(rows := UpdateAll(s.rows, user, ms)), user, all)
  {
    hide Offline;
    var k := |s.returned|;
    forall m, r | m in ms && r in Offline(s.rows, user, s.cursor) ensures r.id !in m.ids {
      var j :| 0 <= j < |all[k..]| && all[k..][j] == r;
      forall q | q in s.returned ensures q.id != r.id {
        var i :| 0 <= i < k && all[i] == q;
        assert all[k + j] == r;
      }
    }
    UpdatesKeepRest(s.rows, user, ms, s.cursor);
  }

  function Min(a: nat, b: nat): nat {
    if a < b then a else b
  }

  lemma Unroll(s: Session, user: int, rounds: seq<Round>)
    requires rounds != [] && Fair(s, user, rounds)
    ensures var p := Pull(s, user, rounds[0].limit);
            var s' := p.(rows := UpdateAll(p.rows, user, rounds[0].marks));
            && Run(s, user, rounds) == Run(s', user, rounds[1..]) && Fair(s', user, rounds[1..])
            && (forall m :: m in rounds[0].marks ==> m.ids <= Ids(p.returned))
            && (rounds[1..] == [] ==> Run(s, user, rounds) == s' && Total(rounds[1..]) == 0)
    ensures Total(rounds) == SafeLimit(rounds[0].limit) + Total(rounds[1..])
  {
    hide Pull, UpdateAll;
  }

  lemma {:induction false} RunOnTrack(s: Session, user: int, rounds: seq<Round>, all: seq<Row>)
    requires OnTrack(s, user, all) && Fair(s, user, rounds)
    ensures OnTrack(Run(s, user, rounds), user, all)
    ensures |Run(s, user, rounds).returned| == Min(|s.returned| + Total(rounds), |all|)
    ensures rounds != [] ==> (Run(s, user, rounds).hasMore <==> |Run(s, user, rounds).returned| < |all|)
    decreases |rounds|
  {
    if rounds != [] {
      Unroll(s, user, rounds);
      hide OnTrack, UpdateAll, Pull, SafeLimit, Run, Fair, Total;
      var p := Pull(s, user, rounds[0].limit);
      PullOnTrack(s, user, rounds[0].limit, all);
      MarksOnTrack(p, user, rounds[0].marks, all);
      var s' := p.(rows := UpdateAll(p.rows, user, rounds[0].marks));
      RunOnTrack(s', user, rounds[1..], all);
    }
  }

  /** Paging is exact: pulling again and again with the last id as cursor, any limits, and any
      delivered/read updates of already returned messages in between, returns the user's stored
      messages in (created_at, id) order, each once, with no gap; has_more is true exactly while
      some remain. */
  lemma PagingIsExact(rows: seq<Row>, user: int, rounds: seq<Round>)
    requires Table(rows) && rounds != []
    requires Fair(Session(rows, None, [], false), user, rounds)
    ensures var all := Offline(rows, user, None);
            var s := Run(Session(rows, None, [], false), user, rounds);
            && s.returned == all[..Min(Total(rounds), |all|)]
            && (s.hasMore <==> Total(rounds) < |all|)
    ensures Table(Offline(rows, user, None))
    ensures forall r :: r in Offline(rows, user, None) <==> r in rows && r.toUser == user && r.status.Stored?
  {
    FilterIsTable(rows, user, None, None);
    RunOnTrack(Session(rows, None, [], false), user, rounds, Offline(rows, user, None)) by { hide Run, Fair, Total; }
    hide Run, Fair, Total, Filter;
  }
}
