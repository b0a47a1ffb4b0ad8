/** The dedup/create/conflict section of ChatService::sendMessage (src/service/chat_service.cc:182-219)
    over the repository and the Redis dedup cache (src/cache/message_dedup_cache.cc:10-36). */
module ChatService {
  import Decimal
  import O = OfflineMessages
  import opened Wrappers

  datatype Record = Record(id: string, conv: string, client: string, sender: int, receiver: int, content: string,
                           status: O.Status, seqno: int, createdAt: int)

  /** What the column's collation compares client ids by. */
  type Collation = string -> string

  /** The result the caller sees: the stored message and whether a push may be attempted, an
      idempotency conflict, or a repository failure. */
  datatype Sent = Sent(stored: Record, canPush: bool) | Conflict | StoreFailed

  // ---------------------------------------------------------------- the repository

  function Find(fold: Collation, rows: seq<Record>, sender: int, client: string): (r: Option<Record>)
    ensures r.Some? ==> r.value in rows && r.value.sender == sender && fold(r.value.client) == fold(client)
    ensures r.None? ==> forall k :: k in rows ==> !(k.sender == sender && fold(k.client) == fold(client))
  {
    if rows == [] then None
    else if rows[0].sender == sender && fold(rows[0].client) == fold(client) then Some(rows[0])
    else Find(fold, rows[1..], sender, client)
  }

  function LastSeq(rows: seq<Record>, conv: string): nat {
    if rows == [] then 0 else LastSeq(rows[1..], conv) + (if rows[0].conv == conv then 1 else 0)
  }

  /** createMessage, one call at a time: the stored message, whether it is new, and the new table. */
  function Create(fold: Collation, rows: seq<Record>, pending: Record): (seq<Record>, Record, bool) {
    var existing := Find(fold, rows, pending.sender, pending.client);
    if existing.Some? then (rows, existing.value, false)
    else
      var stored := pending.(seqno := LastSeq(rows, pending.conv) + 1);
      (rows + [stored], stored, true)
  }

  // ---------------------------------------------------------------- sending

  /** IsSameIdempotentMessage. */
  predicate SameMessage(a: Record, b: Record) {
    a.conv == b.conv && a.client == b.client && a.sender == b.sender && a.receiver == b.receiver
    && a.content == b.content
  }

  function Answer(pending: Record, stored: Record, created: bool): Sent {
    if SameMessage(pending, stored) then Sent(stored, created || stored.status.Stored?) else Conflict
  }

  /** sendMessage with no cache. */
  function SendPlain(fold: Collation, rows: seq<Record>, pending: Record, createFails: bool): (seq<Record>, Sent) {
    if createFails then (rows, StoreFailed)
    else
      var (rows', stored, created) := Create(fold, rows, pending);
      (rows', Answer(pending, stored, created))
  }

  class Repository {
    var rows: seq<Record>

    constructor ()
      ensures rows == []
    {
      rows := [];
    }

    method CreateMessage(fold: Collation, pending: Record, fails: bool) returns (stored: Option<Record>, created: bool)
      modifies this
      ensures fails ==> stored.None? && rows == old(rows)
      ensures !fails ==> stored.Some? && (rows, stored.value, created) == Create(fold, old(rows), pending)
    {
      if fails {
        return None, false;
      }
      var (rows', r, c) := Create(fold, rows, pending);
      rows := rows';
      return Some(r), c;
    }
  }

  class DedupCache {
    var entries: map<(int, string), string>

    constructor ()
      ensures entries == map[]
    {
      entries := map[];
    }

    method Lookup(sender: int, client: string, fails: bool) returns (id: Option<string>)
      ensures id.Some? <==> !fails && (sender, client) in entries && entries[(sender, client)] != ""
      ensures id.Some? ==> id.value == entries[(sender, client)]
    {
      if fails || (sender, client) !in entries || entries[(sender, client)] == "" {
        return None;
      }
      return Some(entries[(sender, client)]);
    }

    method Save(sender: int, client: string, id: string, fails: bool)
      modifies this
      ensures entries == if id != "" && !fails then old(entries)[(sender, client) := id] else old(entries)
    {
      if id != "" && !fails {
        entries := entries[(sender, client) := id];
      }
    }

    method Remove(sender: int, client: string, fails: bool)
      modifies this
      ensures entries == if fails then old(entries) else old(entries) - {(sender, client)}
    {
      if !fails {
        entries := entries - {(sender, client)};
      }
    }
  }

  /** Which commands fail during one sendMessage. */
  datatype Faults = Faults(lookup: bool, find: bool, remove: bool, create: bool, save: bool)

  /** The cache answered with the id of the message the repository holds. */
  ghost predicate Hit(fold: Collation, rows: seq<Record>, entries: map<(int, string), string>, pending: Record,
                      f: Faults)
  {
    var key := (pending.sender, pending.client);
    var existing := Find(fold, rows, pending.sender, pending.client);
    !f.lookup && !f.find && key in entries && entries[key] != "" && existing.Some? && existing.value.id == entries[key]
  }

  class Service {
    const repository: Repository
    const cache: DedupCache

    constructor (r: Repository, c: DedupCache)
      ensures repository == r && cache == c
    {
      repository, cache := r, c;
    }

    /** Dedup transparency: whatever the cache holds and whichever cache or lookup commands fail, the
        answer and the table are those of a send with no cache, exactly unless createMessage would
        fail while the cache hits: only then is the cached answer given instead of the failure. */
    method SendMessage(fold: Collation, pending: Record, f: Faults) returns (sent: Sent)
      modifies repository, cache
      ensures (repository.rows, sent) == SendPlain(fold, old(repository.rows), pending, f.create)
              <==> !(f.create && Hit(fold, old(repository.rows), old(cache.entries), pending, f))
      ensures f.create && Hit(fold, old(repository.rows), old(cache.entries), pending, f) ==>
                (repository.rows, sent) == SendPlain(fold, old(repository.rows), pending, false)
    {
      ghost var rows := repository.rows;
      var result: Option<Record>, created := None, false;
      var cachedId := cache.Lookup(pending.sender, pending.client, f.lookup);
      if cachedId.Some? {
        var existing := if f.find then None else Find(fold, repository.rows, pending.sender, pending.client);
        if existing.Some? && existing.value.id == cachedId.value {
          result := existing;
        } else {
          cache.Remove(pending.sender, pending.client, f.remove);
        }
      }
      if result.None? {
        result, created := repository.CreateMessage(fold, pending, f.create);
      }
      if result.None? {
        return StoreFailed;
      }
      if !SameMessage(pending, result.value) {
        return Conflict;
      }
      cache.Save(pending.sender, pending.client, result.value.id, f.save);
      return Sent(result.value, created || result.value.status.Stored?);
    }
  }

  // ---------------------------------------------------------------- idempotence

  /** Sending the same request again, with any new message id and time, stores nothing and returns
      the message already stored; a different message under the same client id conflicts and stores
      nothing either. */
  lemma ResendIsIdempotent(fold: Collation, rows: seq<Record>, first: Record, again: Record)
    requires first.sender == again.sender && fold(first.client) == fold(again.client)
    requires SendPlain(fold, rows, first, false).1.Sent?
    ensures var (rows', sent) := SendPlain(fold, rows, first, false);
            var (rows'', resent) := SendPlain(fold, rows', again, false);
            && rows'' == rows'
            && (SameMessage(first, again) ==> resent.Sent? && resent.stored == sent.stored)
            && (!SameMessage(first, again) ==> resent.Conflict?)
  {
    var existing := Find(fold, rows, first.sender, first.client);
    if existing.Some? {
      FindFolded(fold, rows, first.sender, first.client, again.client);
    } else {
      var stored := first.(seqno := LastSeq(rows, first.conv) + 1);
      FindLast(fold, rows, stored, again.client);
    }
  }

  lemma {:induction false} FindFolded(fold: Collation, rows: seq<Record>, sender: int, a: string, b: string)
    requires fold(a) == fold(b)
    ensures Find(fold, rows, sender, a) == Find(fold, rows, sender, b)
  {
    if rows != [] {
      FindFolded(fold, rows[1..], sender, a, b);
    }
  }

  lemma {:induction false} FindLast(fold: Collation, rows: seq<Record>, stored: Record, client: string)
    requires Find(fold, rows, stored.sender, stored.client).None? && fold(stored.client) == fold(client)
    ensures Find(fold, rows + [stored], stored.sender, client) == Some(stored)
  {
    if rows == [] {
      assert rows + [stored] == [stored];
    } else {
      assert rows[0] in rows;
      assert (rows + [stored])[1..] == rows[1..] + [stored];
      FindLast(fold, rows[1..], stored, client);
    }
  }

  // ---------------------------------------------------------------- conversation ids

  function BuildConversationId(a: nat, b: nat): string {
    var lo, hi := if a < b then a else b, if a < b then b else a;
    "conv_" + (Decimal.Digits(lo) + ("_" + Decimal.Digits(hi)))
  }

  lemma SplitAtUnderscore(a: string, b: string, c: string, d: string)
    requires Decimal.AllDigits(a) && Decimal.AllDigits(c) && a + ("_" + b) == c + ("_" + d)
    ensures a == c && b == d
  {
    var s := a + ("_" + b);
    assert s[|a|] == '_' && s[|c|] == '_';
    assert |a| <= |s| && |c| <= |s| && s[..|a|] == a && s[..|c|] == c;
    assert |a| == |c|;
    assert a == s[..|a|] == c;
    assert b == s[|a| + 1..] == d;
  }

  /** Two users have one conversation id whoever sends, and no other pair shares it. */
  lemma ConversationIdIsThePair(a: nat, b: nat, c: nat, d: nat)
    ensures BuildConversationId(a, b) == BuildConversationId(c, d) <==> (a == c && b == d) || (a == d && b == c)
  {
    if BuildConversationId(a, b) == BuildConversationId(c, d) {
      var lo, hi := if a < b then a else b, if a < b then b else a;
      var lo', hi' := if c < d then c else d, if c < d then d else c;
      Decimal.DigitsRead(lo);
      Decimal.DigitsRead(hi);
      Decimal.DigitsRead(lo');
      Decimal.DigitsRead(hi');
      assert BuildConversationId(a, b)[5..] == Decimal.Digits(lo) + ("_" + Decimal.Digits(hi));
      assert BuildConversationId(c, d)[5..] == Decimal.Digits(lo') + ("_" + Decimal.Digits(hi'));
      SplitAtUnderscore(Decimal.Digits(lo), Decimal.Digits(hi), Decimal.Digits(lo'), Decimal.Digits(hi'));
    }
  }
}
