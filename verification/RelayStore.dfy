/** The relay's blob queue. */
module RelayStore {
  import opened Basics
  import opened RowOrder

  const U64_MAX := TWO_64 - 1
  /** The largest value an SQLite INTEGER column holds; binding a larger `u64` fails. */
  const I64_MAX := TWO_63 - 1

  /** 30 days, in seconds. */
  const DEFAULT_TTL := 30 * 24 * 60 * 60
  /** One hour, in seconds. */
  const EXPIRY_BUCKET := 60 * 60

  datatype StoreError = MalformedInboxId | BlobTooLarge | Database

  datatype Result<+T> = Ok(value: T) | Err(error: StoreError)

  /** A row of the queue; its key is the message identifier. */
  datatype Row<B> = Row(inbox: Ident, blob: B, expires: u64)

  type Queue<B> = map<Ident, Row<B>>

  datatype Envelope<B> = Envelope(id: Ident, blob: B)

  function SaturatingAdd(a: u64, b: u64): u64 {
    if a + b <= U64_MAX then a + b else U64_MAX
  }

  /** Floors the arrival to its hour, then adds the lifetime and one hour of slack, saturating. */
  function BucketedExpiry(now: u64, ttl: u64): u64 {
    SaturatingAdd(SaturatingAdd(now / EXPIRY_BUCKET * EXPIRY_BUCKET, ttl), EXPIRY_BUCKET)
  }

  /** A blob lives its whole lifetime, and at most one hour longer, unless the sum saturates. */
  lemma {:induction false} ExpiryBounds(now: u64, ttl: u64)
    ensures now + ttl + EXPIRY_BUCKET <= U64_MAX ==> now + ttl < BucketedExpiry(now, ttl) <= now + ttl + EXPIRY_BUCKET
    ensures now + 2_595_600 <= U64_MAX ==> now + 2_592_000 < BucketedExpiry(now, DEFAULT_TTL) <= now + 2_595_600
  {
  }

  /** The expiry tells an observer the arrival hour and nothing finer. */
  lemma {:induction false} ExpiryRevealsOnlyTheHour(a: u64, b: u64, ttl: u64)
    ensures BucketedExpiry(a, ttl) == BucketedExpiry(b, ttl)
            <==> a / 3600 == b / 3600 || BucketedExpiry(a, ttl) == U64_MAX == BucketedExpiry(b, ttl)
  {
  }

  predicate IsHexDigit(b: byte) {
    48 <= b <= 57 || 65 <= b <= 70 || 97 <= b <= 102
  }

  predicate IsValidInboxId(id: Ident) {
    |id| == 32 && forall i :: 0 <= i < |id| ==> IsHexDigit(id[i])
  }

  /** Letters in lower case; other bytes as they are. */
  function Lowered(id: Ident): (low: Ident)
    ensures |low| == |id|
    ensures forall i :: 0 <= i < |id| ==> low[i] == if 65 <= id[i] <= 70 then id[i] + 32 else id[i]
  {
    if id == [] then [] else [if 65 <= id[0] <= 70 then id[0] + 32 else id[0]] + Lowered(id[1..])
  }

  /** The valid addresses are the hexadecimal texts of sixteen bytes, as an identity makes them, in either case. */
  lemma {:induction false} ValidInboxIds(id: Ident)
    ensures IsValidInboxId(id) <==> exists b: Bytes :: |b| == 16 && Hex(b) == Lowered(id)
  {
    if IsValidInboxId(id) {
      var b := HexOfSomething(Lowered(id));
      assert |b| == 16 && Hex(b) == Lowered(id);
    }
    if b: Bytes :| |b| == 16 && Hex(b) == Lowered(id) {
      forall i | 0 <= i < |id| ensures IsHexDigit(id[i]) {
        HexReadsBack(b, i / 2);
        assert i == 2 * (i / 2) || i == 2 * (i / 2) + 1;
        assert IsLowerHex(Lowered(id)[i]);
      }
    }
  }

  /** Why the relay refuses a blob, if it does. `size` is the blob's length on the wire. */
  function Refusal<B>(q: Queue<B>, id: Ident, inbox: Ident, size: nat, limit: nat, now: u64): Option<StoreError> {
    if !IsValidInboxId(inbox) then Some(MalformedInboxId)
    else if size > limit then Some(BlobTooLarge)
    else if BucketedExpiry(now, DEFAULT_TTL) > I64_MAX || id in q then Some(Database)
    else None
  }

  function Enqueued<B>(q: Queue<B>, id: Ident, inbox: Ident, blob: B, size: nat, limit: nat, now: u64): Queue<B> {
    if Refusal(q, id, inbox, size, limit, now).Some? then q
    else q[id := Row(inbox, blob, BucketedExpiry(now, DEFAULT_TTL))]
  }

  /** The rows a collect may return. */
  function Visible<B>(q: Queue<B>, inbox: Ident, now: u64): Queue<B> {
    map id | id in q && q[id].inbox == inbox && q[id].expires > now :: q[id]
  }

  /** A query's rows in identifier order: arrival order leaves no mark. */
  function ById<B>(rows: Queue<B>): (ids: seq<Ident>)
    ensures forall k :: k in rows ==> k in ids
    ensures forall i :: 0 <= i < |ids| ==> ids[i] in rows
    ensures forall i, j :: 0 <= i < j < |ids| ==> ids[i] != ids[j] && Leq(ids[i], ids[j])
  {
    var at: map<Ident, int> := map id | id in rows :: 0;
    InOrderEnumerates(at);
    InOrder(at)
  }

  function Envelopes<B>(rows: Queue<B>, ids: seq<Ident>): (s: seq<Envelope<B>>)
    requires forall i :: 0 <= i < |ids| ==> ids[i] in rows
    ensures |s| == |ids|
    ensures forall i :: 0 <= i < |ids| ==> s[i] == Envelope(ids[i], rows[ids[i]].blob)
  {
    if ids == [] then [] else [Envelope(ids[0], rows[ids[0]].blob)] + Envelopes(rows, ids[1..])
  }

  function Collected<B>(q: Queue<B>, inbox: Ident, now: u64): Result<seq<Envelope<B>>> {
    if !IsValidInboxId(inbox) then Err(MalformedInboxId)
    else if now > I64_MAX then Err(Database)
    else
      var rows := Visible(q, inbox, now);
      Ok(Envelopes(rows, ById(rows)))
  }

  /** A collect returns the inbox's unexpired blobs, all of them, once each, in identifier order. */
  lemma {:induction false} CollectedExactly<B>(q: Queue<B>, inbox: Ident, now: u64, answer: seq<Envelope<B>>)
    requires Collected(q, inbox, now) == Ok(answer)
    ensures forall i :: 0 <= i < |answer| ==> Returns(q, inbox, now, answer[i])
    ensures forall e :: Returns(q, inbox, now, e) ==> e in answer
    ensures forall i, j :: 0 <= i < j < |answer| ==> answer[i].id != answer[j].id && Leq(answer[i].id, answer[j].id)
  {
    var rows := Visible(q, inbox, now);
    assert answer == Envelopes(rows, ById(rows));
    forall e | Returns(q, inbox, now, e)
      ensures e in answer
    {
      InEnvelopes(rows, ById(rows), e);
    }
  }

  lemma {:induction false} InEnvelopes<B>(rows: Queue<B>, ids: seq<Ident>, e: Envelope<B>)
    requires (forall i :: 0 <= i < |ids| ==> ids[i] in rows) && e.id in ids && rows[e.id].blob == e.blob
    ensures e in Envelopes(rows, ids)
  {
    var k :| 0 <= k < |ids| && ids[k] == e.id;
    assert Envelopes(rows, ids)[k] == e;
  }

  /** `e` is a blob of this inbox that has not expired. */
  ghost predicate Returns<B>(q: Queue<B>, inbox: Ident, now: u64, e: Envelope<B>) {
    e.id in q && q[e.id].inbox == inbox && q[e.id].blob == e.blob && q[e.id].expires > now
  }

  function Acknowledged<B>(q: Queue<B>, inbox: Ident, ids: seq<Ident>): Queue<B> {
    map id | id in q && !(id in ids && q[id].inbox == inbox) :: q[id]
  }

  /** What an acknowledgement erases; the relay answers with how many. */
  function Erased<B>(q: Queue<B>, inbox: Ident, ids: seq<Ident>): set<Ident> {
    set id | id in q && id in ids && q[id].inbox == inbox
  }

  /** The count is of rows that are gone. */
  lemma {:induction false} ErasedCount<B>(q: Queue<B>, inbox: Ident, ids: seq<Ident>)
    ensures |Erased(q, inbox, ids)| == |q| - |Acknowledged(q, inbox, ids)|
  {
    var left := Acknowledged(q, inbox, ids);
    assert q.Keys == left.Keys + Erased(q, inbox, ids);
    assert |q.Keys| == |left.Keys| + |Erased(q, inbox, ids)|;
  }

  /** Each identifier erases one row of the inbox, if it is still there. */
  lemma {:induction false} EraseOne<B>(q: Queue<B>, inbox: Ident, ids: seq<Ident>, i: nat)
    requires i < |ids|
    ensures var left := Acknowledged(q, inbox, ids[..i]);
            var there := ids[i] in left && left[ids[i]].inbox == inbox;
            && Acknowledged(q, inbox, ids[..i + 1]) == (if there then left - {ids[i]} else left)
            && |Erased(q, inbox, ids[..i + 1])| == |Erased(q, inbox, ids[..i])| + (if there then 1 else 0)
  {
    var left := Acknowledged(q, inbox, ids[..i]);
    var gone := Erased(q, inbox, ids[..i]);
    assert ids[..i + 1] == ids[..i] + [ids[i]];
    if ids[i] in left && left[ids[i]].inbox == inbox {
      assert ids[i] !in gone && Erased(q, inbox, ids[..i + 1]) == gone + {ids[i]};
    } else {
      assert Erased(q, inbox, ids[..i + 1]) == gone;
    }
  }

  function Swept<B>(q: Queue<B>, now: u64): Queue<B> {
    map id | id in q && q[id].expires > now :: q[id]
  }

  /** The relay's store: one table. The clock reading and the random identifier are parameters. */
  class Store {
    var queue: Queue<Bytes>
    const maxBlobBytes: nat

    constructor (maxBlobBytes: nat)
      ensures queue == map[] && this.maxBlobBytes == maxBlobBytes
    {
      this.queue := map[];
      this.maxBlobBytes := maxBlobBytes;
    }

    method Enqueue(inbox: Ident, blob: Bytes, id: Ident, now: u64) returns (r: Result<Ident>)
      modifies this
      ensures queue == Enqueued(old(queue), id, inbox, blob, |blob|, maxBlobBytes, now)
      ensures r == match Refusal(old(queue), id, inbox, |blob|, maxBlobBytes, now)
                   case Some(e) => Err(e)
                   case None => Ok(id)
      ensures !IsValidInboxId(inbox) ==> r == Err(MalformedInboxId)
      ensures IsValidInboxId(inbox) && |blob| > maxBlobBytes ==> r == Err(BlobTooLarge)
      ensures r.Err? ==> queue == old(queue)
      ensures IsValidInboxId(inbox) && |blob| <= maxBlobBytes && id !in old(queue) && now + 2_595_600 <= I64_MAX ==>
                && r == Ok(id)
                && queue == old(queue)[id := Row(inbox, blob, now / 3600 * 3600 + 2_592_000 + 3600)]
    {
      if !IsValidInboxId(inbox) {
        return Err(MalformedInboxId);
      }
      if |blob| > maxBlobBytes {
        return Err(BlobTooLarge);
      }
      var expires := BucketedExpiry(now, DEFAULT_TTL);
      if expires > I64_MAX || id in queue {
        return Err(Database);
      }
      queue := queue[id := Row(inbox, blob, expires)];
      return Ok(id);
    }

    /** Returns what is waiting and deletes nothing. */
    method Collect(inbox: Ident, now: u64) returns (r: Result<seq<Envelope<Bytes>>>)
      ensures r == Collected(queue, inbox, now)
      ensures r.Ok? <==> IsValidInboxId(inbox) && now <= 0x7fff_ffff_ffff_ffff
      ensures !IsValidInboxId(inbox) ==> r == Err(MalformedInboxId)
    {
      if !IsValidInboxId(inbox) {
        return Err(MalformedInboxId);
      }
      if now > I64_MAX {
        return Err(Database);
      }
      var rows := Visible(queue, inbox, now);
      var out := ReadRows(rows, ById(rows));
      return Ok(out);
    }

    /** The rows a query answers with, one after the other. */
    static method ReadRows(rows: Queue<Bytes>, ids: seq<Ident>) returns (out: seq<Envelope<Bytes>>)
      requires forall i :: 0 <= i < |ids| ==> ids[i] in rows
      ensures out == Envelopes(rows, ids)
    {
      ghost var all := Envelopes(rows, ids);
      out := [];
      for i := 0 to |ids|
        invariant out == all[..i]
      {
        out := out + [Envelope(ids[i], rows[ids[i]].blob)];
      }
      assert all[..|all|] == all;
    }

    /** Erases the named blobs of one inbox; another inbox's identifiers erase nothing. */
    method Acknowledge(inbox: Ident, ids: seq<Ident>) returns (r: Result<nat>)
      modifies this
      ensures !IsValidInboxId(inbox) ==> r == Err(MalformedInboxId) && queue == old(queue)
      ensures IsValidInboxId(inbox) ==> queue == Acknowledged(old(queue), inbox, ids)
      ensures IsValidInboxId(inbox) ==> r == Ok(|Erased(old(queue), inbox, ids)|)
      ensures IsValidInboxId(inbox) ==> r == Ok(|old(queue)| - |queue|)
      ensures IsValidInboxId(inbox) ==>
                forall id :: id in queue <==> id in old(queue) && !(id in ids && old(queue)[id].inbox == inbox)
      ensures forall id :: id in queue ==> id in old(queue) && queue[id] == old(queue)[id]
    {
      if !IsValidInboxId(inbox) {
        return Err(MalformedInboxId);
      }
      var deleted := 0;
      for i := 0 to |ids|
        invariant queue == Acknowledged(old(queue), inbox, ids[..i])
        invariant deleted == |Erased(old(queue), inbox, ids[..i])|
      {
        EraseOne(old(queue), inbox, ids, i);
        if ids[i] in queue && queue[ids[i]].inbox == inbox {
          queue := queue - {ids[i]};
          deleted := deleted + 1;
        }
      }
      assert ids[..|ids|] == ids;
      ErasedCount(old(queue), inbox, ids);
      return Ok(deleted);
    }

    method SweepExpired(now: u64) returns (r: Result<nat>)
      modifies this
      ensures now > I64_MAX ==> r == Err(Database) && queue == old(queue)
      ensures now <= I64_MAX ==> queue == Swept(old(queue), now) && r == Ok(|old(queue)| - |queue|)
      ensures now <= I64_MAX ==> forall id :: id in queue <==> id in old(queue) && old(queue)[id].expires > now
      ensures forall id :: id in queue ==> id in old(queue) && queue[id] == old(queue)[id]
    {
      if now > I64_MAX {
        return Err(Database);
      }
      var before := queue;
      queue := Swept(queue, now);
      assert queue.Keys <= before.Keys;
      assert |before.Keys| == |queue.Keys| + |before.Keys - queue.Keys|;
      return Ok(|before| - |queue|);
    }
  }
}
