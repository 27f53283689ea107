/** What a flush posts, removes and leaves, and in which order. */
module OutboxRules {
  import opened Basics
  import opened RowOrder
  import opened Mls
  import opened Tables
  import opened Client

  /** How many entries a flush of `n` gets rid of: the accepted posts before the first failure. */
  function Delivered(n: nat, posts: seq<PostReply>): (k: nat)
    ensures k <= n
    decreases n
  {
    if n == 0 || !FirstReply(posts).Accepted? then 0 else 1 + Delivered(n - 1, RestReplies(posts))
  }

  /** The requests a program makes of the relay, in order. */
  function Posts(p: seq<Effect>): seq<(Ident, Blob)>
    decreases |p|
  {
    if p == [] then []
    else (if p[0].Post? then [(p[0].inbox, p[0].blob)] else []) + Posts(p[1..])
  }

  lemma {:induction false} PostsConcat(a: seq<Effect>, b: seq<Effect>)
    ensures Posts(a + b) == Posts(a) + Posts(b)
    decreases |a|
  {
    if a == [] {
      assert a + b == b;
    } else {
      assert (a + b)[0] == a[0] && (a + b)[1..] == a[1..] + b;
      PostsConcat(a[1..], b);
    }
  }

  function Request(box: map<Ident, Queued>, id: Ident): (Ident, Blob)
    requires id in box
  {
    (box[id].peerInbox, box[id].blob)
  }

  /** The entry after one failed attempt. */
  function Attempted(q: Queued, error: string): Queued {
    q.(attempts := q.attempts + 1, lastError := Some(error))
  }

  /** The answer to the post that stopped the flush. */
  function FailureAfter(k: nat, posts: seq<PostReply>): PostReply
    decreases k
  {
    if k == 0 then FirstReply(posts) else FailureAfter(k - 1, RestReplies(posts))
  }

  /** The outbox once the first `k` of `order` are gone and the next one, if any, has failed. */
  ghost predicate Shortened(before: map<Ident, Queued>, after: map<Ident, Queued>, order: seq<Ident>, k: nat,
      failure: PostReply)
    requires k <= |order|
  {
    && after.Keys == before.Keys - (set id | id in order[..k])
    && forall id :: id in after ==>
         after[id] == if k < |order| && id == order[k] && !failure.Accepted? then Attempted(before[id], failure.error)
         else before[id]
  }

  /** The outbox table a flush leaves. */
  ghost function BoxAfter(table: map<Ident, Queued>, order: seq<Ident>, posts: seq<PostReply>): map<Ident, Queued>
    decreases |order|
  {
    if order == [] then table
    else if FirstReply(posts).Accepted? then BoxAfter(table - {order[0]}, order[1..], RestReplies(posts))
    else if order[0] in table then table[order[0] := Attempted(table[order[0]], FirstReply(posts).error)]
    else table
  }

  lemma {:induction false} Delivering(d: Device, q: Queued, id: Ident, reply: PostReply, rest: seq<Effect>)
    ensures Run(d, [Post(q.peerInbox, q.blob, reply), Sql(Dequeue(id))] + rest)
            == Run(d.(db := d.db.(outbox := d.db.outbox - {id})), rest)
  {
    var first := [Post(q.peerInbox, q.blob, reply), Sql(Dequeue(id))];
    RunConcat(d, first, rest);
    TwoSteps(d, first[0], first[1]);
  }

  lemma {:induction false} FlushRuns(d: Device, box: map<Ident, Queued>, order: seq<Ident>, posts: seq<PostReply>)
    requires forall i :: 0 <= i < |order| ==> order[i] in box
    ensures Run(d, FlushProgram(box, order, posts)) == d.(db := d.db.(outbox := BoxAfter(d.db.outbox, order, posts)))
    decreases |order|
  {
    if order != [] {
      var p := FlushProgram(box, order, posts);
      var reply := FirstReply(posts);
      if reply.Accepted? {
        var rest := FlushProgram(box, order[1..], RestReplies(posts));
        Delivering(d, box[order[0]], order[0], reply, rest);
        FlushRuns(d.(db := d.db.(outbox := d.db.outbox - {order[0]})), box, order[1..], RestReplies(posts));
      } else {
        TwoSteps(d, p[0], p[1]);
      }
    }
  }

  /** One more entry of a flush under way: delivered, or the one that stops it. */
  lemma {:induction false} FlushUnfolds(box: map<Ident, Queued>, table: map<Ident, Queued>, order: seq<Ident>, i: nat,
      posts: seq<PostReply>)
    requires i < |order| && forall k :: 0 <= k < |order| ==> order[k] in box
    ensures var q, reply, left := box[order[i]], FirstReply(posts), |order| - i;
            if reply.Accepted? then
              && FlushProgram(box, order[i..], posts)
                 == [Post(q.peerInbox, q.blob, reply), Sql(Dequeue(order[i]))]
                    + FlushProgram(box, order[i + 1..], RestReplies(posts))
              && BoxAfter(table, order[i..], posts) == BoxAfter(table - {order[i]}, order[i + 1..], RestReplies(posts))
              && Delivered(left, posts) == 1 + Delivered(left - 1, RestReplies(posts))
              && AfterFlush(left, posts) == AfterFlush(left - 1, RestReplies(posts))
            else
              && FlushProgram(box, order[i..], posts)
                 == [Post(q.peerInbox, q.blob, reply), Sql(RecordAttempt(order[i], reply.error))]
              && (order[i] in table ==>
                    BoxAfter(table, order[i..], posts) == table[order[i] := Attempted(table[order[i]], reply.error)])
              && Delivered(left, posts) == 0 && AfterFlush(left, posts) == RestReplies(posts)
  {
    assert order[i..][0] == order[i] && order[i..][1..] == order[i + 1..];
  }

  lemma {:induction false} BoxAfterIsShortened(table: map<Ident, Queued>, order: seq<Ident>, posts: seq<PostReply>)
    requires forall i :: 0 <= i < |order| ==> order[i] in table
    requires forall i, j :: 0 <= i < j < |order| ==> order[i] != order[j]
    ensures var k := Delivered(|order|, posts);
            && Shortened(table, BoxAfter(table, order, posts), order, k, FailureAfter(k, posts))
            && (k < |order| ==> !FailureAfter(k, posts).Accepted?)
    decreases |order|
  {
    if order == [] {
      assert order[..0] == [];
    } else if FirstReply(posts).Accepted? {
      var k := Delivered(|order|, posts);
      BoxAfterIsShortened(table - {order[0]}, order[1..], RestReplies(posts));
      var tail := order[1..][..k - 1];
      assert order[..k] == [order[0]] + tail;
    } else {
      assert order[..0] == [];
    }
  }

  lemma {:induction false} TwoSteps(d: Device, a: Effect, b: Effect)
    ensures Run(d, [a, b]) == Apply(Apply(d, a), b)
  {
    assert [a, b][1..] == [b] && [b][1..] == [];
    assert Run(Apply(d, a), [b]) == Apply(Apply(d, a), b);
  }

  lemma {:induction false} FlushPosts(box: map<Ident, Queued>, order: seq<Ident>, posts: seq<PostReply>)
    requires forall i :: 0 <= i < |order| ==> order[i] in box
    ensures var k := Delivered(|order|, posts);
            var made := Posts(FlushProgram(box, order, posts));
            && |made| == (if k < |order| then k + 1 else k)
            && forall i :: 0 <= i < |made| ==> made[i] == Request(box, order[i])
    decreases |order|
  {
    if order != [] {
      var p := FlushProgram(box, order, posts);
      var q := box[order[0]];
      var reply := FirstReply(posts);
      if reply.Accepted? {
        var rest := FlushProgram(box, order[1..], RestReplies(posts));
        PostsConcat([p[0], p[1]], rest);
        assert [p[0], p[1]][1..] == [p[1]] && [p[1]][1..] == [];
        assert Posts([p[1]]) == [];
        assert Posts([p[0], p[1]]) == [(q.peerInbox, q.blob)];
        FlushPosts(box, order[1..], RestReplies(posts));
      } else {
        assert p[1..] == [p[1]] && p[1..][1..] == [];
        assert Posts(p[1..]) == [];
        assert Posts(p) == [(q.peerInbox, q.blob)];
      }
    }
  }

  /**
   A flush posts a prefix of the outbox in `(at, id)` order and, when it stops early, the entry after it.
   It removes exactly the accepted prefix; the entry that failed counts one more attempt and its reason;
   nothing else on the device changes.
  */
  lemma {:induction false} FlushTakesAPrefix(d: Device, posts: seq<PostReply>)
    ensures var order := QueuedOrder(d.db);
            var k := Delivered(|order|, posts);
            var p := Flush(d.db, posts);
            var after := Run(d, p);
            && after == d.(db := d.db.(outbox := after.db.outbox))
            && Shortened(d.db.outbox, after.db.outbox, order, k, FailureAfter(k, posts))
            && |Posts(p)| == (if k < |order| then k + 1 else k)
            && (forall i :: 0 <= i < |Posts(p)| ==> Posts(p)[i] == Request(d.db.outbox, order[i]))
            && (k < |order| ==> !FailureAfter(k, posts).Accepted?)
  {
    FlushRuns(d, d.db.outbox, QueuedOrder(d.db), posts);
    InOrderEnumerates(Times(d.db.outbox));
    BoxAfterIsShortened(d.db.outbox, QueuedOrder(d.db), posts);
    FlushPosts(d.db.outbox, QueuedOrder(d.db), posts);
  }

  // ---- Generation order --------------------------------------------------

  /** Two queued ciphertexts of one conversation, `p` the earlier generation. */
  ghost predicate Earlier(box: map<Ident, Queued>, p: Ident, q: Ident)
    requires p in box && q in box
  {
    && box[p].blob.Application? && box[q].blob.Application?
    && box[p].blob.group == box[q].blob.group && box[p].blob.generation < box[q].blob.generation
  }

  /** Posting in this order never puts a later generation before an earlier one. */
  ghost predicate InGenerationOrder(box: map<Ident, Queued>, order: seq<Ident>)
    requires forall i :: 0 <= i < |order| ==> order[i] in box
  {
    forall i, j :: 0 <= i < j < |order| ==> !Earlier(box, order[j], order[i])
  }

  /** `(at, id)` of an earlier generation sorts first. */
  ghost predicate TimesFollowGenerations(box: map<Ident, Queued>) {
    forall p, q :: p in box && q in box && Earlier(box, p, q) ==> Precedes(Times(box), p, q)
  }

  /** The posted order is generation order exactly when `(at, id)` follows the generations. */
  lemma {:induction false} PostedInGenerationOrder(db: Db)
    ensures InGenerationOrder(db.outbox, QueuedOrder(db)) <==> TimesFollowGenerations(db.outbox)
  {
    var box := db.outbox;
    var order := QueuedOrder(db);
    InOrderEnumerates(Times(box));
    if TimesFollowGenerations(box) {
      forall i, j | 0 <= i < j < |order|
        ensures !Earlier(box, order[j], order[i])
      {
        NotEarlier(box, order[i], order[j]);
      }
    } else {
      var p, q :| p in box && q in box && Earlier(box, p, q) && !Precedes(Times(box), p, q);
      var i := Position(order, p);
      var j := Position(order, q);
      LeqReflexive(p);
      assert j < i;
    }
  }

  lemma {:induction false} NotEarlier(box: map<Ident, Queued>, first: Ident, second: Ident)
    requires TimesFollowGenerations(box)
    requires first in box && second in box && first != second && Precedes(Times(box), first, second)
    ensures !Earlier(box, second, first)
  {
    if Earlier(box, second, first) {
      PrecedesAntisymmetric(Times(box), first, second);
    }
  }

  lemma {:induction false} Position(s: seq<Ident>, x: Ident) returns (i: nat)
    requires x in s
    ensures i < |s| && s[i] == x
  {
    i :| 0 <= i < |s| && s[i] == x;
  }

  /** Rows queued strictly later for later generations are posted in generation order. */
  lemma {:induction false} LaterRowsArePostedLater(db: Db)
    requires forall p, q :: p in db.outbox && q in db.outbox && Earlier(db.outbox, p, q) ==>
               db.outbox[p].at < db.outbox[q].at
    ensures InGenerationOrder(db.outbox, QueuedOrder(db))
  {
    PostedInGenerationOrder(db);
  }
}
