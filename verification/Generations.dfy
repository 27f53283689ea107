/** No generation is used for two messages. */
module Generations {
  import opened Basics
  import opened Mls
  import opened Tables
  import opened Client
  import opened Calls
  import opened OutboxRules
  import Restarts
  import ProgramRuns
  import Repoll

  // ---- No reuse ------------------------------------------------------------

  /** The ciphertexts a program hands over: the relay stored them, or they now wait in the outbox. */
  function Issued(p: seq<Effect>): set<Blob>
    decreases |p|
  {
    if p == [] then {} else IssuedBy(p[0]) + Issued(p[1..])
  }

  function IssuedBy(e: Effect): set<Blob> {
    if e.Post? && !e.reply.Refused? && e.blob.Application? then {e.blob}
    else if e.Sql? && e.stmt.Enqueue? then {e.stmt.queued.blob}
    else {}
  }

  lemma {:induction false} IssuedConcat(a: seq<Effect>, b: seq<Effect>)
    ensures Issued(a + b) == Issued(a) + Issued(b)
    decreases |a|
  {
    if a == [] {
      assert a + b == b;
    } else {
      assert (a + b)[1..] == a[1..] + b;
      IssuedConcat(a[1..], b);
    }
  }

  /** Every ciphertext is one of ours, of a known group, below that group's send counter. */
  ghost predicate Below(s: State, issued: set<Blob>) {
    forall b :: b in issued ==>
      b.Application? && b.sender == s.me && b.group in s.groups && b.generation < s.groups[b.group].next
  }

  predicate SameGeneration(a: Blob, b: Blob) {
    && a.Application? && b.Application?
    && a.group == b.group && a.sender == b.sender && a.generation == b.generation
  }

  /** Two ciphertexts of one conversation and generation are the same bytes. */
  ghost predicate NoReuse(issued: set<Blob>) {
    forall a, b :: a in issued && b in issued && SameGeneration(a, b) ==> a == b
  }

  /** The snapshot on disk may trail memory, never lead it. */
  ghost predicate Behind(saved: State, s: State) {
    && saved.me == s.me
    && forall c :: c in saved.groups ==> c in s.groups && saved.groups[c].next <= s.groups[c].next
  }

  ghost predicate Orderly(d: Device, issued: set<Blob>) {
    && (forall id :: id in d.db.outbox ==> d.db.outbox[id].blob in issued)
    && Below(d.mls, issued) && NoReuse(issued)
    && d.db.mls.Some? && Behind(d.db.mls.value, d.mls)
  }

  /** Effects that hand over nothing new. */
  predicate Quiet(issued: set<Blob>, e: Effect) {
    Ordinary(e) && IssuedBy(e) <= issued && !(e.Sql? && e.stmt.Enqueue?)
  }

  predicate AllQuiet(issued: set<Blob>, p: seq<Effect>) {
    forall i :: 0 <= i < |p| ==> Quiet(issued, p[i])
  }

  /** Groups are kept and counters never go back. */
  ghost predicate Grows(s: State, t: State) {
    && s.me == t.me
    && forall c :: c in s.groups ==> c in t.groups && s.groups[c].next <= t.groups[c].next
  }

  lemma {:induction false} MemoryGrows(d: Device, e: Effect)
    ensures Grows(d.mls, Apply(d, e).mls)
    ensures !e.Sql? && !e.Persist? ==> Apply(d, e).db == d.db
  {
  }

  lemma {:induction false} StatementKeepsOutbox(db: Db, s: Stmt)
    requires !s.Enqueue? && !s.Clear? && !s.PutMlsState?
    ensures Exec(db, s).mls == db.mls && db.conversations.Keys <= Exec(db, s).conversations.Keys
    ensures forall id :: id in Exec(db, s).outbox ==>
              id in db.outbox && Exec(db, s).outbox[id].blob == db.outbox[id].blob
  {
  }

  lemma {:induction false} ConcatQuiet(issued: set<Blob>, a: seq<Effect>, b: seq<Effect>)
    requires AllQuiet(issued, a) && AllQuiet(issued, b)
    ensures AllQuiet(issued, a + b)
  {
  }

  lemma {:induction false} FlushIsQuiet(box: map<Ident, Queued>, order: seq<Ident>, posts: seq<PostReply>,
      issued: set<Blob>)
    requires forall i :: 0 <= i < |order| ==> order[i] in box && box[order[i]].blob in issued
    ensures AllQuiet(issued, FlushProgram(box, order, posts))
    decreases |order|
  {
    if order != [] {
      var p := FlushProgram(box, order, posts);
      if FirstReply(posts).Accepted? {
        FlushIsQuiet(box, order[1..], RestReplies(posts), issued);
        assert AllQuiet(issued, [p[0], p[1]]);
        ConcatQuiet(issued, [p[0], p[1]], FlushProgram(box, order[1..], RestReplies(posts)));
      }
    }
  }

  /** Encrypting and posting: memory advances, and the relay may now hold the ciphertext. */
  lemma {:induction false} HandingOver(d: Device, c: Ident, inbox: Ident, blob: Blob, reply: PostReply)
    requires blob.Application?
    ensures var head := [Advance(c), Post(inbox, blob, reply)];
            Run(d, head) == Apply(d, Advance(c)) && Issued(head) == if reply.Refused? then {} else {blob}
  {
    var head := [Advance(c), Post(inbox, blob, reply)];
    TwoSteps(d, head[0], head[1]);
    assert head[1..] == [head[1]] && head[1..][1..] == [];
    assert Issued(head[1..]) == IssuedBy(head[1]);
  }

  /** The introduction sees the conversation that was just opened. */
  lemma {:induction false} OpenedForHello(d: Device, name: string, invite: Invite, group: Ident, reply: PostReply)
    requires group !in d.mls.groups && reply.Accepted?
    ensures var after := Run(d, OpenProgram(d.mls.me, name, invite, group, reply));
            after.mls == Introduced(d, invite, group).mls && after.live == Introduced(d, invite, group).live
  {
    var p := OpenProgram(d.mls.me, name, invite, group, reply);
    var d1 := Apply(d, p[0]);
    assert Run(d, p) == Run(d1, p[1..]);
    assert p[1..] == p[1..5] + [Persist];
    RunSnoc(d1, p[1..5], Persist);
    assert p[1..5] == p[1..4] + [p[4]];
    RunSnoc(d1, p[1..4], p[4]);
    assert p[1..4] == p[1..3] + [p[3]];
    RunSnoc(d1, p[1..3], p[3]);
    assert p[1..3] == [p[1], p[2]];
    TwoSteps(d1, p[1], p[2]);
  }


  // ---- What is handed over and not yet saved ---------------------------------

  /** Handed over for the first time since the ratchets were last saved. */
  function PendingAfter(pending: set<Blob>, issued: set<Blob>, p: seq<Effect>): set<Blob>
    decreases |p|
  {
    if p == [] then pending else PendingAfter(PendingBy(pending, issued, p[0]), issued + IssuedBy(p[0]), p[1..])
  }

  function PendingBy(pending: set<Blob>, issued: set<Blob>, e: Effect): set<Blob> {
    if e.Persist? then {} else pending + (IssuedBy(e) - issued)
  }

  lemma {:induction false} PendingConcat(pending: set<Blob>, issued: set<Blob>, a: seq<Effect>, b: seq<Effect>)
    ensures PendingAfter(pending, issued, a + b)
            == PendingAfter(PendingAfter(pending, issued, a), issued + Issued(a), b)
    decreases |a|
  {
    if a == [] {
      assert a + b == b && issued + {} == issued;
    } else {
      assert (a + b)[0] == a[0] && (a + b)[1..] == a[1..] + b;
      PendingConcat(PendingBy(pending, issued, a[0]), issued + IssuedBy(a[0]), a[1..], b);
      assert issued + IssuedBy(a[0]) + Issued(a[1..]) == issued + Issued(a);
    }
  }

  lemma {:induction false} PendingSnoc(pending: set<Blob>, issued: set<Blob>, p: seq<Effect>, k: nat)
    requires k < |p|
    ensures PendingAfter(pending, issued, p[..k + 1])
            == PendingBy(PendingAfter(pending, issued, p[..k]), issued + Issued(p[..k]), p[k])
    ensures Issued(p[..k + 1]) == Issued(p[..k]) + IssuedBy(p[k])
  {
    assert p[..k + 1] == p[..k] + [p[k]];
    assert [p[k]][1..] == [];
    assert Issued([p[k]]) == IssuedBy(p[k]);
    PendingConcat(pending, issued, p[..k], [p[k]]);
    IssuedConcat(p[..k], [p[k]]);
  }

  /** The counters on disk are past everything handed over but what is pending, and not past that. */
  ghost predicate Held(d: Device, issued: set<Blob>, pending: set<Blob>) {
    && Orderly(d, issued) && pending <= issued
    && Below(d.db.mls.value, issued - pending)
    && forall b :: b in pending ==> AtOrAbove(d.db.mls.value, b) && b.group in d.db.conversations
  }

  predicate AtOrAbove(saved: State, b: Blob) {
    b.Application? && b.group in saved.groups && b.generation >= saved.groups[b.group].next
  }

  /** The newest ciphertext of its conversation, at a generation the saved counter has not passed. */
  ghost predicate Newest(d: Device, issued: set<Blob>, b: Blob) {
    && b.Application? && b.sender == d.mls.me && b.group in d.mls.groups
    && b.generation + 1 == d.mls.groups[b.group].next
    && d.db.mls.Some? && AtOrAbove(d.db.mls.value, b) && b.group in d.db.conversations
    && forall x :: x in issued && x.Application? && x.group == b.group ==> x == b || x.generation < b.generation
  }

  /** What an effect hands over was handed over before, or is the newest ciphertext. */
  ghost predicate Proper(d: Device, issued: set<Blob>, e: Effect) {
    && Ordinary(e)
    && (forall b :: b in IssuedBy(e) ==> b in issued || Newest(d, issued, b))
    && (e.Sql? && e.stmt.Enqueue? ==> Newest(d, issued, e.stmt.queued.blob))
  }

  ghost predicate AllProper(d: Device, issued: set<Blob>, p: seq<Effect>)
    decreases |p|
  {
    p == [] || (Proper(d, issued, p[0]) && AllProper(Apply(d, p[0]), issued + IssuedBy(p[0]), p[1..]))
  }

  lemma {:induction false} ProperConcat(d: Device, issued: set<Blob>, a: seq<Effect>, b: seq<Effect>)
    requires AllProper(d, issued, a) && AllProper(Run(d, a), issued + Issued(a), b)
    ensures AllProper(d, issued, a + b)
    decreases |a|
  {
    if a == [] {
      assert a + b == b && issued + {} == issued;
    } else {
      assert (a + b)[0] == a[0] && (a + b)[1..] == a[1..] + b;
      assert issued + IssuedBy(a[0]) + Issued(a[1..]) == issued + Issued(a);
      ProperConcat(Apply(d, a[0]), issued + IssuedBy(a[0]), a[1..], b);
    }
  }

  lemma {:induction false} ProperPrefix(d: Device, issued: set<Blob>, p: seq<Effect>, k: nat)
    requires AllProper(d, issued, p) && k <= |p|
    ensures AllProper(d, issued, p[..k])
    decreases |p|
  {
    if k > 0 {
      assert p[..k][0] == p[0] && p[..k][1..] == p[1..][..k - 1];
      ProperPrefix(Apply(d, p[0]), issued + IssuedBy(p[0]), p[1..], k - 1);
    }
  }

  lemma {:induction false} HandOverStep(d: Device, issued: set<Blob>, pending: set<Blob>, e: Effect)
    requires Held(d, issued, pending) && Proper(d, issued, e) && (e.Post? || (e.Sql? && e.stmt.Enqueue?))
    ensures Held(Apply(d, e), issued + IssuedBy(e), PendingBy(pending, issued, e))
  {
  }

  lemma {:induction false} OtherStep(d: Device, issued: set<Blob>, pending: set<Blob>, e: Effect)
    requires Held(d, issued, pending) && Proper(d, issued, e) && !e.Post? && !(e.Sql? && e.stmt.Enqueue?)
    ensures IssuedBy(e) == {} && Held(Apply(d, e), issued, PendingBy(pending, issued, e))
  {
    assert pending + ({} - issued) == pending;
    if e.Sql? {
      StatementKeepsOutbox(d.db, e.stmt);
    } else if !e.Persist? {
      MemoryGrows(d, e);
    }
  }

  lemma {:induction false} HeldRun(d: Device, issued: set<Blob>, pending: set<Blob>, p: seq<Effect>)
    requires Held(d, issued, pending) && AllProper(d, issued, p)
    ensures Held(Run(d, p), issued + Issued(p), PendingAfter(pending, issued, p))
    decreases |p|
  {
    if p == [] {
      assert issued + {} == issued;
    } else {
      if p[0].Post? || (p[0].Sql? && p[0].stmt.Enqueue?) {
        HandOverStep(d, issued, pending, p[0]);
      } else {
        OtherStep(d, issued, pending, p[0]);
        assert issued + IssuedBy(p[0]) == issued;
      }
      HeldRun(Apply(d, p[0]), issued + IssuedBy(p[0]), PendingBy(pending, issued, p[0]), p[1..]);
      assert issued + IssuedBy(p[0]) + Issued(p[1..]) == issued + Issued(p);
    }
  }

  // ---- Every program hands over properly ---------------------------------------

  lemma {:induction false} QuietIsProper(d: Device, issued: set<Blob>, p: seq<Effect>)
    requires AllQuiet(issued, p)
    ensures AllProper(d, issued, p) && issued + Issued(p) == issued
    decreases |p|
  {
    if p != [] {
      assert Quiet(issued, p[0]);
      assert issued + IssuedBy(p[0]) == issued;
      QuietIsProper(Apply(d, p[0]), issued, p[1..]);
    }
  }

  lemma {:induction false} LocalIsProper(d: Device, issued: set<Blob>, p: seq<Effect>)
    requires AllLocal(p)
    ensures AllProper(d, issued, p)
  {
    assert forall i :: 0 <= i < |p| ==> Quiet(issued, p[i]);
    QuietIsProper(d, issued, p);
  }

  /** Encrypting makes the ciphertext the newest one. */
  lemma {:induction false} EncryptedIsNewest(d: Device, issued: set<Blob>, c: Ident, payload: Payload)
    requires Orderly(d, issued) && c in d.mls.groups && c in d.db.mls.value.groups && c in d.db.conversations
    ensures Newest(Apply(d, Advance(c)), issued, Ciphertext(d.mls, c, payload))
  {
  }

  /** It stays so while it is posted and written down. */
  lemma {:induction false} StaysNewest(d: Device, issued: set<Blob>, b: Blob, e: Effect)
    requires Newest(d, issued, b) && IssuedBy(e) <= {b}
    requires e.Post? || (e.Sql? && (e.stmt.PutMessage? || e.stmt.Enqueue?))
    ensures Newest(Apply(d, e), issued + IssuedBy(e), b)
  {
  }

  /** A ciphertext just made, posted and written down in any of the ways the code does. */
  predicate Carries(b: Blob, e: Effect) {
    && IssuedBy(e) <= {b}
    && (e.Post? || (e.Sql? && (e.stmt.PutMessage? || (e.stmt.Enqueue? && e.stmt.queued.blob == b))))
  }

  lemma {:induction false} CarryingIsProper(d: Device, issued: set<Blob>, b: Blob, p: seq<Effect>)
    requires Newest(d, issued, b)
    requires forall i :: 0 <= i < |p| ==> if i == |p| - 1 then p[i].Persist? || Carries(b, p[i]) else Carries(b, p[i])
    ensures AllProper(d, issued, p)
    decreases |p|
  {
    if p != [] && Carries(b, p[0]) {
      StaysNewest(d, issued, b, p[0]);
      CarryingIsProper(Apply(d, p[0]), issued + IssuedBy(p[0]), b, p[1..]);
    }
  }

  lemma {:induction false} OwnPostIsProper(d: Device, issued: set<Blob>, c: Ident, body: string, reply: PostReply,
      localId: Ident, at: u64, queuedAt: u64)
    requires Orderly(d, issued) && (CanSend(d, c) ==> c in d.db.mls.value.groups && c in d.db.conversations)
    ensures AllProper(d, issued, OwnPostProgram(d, c, body, reply, localId, at, queuedAt))
  {
    if CanSend(d, c) {
      var p := OwnPostProgram(d, c, body, reply, localId, at, queuedAt);
      var blob := Ciphertext(d.mls, c, Text(body));
      EncryptedIsNewest(d, issued, c, Text(body));
      assert issued + IssuedBy(p[0]) == issued;
      CarryingIsProper(Apply(d, p[0]), issued, blob, p[1..]);
    }
  }

  lemma {:induction false} PayloadIsProper(d: Device, issued: set<Blob>, c: Ident, payload: Payload, reply: PostReply)
    requires Orderly(d, issued) && (CanSend(d, c) ==> c in d.db.mls.value.groups && c in d.db.conversations)
    ensures AllProper(d, issued, PayloadProgram(d, c, payload, reply))
  {
    if CanSend(d, c) {
      var p := PayloadProgram(d, c, payload, reply);
      EncryptedIsNewest(d, issued, c, payload);
      assert issued + IssuedBy(p[0]) == issued;
      CarryingIsProper(Apply(d, p[0]), issued, Ciphertext(d.mls, c, payload), p[1..]);
    }
  }

  lemma {:induction false} FlushIsProper(d: Device, issued: set<Blob>, posts: seq<PostReply>)
    requires Orderly(d, issued)
    ensures var p := Flush(d.db, posts);
            && AllProper(d, issued, p) && issued + Issued(p) == issued
            && Run(d, p).mls == d.mls && Run(d, p).live == d.live && Run(d, p).db.mls == d.db.mls
            && Orderly(Run(d, p), issued)
            && Run(d, p).db.conversations == d.db.conversations
  {
    FlushIsQuiet(d.db.outbox, QueuedOrder(d.db), posts, issued);
    QuietIsProper(d, issued, Flush(d.db, posts));
    FlushRuns(d, d.db.outbox, QueuedOrder(d.db), posts);
    OrderlyRun(d, issued, Flush(d.db, posts));
  }

  lemma {:induction false} OrderlyRun(d: Device, issued: set<Blob>, p: seq<Effect>)
    requires Orderly(d, issued) && AllQuiet(issued, p)
    ensures Orderly(Run(d, p), issued)
    decreases |p|
  {
    if p != [] {
      assert Quiet(issued, p[0]);
      if p[0].Sql? {
        StatementKeepsOutbox(d.db, p[0].stmt);
      } else if !p[0].Persist? {
        MemoryGrows(d, p[0]);
      }
      OrderlyRun(Apply(d, p[0]), issued, p[1..]);
    }
  }

  lemma {:induction false} SendIsProper(d: Device, issued: set<Blob>, c: Ident, body: string, posts: seq<PostReply>,
      localId: Ident, at: u64, queuedAt: u64)
    requires Orderly(d, issued) && (CanSend(d, c) ==> c in d.db.mls.value.groups && c in d.db.conversations)
    ensures AllProper(d, issued, SendProgram(d, c, body, posts, localId, at, queuedAt))
  {
    var reply := FirstReply(AfterFlush(|QueuedOrder(d.db)|, posts));
    FlushIsProper(d, issued, posts);
    ProgramRuns.SendRuns(d, c, body, posts, localId, at, queuedAt);
    OwnPostIsProper(Run(d, Flush(d.db, posts)), issued, c, body, reply, localId, at, queuedAt);
    ProperConcat(d, issued, Flush(d.db, posts),
                 OwnPostProgram(Run(d, Flush(d.db, posts)), c, body, reply, localId, at, queuedAt));
  }

  lemma {:induction false} ReceiveIsProper(d: Device, issued: set<Blob>, posts: seq<PostReply>,
      batch: Option<seq<Mail>>, clock: Clock, ack: AckReply, now: u64)
    requires Orderly(d, issued)
    ensures AllProper(d, issued, ReceiveProgram(d, posts, batch, clock, ack, now))
  {
    var flush := Flush(d.db, posts);
    FlushIsProper(d, issued, posts);
    if batch.None? {
      assert flush + [] == flush;
    } else {
      var q := BatchProgram(Run(d, flush), batch.value, clock, ack, now);
      BatchLocal(Run(d, flush), batch.value, clock, ack, now);
      LocalIsProper(Run(d, flush), issued, q);
      ProperConcat(d, issued, flush, q);
    }
  }

  lemma {:induction false} OpeningIsQuiet(me: Bytes, issued: set<Blob>, name: string, invite: Invite, group: Ident,
      reply: PostReply)
    ensures AllQuiet(issued, OpenProgram(me, name, invite, group, reply))
  {
  }

  lemma {:induction false} AddContactIsProper(d: Device, issued: set<Blob>, name: string, invite: Invite, group: Ident,
      posts: seq<PostReply>)
    requires Orderly(d, issued) && group !in d.mls.groups
    ensures AllProper(d, issued, AddContactProgram(d, name, invite, group, posts))
  {
    var reply := FirstReply(posts);
    var first := OpenProgram(d.mls.me, name, invite, group, reply);
    ProgramRuns.AddContactRuns(d, name, invite, group, posts);
    ProgramRuns.OpenRuns(d, name, invite, group, reply);
    OpeningIsQuiet(d.mls.me, issued, name, invite, group, reply);
    QuietIsProper(d, issued, first);
    if reply.Accepted? {
      OrderlyRun(d, issued, first);
      var mid := ProgramRuns.OpenedContact(d, name, invite, group, true);
      var hello := Hello(d.identity.inbox, d.identity.displayName);
      PayloadIsProper(mid, issued, group, hello, FirstReply(RestReplies(posts)));
      ProperConcat(d, issued, first, PayloadProgram(mid, group, hello, FirstReply(RestReplies(posts))));
    }
  }

  lemma {:induction false} CallIsProper(d: Device, issued: set<Blob>, call: Call)
    requires Orderly(d, issued) && Restarts.Steady(d) && Fresh(d, call)
    ensures AllProper(d, issued, Program(d, call))
  {
    match call
    case SendMessage(c, body, posts, localId, at, queuedAt) =>
      SendIsProper(d, issued, c, body, posts, localId, at, queuedAt);
    case AddContact(name, invite, group, posts) => AddContactIsProper(d, issued, name, invite, group, posts);
    case FlushOutbox(posts) => FlushIsProper(d, issued, posts);
    case ReceiveMessages(posts, batch, clock, ack, now) => ReceiveIsProper(d, issued, posts, batch, clock, ack, now);
    case _ =>
      UpkeepIsLocal(d, call);
      LocalIsProper(d, issued, Program(d, call));
  }

  // ---- Crashes -------------------------------------------------------------------

  /** A later session would encrypt at or above the counter this snapshot holds: does that repeat a generation? */
  ghost predicate Repeats(saved: State, issued: set<Blob>) {
    exists b :: b in issued && AtOrAbove(saved, b)
  }

  /** The ratchets after `n` more messages of one conversation. */
  function Encrypting(s: State, c: Ident, n: nat): State
    requires c in s.groups
  {
    s.(groups := s.groups[c := s.groups[c].(next := s.groups[c].next + n)])
  }

  /** What is held back: the snapshot repeats exactly the pending ciphertexts. */
  lemma {:induction false} PendingRepeats(d: Device, issued: set<Blob>, pending: set<Blob>)
    requires Held(d, issued, pending)
    ensures Repeats(d.db.mls.value, issued) <==> pending != {}
  {
    if pending != {} {
      var b :| b in pending;
      assert b in issued && AtOrAbove(d.db.mls.value, b);
    }
    if b :| b in issued && AtOrAbove(d.db.mls.value, b) {
      assert b in pending;
    }
  }

  /** Texts sent in one conversation, one call after the other, whatever the network answers. */
  predicate Texts(calls: seq<Call>, c: Ident) {
    forall i :: 0 <= i < |calls| ==> calls[i].SendMessage? && calls[i].c == c
  }

  /** The call posts this ciphertext as its own. */
  predicate HandsToTheRelay(d: Device, call: Call, blob: Blob) {
    exists e :: e in Program(d, call) && e.Post? && e.blob == blob
  }

  /** A send posts the ciphertext at the next generation and moves the counter by one. */
  lemma {:induction false} SendEncryptsOnce(d: Device, call: Call)
    requires call.SendMessage? && CanSend(d, call.c)
    ensures var after := Run(d, Program(d, call));
            && CanSend(after, call.c) && after.mls == Encrypting(d.mls, call.c, 1)
            && HandsToTheRelay(d, call, Ciphertext(d.mls, call.c, Text(call.body)))
  {
    var posts := call.posts;
    var reply := FirstReply(AfterFlush(|QueuedOrder(d.db)|, posts));
    var flushed := Run(d, Flush(d.db, posts));
    var own := OwnPostProgram(d, call.c, call.body, reply, call.localId, call.at, call.queuedAt);
    FlushRuns(d, d.db.outbox, QueuedOrder(d.db), posts);
    ProgramRuns.SendRuns(d, call.c, call.body, posts, call.localId, call.at, call.queuedAt);
    ProgramRuns.OwnPostRuns(flushed, call.c, call.body, reply, call.localId, call.at, call.queuedAt);
    ProgramRuns.RecordRuns(flushed.(mls := Advanced(d.mls, call.c)), call.c, d.live[call.c].inbox, call.body,
                           Ciphertext(d.mls, call.c, Text(call.body)), reply, call.localId, call.at, call.queuedAt);
    assert own[1] in Flush(d.db, posts) + own;
  }

  /** This send posts a ciphertext of the same generation as `b`, and a different one unless the text is the same. */
  ghost predicate RepeatedBy(x: Device, call: Call, b: Blob) {
    && call.SendMessage? && call.c in x.mls.groups
    && var second := Ciphertext(x.mls, call.c, Text(call.body));
       && HandsToTheRelay(x, call, second) && SameGeneration(b, second)
       && (b.plaintext != Readable(Text(call.body)) ==> second != b)
  }

  /** `x` is `d` with `n` more messages encrypted in the conversation. */
  predicate Further(d: Device, x: Device, c: Ident, n: nat) {
    CanSend(d, c) && CanSend(x, c) && x.mls == Encrypting(d.mls, c, n)
  }

  lemma {:induction false} FurtherChain(d: Device, x: Device, y: Device, c: Ident, n: nat)
    requires Further(d, x, c, 1) && Further(x, y, c, n)
    ensures Further(d, y, c, n + 1)
  {
  }

  lemma {:induction false} TextsEncrypt(d: Device, c: Ident, calls: seq<Call>)
    requires Texts(calls, c) && CanSend(d, c)
    ensures Further(d, AfterCalls(d, calls), c, |calls|) == true
    decreases |calls|
  {
    if calls != [] {
      var after := AfterCalls(d, calls[..1]);
      FirstText(d, c, calls, after);
      TextsEncrypt(after, c, calls[1..]);
      FurtherChain(d, after, AfterCalls(after, calls[1..]), c, |calls| - 1);
    }
  }

  lemma {:induction false} FirstText(d: Device, c: Ident, calls: seq<Call>, after: Device)
    requires Texts(calls, c) && calls != [] && CanSend(d, c) && after == AfterCalls(d, calls[..1])
    ensures Further(d, after, c, 1) && AfterCalls(d, calls) == AfterCalls(after, calls[1..])
  {
    SendEncryptsOnce(d, calls[0]);
    assert calls[..1][0] == calls[0] && calls[..1][1..] == [];
  }

  /**
   After a restart with a ciphertext pending, its conversation can be sent in, and the texts sent there come to
   that ciphertext's generation: after as many of them as the saved counter is behind, the next one posts a
   ciphertext with the same conversation, sender and generation, and with its own text in it.
  */
  lemma {:induction false} TheSecondCiphertext(d: Device, issued: set<Blob>, pending: set<Blob>, b: Blob, now: u64,
      calls: seq<Call>, next: Call)
    requires Held(d, issued, pending) && b in pending && Restarts.DiskOk(d) && Texts(calls + [next], b.group)
    ensures var r := Reopen(d, now);
            && CanSend(r, b.group) && b.generation >= r.mls.groups[b.group].next
            && (|calls| == b.generation - r.mls.groups[b.group].next ==> RepeatedBy(AfterCalls(r, calls), next, b))
  {
    var r := Reopen(d, now);
    ReopenedOnPending(d, issued, pending, b, now);
    assert (calls + [next])[|calls|] == next;
    assert forall i :: 0 <= i < |calls| ==> (calls + [next])[i] == calls[i];
    if |calls| == b.generation - r.mls.groups[b.group].next {
      NextTextRepeats(r, b, calls, next);
    }
  }

  lemma {:induction false} ReopenedOnPending(d: Device, issued: set<Blob>, pending: set<Blob>, b: Blob, now: u64)
    requires Held(d, issued, pending) && b in pending && Restarts.DiskOk(d)
    ensures var r := Reopen(d, now);
            && CanSend(r, b.group) && b.generation >= r.mls.groups[b.group].next && b.sender == r.mls.me
  {
    assert b in issued && AtOrAbove(d.db.mls.value, b);
    Restarts.PurgedKeeps(d.db, now);
    Repoll.ReloadedKeys(Purged(d.db, now), d.db.mls.value);
  }

  lemma {:induction false} NextTextRepeats(r: Device, b: Blob, calls: seq<Call>, next: Call)
    requires b.Application? && CanSend(r, b.group) && b.sender == r.mls.me
    requires Texts(calls, b.group) && next.SendMessage? && next.c == b.group
    requires b.generation == r.mls.groups[b.group].next + |calls|
    ensures RepeatedBy(AfterCalls(r, calls), next, b) == true
  {
    TextsEncrypt(r, b.group, calls);
    RepeatedHere(AfterCalls(r, calls), next, b);
  }

  lemma {:induction false} RepeatedHere(x: Device, call: Call, b: Blob)
    requires b.Application? && call.SendMessage? && call.c == b.group && CanSend(x, b.group)
    requires b.sender == x.mls.me && b.generation == x.mls.groups[b.group].next
    ensures RepeatedBy(x, call, b)
  {
    SendEncryptsOnce(x, call);
  }

  /**
   A crash after any number of effects of any call: the next session repeats a generation if and only if
   what was carried out hands over a fresh ciphertext (stored by the relay, or queued) after its last save.
   For a call that completes `k` is the whole program.
  */
  lemma {:induction false} CrashRepeatsExactlyInTheWindow(d: Device, issued: set<Blob>, call: Call, k: nat)
    requires Held(d, issued, {}) && Restarts.Steady(d) && Fresh(d, call) && k <= |Program(d, call)|
    ensures var done := Program(d, call)[..k];
            var crashed := Run(d, done);
            var pending := PendingAfter({}, issued, done);
            && Held(crashed, issued + Issued(done), pending) && CanOpen(crashed.db)
            && (Repeats(crashed.db.mls.value, issued + Issued(done)) <==> pending != {})
  {
    var done := Program(d, call)[..k];
    CallIsProper(d, issued, call);
    ProperPrefix(d, issued, Program(d, call), k);
    HeldRun(d, issued, {}, done);
    PendingRepeats(Run(d, done), issued + Issued(done), PendingAfter({}, issued, done));
    ProgramsAreOrdinary(d, call);
    Restarts.DiskKept(d, done);
  }

  /** Where that window lies in a send: from the post, or from queueing after a refusal, up to the save. */
  lemma {:induction false} WindowOfASend(d: Device, issued: set<Blob>, c: Ident, body: string, reply: PostReply,
      localId: Ident, at: u64, queuedAt: u64, k: nat)
    requires Orderly(d, issued) && CanSend(d, c) && k <= |OwnPostProgram(d, c, body, reply, localId, at, queuedAt)|
    ensures var p := OwnPostProgram(d, c, body, reply, localId, at, queuedAt);
            var blob := Ciphertext(d.mls, c, Text(body));
            var handed := if reply.Refused? then k >= 4 else k >= 2;
            && Issued(p[..k]) == (if handed then {blob} else {})
            && PendingAfter({}, issued, p[..k]) == (if handed && k < |p| then {blob} else {})
    decreases k
  {
    var p := OwnPostProgram(d, c, body, reply, localId, at, queuedAt);
    if k == 0 {
      assert p[..0] == [];
    } else {
      WindowOfASend(d, issued, c, body, reply, localId, at, queuedAt, k - 1);
      PendingSnoc({}, issued, p, k - 1);
      EffectOfASend(d, issued, c, body, reply, localId, at, queuedAt, k - 1);
    }
  }

  /** Which effects of a send hand over its ciphertext, and that only the last one saves. */
  lemma {:induction false} EffectOfASend(d: Device, issued: set<Blob>, c: Ident, body: string, reply: PostReply,
      localId: Ident,
      at: u64, queuedAt: u64, i: nat)
    requires Orderly(d, issued) && CanSend(d, c) && i < |OwnPostProgram(d, c, body, reply, localId, at, queuedAt)|
    ensures var p := OwnPostProgram(d, c, body, reply, localId, at, queuedAt);
            var blob := Ciphertext(d.mls, c, Text(body));
            && blob !in issued && |p| == (if reply.Accepted? then 4 else 5)
            && (p[i].Persist? <==> i == |p| - 1)
            && IssuedBy(p[i]) == if (i == 1 && !reply.Refused?) || (i == 3 && !reply.Accepted?) then {blob} else {}
  {
  }

  lemma {:induction false} WindowOfAPayload(d: Device, issued: set<Blob>, c: Ident, payload: Payload, reply: PostReply,
      k: nat)
    requires Orderly(d, issued) && CanSend(d, c) && k <= |PayloadProgram(d, c, payload, reply)|
    ensures var p := PayloadProgram(d, c, payload, reply);
            var handed := k >= 2 && !reply.Refused?;
            && Issued(p[..k]) == (if handed then {Ciphertext(d.mls, c, payload)} else {})
            && PendingAfter({}, issued, p[..k]) == (if handed && k < 3 then {Ciphertext(d.mls, c, payload)} else {})
    decreases k
  {
    var p := PayloadProgram(d, c, payload, reply);
    if k == 0 {
      assert p[..0] == [];
    } else {
      WindowOfAPayload(d, issued, c, payload, reply, k - 1);
      PendingSnoc({}, issued, p, k - 1);
    }
  }

  /**
   Adding a contact and then restarting: the conversation's first message repeats the introduction's
   generation if and only if the Welcome was accepted and the introduction's answer was lost.
  */
  lemma {:induction false} LostIntroductionThenRestartRepeats(d: Device, issued: set<Blob>, name: string,
      invite: Invite, group: Ident, posts: seq<PostReply>)
    requires Held(d, issued, {}) && Restarts.Steady(d) && group !in d.mls.groups && group !in d.db.conversations
    ensures var p := AddContactProgram(d, name, invite, group, posts);
            var after := Run(d, p);
            && after.db.mls.Some? && Held(after, issued + Issued(p), PendingAfter({}, issued, p))
            && (Repeats(after.db.mls.value, issued + Issued(p))
               <==> FirstReply(posts).Accepted? && FirstReply(RestReplies(posts)).Lost?)
  {
    var call := AddContact(name, invite, group, posts);
    var p := AddContactProgram(d, name, invite, group, posts);
    assert p[..|p|] == p;
    CrashRepeatsExactlyInTheWindow(d, issued, call, |p|);
    PendingOfAnIntroduction(d, issued, name, invite, group, posts);
  }

  lemma {:induction false} PendingOfAnIntroduction(d: Device, issued: set<Blob>, name: string, invite: Invite,
      group: Ident, posts: seq<PostReply>)
    requires Orderly(d, issued) && group !in d.mls.groups
    ensures PendingAfter({}, issued, AddContactProgram(d, name, invite, group, posts)) != {}
            <==> FirstReply(posts).Accepted? && FirstReply(RestReplies(posts)).Lost?
  {
    var reply := FirstReply(posts);
    var first := OpenProgram(d.mls.me, name, invite, group, reply);
    ProgramRuns.AddContactRuns(d, name, invite, group, posts);
    ProgramRuns.OpenRuns(d, name, invite, group, reply);
    OpeningIsQuiet(d.mls.me, issued, name, invite, group, reply);
    QuietIsProper(d, issued, first);
    QuietPendsNothing(issued, first);
    if reply.Accepted? {
      OrderlyRun(d, issued, first);
      var mid := ProgramRuns.OpenedContact(d, name, invite, group, true);
      var hello := Hello(d.identity.inbox, d.identity.displayName);
      var q := PayloadProgram(mid, group, hello, FirstReply(RestReplies(posts)));
      PendingConcat({}, issued, first, q);
      WindowOfAPayload(mid, issued, group, hello, FirstReply(RestReplies(posts)), |q|);
      assert q[..|q|] == q;
    }
  }

  lemma {:induction false} QuietPendsNothing(issued: set<Blob>, p: seq<Effect>)
    requires AllQuiet(issued, p)
    ensures PendingAfter({}, issued, p) == {}
    decreases |p|
  {
    if p != [] {
      assert Quiet(issued, p[0]);
      assert issued + IssuedBy(p[0]) == issued && PendingBy({}, issued, p[0]) == {};
      QuietPendsNothing(issued, p[1..]);
    }
  }

  /** The one completed call that leaves a ciphertext pending: an introduction whose answer was lost. */
  predicate LosesTheIntroduction(call: Call) {
    call.AddContact? && FirstReply(call.posts).Accepted? && FirstReply(RestReplies(call.posts)).Lost?
  }

  lemma {:induction false} FlushPendsNothing(d: Device, issued: set<Blob>, posts: seq<PostReply>)
    requires Orderly(d, issued)
    ensures PendingAfter({}, issued, Flush(d.db, posts)) == {}
  {
    FlushIsQuiet(d.db.outbox, QueuedOrder(d.db), posts, issued);
    QuietPendsNothing(issued, Flush(d.db, posts));
  }

  lemma {:induction false} SendPendsNothing(d: Device, issued: set<Blob>, c: Ident, body: string, posts: seq<PostReply>,
      localId: Ident, at: u64, queuedAt: u64)
    requires Orderly(d, issued)
    ensures PendingAfter({}, issued, SendProgram(d, c, body, posts, localId, at, queuedAt)) == {}
  {
    var flush := Flush(d.db, posts);
    var reply := FirstReply(AfterFlush(|QueuedOrder(d.db)|, posts));
    var own := OwnPostProgram(d, c, body, reply, localId, at, queuedAt);
    FlushPendsNothing(d, issued, posts);
    FlushIsProper(d, issued, posts);
    PendingConcat({}, issued, flush, own);
    if CanSend(d, c) {
      WindowOfASend(d, issued, c, body, reply, localId, at, queuedAt, |own|);
      assert own[..|own|] == own;
    }
  }

  lemma {:induction false} LocalPendsNothing(issued: set<Blob>, p: seq<Effect>)
    requires AllLocal(p)
    ensures PendingAfter({}, issued, p) == {}
  {
    assert forall i :: 0 <= i < |p| ==> Quiet(issued, p[i]);
    QuietPendsNothing(issued, p);
  }

  lemma {:induction false} ReceivePendsNothing(d: Device, issued: set<Blob>, posts: seq<PostReply>,
      batch: Option<seq<Mail>>, clock: Clock, ack: AckReply, now: u64)
    requires Orderly(d, issued)
    ensures PendingAfter({}, issued, ReceiveProgram(d, posts, batch, clock, ack, now)) == {}
  {
    var flush := Flush(d.db, posts);
    FlushPendsNothing(d, issued, posts);
    FlushIsProper(d, issued, posts);
    if batch.None? {
      assert flush + [] == flush;
    } else {
      var q := BatchProgram(Run(d, flush), batch.value, clock, ack, now);
      BatchLocal(Run(d, flush), batch.value, clock, ack, now);
      LocalPendsNothing(issued, q);
      PendingConcat({}, issued, flush, q);
    }
  }

  /** A completed call leaves the saved counters past everything handed over, if and only if it lost no introduction. */
  lemma {:induction false} CallKeeps(d: Device, issued: set<Blob>, call: Call)
    requires Held(d, issued, {}) && Restarts.Steady(d) && Fresh(d, call)
    ensures var p := Program(d, call);
            && Held(Run(d, p), issued + Issued(p), PendingAfter({}, issued, p))
            && (PendingAfter({}, issued, p) == {} <==> !LosesTheIntroduction(call))
  {
    CallIsProper(d, issued, call);
    HeldRun(d, issued, {}, Program(d, call));
    match call
    case SendMessage(c, body, posts, localId, at, queuedAt) =>
      SendPendsNothing(d, issued, c, body, posts, localId, at, queuedAt);
    case AddContact(name, invite, group, posts) => PendingOfAnIntroduction(d, issued, name, invite, group, posts);
    case FlushOutbox(posts) => FlushPendsNothing(d, issued, posts);
    case ReceiveMessages(posts, batch, clock, ack, now) =>
      ReceivePendsNothing(d, issued, posts, batch, clock, ack, now);
    case _ =>
      UpkeepIsLocal(d, call);
      LocalPendsNothing(issued, Program(d, call));
  }

  // ---- Whole sessions --------------------------------------------------------------

  function IssuedIn(d: Device, steps: seq<Step>): set<Blob>
    decreases |steps|
  {
    if steps == [] then {} else Issued(Effects(d, steps[0])) + IssuedIn(AfterStep(d, steps[0]), steps[1..])
  }

  /** No restart and no crash while a fresh ciphertext has been handed over and the ratchets not been saved since. */
  predicate NeverCutBeforeTheSave(d: Device, issued: set<Blob>, pending: set<Blob>, steps: seq<Step>)
    decreases |steps|
  {
    steps == [] ||
    var p := Effects(d, steps[0]);
    var left := PendingAfter(pending, issued, p);
    (steps[0].Do? || left == {}) && NeverCutBeforeTheSave(AfterStep(d, steps[0]), issued + Issued(p), left, steps[1..])
  }

  /** What is pending after a session. */
  function PendingIn(d: Device, issued: set<Blob>, pending: set<Blob>, steps: seq<Step>): set<Blob>
    decreases |steps|
  {
    if steps == [] then pending
    else
      var p := Effects(d, steps[0]);
      PendingIn(AfterStep(d, steps[0]), issued + Issued(p), PendingAfter(pending, issued, p), steps[1..])
  }

  lemma {:induction false} RestartKeeps(d: Device, issued: set<Blob>, now: u64)
    requires Held(d, issued, {})
    ensures Held(Reopen(d, now), issued, {})
  {
    assert issued - {} == issued;
    if CanOpen(d.db) {
      PurgedIs(d.db, now);
      FromDisk(d, Reopen(d, now), issued);
    }
  }

  /** Memory is the snapshot again, and the outbox has lost rows at most. */
  lemma {:induction false} FromDisk(d: Device, r: Device, issued: set<Blob>)
    requires Held(d, issued, {}) && r.db.mls == d.db.mls && r.mls == d.db.mls.value
    requires forall id :: id in r.db.outbox ==> id in d.db.outbox && r.db.outbox[id] == d.db.outbox[id]
    ensures Held(r, issued, {})
  {
    assert issued - {} == issued;
  }

  lemma {:induction false} EffectsAreProper(d: Device, issued: set<Blob>, s: Step)
    requires Orderly(d, issued) && Restarts.Steady(d) && (!s.Restart? ==> Fresh(d, s.call))
    ensures AllProper(d, issued, Effects(d, s))
  {
    if !s.Restart? {
      CallIsProper(d, issued, s.call);
      if s.Crash? && s.k <= |Program(d, s.call)| {
        ProperPrefix(d, issued, Program(d, s.call), s.k);
      }
    }
  }

  /**
   A session under way, all of it still to come. The lemmas state this and `Held` as equations, which keeps them
   folded.
  */
  ghost predicate UnderWay(d: Device, issued: set<Blob>, pending: set<Blob>, steps: seq<Step>) {
    && Held(d, issued, pending) && Restarts.Steady(d)
    && FreshThroughout(d, steps) && NeverCutBeforeTheSave(d, issued, pending, steps)
  }

  lemma {:induction false} SessionHeld(d: Device, issued: set<Blob>, pending: set<Blob>, steps: seq<Step>)
    requires UnderWay(d, issued, pending, steps) == true
    ensures Held(AfterSteps(d, steps), issued + IssuedIn(d, steps), PendingIn(d, issued, pending, steps)) == true
    decreases |steps|
  {
    if steps == [] {
      assert issued + {} == issued;
    } else {
      var now := issued + Issued(Effects(d, steps[0]));
      var left := PendingAfter(pending, issued, Effects(d, steps[0]));
      StepUnderWay(d, issued, pending, steps);
      SessionHeld(AfterStep(d, steps[0]), now, left, steps[1..]);
      Reunite(issued, Issued(Effects(d, steps[0])), IssuedIn(AfterStep(d, steps[0]), steps[1..]));
    }
  }

  lemma {:induction false} Reunite(a: set<Blob>, b: set<Blob>, c: set<Blob>)
    ensures (a + b) + c == a + (b + c)
  {
  }

  lemma {:induction false} StepUnderWay(d: Device, issued: set<Blob>, pending: set<Blob>, steps: seq<Step>)
    requires UnderWay(d, issued, pending, steps) && steps != []
    ensures var p := Effects(d, steps[0]);
            UnderWay(AfterStep(d, steps[0]), issued + Issued(p), PendingAfter(pending, issued, p), steps[1..]) == true
  {
    StepHeld(d, issued, pending, steps[0]);
    Restarts.StepSteady(d, steps[0]);
  }

  lemma {:induction false} StepHeld(d: Device, issued: set<Blob>, pending: set<Blob>, s: Step)
    requires Held(d, issued, pending) && Restarts.Steady(d) && (!s.Restart? ==> Fresh(d, s.call))
    requires s.Do? || PendingAfter(pending, issued, Effects(d, s)) == {}
    ensures var p := Effects(d, s); Held(AfterStep(d, s), issued + Issued(p), PendingAfter(pending, issued, p))
  {
    var p := Effects(d, s);
    EffectsAreProper(d, issued, s);
    HeldRun(d, issued, pending, p);
    if !s.Do? {
      RestartKeeps(Run(d, p), issued + Issued(p), s.now);
    }
  }

  /** A device as `create` leaves it. */
  predicate New(d: Device) {
    && d.db == EMPTY.(identity := Some(d.identity), mls := Some(d.mls)) && d.identity.signerPublic == d.mls.me
    && d.mls.groups == map[] && d.live == map[]
  }

  /**
   Over every session from first run, with any network behaviour and with restarts and crashes anywhere but
   between handing over a fresh ciphertext and the next save, no two different ciphertexts that the relay
   stored or that still wait share a conversation and a generation; and whatever is posted again is posted
   unchanged. Cut short by a restart now, the session would repeat one if and only if something is pending.
  */
  lemma {:induction false} NoGenerationIsReused(d: Device, steps: seq<Step>)
    requires New(d) && FreshThroughout(d, steps) && NeverCutBeforeTheSave(d, {}, {}, steps)
    ensures NoReuse(IssuedIn(d, steps))
    ensures var after := AfterSteps(d, steps);
            && (forall id :: id in after.db.outbox ==> after.db.outbox[id].blob in IssuedIn(d, steps))
            && after.db.mls.Some?
            && (Repeats(after.db.mls.value, IssuedIn(d, steps)) <==> PendingIn(d, {}, {}, steps) != {})
  {
    NewIsSteady(d);
    SessionHeld(d, {}, {}, steps);
    assert {} + IssuedIn(d, steps) == IssuedIn(d, steps);
    PendingRepeats(AfterSteps(d, steps), IssuedIn(d, steps), PendingIn(d, {}, {}, steps));
  }

  lemma {:induction false} NewIsSteady(d: Device)
    requires New(d)
    ensures Restarts.Steady(d) && Held(d, {}, {})
  {
  }
}
