/**
 Every generation a device uses is accounted for, once: accepted by the relay, waiting, purged from the outbox,
 or dropped with a failed introduction.
*/
module Conservation {
  import opened Basics
  import RowOrder
  import opened Mls
  import opened Tables
  import opened Client
  import opened Calls
  import opened OutboxRules
  import opened Generations
  import Restarts

  /** One generation of one conversation. */
  datatype Slot = Slot(group: Ident, generation: nat)

  function SlotOf(b: Blob): Slot
    requires b.Application?
  {
    Slot(b.group, b.generation)
  }

  /** Where generations went that no longer wait in the outbox. */
  datatype Ledger = Ledger(accepted: set<Slot>, purged: set<Slot>, dropped: set<Slot>)

  ghost predicate Waits(box: map<Ident, Queued>, s: Slot) {
    exists id :: id in box && box[id].blob.Application? && SlotOf(box[id].blob) == s
  }

  predicate Used(mls: State, s: Slot) {
    s.group in mls.groups && s.generation < mls.groups[s.group].next
  }

  /** Exactly one of the four. */
  ghost predicate OnePlace(box: map<Ident, Queued>, l: Ledger, s: Slot) {
    || (s in l.accepted && !Waits(box, s) && s !in l.purged && s !in l.dropped)
    || (s !in l.accepted && Waits(box, s) && s !in l.purged && s !in l.dropped)
    || (s !in l.accepted && !Waits(box, s) && s in l.purged && s !in l.dropped)
    || (s !in l.accepted && !Waits(box, s) && s !in l.purged && s in l.dropped)
  }

  ghost predicate NoPlace(box: map<Ident, Queued>, l: Ledger, s: Slot) {
    s !in l.accepted && !Waits(box, s) && s !in l.purged && s !in l.dropped
  }

  /** The outbox holds ciphertexts only, no two of one generation. */
  ghost predicate OneRowEach(box: map<Ident, Queued>) {
    && (forall id :: id in box ==> box[id].blob.Application?)
    && (forall i, j :: i in box && j in box && SlotOf(box[i].blob) == SlotOf(box[j].blob) ==> i == j)
  }

  /** Every used generation is in exactly one place, and no other generation is anywhere. */
  ghost predicate Balanced(box: map<Ident, Queued>, mls: State, l: Ledger) {
    && OneRowEach(box)
    && forall s :: if Used(mls, s) then OnePlace(box, l, s) else NoPlace(box, l, s)
  }

  // ---- Delivery moves a generation from the outbox to the relay --------------

  lemma {:induction false} DeliveryBalances(box: map<Ident, Queued>, mls: State, l: Ledger, id: Ident)
    requires Balanced(box, mls, l) && id in box
    ensures Balanced(box - {id}, mls, l.(accepted := l.accepted + {SlotOf(box[id].blob)}))
  {
    var moved := SlotOf(box[id].blob);
    var after := l.(accepted := l.accepted + {moved});
    assert Waits(box, moved);
    forall s ensures Waits(box - {id}, s) <==> Waits(box, s) && s != moved {
      if Waits(box, s) && s != moved {
        var j :| j in box && SlotOf(box[j].blob) == s;
        assert j in box - {id};
      }
    }
    forall s
      ensures if Used(mls, s) then OnePlace(box - {id}, after, s) else NoPlace(box - {id}, after, s)
    {
      assert if Used(mls, s) then OnePlace(box, l, s) else NoPlace(box, l, s);
    }
  }

  /** Attempt counts, errors and keys apart, the same ciphertexts wait. */
  ghost predicate SameBlobs(a: map<Ident, Queued>, b: map<Ident, Queued>) {
    a.Keys == b.Keys && forall id :: id in a ==> a[id].blob == b[id].blob
  }

  lemma {:induction false} SameBlobsBalance(box: map<Ident, Queued>, other: map<Ident, Queued>, mls: State, l: Ledger)
    requires Balanced(box, mls, l) && SameBlobs(box, other)
    ensures Balanced(other, mls, l)
  {
    forall s ensures Waits(other, s) <==> Waits(box, s) {
      if Waits(box, s) {
        var j :| j in box && SlotOf(box[j].blob) == s;
        assert j in other;
      }
    }
    forall s
      ensures if Used(mls, s) then OnePlace(other, l, s) else NoPlace(other, l, s)
    {
      assert if Used(mls, s) then OnePlace(box, l, s) else NoPlace(box, l, s);
    }
  }

  /** The generations a program got the relay to accept. */
  function AcceptedBy(p: seq<Effect>): set<Slot>
    decreases |p|
  {
    if p == [] then {}
    else (if p[0].Post? && p[0].reply.Accepted? && p[0].blob.Application? then {SlotOf(p[0].blob)} else {})
         + AcceptedBy(p[1..])
  }

  lemma {:induction false} AcceptedConcat(a: seq<Effect>, b: seq<Effect>)
    ensures AcceptedBy(a + b) == AcceptedBy(a) + AcceptedBy(b)
    decreases |a|
  {
    if a == [] {
      assert a + b == b;
    } else {
      assert (a + b)[1..] == a[1..] + b;
      AcceptedConcat(a[1..], b);
    }
  }

  lemma {:induction false} AcceptedPair(a: Effect, b: Effect)
    ensures AcceptedBy([a, b]) == AcceptedBy([a]) + AcceptedBy([b])
  {
    assert [a, b] == [a] + [b];
    AcceptedConcat([a], [b]);
  }

  lemma {:induction false} FlushBalances(box: map<Ident, Queued>, table: map<Ident, Queued>, order: seq<Ident>,
      posts: seq<PostReply>,
                                         mls: State, l: Ledger)
    requires Balanced(table, mls, l)
    requires forall i :: 0 <= i < |order| ==> order[i] in box && order[i] in table && table[order[i]] == box[order[i]]
    requires forall i, j :: 0 <= i < j < |order| ==> order[i] != order[j]
    ensures var p := FlushProgram(box, order, posts);
            Balanced(BoxAfter(table, order, posts), mls, l.(accepted := l.accepted + AcceptedBy(p)))
    decreases |order|
  {
    var p := FlushProgram(box, order, posts);
    if order == [] {
      assert l.accepted + {} == l.accepted;
    } else {
      var id := order[0];
      var reply := FirstReply(posts);
      assert [p[0]][1..] == [] && [p[1]][1..] == [];
      AcceptedPair(p[0], p[1]);
      if reply.Accepted? {
        var moved := l.(accepted := l.accepted + {SlotOf(table[id].blob)});
        DeliveryBalances(table, mls, l, id);
        var rest := FlushProgram(box, order[1..], RestReplies(posts));
        FlushBalances(box, table - {id}, order[1..], RestReplies(posts), mls, moved);
        assert p == [p[0], p[1]] + rest;
        AcceptedConcat([p[0], p[1]], rest);
        assert moved.accepted + AcceptedBy(rest) == l.accepted + AcceptedBy(p);
      } else {
        assert p == [p[0], p[1]];
        assert AcceptedBy(p) == {} && l.accepted + {} == l.accepted;
        SameBlobsBalance(table, BoxAfter(table, order, posts), mls, l);
      }
    }
  }

  // ---- Local effects, and the purge ------------------------------------------

  /** The generations a purge of the outbox takes. */
  ghost function PurgedBy(d: Device, e: Effect): set<Slot> {
    if e.Sql? && e.stmt.PurgeOutbox? then
      set id | id in d.db.outbox && id !in Apply(d, e).db.outbox && d.db.outbox[id].blob.Application? ::
        SlotOf(d.db.outbox[id].blob)
    else {}
  }

  ghost function PurgedIn(d: Device, p: seq<Effect>): set<Slot>
    decreases |p|
  {
    if p == [] then {} else PurgedBy(d, p[0]) + PurgedIn(Apply(d, p[0]), p[1..])
  }

  lemma {:induction false} PurgedConcat(d: Device, a: seq<Effect>, b: seq<Effect>)
    ensures PurgedIn(d, a + b) == PurgedIn(d, a) + PurgedIn(Run(d, a), b)
    decreases |a|
  {
    if a == [] {
      assert a + b == b;
    } else {
      assert (a + b)[0] == a[0] && (a + b)[1..] == a[1..] + b;
      PurgedConcat(Apply(d, a[0]), a[1..], b);
    }
  }

  lemma {:induction false} PurgeBalances(box: map<Ident, Queued>, kept: map<Ident, Queued>, mls: State, l: Ledger,
      taken: set<Slot>)
    requires Balanced(box, mls, l)
    requires kept.Keys <= box.Keys && forall id :: id in kept ==> kept[id] == box[id]
    requires forall s :: s in taken <==> exists id :: id in box && id !in kept && SlotOf(box[id].blob) == s
    ensures Balanced(kept, mls, l.(purged := l.purged + taken))
  {
    forall s ensures Waits(kept, s) <==> Waits(box, s) && s !in taken {
      if Waits(box, s) && s !in taken {
        var j :| j in box && SlotOf(box[j].blob) == s;
        assert j in kept;
      }
    }
    forall s
      ensures if Used(mls, s) then OnePlace(kept, l.(purged := l.purged + taken), s)
              else NoPlace(kept, l.(purged := l.purged + taken), s)
    {
      assert if Used(mls, s) then OnePlace(box, l, s) else NoPlace(box, l, s);
      if s in taken {
        var id :| id in box && id !in kept && SlotOf(box[id].blob) == s;
        assert Waits(box, s);
      }
    }
  }

  /** Counters unchanged, except that new groups start at zero. */
  ghost predicate SameCounters(s: State, t: State) {
    forall x :: Used(s, x) <==> Used(t, x)
  }

  lemma {:induction false} StatementKeepsBlobs(db: Db, s: Stmt)
    requires !s.Enqueue? && !s.Dequeue? && !s.Clear? && !s.PurgeOutbox?
    ensures SameBlobs(db.outbox, Exec(db, s).outbox)
  {
  }

  lemma {:induction false} MemoryKeepsCounters(d: Device, e: Effect)
    requires !e.Advance? && !e.Sql?
    ensures SameCounters(d.mls, Apply(d, e).mls)
    ensures Apply(d, e).db.outbox == d.db.outbox
  {
  }

  lemma {:induction false} LocalStepFrames(d: Device, e: Effect)
    requires Local(e)
    ensures SameCounters(d.mls, Apply(d, e).mls)
    ensures !(e.Sql? && e.stmt.PurgeOutbox?) ==> SameBlobs(d.db.outbox, Apply(d, e).db.outbox)
  {
    if e.Sql? {
      if !e.stmt.PurgeOutbox? {
        StatementKeepsBlobs(d.db, e.stmt);
      }
    } else {
      MemoryKeepsCounters(d, e);
    }
  }

  lemma {:induction false} LocalStepBalances(d: Device, l: Ledger, e: Effect)
    requires Balanced(d.db.outbox, d.mls, l) && Local(e)
    ensures Balanced(Apply(d, e).db.outbox, Apply(d, e).mls, l.(purged := l.purged + PurgedBy(d, e)))
  {
    LocalStepFrames(d, e);
    if e.Sql? && e.stmt.PurgeOutbox? {
      PurgeBalances(d.db.outbox, Apply(d, e).db.outbox, d.mls, l, PurgedBy(d, e));
    } else {
      assert l.purged + {} == l.purged;
      SameBlobsBalance(d.db.outbox, Apply(d, e).db.outbox, d.mls, l);
    }
  }

  lemma {:induction false} LocalBalances(d: Device, l: Ledger, p: seq<Effect>)
    requires Balanced(d.db.outbox, d.mls, l) && AllLocal(p)
    ensures Balanced(Run(d, p).db.outbox, Run(d, p).mls, l.(purged := l.purged + PurgedIn(d, p)))
    ensures AcceptedBy(p) == {}
    decreases |p|
  {
    if p == [] {
      assert l.purged + {} == l.purged;
    } else {
      assert Local(p[0]);
      LocalStepBalances(d, l, p[0]);
      var mid := l.(purged := l.purged + PurgedBy(d, p[0]));
      LocalBalances(Apply(d, p[0]), mid, p[1..]);
      assert mid.purged + PurgedIn(Apply(d, p[0]), p[1..]) == l.purged + PurgedIn(d, p);
    }
  }

  // ---- Sending -----------------------------------------------------------------

  /** After encrypting, the new generation belongs somewhere. */
  lemma {:induction false} AcceptedPostBalances(d: Device, l: Ledger, c: Ident)
    requires Balanced(d.db.outbox, d.mls, l) && c in d.mls.groups
    ensures var s := Slot(c, d.mls.groups[c].next);
            && Balanced(d.db.outbox, Advanced(d.mls, c), l.(accepted := l.accepted + {s}))
            && Balanced(d.db.outbox, Advanced(d.mls, c), l.(dropped := l.dropped + {s}))
  {
    var issue := Slot(c, d.mls.groups[c].next);
    forall s ensures Used(Advanced(d.mls, c), s) <==> Used(d.mls, s) || s == issue {
    }
    assert NoPlace(d.db.outbox, l, issue);
    forall s
      ensures var box := d.db.outbox;
              var a := l.(accepted := l.accepted + {issue});
              var b := l.(dropped := l.dropped + {issue});
              if Used(Advanced(d.mls, c), s) then OnePlace(box, a, s) && OnePlace(box, b, s)
                 else NoPlace(box, a, s) && NoPlace(box, b, s)
    {
      assert if Used(d.mls, s) then OnePlace(d.db.outbox, l, s) else NoPlace(d.db.outbox, l, s);
    }
  }

  lemma {:induction false} QueuedPostBalances(box: map<Ident, Queued>, mls: State, l: Ledger, c: Ident, id: Ident,
      q: Queued)
    requires Balanced(box, mls, l) && c in mls.groups && id !in box
    requires q.blob.Application? && SlotOf(q.blob) == Slot(c, mls.groups[c].next)
    ensures Balanced(box[id := q], Advanced(mls, c), l)
  {
    var issue := Slot(c, mls.groups[c].next);
    var after := box[id := q];
    assert NoPlace(box, l, issue);
    forall s ensures Waits(after, s) <==> Waits(box, s) || s == issue {
      assert id in after;
      if Waits(box, s) {
        var j :| j in box && SlotOf(box[j].blob) == s;
        assert j in after && after[j] == box[j];
      }
    }
    assert !Waits(box, issue);
    assert forall j :: j in box ==> SlotOf(box[j].blob) != issue;
    forall s
      ensures if Used(Advanced(mls, c), s) then OnePlace(after, l, s) else NoPlace(after, l, s)
    {
      assert if Used(mls, s) then OnePlace(box, l, s) else NoPlace(box, l, s);
    }
  }

  // ---- Calls and sessions --------------------------------------------------------

  /** The ledger after a program, with what the call gave up on. */
  ghost function Booked(l: Ledger, d: Device, p: seq<Effect>, dropped: set<Slot>): Ledger {
    Ledger(l.accepted + AcceptedBy(p), l.purged + PurgedIn(d, p), l.dropped + dropped)
  }

  lemma {:induction false} BookedConcat(l: Ledger, d: Device, a: seq<Effect>, b: seq<Effect>, dropped: set<Slot>)
    ensures Booked(Booked(l, d, a, {}), Run(d, a), b, dropped) == Booked(l, d, a + b, dropped)
  {
    AcceptedConcat(a, b);
    PurgedConcat(d, a, b);
  }

  lemma {:induction false} NothingPurged(d: Device, p: seq<Effect>)
    requires forall i :: 0 <= i < |p| ==> !(p[i].Sql? && p[i].stmt.PurgeOutbox?)
    ensures PurgedIn(d, p) == {}
    decreases |p|
  {
    if p != [] {
      NothingPurged(Apply(d, p[0]), p[1..]);
    }
  }

  lemma {:induction false} FlushPurgesNothing(d: Device, box: map<Ident, Queued>, order: seq<Ident>,
      posts: seq<PostReply>)
    requires forall i :: 0 <= i < |order| ==> order[i] in box
    ensures PurgedIn(d, FlushProgram(box, order, posts)) == {}
    decreases |order|
  {
    if order != [] {
      var p := FlushProgram(box, order, posts);
      var head := [p[0], p[1]];
      NothingPurged(d, head);
      if FirstReply(posts).Accepted? {
        var rest := FlushProgram(box, order[1..], RestReplies(posts));
        assert p == head + rest;
        PurgedConcat(d, head, rest);
        FlushPurgesNothing(Run(d, head), box, order[1..], RestReplies(posts));
      } else {
        assert p == head;
      }
    }
  }

  /** The device and the ledger agree. */
  ghost predicate InBalance(d: Device, l: Ledger) {
    Balanced(d.db.outbox, d.mls, l)
  }

  lemma {:induction false} OnlyAccepted(l: Ledger, d: Device, p: seq<Effect>)
    requires PurgedIn(d, p) == {}
    ensures Booked(l, d, p, {}) == l.(accepted := l.accepted + AcceptedBy(p))
  {
  }

  lemma {:induction false} FlushCallBalances(d: Device, l: Ledger, posts: seq<PostReply>)
    requires InBalance(d, l)
    ensures InBalance(Run(d, Flush(d.db, posts)), Booked(l, d, Flush(d.db, posts), {}))
  {
    var order := QueuedOrder(d.db);
    FlushRuns(d, d.db.outbox, order, posts);
    RowOrder.InOrderEnumerates(Times(d.db.outbox));
    FlushBalances(d.db.outbox, d.db.outbox, order, posts, d.mls, l);
    FlushPurgesNothing(d, d.db.outbox, order, posts);
    OnlyAccepted(l, d, Flush(d.db, posts));
  }

  lemma {:induction false} HeadBalances(d: Device, c: Ident, inbox: Ident, blob: Blob, reply: PostReply)
    requires blob.Application?
    ensures var head := [Advance(c), Post(inbox, blob, reply)];
            && PurgedIn(d, head) == {}
            && AcceptedBy(head) == if reply.Accepted? then {SlotOf(blob)} else {}
  {
    var head := [Advance(c), Post(inbox, blob, reply)];
    NothingPurged(d, head);
    AcceptedPair(head[0], head[1]);
    assert [head[0]][1..] == [] && [head[1]][1..] == [];
  }

  lemma {:induction false} OwnPostBalances(d: Device, l: Ledger, c: Ident, body: string, reply: PostReply,
      localId: Ident, at: u64, queuedAt: u64)
    requires InBalance(d, l) && Sound(d) && localId !in d.db.outbox && !reply.Lost?
    ensures var p := OwnPostProgram(d, c, body, reply, localId, at, queuedAt); InBalance(Run(d, p), Booked(l, d, p, {}))
  {
    var p := OwnPostProgram(d, c, body, reply, localId, at, queuedAt);
    if !CanSend(d, c) {
      assert Booked(l, d, p, {}) == l;
    } else {
      var blob := Ciphertext(d.mls, c, Text(body));
      OwnPostRuns(d, c, body, reply, localId, at, queuedAt);
      if reply.Accepted? {
        AcceptedPostBalances(d, l, c);
        assert Booked(l, d, p, {}) == l.(accepted := l.accepted + {SlotOf(blob)});
      } else {
        QueuedPostBalances(d.db.outbox, d.mls, l, c, localId,
                           Queued(c, d.live[c].inbox, blob, AsI64(queuedAt), 1, Some(reply.error)));
        assert Booked(l, d, p, {}) == l;
      }
    }
  }

  lemma {:induction false} OwnPostRuns(d: Device, c: Ident, body: string, reply: PostReply, localId: Ident, at: u64,
      queuedAt: u64)
    requires Sound(d) && CanSend(d, c)
    ensures var p := OwnPostProgram(d, c, body, reply, localId, at, queuedAt);
            var blob := Ciphertext(d.mls, c, Text(body));
            && Run(d, p).mls == Advanced(d.mls, c) && PurgedIn(d, p) == {}
            && AcceptedBy(p) == (if reply.Accepted? then {SlotOf(blob)} else {})
            && Run(d, p).db.outbox == if reply.Accepted? then d.db.outbox
                                      else
                                        var to := d.live[c].inbox;
                                        var q := Queued(c, to, blob, AsI64(queuedAt), 1, Some(reply.error));
                                        d.db.outbox[localId := q]
  {
    var blob := Ciphertext(d.mls, c, Text(body));
    var inbox := d.live[c].inbox;
    var head := [Advance(c), Post(inbox, blob, reply)];
    var tail := RecordProgram(c, inbox, body, blob, reply, localId, at, queuedAt);
    HandingOver(d, c, inbox, blob, reply);
    HeadBalances(d, c, inbox, blob, reply);
    RunConcat(d, head, tail);
    AcceptedConcat(head, tail);
    NothingPurged(d, head + tail);
    RecordRuns(Run(d, head), c, inbox, body, blob, reply, localId, at, queuedAt);
  }

  /** What is left after the answer was recorded, as far as the ledger is concerned. */
  lemma {:induction false} RecordRuns(d: Device, c: Ident, inbox: Ident, body: string, blob: Blob, reply: PostReply,
      localId: Ident, at: u64, queuedAt: u64)
    requires c in d.db.conversations
    ensures var tail := RecordProgram(c, inbox, body, blob, reply, localId, at, queuedAt);
            && Run(d, tail).mls == d.mls && AcceptedBy(tail) == {}
            && Run(d, tail).db.outbox == if reply.Accepted? then d.db.outbox
                                         else
                                           var q := Queued(c, inbox, blob, AsI64(queuedAt), 1, Some(reply.error));
                                           d.db.outbox[localId := q]
  {
    var tail := RecordProgram(c, inbox, body, blob, reply, localId, at, queuedAt);
    NothingAccepted(tail);
    if reply.Accepted? {
      TwoSteps(d, tail[0], tail[1]);
      assert tail == [tail[0], tail[1]];
    } else {
      Restarts.ThreeSteps(d, tail[0], tail[1], tail[2]);
      assert tail == [tail[0], tail[1], tail[2]];
    }
  }

  lemma {:induction false} NothingAccepted(p: seq<Effect>)
    requires forall i :: 0 <= i < |p| ==> !p[i].Post?
    ensures AcceptedBy(p) == {}
    decreases |p|
  {
    if p != [] {
      NothingAccepted(p[1..]);
    }
  }

  lemma {:induction false} PayloadBalances(d: Device, l: Ledger, c: Ident, payload: Payload, reply: PostReply)
    requires InBalance(d, l) && CanSend(d, c)
    ensures var p := PayloadProgram(d, c, payload, reply);
            InBalance(Run(d, p), Booked(l, d, p, if reply.Accepted? then {} else {Slot(c, d.mls.groups[c].next)}))
  {
    var p := PayloadProgram(d, c, payload, reply);
    var blob := Ciphertext(d.mls, c, payload);
    var head := [Advance(c), Post(d.live[c].inbox, blob, reply)];
    var slot := Slot(c, d.mls.groups[c].next);
    HandingOver(d, c, d.live[c].inbox, blob, reply);
    HeadBalances(d, c, d.live[c].inbox, blob, reply);
    AcceptedPostBalances(d, l, c);
    if reply.Accepted? {
      RunSnoc(d, head, Persist);
      AcceptedConcat(head, [Persist]);
      assert [Persist][1..] == [] && AcceptedBy([Persist]) == {};
      NothingPurged(Run(d, head), [Persist]);
      PurgedConcat(d, head, [Persist]);
      assert Booked(l, d, p, {}) == l.(accepted := l.accepted + {slot});
    } else {
      assert p == head;
      assert Booked(l, d, p, {slot}) == l.(dropped := l.dropped + {slot});
    }
  }

  /** The introduction `add_contact` gives up on, if its post fails. */
  function DroppedBy(call: Call): set<Slot> {
    if call.AddContact? && FirstReply(call.posts).Accepted? && !FirstReply(RestReplies(call.posts)).Accepted?
    then {Slot(call.group, 0)} else {}
  }

  lemma {:induction false} OpeningBalances(d: Device, l: Ledger, name: string, invite: Invite, group: Ident,
      reply: PostReply)
    requires InBalance(d, l)
    ensures var p := OpenProgram(d.mls.me, name, invite, group, reply);
            InBalance(Run(d, p), l) && Booked(l, d, p, {}) == l
  {
    var p := OpenProgram(d.mls.me, name, invite, group, reply);
    LocalBalances(d, l, p);
    NothingPurged(d, p);
    assert l.purged + {} == l.purged;
  }

  lemma {:induction false} AddContactBalances(d: Device, l: Ledger, name: string, invite: Invite, group: Ident,
      posts: seq<PostReply>)
    requires InBalance(d, l) && group !in d.mls.groups
    ensures var p := AddContactProgram(d, name, invite, group, posts);
            InBalance(Run(d, p), Booked(l, d, p, DroppedBy(AddContact(name, invite, group, posts))))
  {
    var reply := FirstReply(posts);
    var p := OpenProgram(d.mls.me, name, invite, group, reply);
    OpeningBalances(d, l, name, invite, group, reply);
    if reply.Accepted? {
      OpenedForHello(d, name, invite, group, reply);
      var hello := Hello(d.identity.inbox, d.identity.displayName);
      var helloReply := FirstReply(RestReplies(posts));
      var q := PayloadProgram(Run(d, p), group, hello, helloReply);
      assert q == PayloadProgram(Introduced(d, invite, group), group, hello, helloReply);
      PayloadBalances(Run(d, p), l, group, hello, helloReply);
      BalancesThen(d, l, p, q, DroppedBy(AddContact(name, invite, group, posts)));
    } else {
      assert p + [] == p;
    }
  }

  /** Every answer of the network is definite. */
  predicate Certain(call: Call) {
    (call.SendMessage? || call.AddContact? || call.FlushOutbox? || call.ReceiveMessages?)
    ==> Definite(call.posts)
  }

  predicate Definite(posts: seq<PostReply>) {
    forall r :: r in posts ==> !r.Lost?
  }

  lemma {:induction false} DefiniteAfterFlush(n: nat, posts: seq<PostReply>)
    requires Definite(posts)
    ensures Definite(AfterFlush(n, posts))
    decreases n
  {
    assert Definite(RestReplies(posts));
    if n > 0 && FirstReply(posts).Accepted? {
      DefiniteAfterFlush(n - 1, RestReplies(posts));
    }
  }

  lemma {:induction false} SendCallBalances(d: Device, l: Ledger, c: Ident, body: string, posts: seq<PostReply>,
      localId: Ident, at: u64, queuedAt: u64)
    requires InBalance(d, l) && Sound(d) && localId !in d.db.outbox && Definite(posts)
    ensures var p := SendProgram(d, c, body, posts, localId, at, queuedAt); InBalance(Run(d, p), Booked(l, d, p, {}))
  {
    var flush := Flush(d.db, posts);
    var d1 := Run(d, flush);
    var reply := FirstReply(AfterFlush(|QueuedOrder(d.db)|, posts));
    var q := OwnPostProgram(d1, c, body, reply, localId, at, queuedAt);
    FlushCallBalances(d, l, posts);
    FlushSound(d, posts);
    DefiniteAfterFlush(|QueuedOrder(d.db)|, posts);
    OwnPostBalances(d1, Booked(l, d, flush, {}), c, body, reply, localId, at, queuedAt);
    SameOwnPost(d, d1, c, body, reply, localId, at, queuedAt);
    BalancesThen(d, l, flush, q, {});
  }

  lemma {:induction false} SameOwnPost(d: Device, e: Device, c: Ident, body: string, reply: PostReply, localId: Ident,
      at: u64, queuedAt: u64)
    requires d.mls == e.mls && d.live == e.live
    ensures OwnPostProgram(d, c, body, reply, localId, at, queuedAt)
            == OwnPostProgram(e, c, body, reply, localId, at, queuedAt)
  {
  }

  lemma {:induction false} BalancesThen(d: Device, l: Ledger, a: seq<Effect>, b: seq<Effect>, dropped: set<Slot>)
    requires InBalance(Run(Run(d, a), b), Booked(Booked(l, d, a, {}), Run(d, a), b, dropped))
    ensures InBalance(Run(d, a + b), Booked(l, d, a + b, dropped))
  {
    RunConcat(d, a, b);
    BookedConcat(l, d, a, b, dropped);
  }

  lemma {:induction false} FlushSound(d: Device, posts: seq<PostReply>)
    requires Sound(d)
    ensures var after := Run(d, Flush(d.db, posts));
            Sound(after) && after.mls == d.mls && after.live == d.live && after.db.outbox.Keys <= d.db.outbox.Keys
  {
    FlushTakesAPrefix(d, posts);
  }

  lemma {:induction false} LocalThen(d: Device, l: Ledger, a: seq<Effect>, b: seq<Effect>)
    requires InBalance(Run(d, a), Booked(l, d, a, {})) && AllLocal(b)
    ensures InBalance(Run(d, a + b), Booked(l, d, a + b, {}))
  {
    var l1 := Booked(l, d, a, {});
    LocalBalances(Run(d, a), l1, b);
    assert Booked(l1, Run(d, a), b, {}) == l1.(purged := l1.purged + PurgedIn(Run(d, a), b));
    BalancesThen(d, l, a, b, {});
  }

  lemma {:induction false} ReceiveCallBalances(d: Device, l: Ledger, posts: seq<PostReply>, batch: Option<seq<Mail>>,
      clock: Clock, ack: AckReply, now: u64)
    requires InBalance(d, l)
    ensures var p := ReceiveProgram(d, posts, batch, clock, ack, now); InBalance(Run(d, p), Booked(l, d, p, {}))
  {
    var flush := Flush(d.db, posts);
    FlushCallBalances(d, l, posts);
    if batch.None? {
      assert flush + [] == flush;
    } else {
      BatchLocal(Run(d, flush), batch.value, clock, ack, now);
      LocalThen(d, l, flush, BatchProgram(Run(d, flush), batch.value, clock, ack, now));
    }
  }

  lemma {:induction false} CallBalances(d: Device, l: Ledger, call: Call)
    requires InBalance(d, l) && Sound(d) && Fresh(d, call) && Certain(call)
    ensures var p := Program(d, call); InBalance(Run(d, p), Booked(l, d, p, DroppedBy(call))) == true
  {
    match call
    case SendMessage(c, body, posts, localId, at, queuedAt) =>
      SendCallBalances(d, l, c, body, posts, localId, at, queuedAt);
    case AddContact(name, invite, group, posts) => AddContactBalances(d, l, name, invite, group, posts);
    case FlushOutbox(posts) => FlushCallBalances(d, l, posts);
    case ReceiveMessages(posts, batch, clock, ack, now) => ReceiveCallBalances(d, l, posts, batch, clock, ack, now);
    case _ => UpkeepBalances(d, l, call);
  }

  lemma {:induction false} UpkeepBalances(d: Device, l: Ledger, call: Call)
    requires InBalance(d, l) && !call.SendMessage? && !call.AddContact? && !call.FlushOutbox? && !call.ReceiveMessages?
    ensures var p := Program(d, call); InBalance(Run(d, p), Booked(l, d, p, {}))
  {
    var p := Program(d, call);
    UpkeepIsLocal(d, call);
    LocalBalances(d, l, p);
    assert Booked(l, d, p, {}) == l.(purged := l.purged + PurgedIn(d, p));
  }

  ghost function LedgerAfter(l: Ledger, d: Device, calls: seq<Call>): Ledger
    decreases |calls|
  {
    if calls == [] then l
    else LedgerAfter(Booked(l, d, Program(d, calls[0]), DroppedBy(calls[0])), Run(d, Program(d, calls[0])), calls[1..])
  }

  predicate FreshCalls(d: Device, calls: seq<Call>)
    decreases |calls|
  {
    calls == [] || (Fresh(d, calls[0]) && FreshCalls(Run(d, Program(d, calls[0])), calls[1..]))
  }

  lemma {:induction false} CallsBalance(d: Device, l: Ledger, calls: seq<Call>)
    requires InBalance(d, l) && Restarts.Steady(d) && FreshCalls(d, calls)
    requires forall i :: 0 <= i < |calls| ==> Certain(calls[i])
    ensures InBalance(AfterCalls(d, calls), LedgerAfter(l, d, calls))
    decreases |calls|
  {
    if calls != [] {
      CallBalances(d, l, calls[0]);
      Restarts.CallSteady(d, calls[0]);
      CallsBalance(Run(d, Program(d, calls[0])), Booked(l, d, Program(d, calls[0]), DroppedBy(calls[0])), calls[1..]);
    }
  }

  /**
   After any calls from first run, on a network whose answers are definite: each generation a conversation
   has used was accepted by the relay, or waits in the outbox, or was purged from it, or belonged to an
   introduction whose post failed, and never two of these.
  */
  lemma {:induction false} EveryGenerationIsAccountedFor(d: Device, calls: seq<Call>)
    requires New(d) && FreshCalls(d, calls)
    requires forall i :: 0 <= i < |calls| ==> Certain(calls[i])
    ensures var after := AfterCalls(d, calls);
            var l := LedgerAfter(Ledger({}, {}, {}), d, calls);
            forall s :: if Used(after.mls, s) then OnePlace(after.db.outbox, l, s) else NoPlace(after.db.outbox, l, s)
  {
    CallsBalance(d, Ledger({}, {}, {}), calls);
  }
}
