/** In which order whole sessions of failed sends are posted. */
module OutboxRuns {
  import opened Basics
  import opened RowOrder
  import opened Mls
  import opened Tables
  import opened Client
  import opened Calls
  import opened OutboxRules
  import opened Generations
  import opened ProgramRuns
  import Repoll
  import Restarts

  // ---- Rows and counters -----------------------------------------------------

  /** Every queued ciphertext is below the send counter, was queued by `last`, and after every earlier generation. */
  ghost predicate Lined(d: Device, last: int) {
    && d.db.mls.Some? && Behind(d.db.mls.value, d.mls)
    && (forall id :: id in d.db.outbox ==> d.db.outbox[id].at <= last && BelowCounter(d.mls, d.db.outbox[id].blob))
    && (forall p, q :: p in d.db.outbox && q in d.db.outbox && Earlier(d.db.outbox, p, q) ==>
          d.db.outbox[p].at < d.db.outbox[q].at)
  }

  predicate BelowCounter(s: State, b: Blob) {
    b.Application? && b.group in s.groups && b.generation < s.groups[b.group].next
  }

  /** And below the saved counter: what a restart relies on. */
  ghost predicate RowsSaved(d: Device) {
    d.db.mls.Some? && forall id :: id in d.db.outbox ==> BelowCounter(d.db.mls.value, d.db.outbox[id].blob)
  }

  predicate Queues(e: Effect) {
    e.Sql? && e.stmt.Enqueue?
  }

  lemma {:induction false} StatementKeepsRows(db: Db, s: Stmt)
    requires !s.Enqueue? && !s.Clear? && !s.PutMlsState?
    ensures Exec(db, s).mls == db.mls
    ensures forall id :: id in Exec(db, s).outbox ==>
              id in db.outbox && Exec(db, s).outbox[id].blob == db.outbox[id].blob
              && Exec(db, s).outbox[id].at == db.outbox[id].at
  {
  }

  lemma {:induction false} OtherEffectKeepsLine(d: Device, e: Effect, last: int)
    requires Lined(d, last) && Ordinary(e) && !Queues(e)
    ensures Lined(Apply(d, e), last)
    ensures RowsSaved(d) || e.Persist? ==> RowsSaved(Apply(d, e))
  {
    if e.Sql? {
      StatementKeepsRows(d.db, e.stmt);
    } else if !e.Persist? {
      MemoryGrows(d, e);
    }
  }

  lemma {:induction false} OtherEffectsKeepLine(d: Device, p: seq<Effect>, last: int)
    requires Lined(d, last) && AllOrdinary(p) && forall i :: 0 <= i < |p| ==> !Queues(p[i])
    ensures Lined(Run(d, p), last)
    ensures RowsSaved(d) ==> RowsSaved(Run(d, p))
    decreases |p|
  {
    if p != [] {
      assert Ordinary(p[0]) && !Queues(p[0]);
      OtherEffectKeepsLine(d, p[0], last);
      OtherEffectsKeepLine(Apply(d, p[0]), p[1..], last);
    }
  }

  /** Queueing the newest ciphertext, later than anything queued before. */
  lemma {:induction false} QueueingKeepsLine(d: Device, e: Effect, last: int)
    requires Lined(d, last) && Queues(e) && last < e.stmt.queued.at
    requires var b := e.stmt.queued.blob; BelowCounter(d.mls, b) && b.generation + 1 == d.mls.groups[b.group].next
    ensures Lined(Apply(d, e), e.stmt.queued.at)
  {
  }

  /** A failed send: everything up to the queueing, the queueing, the save. */
  lemma {:induction false} FailedSendSplits(d: Device, c: Ident, body: string, posts: seq<PostReply>, localId: Ident,
      at: u64, queuedAt: u64)
    requires CanSend(d, c) && !FirstReply(AfterFlush(|QueuedOrder(d.db)|, posts)).Accepted?
    ensures var p := SendProgram(d, c, body, posts, localId, at, queuedAt);
            var n := |p| - 2;
            && n >= 0 && p[n + 1] == Persist && Queues(p[n]) && p[n].stmt.id == localId
            && p[n].stmt.queued.at == AsI64(queuedAt)
            && (forall i :: 0 <= i < n ==> !Queues(p[i]))
            && Run(d, p[..n]).mls == Advanced(d.mls, c) && p[n].stmt.queued.blob == Ciphertext(d.mls, c, Text(body))
  {
    var flush := Flush(d.db, posts);
    var own := OwnPostProgram(d, c, body, FirstReply(AfterFlush(|QueuedOrder(d.db)|, posts)), localId, at, queuedAt);
    var p := SendProgram(d, c, body, posts, localId, at, queuedAt);
    assert p == flush + own;
    assert |own| == 5 && p[..|p| - 2] == flush + [own[0], own[1], own[2]];
    FlushQueuesNothing(d.db.outbox, QueuedOrder(d.db), posts);
    FlushRuns(d, d.db.outbox, QueuedOrder(d.db), posts);
    RunConcat(d, flush, [own[0], own[1], own[2]]);
    Restarts.ThreeSteps(Run(d, flush), own[0], own[1], own[2]);
  }

  lemma {:induction false} FlushQueuesNothing(box: map<Ident, Queued>, order: seq<Ident>, posts: seq<PostReply>)
    requires forall i :: 0 <= i < |order| ==> order[i] in box
    ensures forall i :: 0 <= i < |FlushProgram(box, order, posts)| ==> !Queues(FlushProgram(box, order, posts)[i])
    decreases |order|
  {
    if order != [] && FirstReply(posts).Accepted? {
      FlushQueuesNothing(box, order[1..], RestReplies(posts));
    }
  }

  predicate Fails(d: Device, call: Call) {
    call.SendMessage? && CanSend(d, call.c) && !FirstReply(AfterFlush(|QueuedOrder(d.db)|, call.posts)).Accepted?
  }

  lemma {:induction false} OthersQueueNothing(d: Device, call: Call)
    requires !Fails(d, call)
    ensures forall i :: 0 <= i < |Program(d, call)| ==> !Queues(Program(d, call)[i])
  {
    match call
    case SendMessage(c, body, posts, localId, at, queuedAt) =>
      FlushQueuesNothing(d.db.outbox, QueuedOrder(d.db), posts);
    case AddContact(name, invite, group, posts) => IntroductionsQueueNothing(d, name, invite, group, posts);
    case FlushOutbox(posts) => FlushQueuesNothing(d.db.outbox, QueuedOrder(d.db), posts);
    case ReceiveMessages(posts, batch, clock, ack, now) =>
      FlushQueuesNothing(d.db.outbox, QueuedOrder(d.db), posts);
      if batch.Some? {
        BatchLocal(Run(d, Flush(d.db, posts)), batch.value, clock, ack, now);
      }
    case _ => UpkeepIsLocal(d, call);
  }

  lemma {:induction false} IntroductionsQueueNothing(d: Device, name: string, invite: Invite, group: Ident,
      posts: seq<PostReply>)
    ensures forall i :: 0 <= i < |AddContactProgram(d, name, invite, group, posts)| ==>
              !Queues(AddContactProgram(d, name, invite, group, posts)[i])
  {
  }

  // ---- Sessions ----------------------------------------------------------------

  /** When the row was queued that these effects queue, if they queue one. */
  function QueuedAt(p: seq<Effect>): Option<int>
    decreases |p|
  {
    if p == [] then None else if Queues(p[0]) then Some(p[0].stmt.queued.at) else QueuedAt(p[1..])
  }

  lemma {:induction false} QueuedAtIs(p: seq<Effect>, n: nat)
    requires n <= |p| && forall i :: 0 <= i < n ==> !Queues(p[i])
    ensures n == |p| ==> QueuedAt(p) == None
    ensures n < |p| && Queues(p[n]) ==> QueuedAt(p) == Some(p[n].stmt.queued.at)
    decreases |p|
  {
    if n > 0 {
      QueuedAtIs(p[1..], n - 1);
    }
  }

  /** The clock readings of successive failed sends strictly increase; below 2^63 they are the readings themselves. */
  predicate FailedSendsTick(d: Device, steps: seq<Step>, last: int)
    decreases |steps|
  {
    steps == [] ||
    match QueuedAt(Effects(d, steps[0]))
    case None => FailedSendsTick(AfterStep(d, steps[0]), steps[1..], last)
    case Some(at) => last < at && FailedSendsTick(AfterStep(d, steps[0]), steps[1..], at)
  }

  /** No crash falls between queueing a ciphertext and saving the ratchets. */
  predicate NeverCutAfterQueueing(d: Device, steps: seq<Step>)
    decreases |steps|
  {
    steps == [] ||
    var p := Effects(d, steps[0]);
    (steps[0].Crash? && p != [] ==> !Queues(p[|p| - 1])) && NeverCutAfterQueueing(AfterStep(d, steps[0]), steps[1..])
  }

  function LastOf(last: int, at: Option<int>): int {
    match at case None => last case Some(t) => t
  }

  lemma {:induction false} EffectsKeepLine(d: Device, s: Step, last: int)
    requires Lined(d, last) && RowsSaved(d)
    requires s.Crash? && Effects(d, s) != [] ==> !Queues(Effects(d, s)[|Effects(d, s)| - 1])
    requires var at := QueuedAt(Effects(d, s)); at.Some? ==> last < at.value
    ensures var after := Run(d, Effects(d, s)); Lined(after, LastOf(last, QueuedAt(Effects(d, s)))) && RowsSaved(after)
  {
    if !s.Restart? {
      var p := Effects(d, s);
      ProgramsAreOrdinary(d, s.call);
      if Fails(d, s.call) {
        FailedSendKeepsLine(d, s.call, p, last);
      } else {
        OthersQueueNothing(d, s.call);
        QueuedAtIs(p, |p|);
        OtherEffectsKeepLine(d, p, last);
      }
    }
  }

  lemma {:induction false} FailedSendKeepsLine(d: Device, call: Call, p: seq<Effect>, last: int)
    requires Lined(d, last) && RowsSaved(d) && Fails(d, call) && AllOrdinary(Program(d, call))
    requires |p| <= |Program(d, call)| && p == Program(d, call)[..|p|]
    requires p == Program(d, call) || p == [] || !Queues(p[|p| - 1])
    requires var at := QueuedAt(p); at.Some? ==> last < at.value
    ensures Lined(Run(d, p), LastOf(last, QueuedAt(p))) && RowsSaved(Run(d, p))
  {
    var all := Program(d, call);
    var n := |all| - 2;
    FailedSendSplits(d, call.c, call.body, call.posts, call.localId, call.at, call.queuedAt);
    if |p| <= n {
      QueuedAtIs(p, |p|);
      OtherEffectsKeepLine(d, p, last);
    } else {
      assert |p| == n + 2 && p == all;
      QueuedAtIs(p, n);
      OtherEffectsKeepLine(d, p[..n], last);
      QueueThenSave(d, p, n, last);
    }
  }

  lemma {:induction false} QueueThenSave(d: Device, p: seq<Effect>, n: nat, last: int)
    requires |p| == n + 2 && p[n + 1] == Persist && Queues(p[n]) && Lined(Run(d, p[..n]), last)
    requires last < p[n].stmt.queued.at
    requires var b, s := p[n].stmt.queued.blob, Run(d, p[..n]).mls;
             BelowCounter(s, b) && b.generation + 1 == s.groups[b.group].next
    ensures Lined(Run(d, p), p[n].stmt.queued.at) && RowsSaved(Run(d, p))
  {
    var mid := Run(d, p[..n]);
    assert p == (p[..n] + [p[n]]) + [p[n + 1]];
    RunSnoc(d, p[..n], p[n]);
    RunSnoc(d, p[..n] + [p[n]], p[n + 1]);
    QueueingKeepsLine(mid, p[n], last);
    OtherEffectKeepsLine(Apply(mid, p[n]), p[n + 1], p[n].stmt.queued.at);
  }

  lemma {:induction false} ReopeningKeepsLine(d: Device, now: u64, last: int)
    requires Lined(d, last) && RowsSaved(d)
    ensures Lined(Reopen(d, now), last) && RowsSaved(Reopen(d, now))
  {
    if CanOpen(d.db) {
      PurgedIs(d.db, now);
      FewerRowsKeepLine(d, Reopen(d, now), last);
    }
  }

  /** Memory is the saved snapshot, and some of the rows are left. */
  lemma {:induction false} FewerRowsKeepLine(d: Device, r: Device, last: int)
    requires Lined(d, last) && RowsSaved(d) && r.db.mls == d.db.mls == Some(r.mls)
    requires forall id :: id in r.db.outbox ==> id in d.db.outbox && r.db.outbox[id] == d.db.outbox[id]
    ensures Lined(r, last) && RowsSaved(r)
  {
    forall p, q | p in r.db.outbox && q in r.db.outbox && Earlier(r.db.outbox, p, q)
      ensures r.db.outbox[p].at < r.db.outbox[q].at
    {
      assert Earlier(d.db.outbox, p, q);
    }
  }

  lemma {:induction false} SessionKeepsLine(d: Device, steps: seq<Step>, last: int) returns (end: int)
    requires Lined(d, last) && RowsSaved(d)
    requires FailedSendsTick(d, steps, last) && NeverCutAfterQueueing(d, steps)
    ensures Lined(AfterSteps(d, steps), end)
    decreases |steps|
  {
    end := last;
    if steps != [] {
      var p := Effects(d, steps[0]);
      var next := LastOf(last, QueuedAt(p));
      EffectsKeepLine(d, steps[0], last);
      if !steps[0].Do? {
        ReopeningKeepsLine(Run(d, p), steps[0].now, next);
      }
      end := SessionKeepsLine(AfterStep(d, steps[0]), steps[1..], next);
    }
  }

  /**
   From first run, over every session of calls, restarts and crashes, the last anywhere but between queueing
   a ciphertext and saving: if the clock moves on from each failed send to the next, every flush posts each
   conversation's ciphertexts in generation order.
  */
  lemma {:induction false} StrictTimesGiveGenerationOrder(d: Device, steps: seq<Step>)
    requires New(d) && FailedSendsTick(d, steps, -TWO_63 - 1) && NeverCutAfterQueueing(d, steps)
    ensures var db := AfterSteps(d, steps).db; InGenerationOrder(db.outbox, QueuedOrder(db))
  {
    var end := SessionKeepsLine(d, steps, -TWO_63 - 1);
    LaterRowsArePostedLater(AfterSteps(d, steps).db);
  }

  // ---- When the clock does not move on --------------------------------------------

  /** What one failed send leaves. */
  lemma {:induction false} FailedSendLeaves(d: Device, c: Ident, body: string, posts: seq<PostReply>, localId: Ident,
      at: u64, queuedAt: u64)
    requires CanSend(d, c) && c in d.db.conversations && !FirstReply(AfterFlush(|QueuedOrder(d.db)|, posts)).Accepted?
    ensures var after := Run(d, SendProgram(d, c, body, posts, localId, at, queuedAt));
            var error := FirstReply(AfterFlush(|QueuedOrder(d.db)|, posts)).error;
            && after.mls == Advanced(d.mls, c) && after.live == d.live && after.db.conversations == d.db.conversations
            && var q := Queued(c, d.live[c].inbox, Ciphertext(d.mls, c, Text(body)), AsI64(queuedAt), 1, Some(error));
               after.db.outbox == BoxAfter(d.db.outbox, QueuedOrder(d.db), posts)[localId := q]
  {
    var flushed := Run(d, Flush(d.db, posts));
    var reply := FirstReply(AfterFlush(|QueuedOrder(d.db)|, posts));
    SendRuns(d, c, body, posts, localId, at, queuedAt);
    FlushRuns(d, d.db.outbox, QueuedOrder(d.db), posts);
    OwnPostRuns(flushed, c, body, reply, localId, at, queuedAt);
    var advanced := flushed.(mls := Advanced(flushed.mls, c));
    RecordRuns(advanced, c, flushed.live[c].inbox, body, Ciphertext(flushed.mls, c, Text(body)), reply, localId, at,
               queuedAt);
  }

  /** What a flush leaves waiting was waiting before, at the same place in the order. */
  lemma {:induction false} FlushedRows(table: map<Ident, Queued>, order: seq<Ident>, posts: seq<PostReply>)
    ensures var left := BoxAfter(table, order, posts);
            forall id :: id in left ==> id in table && left[id].blob == table[id].blob && left[id].at == table[id].at
    decreases |order|
  {
    if order != [] && FirstReply(posts).Accepted? {
      FlushedRows(table - {order[0]}, order[1..], RestReplies(posts));
    }
  }

  /** A table with one more row, and how the others sort beside it. */
  ghost predicate OneMoreRow(before: map<Ident, Queued>, after: map<Ident, Queued>, id: Ident) {
    && id !in before && id in after
    && forall p :: p in after && p != id ==>
         p in before && after[p].blob == before[p].blob && after[p].at == before[p].at
  }

  /**
   Every other row of its conversation sorts before the new row if its generation is earlier, and after it if later.
  */
  ghost predicate SortsByGeneration(box: map<Ident, Queued>, id: Ident)
    requires id in box
  {
    forall p :: p in box ==>
      (Earlier(box, p, id) ==> Precedes(Times(box), p, id)) && (Earlier(box, id, p) ==> Precedes(Times(box), id, p))
  }

  lemma {:induction false} OneMoreRowDecides(before: map<Ident, Queued>, after: map<Ident, Queued>, id: Ident)
    requires TimesFollowGenerations(before) && OneMoreRow(before, after, id)
    ensures TimesFollowGenerations(after) <==> SortsByGeneration(after, id)
  {
    if SortsByGeneration(after, id) {
      forall p, q | p in after && q in after && Earlier(after, p, q) ensures Precedes(Times(after), p, q) {
        if p != id && q != id {
          assert Earlier(before, p, q);
          assert Precedes(Times(before), p, q);
        }
      }
    }
  }

  /** After a failed send: the flushed outbox, and the new row with the ciphertext of the next generation. */
  lemma {:induction false} FailedSendRows(d: Device, call: Call)
    requires Fails(d, call) && call.c in d.db.conversations && call.localId !in d.db.outbox
    ensures var box := Run(d, Program(d, call)).db.outbox;
            && OneMoreRow(d.db.outbox, box, call.localId)
            && box[call.localId].blob == Ciphertext(d.mls, call.c, Text(call.body))
            && box[call.localId].at == AsI64(call.queuedAt)
  {
    FailedSendLeaves(d, call.c, call.body, call.posts, call.localId, call.at, call.queuedAt);
    FlushedRows(d.db.outbox, QueuedOrder(d.db), call.posts);
  }

  /**
   One failed send on any outbox that was in order: it stays in order if and only if every row of the
   conversation still waiting sorts on its own side of the new one.
  */
  lemma {:induction false} FailedSendKeepsOrderExactly(d: Device, call: Call)
    requires Fails(d, call) && call.c in d.db.conversations && call.localId !in d.db.outbox
    requires InGenerationOrder(d.db.outbox, QueuedOrder(d.db))
    ensures var after := Run(d, Program(d, call)).db;
            && call.localId in after.outbox
            && (InGenerationOrder(after.outbox, QueuedOrder(after)) <==> SortsByGeneration(after.outbox, call.localId))
  {
    var after := Run(d, Program(d, call)).db;
    FailedSendRows(d, call);
    PostedInGenerationOrder(d.db);
    PostedInGenerationOrder(after);
    OneMoreRowDecides(d.db.outbox, after.outbox, call.localId);
  }

  predicate BelongsTo(q: Queued, c: Ident) {
    q.blob.Application? && q.blob.group == c
  }

  /** A row of this conversation that waits beside the new one and does not sort before it. */
  predicate SortsAfter(box: map<Ident, Queued>, c: Ident, p: Ident, id: Ident)
    requires p in box && id in box
  {
    && p != id && BelongsTo(box[p], c)
    && (box[id].at < box[p].at || (box[id].at == box[p].at && !Leq(p, id)))
  }

  /**
   While no counter has gone back, the new ciphertext is the latest of its conversation: a failed send puts it
   before an earlier one if and only if some row of the conversation still waiting was queued later by the
   clock, or in the same second under an identifier that sorts after the new random one.
  */
  lemma {:induction false} SameSecondCanReorder(d: Device, call: Call)
    requires Fails(d, call) && call.c in d.db.conversations && call.localId !in d.db.outbox
    requires InGenerationOrder(d.db.outbox, QueuedOrder(d.db))
    requires forall p :: p in d.db.outbox && BelongsTo(d.db.outbox[p], call.c) ==>
               BelowCounter(d.mls, d.db.outbox[p].blob)
    ensures var after := Run(d, Program(d, call)).db;
            && call.localId in after.outbox
            && (!InGenerationOrder(after.outbox, QueuedOrder(after))
                <==> exists p :: p in after.outbox && SortsAfter(after.outbox, call.c, p, call.localId))
  {
    var box := Run(d, Program(d, call)).db.outbox;
    FailedSendKeepsOrderExactly(d, call);
    FailedSendRows(d, call);
    LatestDecides(d.db.outbox, box, call.c, call.localId);
  }

  lemma {:induction false} LatestDecides(before: map<Ident, Queued>, box: map<Ident, Queued>, c: Ident, id: Ident)
    requires OneMoreRow(before, box, id) && BelongsTo(box[id], c)
    requires forall p :: p in before && BelongsTo(before[p], c) ==> before[p].blob.generation < box[id].blob.generation
    ensures SortsByGeneration(box, id) <==> !exists p :: p in box && SortsAfter(box, c, p, id)
  {
    forall p | p in box && p != id && BelongsTo(box[p], c)
      ensures Earlier(box, p, id) && !Earlier(box, id, p)
      ensures (Precedes(Times(box), p, id) <==> !SortsAfter(box, c, p, id))
    {
      assert before[p].blob.generation < box[id].blob.generation;
    }
    if p :| p in box && SortsAfter(box, c, p, id) {
      assert Earlier(box, p, id) && !Precedes(Times(box), p, id);
    }
  }

  // ---- Cut between queueing and saving ----------------------------------------------

  /** A failed send, cut off after its ciphertext was queued and before the ratchets were saved. */
  function CutAfterQueueing(d: Device, call: Call): Device {
    var p := Program(d, call);
    Run(d, if |p| > 0 then p[..|p| - 1] else p)
  }

  /** All but the save: the tables a failed send leaves, with the snapshot of before. */
  lemma {:induction false} CutLeaves(d: Device, call: Call)
    requires Fails(d, call)
    ensures var cut, done := CutAfterQueueing(d, call), Run(d, Program(d, call));
            cut.db == done.db.(mls := d.db.mls) && cut.identity == d.identity
  {
    var p := Program(d, call);
    var n := |p| - 2;
    FailedSendSplits(d, call.c, call.body, call.posts, call.localId, call.at, call.queuedAt);
    ProgramsAreOrdinary(d, call);
    assert p == p[..n + 1] + [p[n + 1]];
    RunSnoc(d, p[..n + 1], p[n + 1]);
    Repoll.SameIdentity(d, p[..n + 1]);
    SendSavesLast(d, call);
    Restarts.SnapshotUntouched(d, p[..n + 1]);
  }

  lemma {:induction false} SendSavesLast(d: Device, call: Call)
    requires Fails(d, call)
    ensures var p := Program(d, call); forall i :: 0 <= i < |p| - 1 ==> !p[i].Persist?
  {
    FlushSavesNothing(d.db.outbox, QueuedOrder(d.db), call.posts);
  }

  lemma {:induction false} FlushSavesNothing(box: map<Ident, Queued>, order: seq<Ident>, posts: seq<PostReply>)
    requires forall i :: 0 <= i < |order| ==> order[i] in box
    ensures forall i :: 0 <= i < |FlushProgram(box, order, posts)| ==> !FlushProgram(box, order, posts)[i].Persist?
    decreases |order|
  {
    if order != [] && FirstReply(posts).Accepted? {
      FlushSavesNothing(box, order[1..], RestReplies(posts));
    }
  }

  /**
   Reopened after that cut: the saved counters, and the rows of before beside the one just queued, less what
   retention took.
  */
  lemma {:induction false} ReopenedAfterCut(d: Device, call: Call, now: u64)
    requires Restarts.Steady(d) && Fails(d, call) && call.localId !in d.db.outbox
    ensures var r := Reopen(CutAfterQueueing(d, call), now);
            && CanSend(r, call.c) && call.c in r.db.conversations && r.mls == d.db.mls.value
            && (forall p :: p in r.db.outbox && p != call.localId ==>
                  p in d.db.outbox && r.db.outbox[p].blob == d.db.outbox[p].blob
                  && r.db.outbox[p].at == d.db.outbox[p].at)
            && (call.localId in r.db.outbox ==>
                  && r.db.outbox[call.localId].blob == Ciphertext(d.mls, call.c, Text(call.body))
                  && r.db.outbox[call.localId].at == AsI64(call.queuedAt))
  {
    var cut := CutAfterQueueing(d, call);
    CutLeaves(d, call);
    FailedSendRows(d, call);
    FailedSendLeaves(d, call.c, call.body, call.posts, call.localId, call.at, call.queuedAt);
    Restarts.SendSteady(d, call.c, call.body, call.posts, call.localId, call.at, call.queuedAt);
    ReopenedRows(Run(d, Program(d, call)), cut, call.c, now);
  }

  lemma {:induction false} ReopenedRows(done: Device, cut: Device, c: Ident, now: u64)
    requires Restarts.Steady(done) && cut.db.mls.Some? && cut.db == done.db.(mls := cut.db.mls)
    requires cut.db.mls.value.me == done.mls.me && c in done.db.conversations && c in cut.db.mls.value.groups
    ensures var r := Reopen(cut, now);
            && CanSend(r, c) && c in r.db.conversations && r.mls == cut.db.mls.value
            && forall p :: p in r.db.outbox ==> p in done.db.outbox && r.db.outbox[p] == done.db.outbox[p]
  {
    PurgedIs(cut.db, now);
    Repoll.ReloadedKeys(Purged(cut.db, now), cut.db.mls.value);
  }

  /** The row a cut left behind, and a further failed send, later than everything waiting. */
  lemma {:induction false} FurtherFailure(r: Device, call: Call, first: Ident)
    requires Fails(r, call) && call.c in r.db.conversations && call.localId !in r.db.outbox && first != call.localId
    requires InGenerationOrder(r.db.outbox, QueuedOrder(r.db))
    requires forall p :: p in r.db.outbox ==> r.db.outbox[p].at < AsI64(call.queuedAt)
    requires forall p :: p in r.db.outbox && p != first && BelongsTo(r.db.outbox[p], call.c) ==>
               r.db.outbox[p].blob.generation < r.mls.groups[call.c].next
    requires first in r.db.outbox ==> BelongsTo(r.db.outbox[first], call.c)
    ensures var db := Run(r, Program(r, call)).db;
            !InGenerationOrder(db.outbox, QueuedOrder(db))
            <==> first in db.outbox && first in r.db.outbox
                 && r.mls.groups[call.c].next < r.db.outbox[first].blob.generation
  {
    var box := Run(r, Program(r, call)).db.outbox;
    FailedSendKeepsOrderExactly(r, call);
    FailedSendRows(r, call);
    if first in box && r.mls.groups[call.c].next < box[first].blob.generation {
      assert Earlier(box, call.localId, first) && !Precedes(Times(box), call.localId, first);
    }
  }

  /**
   The one crash point the theorem leaves out, on any outbox it covers. Reopened, and failing to send once more
   and later by the clock, the device posts out of generation order if and only if the saved counter trailed the
   one in memory and the row that was being queued still waits.
  */
  lemma {:induction false} CutAfterQueueingCanReorder(d: Device, last: int, call: Call, now: u64, next: Call)
    requires Restarts.Steady(d) && Lined(d, last) && RowsSaved(d)
    requires Fails(d, call) && call.localId !in d.db.outbox && next.SendMessage?
    requires last < AsI64(call.queuedAt) < AsI64(next.queuedAt)
    requires var r := Reopen(CutAfterQueueing(d, call), now);
             Fails(r, next) && next.c == call.c && next.localId !in r.db.outbox && next.localId != call.localId
    ensures var r := Reopen(CutAfterQueueing(d, call), now);
            var db := Run(r, Program(r, next)).db;
            !InGenerationOrder(db.outbox, QueuedOrder(db))
            <==> call.localId in db.outbox && d.db.mls.value.groups[call.c].next < d.mls.groups[call.c].next
  {
    ReopenedAfterCut(d, call, now);
    FailingAgain(d, last, call, Reopen(CutAfterQueueing(d, call), now), next);
  }

  lemma {:induction false} FailingAgain(d: Device, last: int, call: Call, r: Device, next: Call)
    requires Lined(d, last) && RowsSaved(d) && r.mls == d.db.mls.value && Fails(d, call)
    requires next.SendMessage? && last < AsI64(call.queuedAt) < AsI64(next.queuedAt)
    requires Fails(r, next) && next.c == call.c && next.localId !in r.db.outbox && next.localId != call.localId
    requires next.c in r.db.conversations
    requires forall p :: p in r.db.outbox && p != call.localId ==>
               p in d.db.outbox && r.db.outbox[p].blob == d.db.outbox[p].blob && r.db.outbox[p].at == d.db.outbox[p].at
    requires call.localId in r.db.outbox ==>
               && r.db.outbox[call.localId].blob == Ciphertext(d.mls, call.c, Text(call.body))
               && r.db.outbox[call.localId].at == AsI64(call.queuedAt)
    ensures var db := Run(r, Program(r, next)).db;
            !InGenerationOrder(db.outbox, QueuedOrder(db))
            <==> call.localId in db.outbox && r.mls.groups[call.c].next < d.mls.groups[call.c].next
  {
    StillTimed(d, last, r.db, call);
    FurtherFailure(r, next, call.localId);
    FailedSendRows(r, next);
  }

  /** The row left behind is later, by generation and by time, than the rows it was queued behind. */
  lemma {:induction false} StillTimed(d: Device, last: int, db: Db, call: Call)
    requires Lined(d, last) && call.SendMessage? && call.c in d.mls.groups && last < AsI64(call.queuedAt)
    requires forall p :: p in db.outbox && p != call.localId ==>
               p in d.db.outbox && db.outbox[p].blob == d.db.outbox[p].blob && db.outbox[p].at == d.db.outbox[p].at
    requires call.localId in db.outbox ==>
               && db.outbox[call.localId].blob == Ciphertext(d.mls, call.c, Text(call.body))
               && db.outbox[call.localId].at == AsI64(call.queuedAt)
    ensures InGenerationOrder(db.outbox, QueuedOrder(db))
  {
    forall p, q | p in db.outbox && q in db.outbox && Earlier(db.outbox, p, q)
      ensures db.outbox[p].at < db.outbox[q].at
    {
      if p != call.localId && q != call.localId {
        assert Earlier(d.db.outbox, p, q);
      }
    }
    LaterRowsArePostedLater(db);
  }

  /**
   Adding a contact leaves the saved counter of its conversation trailing exactly when the introduction alone was
   not accepted.
  */
  lemma {:induction false} UnacceptedIntroductionTrails(d: Device, name: string, invite: Invite, group: Ident,
      posts: seq<PostReply>)
    requires d.db.mls.Some? && group !in d.mls.groups && group !in d.db.mls.value.groups
    ensures var after := Run(d, AddContactProgram(d, name, invite, group, posts));
            && group in after.mls.groups && after.db.mls.Some?
            && (group in after.db.mls.value.groups
                && after.db.mls.value.groups[group].next < after.mls.groups[group].next
                <==> FirstReply(posts).Accepted? && !FirstReply(RestReplies(posts)).Accepted?)
  {
    AddContactRuns(d, name, invite, group, posts);
    if FirstReply(posts).Accepted? {
      IntroducingMoves(OpenedContact(d, name, invite, group, true), group,
                       Hello(d.identity.inbox, d.identity.displayName), FirstReply(RestReplies(posts)));
    }
  }

  lemma {:induction false} IntroducingMoves(d: Device, c: Ident, hello: Payload, reply: PostReply)
    requires CanSend(d, c) && d.db.mls == Some(d.mls)
    ensures var after := Run(d, PayloadProgram(d, c, hello, reply));
            && c in after.mls.groups && after.db.mls.Some? && c in after.db.mls.value.groups
            && (after.db.mls.value.groups[c].next < after.mls.groups[c].next <==> !reply.Accepted?)
  {
    PayloadRuns(d, c, hello, reply);
  }
}
