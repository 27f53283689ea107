/**
 What a restart finds: the tables stay consistent at every crash point of every call, and every live
 conversation comes back with its contact's current address and key.
*/
module Restarts {
  import opened Basics
  import opened Mls
  import opened Tables
  import opened Client
  import opened Calls
  import opened OutboxRules
  import StoreRules

  /** The disk can be opened and its references hold. */
  ghost predicate DiskOk(d: Device) {
    && Integrity(d.db)
    && d.db.identity == Some(d.identity) && d.identity.signerPublic == d.mls.me
    && d.db.mls.Some? && d.db.mls.value.me == d.mls.me
  }

  /** A live conversation has its row, its group in memory, and its group in the saved snapshot. */
  ghost predicate LiveOk(d: Device) {
    && d.db.mls.Some?
    && forall c :: c in d.live ==> c in d.db.conversations && c in d.mls.groups && c in d.db.mls.value.groups
  }

  ghost predicate Steady(d: Device) {
    DiskOk(d) && LiveOk(d)
  }

  lemma {:induction false} StatementKeepsDisk(db: Db, s: Stmt)
    requires Integrity(db) && !s.Clear? && !s.PutIdentity? && !s.PutMlsState?
    ensures var after := Exec(db, s);
            && Integrity(after) && after.identity == db.identity && after.mls == db.mls
            && forall c :: c in db.conversations ==> c in after.conversations
  {
    StoreRules.IntegrityStep(db, s);
  }

  /** Only a save writes the snapshot. */
  lemma {:induction false} EffectKeepsSnapshot(d: Device, e: Effect)
    requires Ordinary(e) && !e.Persist?
    ensures Apply(d, e).db.mls == d.db.mls
  {
    MemoryKeepsGroups(d, e);
    if e.Sql? {
      OrdinaryStatementKeepsSnapshot(d.db, e.stmt);
    }
  }

  lemma {:induction false} OrdinaryStatementKeepsSnapshot(db: Db, s: Stmt)
    requires !s.Clear? && !s.PutIdentity? && !s.PutMlsState?
    ensures Exec(db, s).mls == db.mls
  {
  }

  lemma {:induction false} SnapshotUntouched(d: Device, p: seq<Effect>)
    requires AllOrdinary(p) && forall i :: 0 <= i < |p| ==> !p[i].Persist?
    ensures Run(d, p).db.mls == d.db.mls
    decreases |p|
  {
    if p != [] {
      assert Ordinary(p[0]) && !p[0].Persist?;
      EffectKeepsSnapshot(d, p[0]);
      SnapshotUntouched(Apply(d, p[0]), p[1..]);
    }
  }

  lemma {:induction false} MemoryKeepsGroups(d: Device, e: Effect)
    ensures Apply(d, e).mls.me == d.mls.me && Apply(d, e).identity == d.identity
    ensures forall c :: c in d.mls.groups ==> c in Apply(d, e).mls.groups
    ensures !e.Sql? && !e.Persist? ==> Apply(d, e).db == d.db
    ensures !e.SetPeer? && !e.ClearLive? ==> Apply(d, e).live == d.live
  {
  }

  lemma {:induction false} DiskStep(d: Device, e: Effect)
    requires DiskOk(d) && Ordinary(e)
    ensures DiskOk(Apply(d, e))
  {
    MemoryKeepsGroups(d, e);
    if e.Sql? {
      StatementKeepsDisk(d.db, e.stmt);
    }
  }

  /** At every crash point of every call the disk is fit to open. */
  lemma {:induction false} DiskKept(d: Device, p: seq<Effect>)
    requires DiskOk(d) && AllOrdinary(p)
    ensures DiskOk(Run(d, p))
    decreases |p|
  {
    if p != [] {
      assert Ordinary(p[0]);
      DiskStep(d, p[0]);
      DiskKept(Apply(d, p[0]), p[1..]);
    }
  }

  lemma {:induction false} LiveStep(d: Device, e: Effect)
    requires Steady(d) && Ordinary(e) && (e.SetPeer? ==> e.c in d.live)
    ensures Steady(Apply(d, e))
    ensures forall c :: c in d.live ==> c in Apply(d, e).live
  {
    DiskStep(d, e);
    MemoryKeepsGroups(d, e);
    if e.Sql? {
      StatementKeepsDisk(d.db, e.stmt);
    }
  }

  /** No conversation is opened that was not open before. */
  predicate OpensNone(live: set<Ident>, p: seq<Effect>) {
    forall i :: 0 <= i < |p| ==> Ordinary(p[i]) && (p[i].SetPeer? ==> p[i].c in live)
  }

  lemma {:induction false} LiveKept(d: Device, live: set<Ident>, p: seq<Effect>)
    requires Steady(d) && OpensNone(live, p) && live <= d.live.Keys
    ensures Steady(Run(d, p)) && d.live.Keys <= Run(d, p).live.Keys
    decreases |p|
  {
    if p != [] {
      assert Ordinary(p[0]);
      LiveStep(d, p[0]);
      LiveKept(Apply(d, p[0]), live, p[1..]);
    }
  }

  /** Registering a conversation and then saving makes it safe to have it live. */
  lemma {:induction false} OpeningIsSafe(d: Device, setup: seq<Effect>, c: Ident, to: Peer)
    requires Steady(d) && OpensNone(d.live.Keys, setup)
    requires c in Run(d, setup).db.conversations && c in Run(d, setup).mls.groups
    ensures var p := setup + [SetPeer(c, to), Persist];
            && Steady(Run(d, p)) && Run(d, p).mls == Run(d, setup).mls
            && Run(d, p).live == Run(d, setup).live[c := to] && d.live.Keys <= Run(d, p).live.Keys
  {
    var mid := Run(d, setup);
    LiveKept(d, d.live.Keys, setup);
    RunConcat(d, setup, [SetPeer(c, to), Persist]);
    TwoSteps(mid, SetPeer(c, to), Persist);
    OpenThenSave(mid, c, to);
  }

  lemma {:induction false} OpenThenSave(d: Device, c: Ident, to: Peer)
    requires Steady(d) && c in d.db.conversations && c in d.mls.groups
    ensures var after := Apply(Apply(d, SetPeer(c, to)), Persist);
            Steady(after) && after.mls == d.mls && after.live == d.live[c := to]
  {
    DiskStep(d, SetPeer(c, to));
    DiskStep(Apply(d, SetPeer(c, to)), Persist);
  }

  lemma {:induction false} ThreeSteps(d: Device, a: Effect, b: Effect, e: Effect)
    ensures Run(d, [a, b, e]) == Apply(Apply(Apply(d, a), b), e)
  {
    assert [a, b, e] == [a, b] + [e];
    RunSnoc(d, [a, b], e);
    TwoSteps(d, a, b);
  }

  /** Joining one conversation: what it adds. */
  lemma {:induction false} JoinSteady(d: Device, blob: Blob)
    requires Steady(d)
    ensures var after := Run(d, JoinProgram(d.mls, blob));
            Steady(after) && after.mls == MlsAfter(d.mls, blob) && d.live.Keys <= after.live.Keys
  {
    if CanJoin(d.mls, blob) {
      var key := PeerCredential(d.mls, blob);
      var setup := [Join(blob), Sql(InsertContact(Hex(key), Contact("", [], key, false))),
                    Sql(PutConversation(blob.group, Hex(key)))];
      ThreeSteps(d, setup[0], setup[1], setup[2]);
      OpeningIsSafe(d, setup, blob.group, Peer([], key));
      assert JoinProgram(d.mls, blob) == setup + [SetPeer(blob.group, Peer([], key)), Persist];
    }
  }

  lemma {:induction false} JoinsSteady(d: Device, batch: seq<Mail>)
    requires Steady(d)
    ensures Steady(Run(d, JoinAllProgram(d.mls, batch)))
    ensures Run(d, JoinAllProgram(d.mls, batch)).mls == MlsAfterAll(d.mls, batch)
    decreases |batch|
  {
    if batch != [] {
      var p := JoinProgram(d.mls, batch[0].blob);
      JoinSteady(d, batch[0].blob);
      JoinsSteady(Run(d, p), batch[1..]);
      RunConcat(d, p, JoinAllProgram(MlsAfter(d.mls, batch[0].blob), batch[1..]));
    }
  }

  lemma {:induction false} ReadOpensNone(d: Device, mail: Mail, clock: Clock)
    ensures OpensNone(d.live.Keys, ReadProgram(d, mail, clock))
  {
    ReadTakes(d, mail, clock);
  }

  lemma {:induction false} ReadsSteady(d: Device, todo: seq<Mail>, clock: Clock)
    requires Steady(d)
    ensures Steady(ReadAll(d, todo, clock))
    decreases |todo|
  {
    if todo != [] {
      ReadOpensNone(d, todo[0], clock);
      LiveKept(d, d.live.Keys, ReadProgram(d, todo[0], clock));
      ReadsSteady(ReadOne(d, todo[0], clock), todo[1..], clock);
    }
  }

  lemma {:induction false} TakeInSteady(d: Device, batch: seq<Mail>, clock: Clock)
    requires Steady(d)
    ensures Steady(TakeIn(d, batch, clock))
  {
    var joins := JoinAllProgram(d.mls, batch);
    JoinsSteady(d, batch);
    ReadsSteady(Run(d, joins), Unjoined(d.mls, batch), clock);
    RunReadAll(Run(d, joins), Unjoined(d.mls, batch), clock);
    RunConcat(d, joins, ReadAllProgram(Run(d, joins), Unjoined(d.mls, batch), clock));
  }

  lemma {:induction false} BatchSteady(d: Device, batch: seq<Mail>, clock: Clock, ack: AckReply, now: u64)
    requires Steady(d)
    ensures Steady(Run(d, BatchProgram(d, batch, clock, ack, now)))
  {
    var takeIn := TakeInProgram(d, batch, clock);
    var settle := SettleProgram(TakeIn(d, batch, clock).db, HandledIds(d, batch, clock), ack, now);
    TakeInSteady(d, batch, clock);
    SettleSettles(TakeIn(d, batch, clock).db, HandledIds(d, batch, clock), ack, now);
    LiveKept(Run(d, takeIn), {}, settle);
    RunConcat(d, takeIn, settle);
  }

  lemma {:induction false} ReceiveSteady(d: Device, posts: seq<PostReply>, batch: Option<seq<Mail>>, clock: Clock,
      ack: AckReply, now: u64)
    requires Steady(d)
    ensures Steady(Run(d, ReceiveProgram(d, posts, batch, clock, ack, now)))
  {
    var flush := Flush(d.db, posts);
    FlushSteady(d, posts);
    if batch.None? {
      assert flush + [] == flush;
    } else {
      BatchSteady(Run(d, flush), batch.value, clock, ack, now);
      RunConcat(d, flush, BatchProgram(Run(d, flush), batch.value, clock, ack, now));
    }
  }

  lemma {:induction false} FlushSteady(d: Device, posts: seq<PostReply>)
    requires Steady(d)
    ensures Steady(Run(d, Flush(d.db, posts)))
  {
    Calls.FlushPosts(d.db.outbox, QueuedOrder(d.db), posts);
    LiveKept(d, {}, Flush(d.db, posts));
  }

  lemma {:induction false} SendSteady(d: Device, c: Ident, body: string, posts: seq<PostReply>, localId: Ident, at: u64,
      queuedAt: u64)
    requires Steady(d)
    ensures Steady(Run(d, SendProgram(d, c, body, posts, localId, at, queuedAt)))
  {
    var flush := Flush(d.db, posts);
    var reply := FirstReply(AfterFlush(|QueuedOrder(d.db)|, posts));
    var own := OwnPostProgram(d, c, body, reply, localId, at, queuedAt);
    FlushSteady(d, posts);
    OwnPostPosts(d, c, body, reply, localId, at, queuedAt);
    LiveKept(Run(d, flush), {}, own);
    RunConcat(d, flush, own);
  }

  lemma {:induction false} AddContactSteady(d: Device, name: string, invite: Invite, group: Ident,
      posts: seq<PostReply>)
    requires Steady(d) && group !in d.mls.groups
    ensures Steady(Run(d, AddContactProgram(d, name, invite, group, posts)))
  {
    var reply := FirstReply(posts);
    var opening := OpenProgram(d.mls.me, name, invite, group, reply);
    var id := Hex(invite.publicKey);
    var setup := opening[..4];
    assert setup[..3] == [setup[0], setup[1], setup[2]];
    ThreeSteps(d, setup[0], setup[1], setup[2]);
    assert setup == setup[..3] + [setup[3]];
    RunSnoc(d, setup[..3], setup[3]);
    assert OpensNone(d.live.Keys, setup);
    if reply.Accepted? {
      OpeningIsSafe(d, setup, group, Peer(invite.inbox, invite.publicKey));
      assert opening == setup + [SetPeer(group, Peer(invite.inbox, invite.publicKey)), Persist];
      var hello := Hello(d.identity.inbox, d.identity.displayName);
      var q := PayloadProgram(Introduced(d, invite, group), group, hello, FirstReply(RestReplies(posts)));
      assert OpensNone({}, q);
      LiveKept(Run(d, opening), {}, q);
      RunConcat(d, opening, q);
    } else {
      LiveKept(d, d.live.Keys, setup);
      assert opening == setup && opening + [] == opening;
    }
  }

  lemma {:induction false} CallSteady(d: Device, call: Call)
    requires Steady(d) && Fresh(d, call)
    ensures Steady(Run(d, Program(d, call))) == true
  {
    match call
    case SendMessage(c, body, posts, localId, at, queuedAt) => SendSteady(d, c, body, posts, localId, at, queuedAt);
    case AddContact(name, invite, group, posts) => AddContactSteady(d, name, invite, group, posts);
    case FlushOutbox(posts) => FlushSteady(d, posts);
    case ReceiveMessages(posts, batch, clock, ack, now) => ReceiveSteady(d, posts, batch, clock, ack, now);
    case _ => UpkeepSteady(d, call);
  }

  lemma {:induction false} UpkeepSteady(d: Device, call: Call)
    requires Steady(d) && !call.SendMessage? && !call.AddContact? && !call.FlushOutbox? && !call.ReceiveMessages?
    ensures Steady(Run(d, Program(d, call)))
  {
    UpkeepUpkeeps(d, call);
    LiveKept(d, {}, Program(d, call));
  }

  lemma {:induction false} PurgedKeeps(db: Db, now: u64)
    requires Integrity(db)
    ensures var after := Purged(db, now);
            Integrity(after) && after.identity == db.identity && after.mls == db.mls
            && after.contacts == db.contacts && after.conversations == db.conversations
  {
  }

  lemma {:induction false} ReopenSteady(d: Device, now: u64)
    requires DiskOk(d)
    ensures CanOpen(d.db) && Steady(Reopen(d, now))
  {
    PurgedKeeps(d.db, now);
  }

  lemma {:induction false} StepSteady(d: Device, s: Step)
    requires Steady(d) && (!s.Restart? ==> Fresh(d, s.call))
    ensures Steady(AfterStep(d, s))
  {
    match s
    case Do(call) => CallSteady(d, call);
    case Restart(now) => ReopenSteady(d, now);
    case Crash(call, k, now) =>
      ProgramsAreOrdinary(d, call);
      DiskKept(d, Prefix(Program(d, call), k));
      ReopenSteady(Run(d, Prefix(Program(d, call), k)), now);
  }

  lemma {:induction false} SessionSteady(d: Device, steps: seq<Step>)
    requires Steady(d) && FreshThroughout(d, steps)
    ensures Steady(AfterSteps(d, steps))
    decreases |steps|
  {
    if steps != [] {
      StepSteady(d, steps[0]);
      SessionSteady(AfterStep(d, steps[0]), steps[1..]);
    }
  }

  /**
   After any session, with crashes at any point of any call: every reference in the tables holds, and a
   restart makes live exactly the conversations with a row and a saved group, every conversation that was live
   among them, with its contact's current address and key.
  */
  lemma {:induction false} RestartRebuildsEveryConversation(d: Device, steps: seq<Step>, now: u64)
    requires Steady(d) && FreshThroughout(d, steps)
    ensures var after := AfterSteps(d, steps);
            && Integrity(after.db) && CanOpen(after.db)
            && (forall c ::
                 c in Opened(after.db, now).live <==> c in after.db.conversations && c in after.db.mls.value.groups)
            && forall c :: c in after.live ==>
                 && c in Opened(after.db, now).live && c in after.db.conversations
                 && after.db.conversations[c].contact in after.db.contacts
                 && var contact := after.db.contacts[after.db.conversations[c].contact];
                    Opened(after.db, now).live[c] == Peer(contact.inbox, contact.publicKey)
  {
    SessionSteady(d, steps);
    ReopenSteady(AfterSteps(d, steps), now);
  }

  // ---- First run -----------------------------------------------------------------

  lemma {:induction false} CreateRuns(identity: Identity, mls: State, db: Db, k: nat)
    requires k <= 2
    ensures Run(Starting(identity, mls, db), CreateProgram(identity)[..k]).db
            == if k == 0 then db else if k == 1 then db.(identity := Some(identity))
               else db.(identity := Some(identity), mls := Some(mls))
  {
    var p := CreateProgram(identity);
    assert p[..0] == [] && p[..1] == [p[0]] && p[..2] == [p[0], p[1]];
    RunSnoc(Starting(identity, mls, db), [], p[0]);
    assert [] + [p[0]] == [p[0]];
    TwoSteps(Starting(identity, mls, db), p[0], p[1]);
  }

  /**
   First run cut short between its two effects leaves an identity row without MLS state, as a wipe does after its
   seventh deletion: the client takes the device for a set-up one, and it does not open. At no other point does
   it, and creating an identity once more on those tables would make them open.
  */
  lemma {:induction false} FirstRunCutShort(identity: Identity, mls: State, k: nat, other: Identity, newer: State)
    requires identity.signerPublic == mls.me && other.signerPublic == newer.me && k <= 2
    ensures var cut := Run(Starting(identity, mls, EMPTY), CreateProgram(identity)[..k]).db;
            && (CanOpen(cut) <==> k == 2)
            && (cut.identity.None? <==> k == 0)
            && (cut.identity.Some? && !CanOpen(cut) <==> k == 1)
            && (k == 1 ==> forall db: Db :: db.identity == Some(identity) ==> ExecAll(db, WipeProgram()[..7]) == cut)
            && CanOpen(Run(Starting(other, newer, cut), CreateProgram(other)).db)
  {
    var cut := Run(Starting(identity, mls, EMPTY), CreateProgram(identity)[..k]).db;
    CreateRuns(identity, mls, EMPTY, k);
    CreateRuns(other, newer, cut, 2);
    assert CreateProgram(other)[..2] == CreateProgram(other);
    forall db: Db | k == 1 && db.identity == Some(identity) ensures ExecAll(db, WipeProgram()[..7]) == cut {
      StoreRules.WipePrefix(db, 7);
    }
  }
}
