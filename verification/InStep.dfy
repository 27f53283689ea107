/** Memory and disk in step. */
module InStep {
  // Which calls leave them so, and which conversations only a restart makes live.

  import opened Basics
  import opened Mls
  import opened Tables
  import opened RelayStore
  import opened Client
  import opened Calls
  import opened OutboxRules
  import opened Restarts
  import opened Repoll
  import opened ProgramRuns
  import opened Reading
  import Acknowledging
  import Generations
  import Polls
  import Ratchet

  /** The snapshot on disk is the ratchets in memory. */
  predicate Saved(d: Device) {
    d.db.mls == Some(d.mls)
  }

  /** Conversations with a row and a group that are not live: `reload_conversations` would make them live. */
  function NotLive(d: Device): set<Ident> {
    d.db.conversations.Keys * d.mls.groups.Keys - d.live.Keys
  }

  /** The two ways to be out of step. */
  lemma {:induction false} CurrentIs(d: Device)
    requires Steady(d)
    ensures Current(d) <==> Saved(d) && NotLive(d) == {}
  {
    ReloadedKeys(d.db, d.mls);
    if NotLive(d) == {} {
      forall c ensures c in d.live.Keys <==> c in d.db.conversations.Keys * d.mls.groups.Keys {
        assert c !in NotLive(d);
      }
    }
  }

  // ---- Which conversations are not live ----------------------------------------

  /** Adds no conversation row, no group and no live conversation, and removes none. */
  predicate Keeps(e: Effect) {
    Ordinary(e) && !e.SetPeer? && !e.Join? && !e.Create? && !(e.Sql? && e.stmt.PutConversation?)
  }

  /** The same conversations, groups and live conversations. */
  predicate SameReach(x: Device, y: Device) {
    x.db.conversations.Keys == y.db.conversations.Keys && x.mls.groups.Keys == y.mls.groups.Keys
    && x.live.Keys == y.live.Keys
  }

  lemma {:induction false} StatementKeepsReach(db: Db, s: Stmt)
    requires !s.Clear? && !s.PutConversation?
    ensures Exec(db, s).conversations.Keys == db.conversations.Keys
  {
  }

  lemma {:induction false} KeepsStep(d: Device, e: Effect)
    requires Keeps(e)
    ensures SameReach(d, Apply(d, e))
  {
    if e.Sql? {
      StatementKeepsReach(d.db, e.stmt);
    }
  }

  lemma {:induction false} KeepsAll(d: Device, p: seq<Effect>)
    requires All(p, Keeps)
    ensures SameReach(d, Run(d, p))
    decreases |p|
  {
    if p != [] {
      KeepsStep(d, p[0]);
      KeepsAll(Apply(d, p[0]), p[1..]);
    }
  }

  lemma {:induction false} KindsKeep(p: seq<Effect>)
    ensures All(p, Posting) || All(p, Settling) || All(p, Upkeep) ==> All(p, Keeps)
  {
  }

  /** The conversation a call files without making it live: its Welcome was not accepted. */
  function Filed(call: Call): set<Ident> {
    if call.AddContact? && !FirstReply(call.posts).Accepted? then {call.group} else {}
  }

  lemma {:induction false} FlushKeepsReach(d: Device, posts: seq<PostReply>)
    ensures SameReach(d, Run(d, Flush(d.db, posts)))
  {
    Calls.FlushPosts(d.db.outbox, QueuedOrder(d.db), posts);
    KindsKeep(Flush(d.db, posts));
    KeepsAll(d, Flush(d.db, posts));
  }

  lemma {:induction false} AddContactFiles(d: Device, name: string, invite: Invite, group: Ident, posts: seq<PostReply>)
    requires LiveOk(d) && group !in d.mls.groups && group !in d.db.conversations
    ensures NotLive(Run(d, AddContactProgram(d, name, invite, group, posts)))
            == NotLive(d) + if FirstReply(posts).Accepted? then {} else {group}
  {
    var reply := FirstReply(posts);
    var mid := OpenedContact(d, name, invite, group, reply.Accepted?);
    AddContactRuns(d, name, invite, group, posts);
    OpenedFiles(d, name, invite, group, reply.Accepted?);
    if reply.Accepted? {
      var q := PayloadProgram(mid, group, Hello(d.identity.inbox, d.identity.displayName),
                              FirstReply(RestReplies(posts)));
      assert All(q, Posting);
      KindsKeep(q);
      KeepsAll(mid, q);
    }
  }

  lemma {:induction false} OpenedFiles(d: Device, name: string, invite: Invite, group: Ident, posted: bool)
    requires LiveOk(d) && group !in d.mls.groups && group !in d.db.conversations
    ensures NotLive(OpenedContact(d, name, invite, group, posted)) == NotLive(d) + if posted then {} else {group}
  {
    var mid := OpenedContact(d, name, invite, group, posted);
    assert mid.db.conversations.Keys == d.db.conversations.Keys + {group};
    assert mid.mls.groups.Keys == d.mls.groups.Keys + {group};
    assert mid.live.Keys == if posted then d.live.Keys + {group} else d.live.Keys;
    assert group !in d.live;
  }

  lemma {:induction false} JoinFilesNothing(d: Device, blob: Blob)
    ensures NotLive(Run(d, JoinProgram(d.mls, blob))) == NotLive(d)
  {
    if CanJoin(d.mls, blob) {
      var after := Run(d, JoinProgram(d.mls, blob));
      JoinOutcome(d, blob);
      assert after.db.conversations.Keys == d.db.conversations.Keys + {blob.group};
      assert after.mls.groups.Keys == d.mls.groups.Keys + {blob.group};
      assert after.live.Keys == d.live.Keys + {blob.group};
    }
  }

  lemma {:induction false} JoinsFileNothing(d: Device, batch: seq<Mail>)
    ensures NotLive(Polls.Joined(d, batch)) == NotLive(d)
    decreases |batch|
  {
    if batch != [] {
      JoinFilesNothing(d, batch[0].blob);
      JoinsUnfold(d, batch);
      JoinsFileNothing(Run(d, JoinProgram(d.mls, batch[0].blob)), batch[1..]);
    }
  }

  lemma {:induction false} BatchFilesNothing(d: Device, batch: seq<Mail>, clock: Clock, ack: AckReply, now: u64)
    requires Steady(d)
    ensures NotLive(Run(d, BatchProgram(d, batch, clock, ack, now))) == NotLive(d)
  {
    var mid := Polls.Joined(d, batch);
    var taken := TakeIn(d, batch, clock);
    var settle := SettleProgram(taken.db, HandledIds(d, batch, clock), ack, now);
    JoinsFileNothing(d, batch);
    JoinsSteady(d, batch);
    TakeInRuns(d, batch, clock);
    Acknowledging.ReadsKeepLive(mid, Unjoined(d.mls, batch), clock);
    BatchRuns(d, batch, clock, ack, now);
    SettleSettles(taken.db, HandledIds(d, batch, clock), ack, now);
    KindsKeep(settle);
    KeepsAll(taken, settle);
  }

  lemma {:induction false} ReceiveFilesNothing(d: Device, posts: seq<PostReply>, batch: Option<seq<Mail>>, clock: Clock,
      ack: AckReply, now: u64)
    requires Steady(d)
    ensures NotLive(Run(d, ReceiveProgram(d, posts, batch, clock, ack, now))) == NotLive(d)
  {
    FlushKeepsReach(d, posts);
    ReceiveRuns(d, posts, batch, clock, ack, now);
    if batch.Some? {
      FlushSteady(d, posts);
      BatchFilesNothing(Run(d, Flush(d.db, posts)), batch.value, clock, ack, now);
    }
  }

  /** Only adding a contact whose Welcome is not accepted files a conversation without making it live. */
  lemma {:induction false} CallFiles(d: Device, call: Call)
    requires Steady(d) && Fresh(d, call)
    ensures NotLive(Run(d, Program(d, call))) == NotLive(d) + Filed(call)
  {
    match call
    case SendMessage(c, body, posts, localId, at, queuedAt) =>
      SendPosts(d, c, body, posts, localId, at, queuedAt);
      KindsKeep(Program(d, call));
      KeepsAll(d, Program(d, call));
    case AddContact(name, invite, group, posts) => AddContactFiles(d, name, invite, group, posts);
    case FlushOutbox(posts) => FlushKeepsReach(d, posts);
    case ReceiveMessages(posts, batch, clock, ack, now) => ReceiveFilesNothing(d, posts, batch, clock, ack, now);
    case _ =>
      UpkeepUpkeeps(d, call);
      KindsKeep(Program(d, call));
      KeepsAll(d, Program(d, call));
  }

  // ---- When the snapshot is behind ------------------------------------------------

  /** `t` may have come from `s`: nothing a group has done is undone. */
  ghost predicate Older(s: State, t: State) {
    && s.me == t.me
    && (forall c :: c in s.groups ==> c in t.groups && OlderGroup(s.groups[c], t.groups[c]))
    && (s.groups == t.groups ==> s.keyPackages <= t.keyPackages)
  }

  predicate OlderGroup(a: Group, b: Group) {
    a.peer == b.peer && a.next <= b.next && a.used <= b.used
  }

  lemma {:induction false} OlderBothWays(s: State, t: State)
    requires Older(s, t) && Older(t, s)
    ensures s == t
  {
    forall c | c in s.groups ensures s.groups[c] == t.groups[c] {
      assert OlderGroup(t.groups[c], s.groups[c]);
    }
    assert s.groups.Keys == t.groups.Keys;
    assert s.groups == t.groups;
  }

  lemma {:induction false} OlderChain(s: State, t: State, u: State)
    requires Older(s, t) && Older(t, u)
    ensures Older(s, u)
  {
    if s.groups == u.groups {
      forall c | c in s.groups ensures s.groups[c] == t.groups[c] {
        assert OlderGroup(t.groups[c], u.groups[c]);
      }
      assert s.groups.Keys == t.groups.Keys;
      assert s.groups == t.groups;
    }
  }

  lemma {:induction false} EffectMoves(d: Device, e: Effect)
    ensures Older(d.mls, Apply(d, e).mls)
  {
  }

  /** Whether the ratchets have moved since they were last saved. */
  predicate MovedBy(d: Device, moved: bool, e: Effect) {
    !e.Persist? && (moved || Apply(d, e).mls != d.mls)
  }

  predicate Moved(d: Device, moved: bool, p: seq<Effect>)
    decreases |p|
  {
    if p == [] then moved else Moved(Apply(d, p[0]), MovedBy(d, moved, p[0]), p[1..])
  }

  /** The snapshot is one memory has gone through, and the flag says whether memory has moved on. */
  ghost predicate Trails(d: Device, moved: bool) {
    d.db.mls.Some? && Older(d.db.mls.value, d.mls) && (moved <==> !Saved(d))
  }

  lemma {:induction false} TrailsStep(d: Device, moved: bool, e: Effect)
    requires Trails(d, moved) && Ordinary(e)
    ensures Trails(Apply(d, e), MovedBy(d, moved, e))
  {
    if !e.Persist? {
      EffectMoves(d, e);
      EffectKeepsSnapshot(d, e);
      OlderChain(d.db.mls.value, d.mls, Apply(d, e).mls);
      if d.db.mls.value == Apply(d, e).mls {
        OlderBothWays(d.mls, Apply(d, e).mls);
      }
    }
  }

  /** Memory never comes back to an earlier snapshot: it equals the saved one exactly when it has not moved since. */
  lemma {:induction false} TrailsRun(d: Device, moved: bool, p: seq<Effect>)
    requires Trails(d, moved) && AllOrdinary(p)
    ensures Trails(Run(d, p), Moved(d, moved, p))
    decreases |p|
  {
    if p != [] {
      assert Ordinary(p[0]);
      TrailsStep(d, moved, p[0]);
      TrailsRun(Apply(d, p[0]), MovedBy(d, moved, p[0]), p[1..]);
    }
  }

  // ---- One call -------------------------------------------------------------------

  lemma {:induction false} EndsSaved(d: Device, p: seq<Effect>)
    requires p != [] && p[|p| - 1].Persist?
    ensures Saved(Run(d, p))
  {
    assert p == p[..|p| - 1] + [Persist];
    RunSnoc(d, p[..|p| - 1], Persist);
  }

  /** Nothing of this kind touches the ratchets or the snapshot. */
  predicate OnTables(e: Effect) {
    Ordinary(e) && e.Sql?
  }

  lemma {:induction false} TablesOnly(d: Device, p: seq<Effect>)
    requires All(p, OnTables)
    ensures Run(d, p).mls == d.mls && Run(d, p).db.mls == d.db.mls
    decreases |p|
  {
    if p != [] {
      EffectKeepsSnapshot(d, p[0]);
      TablesOnly(Apply(d, p[0]), p[1..]);
    }
  }

  lemma {:induction false} UpkeepKeepsSaved(d: Device, call: Call)
    requires Saved(d) && !call.SendMessage? && !call.AddContact? && !call.FlushOutbox? && !call.ReceiveMessages?
    ensures Saved(Run(d, Program(d, call)))
  {
    var p := Program(d, call);
    if call.InviteCode? {
      EndsSaved(d, p);
    } else {
      UpkeepUpkeeps(d, call);
      TablesOnly(d, p);
    }
  }

  lemma {:induction false} FlushKeepsSaved(d: Device, posts: seq<PostReply>)
    requires Saved(d)
    ensures Saved(Run(d, Flush(d.db, posts)))
  {
    FlushRuns(d, d.db.outbox, QueuedOrder(d.db), posts);
  }

  lemma {:induction false} SendKeepsSaved(d: Device, c: Ident, body: string, posts: seq<PostReply>, localId: Ident,
      at: u64, queuedAt: u64)
    requires Saved(d)
    ensures Saved(Run(d, SendProgram(d, c, body, posts, localId, at, queuedAt)))
  {
    var p := SendProgram(d, c, body, posts, localId, at, queuedAt);
    if CanSend(d, c) {
      assert p[|p| - 1].Persist?;
      EndsSaved(d, p);
    } else {
      assert p == Flush(d.db, posts);
      FlushKeepsSaved(d, posts);
    }
  }

  /** Both of the posts that adding a contact makes were accepted. */
  predicate BothAccepted(posts: seq<PostReply>) {
    FirstReply(posts).Accepted? && FirstReply(RestReplies(posts)).Accepted?
  }

  lemma {:induction false} AddContactSaves(d: Device, name: string, invite: Invite, group: Ident, posts: seq<PostReply>)
    requires Saved(d) && group !in d.mls.groups
    ensures Saved(Run(d, AddContactProgram(d, name, invite, group, posts))) <==> BothAccepted(posts)
  {
    var reply := FirstReply(posts);
    var mid := OpenedContact(d, name, invite, group, reply.Accepted?);
    AddContactRuns(d, name, invite, group, posts);
    if reply.Accepted? {
      PayloadRuns(mid, group, Hello(d.identity.inbox, d.identity.displayName), FirstReply(RestReplies(posts)));
      assert mid.mls.groups[group].next == 0 && Advanced(mid.mls, group).groups[group].next == 1;
    } else {
      assert group in mid.mls.groups && group !in d.mls.groups;
    }
  }

  /** The acknowledgement succeeded, or nothing was handled, or the second pass had nothing it could open. */
  ghost predicate PollSaves(d: Device, batch: seq<Mail>, clock: Clock, ack: AckReply) {
    || ack.Erased? || HandledIds(d, batch, clock) == []
    || forall m :: m in batch ==> !Opens(Polls.Joined(d, batch), m.blob)
  }

  /** What a caller can tell of a call that leaves the device in step. */
  ghost predicate StaysInStep(d: Device, call: Call) {
    match call
    case AddContact(_, _, _, posts) => BothAccepted(posts)
    case ReceiveMessages(posts, batch, clock, ack, _) =>
      batch.Some? ==> PollSaves(Run(d, Flush(d.db, posts)), batch.value, clock, ack)
    case _ => true
  }

  lemma {:induction false} FlushKeepsCurrent(d: Device, posts: seq<PostReply>)
    requires Current(d)
    ensures Current(Run(d, Flush(d.db, posts)))
  {
    FlushSteady(d, posts);
    FlushKeepsReach(d, posts);
    FlushKeepsSaved(d, posts);
    CurrentIs(d);
    CurrentIs(Run(d, Flush(d.db, posts)));
  }

  lemma {:induction false} CallSaves(d: Device, call: Call)
    requires Current(d) && Fresh(d, call)
    ensures Saved(Run(d, Program(d, call))) <==> StaysInStep(d, call)
  {
    match call
    case SendMessage(c, body, posts, localId, at, queuedAt) => SendKeepsSaved(d, c, body, posts, localId, at, queuedAt);
    case AddContact(name, invite, group, posts) => AddContactSaves(d, name, invite, group, posts);
    case FlushOutbox(posts) => FlushKeepsSaved(d, posts);
    case ReceiveMessages(posts, batch, clock, ack, now) =>
      FlushKeepsCurrent(d, posts);
      ReceiveRuns(d, posts, batch, clock, ack, now);
      if batch.Some? {
        Acknowledging.AnAcknowledgedPollKeepsCurrent(Run(d, Flush(d.db, posts)), batch.value, clock, ack, now);
      }
    case _ => UpkeepKeepsSaved(d, call);
  }

  /**
   From a device in step a call ends in step if and only if, when it adds a contact, Welcome and introduction
   were both accepted, and when it polls, the acknowledgement succeeded, or nothing was handled, or nothing
   could be opened. Every other call ends in step.
  */
  lemma {:induction false} CallKeepsCurrent(d: Device, call: Call)
    requires Current(d) && Fresh(d, call)
    ensures Current(Run(d, Program(d, call))) <==> StaysInStep(d, call)
  {
    CallSteady(d, call);
    CallFiles(d, call);
    CallSaves(d, call);
    CurrentIs(d);
    CurrentIs(Run(d, Program(d, call)));
  }

  // ---- Whole sessions ---------------------------------------------------------------

  /** The conversations filed without going live since the last restart or crash. */
  function FiledIn(filed: set<Ident>, steps: seq<Step>): set<Ident>
    decreases |steps|
  {
    if steps == [] then filed else FiledIn(if steps[0].Do? then filed + Filed(steps[0].call) else {}, steps[1..])
  }

  /** Whether the ratchets have moved since the last save, restart or crash. */
  predicate MovedIn(d: Device, moved: bool, steps: seq<Step>)
    decreases |steps|
  {
    if steps == [] then moved
    else MovedIn(AfterStep(d, steps[0]), steps[0].Do? && Moved(d, moved, Effects(d, steps[0])), steps[1..])
  }

  lemma {:induction false} StepTracks(d: Device, moved: bool, s: Step)
    requires Steady(d) && (!s.Restart? ==> Fresh(d, s.call)) && Trails(d, moved)
    ensures Trails(AfterStep(d, s), s.Do? && Moved(d, moved, Effects(d, s)))
    ensures NotLive(AfterStep(d, s)) == if s.Do? then NotLive(d) + Filed(s.call) else {}
  {
    if s.Do? {
      ProgramsAreOrdinary(d, s.call);
      TrailsRun(d, moved, Effects(d, s));
      CallFiles(d, s.call);
    } else {
      if s.Crash? {
        ProgramsAreOrdinary(d, s.call);
      }
      DiskKept(d, Effects(d, s));
      Acknowledging.ReopenedIsCurrent(Run(d, Effects(d, s)), s.now);
      CurrentIs(AfterStep(d, s));
    }
  }

  lemma {:induction false} SessionTracks(d: Device, moved: bool, steps: seq<Step>)
    requires Steady(d) && FreshThroughout(d, steps) && Trails(d, moved)
    ensures var after := AfterSteps(d, steps);
            && Steady(after) && Trails(after, MovedIn(d, moved, steps))
            && NotLive(after) == FiledIn(NotLive(d), steps)
    decreases |steps|
  {
    if steps != [] {
      StepTracks(d, moved, steps[0]);
      StepSteady(d, steps[0]);
      SessionTracks(AfterStep(d, steps[0]), steps[0].Do? && Moved(d, moved, Effects(d, steps[0])), steps[1..]);
    }
  }

  lemma {:induction false} NewIsCurrent(d: Device)
    requires Generations.New(d)
    ensures Current(d) && NotLive(d) == {} && Trails(d, false)
  {
    assert d.mls.groups.Keys == {};
    assert d.db.conversations == map[] && d.db.contacts == map[];
    assert Reloaded(d.db, d.mls).Keys == {};
  }

  /**
   Over every session from first run, restarts and crashes at any effect included: the device is in step if
   and only if the ratchets have not moved since their last save and, since the last restart, no contact was
   added whose Welcome was not accepted. Those conversations are exactly the ones that have a row and a group
   and are not live.
  */
  lemma {:induction false} SessionInStepExactly(d: Device, steps: seq<Step>)
    requires Generations.New(d) && FreshThroughout(d, steps)
    ensures var after := AfterSteps(d, steps);
            && NotLive(after) == FiledIn({}, steps)
            && (Current(after) <==> !MovedIn(d, false, steps) && FiledIn({}, steps) == {})
  {
    NewIsCurrent(d);
    SessionTracks(d, false, steps);
    CurrentIs(AfterSteps(d, steps));
  }

  /**
   What a restart adds after any session: exactly the conversations filed without going live since the last
   restart whose group a later save has put on disk. It drops none.
  */
  lemma {:induction false} RestartAddsExactly(d: Device, steps: seq<Step>, now: u64)
    requires Generations.New(d) && FreshThroughout(d, steps)
    ensures var after := AfterSteps(d, steps);
            && CanOpen(after.db) && after.live.Keys <= Opened(after.db, now).live.Keys
            && Opened(after.db, now).live.Keys - after.live.Keys == FiledIn({}, steps) * after.db.mls.value.groups.Keys
  {
    var after := AfterSteps(d, steps);
    NewIsCurrent(d);
    SessionTracks(d, false, steps);
    ReopenSteady(after, now);
    RestartAdds(after, now);
  }

  lemma {:induction false} RestartAdds(d: Device, now: u64)
    requires Steady(d) && CanOpen(d.db) && Older(d.db.mls.value, d.mls)
    ensures d.live.Keys <= Opened(d.db, now).live.Keys
    ensures Opened(d.db, now).live.Keys - d.live.Keys == NotLive(d) * d.db.mls.value.groups.Keys
  {
    PurgedKeeps(d.db, now);
    ReloadedKeys(d.db, d.db.mls.value);
    assert d.db.mls.value.groups.Keys <= d.mls.groups.Keys;
  }

  // ---- What being in step is for ------------------------------------------------------

  /**
   Every crash in the passes of every poll, reopened and polled again, ends in the tables of the uninterrupted poll.
  */
  ghost predicate AlwaysRecovers(d: Device) {
    forall batch: seq<Mail>, clock: Clock, again: Clock, k: nat, now: u64
      {:trigger RecoversAt(d, batch, clock, again, k, now)} ::
      k <= |TakeInProgram(d, batch, clock)| ==> RecoversAt(d, batch, clock, again, k, now)
  }

  ghost predicate RecoversAt(d: Device, batch: seq<Mail>, clock: Clock, again: Clock, k: nat, now: u64)
    requires k <= |TakeInProgram(d, batch, clock)|
  {
    Recovers(d, batch, clock, again, Run(d, TakeInProgram(d, batch, clock)[..k]), now)
  }

  /** Of the devices that sessions leave, exactly those in step recover from every crash of every poll. */
  lemma {:induction false} RecoversExactlyInStep(d: Device, now: u64)
    requires Steady(d)
    ensures AlwaysRecovers(d) <==> Current(d)
  {
    if Current(d) {
      forall batch: seq<Mail>, clock: Clock, again: Clock, k: nat, later: u64 | k <= |TakeInProgram(d, batch, clock)|
        ensures RecoversAt(d, batch, clock, again, k, later)
      {
        CrashRecovers(d, batch, clock, again, k, later, Run(d, TakeInProgram(d, batch, clock)[..k]));
      }
    }
    if AlwaysRecovers(d) {
      var clock := Clock(id => 0, id => 0);
      assert RecoversAt(d, [], clock, clock, 0, now);
      NothingToPoll(d, clock);
      NothingToPoll(Reopen(d, now), clock);
      NothingToPoll(Retained(d, now), clock);
      ReopenSteady(d, now);
      PurgedKeeps(d.db, now);
      ReloadedKeys(d.db, d.mls);
      ReloadedKeys(Purged(d.db, now), d.mls);
    }
  }

  lemma {:induction false} NothingToPoll(d: Device, clock: Clock)
    ensures TakeInProgram(d, [], clock) == [] && TakeIn(d, [], clock) == d
  {
  }

  /**
   So every poll made from a session that ended in step is covered, whatever its outbox is flushed to first:
   crashed after any effect and polled again, it ends where the uninterrupted poll does.
  */
  lemma {:induction false} PollsOfASessionRecover(d: Device, steps: seq<Step>, posts: seq<PostReply>, batch: seq<Mail>,
      clock: Clock, again: Clock, k: nat, now: u64)
    requires Generations.New(d) && FreshThroughout(d, steps)
    requires !MovedIn(d, false, steps) && FiledIn({}, steps) == {}
    requires var end := AfterSteps(d, steps); k <= |TakeInProgram(Run(end, Flush(end.db, posts)), batch, clock)|
    ensures var end := AfterSteps(d, steps);
            && Current(Run(end, Flush(end.db, posts))) == true
            && RecoversAt(Run(end, Flush(end.db, posts)), batch, clock, again, k, now) == true
  {
    var end := AfterSteps(d, steps);
    var flushed := Run(end, Flush(end.db, posts));
    SessionInStepExactly(d, steps);
    FlushKeepsCurrent(end, posts);
    CrashRecovers(flushed, batch, clock, again, k, now, Run(flushed, TakeInProgram(flushed, batch, clock)[..k]));
  }

  // ---- A device that is not in step ----------------------------------------------------

  /**
   A text for a conversation that is not live: a poll leaves it alone. The same poll cut short before its first
   effect, and repeated after a restart, stores and acknowledges it.
  */
  lemma {:induction false} NotLiveBreaksRecovery(d: Device, m: Mail, clock: Clock, again: Clock, now: u64)
    requires Steady(d) && Saved(d) && m.id !in d.db.messages
    requires Polls.IsText(m.blob) && m.blob.group in NotLive(d) && CanDecrypt(d.mls, m.blob.group, m.blob)
    ensures m.id !in TakeIn(Retained(d, now), [m], clock).db.messages && HandledIds(Retained(d, now), [m], clock) == []
    ensures m.id in TakeIn(Reopen(d, now), [m], again).db.messages && HandledIds(Reopen(d, now), [m], again) == [m.id]
    ensures RecoversAt(d, [m], clock, again, 0, now) == false
  {
    var r := Reopen(d, now);
    ReopenSteady(d, now);
    PurgedKeeps(d.db, now);
    PurgedIs(d.db, now);
    ReloadedKeys(d.db, d.mls);
    PollOne(Retained(d, now), m, clock);
    PollOne(r, m, again);
    StoresTheText(r, m, again);
    assert TakeInProgram(d, [m], clock)[..0] == [];
    assert SameRow(TakeIn(Retained(d, now), [m], clock).db.messages, TakeIn(r, [m], again).db.messages, m.id) == false;
  }

  lemma {:induction false} StoresTheText(d: Device, m: Mail, clock: Clock)
    requires Sound(d) && Opens(d, m.blob) && Polls.IsText(m.blob)
    ensures m.id in ReadOne(d, m, clock).db.messages
  {
    ReadOneIs(d, m, clock);
  }

  /** An invite is taken up, its Welcome's answer is not received, and then an invite of our own is made and saved. */
  function LostWelcomeThenSave(d: Device, name: string, invite: Invite, group: Ident, posts: seq<PostReply>,
      keyPackage: nat): Device
  {
    Run(Run(d, AddContactProgram(d, name, invite, group, posts)), InviteProgram(keyPackage))
  }

  lemma {:induction false} LostWelcomeThenSaveIs(d: Device, name: string, invite: Invite, group: Ident,
      posts: seq<PostReply>, keyPackage: nat)
    requires group !in d.mls.groups && !FirstReply(posts).Accepted?
    ensures var e := LostWelcomeThenSave(d, name, invite, group, posts, keyPackage);
            && Saved(e) && e.mls.me == d.mls.me && e.db.messages == d.db.messages
            && group in e.mls.groups && e.mls.groups[group] == Group(invite.credential, 0, {})
  {
    AddContactRuns(d, name, invite, group, posts);
    TwoSteps(OpenedContact(d, name, invite, group, false), AddKeyPackage(keyPackage), Persist);
  }

  lemma {:induction false} LostWelcomeIsNotLive(d: Device, name: string, invite: Invite, group: Ident,
      posts: seq<PostReply>, keyPackage: nat)
    requires Current(d) && group !in d.mls.groups && group !in d.db.conversations && !FirstReply(posts).Accepted?
    ensures var e := LostWelcomeThenSave(d, name, invite, group, posts, keyPackage); Steady(e) && NotLive(e) == {group}
  {
    var call := AddContact(name, invite, group, posts);
    var mid := Run(d, Program(d, call));
    CurrentIs(d);
    CallSteady(d, call);
    CallFiles(d, call);
    CallSteady(mid, InviteCode(keyPackage));
    CallFiles(mid, InviteCode(keyPackage));
  }

  /**
   The input: a contact is added and the answer to its Welcome is lost, though the peer has joined; an invite is
   then made, which saves; and the peer sends a text. The poll that collects it does not recover from a crash.
  */
  lemma {:induction false} LostWelcomeBreaksRecovery(d: Device, name: string, invite: Invite, group: Ident,
      posts: seq<PostReply>, keyPackage: nat, m: Mail, clock: Clock, again: Clock, now: u64)
    requires Current(d) && group !in d.mls.groups && group !in d.db.conversations && !FirstReply(posts).Accepted?
    requires Polls.IsText(m.blob) && m.blob.group == group && m.blob.sender == invite.credential
    requires m.blob.sender != d.mls.me
    requires m.blob.generation <= Ratchet.MAXIMUM_FORWARD_DISTANCE && m.id !in d.db.messages
    ensures var e := LostWelcomeThenSave(d, name, invite, group, posts, keyPackage);
            && m.id !in TakeIn(Retained(e, now), [m], clock).db.messages
            && m.id in TakeIn(Reopen(e, now), [m], again).db.messages
            && RecoversAt(e, [m], clock, again, 0, now) == false
  {
    LostWelcomeThenSaveIs(d, name, invite, group, posts, keyPackage);
    LostWelcomeIsNotLive(d, name, invite, group, posts, keyPackage);
    NotLiveBreaksRecovery(LostWelcomeThenSave(d, name, invite, group, posts, keyPackage), m, clock, again, now);
  }

  lemma {:induction false} PollOne(d: Device, m: Mail, clock: Clock)
    requires m.blob.Application?
    ensures TakeIn(d, [m], clock) == ReadOne(d, m, clock)
    ensures HandledIds(d, [m], clock) == if Handles(d, m.blob) then [m.id] else []
  {
    assert [m][1..] == [];
    Polls.TakeInIs(d, [m], clock);
    NothingLeftToJoin(d.mls, [m]);
    assert ReadIds(ReadOne(d, m, clock), [], clock) == [];
  }
}
