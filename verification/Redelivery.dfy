/** What is handled twice. */
module Redelivery {
  // Exactly when what a failed acknowledgement stranded is handled again.

  import opened Basics
  import opened Mls
  import opened Tables
  import opened RelayStore
  import opened Client
  import opened Calls
  import opened OutboxRules
  import opened Reading
  import opened Restarts
  import opened Repoll
  import opened ProgramRuns
  import opened Acknowledging
  import InStep
  import Polls

  /** Some effect of the session saves the ratchets. */
  predicate Saves(p: seq<Effect>) {
    exists i :: 0 <= i < |p| && p[i].Persist?
  }

  predicate SavesIn(d: Device, steps: seq<Step>)
    decreases |steps|
  {
    steps != [] && (Saves(Effects(d, steps[0])) || SavesIn(AfterStep(d, steps[0]), steps[1..]))
  }

  predicate Completed(steps: seq<Step>) {
    forall i :: 0 <= i < |steps| ==> steps[i].Do?
  }

  // ---- Once something saves -----------------------------------------------------------

  lemma {:induction false} SavingMakesItForGood(d: Device, p: seq<Effect>, b: Blob)
    requires UsedUp(d.mls, b) && AllOrdinary(p) && Saves(p)
    ensures UsedUpForGood(Run(d, p), b)
    decreases |p|
  {
    var i :| 0 <= i < |p| && p[i].Persist?;
    var before := Run(d, p[..i]);
    UsedUpStays(d, p[..i], b);
    assert p == p[..i] + [p[i]] + p[i + 1..];
    RunSnoc(d, p[..i], p[i]);
    RunConcat(d, p[..i] + [p[i]], p[i + 1..]);
    UsedUpForGoodStays(Apply(before, p[i]), p[i + 1..], b);
  }

  lemma {:induction false} SavingSessionMakesItForGood(d: Device, steps: seq<Step>, b: Blob)
    requires UsedUp(d.mls, b) && Completed(steps) && SavesIn(d, steps)
    ensures UsedUpForGood(AfterSteps(d, steps), b)
    decreases |steps|
  {
    var p := Effects(d, steps[0]);
    ProgramsAreOrdinary(d, steps[0].call);
    if Saves(p) {
      SavingMakesItForGood(d, p, b);
      SessionKeepsUsedUpForGood(AfterStep(d, steps[0]), steps[1..], b);
    } else {
      UsedUpStays(d, p, b);
      SavingSessionMakesItForGood(AfterStep(d, steps[0]), steps[1..], b);
    }
  }

  // ---- While nothing saves --------------------------------------------------------------

  lemma {:induction false} UnsavedSession(d: Device, steps: seq<Step>)
    requires Completed(steps) && !SavesIn(d, steps)
    ensures AfterSteps(d, steps).db.mls == d.db.mls
    decreases |steps|
  {
    if steps != [] {
      var p := Effects(d, steps[0]);
      ProgramsAreOrdinary(d, steps[0].call);
      assert forall i :: 0 <= i < |p| ==> !p[i].Persist?;
      SnapshotUntouched(d, p);
      UnsavedSession(AfterStep(d, steps[0]), steps[1..]);
    }
  }

  /** Rows and groups are only gained, and no row for a group that was there without one. */
  predicate Gains(x: Device, y: Device) {
    && x.db.conversations.Keys <= y.db.conversations.Keys && x.mls.groups.Keys <= y.mls.groups.Keys
    && y.db.conversations.Keys * x.mls.groups.Keys <= x.db.conversations.Keys
  }

  lemma {:induction false} GainsChain(x: Device, y: Device, z: Device)
    requires Gains(x, y) && Gains(y, z)
    ensures Gains(x, z)
  {
  }

  lemma {:induction false} JoinGains(d: Device, blob: Blob)
    ensures Gains(d, Run(d, JoinProgram(d.mls, blob)))
  {
    if CanJoin(d.mls, blob) {
      var after := Run(d, JoinProgram(d.mls, blob));
      JoinOutcome(d, blob);
      assert after.db.conversations.Keys == d.db.conversations.Keys + {blob.group};
      assert after.mls.groups.Keys == d.mls.groups.Keys + {blob.group};
    }
  }

  lemma {:induction false} JoinsGain(d: Device, batch: seq<Mail>)
    ensures Gains(d, Polls.Joined(d, batch))
    decreases |batch|
  {
    if batch != [] {
      var first := Run(d, JoinProgram(d.mls, batch[0].blob));
      JoinGains(d, batch[0].blob);
      JoinsUnfold(d, batch);
      JoinsGain(first, batch[1..]);
      GainsChain(d, first, Polls.Joined(first, batch[1..]));
    }
  }

  lemma {:induction false} BatchGains(d: Device, batch: seq<Mail>, clock: Clock, ack: AckReply, now: u64)
    requires Steady(d)
    ensures Gains(d, Run(d, BatchProgram(d, batch, clock, ack, now)))
  {
    var mid := Polls.Joined(d, batch);
    var taken := TakeIn(d, batch, clock);
    var settle := SettleProgram(taken.db, HandledIds(d, batch, clock), ack, now);
    JoinsGain(d, batch);
    JoinsSteady(d, batch);
    TakeInRuns(d, batch, clock);
    ReadsKeepLive(mid, Unjoined(d.mls, batch), clock);
    BatchRuns(d, batch, clock, ack, now);
    SettleSettles(taken.db, HandledIds(d, batch, clock), ack, now);
    InStep.KindsKeep(settle);
    InStep.KeepsAll(taken, settle);
  }

  lemma {:induction false} AddContactGains(d: Device, name: string, invite: Invite, group: Ident, posts: seq<PostReply>)
    requires group !in d.mls.groups
    ensures Gains(d, Run(d, AddContactProgram(d, name, invite, group, posts)))
  {
    var reply := FirstReply(posts);
    var mid := OpenedContact(d, name, invite, group, reply.Accepted?);
    AddContactRuns(d, name, invite, group, posts);
    assert mid.db.conversations.Keys == d.db.conversations.Keys + {group};
    assert mid.mls.groups.Keys == d.mls.groups.Keys + {group};
    if reply.Accepted? {
      var q := PayloadProgram(mid, group, Hello(d.identity.inbox, d.identity.displayName),
                              FirstReply(RestReplies(posts)));
      InStep.KindsKeep(q);
      InStep.KeepsAll(mid, q);
    }
  }

  lemma {:induction false} CallGains(d: Device, call: Call)
    requires Steady(d) && Fresh(d, call)
    ensures Gains(d, Run(d, Program(d, call)))
  {
    match call
    case SendMessage(c, body, posts, localId, at, queuedAt) =>
      SendPosts(d, c, body, posts, localId, at, queuedAt);
      InStep.KindsKeep(Program(d, call));
      InStep.KeepsAll(d, Program(d, call));
    case AddContact(name, invite, group, posts) => AddContactGains(d, name, invite, group, posts);
    case FlushOutbox(posts) => InStep.FlushKeepsReach(d, posts);
    case ReceiveMessages(posts, batch, clock, ack, now) =>
      InStep.FlushKeepsReach(d, posts);
      ReceiveRuns(d, posts, batch, clock, ack, now);
      if batch.Some? {
        FlushSteady(d, posts);
        BatchGains(Run(d, Flush(d.db, posts)), batch.value, clock, ack, now);
      }
    case _ =>
      UpkeepUpkeeps(d, call);
      InStep.KindsKeep(Program(d, call));
      InStep.KeepsAll(d, Program(d, call));
  }

  lemma {:induction false} SessionGains(d: Device, steps: seq<Step>)
    requires Steady(d) && FreshThroughout(d, steps) && Completed(steps)
    ensures Steady(AfterSteps(d, steps)) && Gains(d, AfterSteps(d, steps))
    decreases |steps|
  {
    if steps != [] {
      var next := AfterStep(d, steps[0]);
      CallGains(d, steps[0].call);
      CallSteady(d, steps[0].call);
      SessionGains(next, steps[1..]);
      GainsChain(d, next, AfterSteps(next, steps[1..]));
    }
  }

  /** Restarted with nothing saved since the second pass, the device reads as it did before that pass. */
  lemma {:induction false} RestartedUnsaved(mid: Device, todo: seq<Mail>, clock: Clock, steps: seq<Step>, later: u64)
    requires Current(mid) && FreshThroughout(ReadAll(mid, todo, clock), steps) && Completed(steps)
    requires !SavesIn(ReadAll(mid, todo, clock), steps)
    ensures var r := Reopen(AfterSteps(ReadAll(mid, todo, clock), steps), later);
            Sound(r) && r.mls == mid.mls && r.live.Keys == mid.live.Keys
  {
    var after := ReadAll(mid, todo, clock);
    var end := AfterSteps(after, steps);
    ReadsSteady(mid, todo, clock);
    ReadsKeepLive(mid, todo, clock);
    ReadsKeepSnapshot(mid, todo, clock);
    SessionGains(after, steps);
    UnsavedSession(after, steps);
    ReopenSteady(end, later);
    PurgedKeeps(end.db, later);
    ReloadedKeys(mid.db, mid.mls);
    ReloadedKeys(end.db, mid.mls);
  }

  // ---- Exactly when ---------------------------------------------------------------------

  lemma {:induction false} HandledComeFromMail(d: Device, batch: seq<Mail>, clock: Clock)
    ensures forall id :: id in HandledIds(d, batch, clock) ==> exists m :: m in batch && m.id == id
  {
    Polls.TakeInIs(d, batch, clock);
    JoinedAreFinished(d.mls, batch);
    IdsComeFromMail(Polls.Joined(d, batch), batch, clock);
  }

  lemma {:induction false} JoinedAreNotRead(d: Device, batch: seq<Mail>, clock: Clock, id: Ident)
    requires Polls.DistinctIds(batch) && id in JoinedIds(d.mls, batch)
    ensures id !in ReadIds(Polls.Joined(d, batch), batch, clock)
  {
    var mid := Polls.Joined(d, batch);
    Polls.JoinsOpen(d, batch);
    JoinedAreFinished(d.mls, batch);
    var m :| m in batch && m.id == id && UsedUp(mid.mls, m.blob);
    assert AllUsedUp(mid.mls, batch, id);
    NotReadAgain(mid, batch, clock, id);
  }

  /** What the relay still holds of the batch. */
  function Returned(d: Device, batch: seq<Mail>, clock: Clock, ack: AckReply): seq<Mail> {
    if ack.AckRefused? then batch else Left(batch, HandledIds(d, batch, clock))
  }

  /** After a failed poll and these calls, the device restarted. */
  function Restarted(d: Device, batch: seq<Mail>, clock: Clock, ack: AckReply, now: u64, steps: seq<Step>,
      later: u64): Device
  {
    Reopen(AfterSteps(Run(d, BatchProgram(d, batch, clock, ack, now)), steps), later)
  }

  /** A poll whose acknowledgement failed, and the calls of the session after it. */
  ghost predicate FailedThen(d: Device, batch: seq<Mail>, clock: Clock, ack: AckReply, now: u64, steps: seq<Step>) {
    && Current(d) && !ack.Erased? && HandledIds(d, batch, clock) != [] && Polls.DistinctIds(batch)
    && Completed(steps) && FreshThroughout(Run(d, BatchProgram(d, batch, clock, ack, now)), steps)
  }

  /** The relay refused, and nothing has been saved since. */
  predicate ComesBack(d: Device, batch: seq<Mail>, clock: Clock, ack: AckReply, now: u64, steps: seq<Step>) {
    ack.AckRefused? && !SavesIn(Run(d, BatchProgram(d, batch, clock, ack, now)), steps)
  }

  lemma {:induction false} NothingComesBack(d: Device, batch: seq<Mail>, clock: Clock, ack: AckReply, now: u64,
      steps: seq<Step>, later: u64, again: Clock, id: Ident)
    requires FailedThen(d, batch, clock, ack, now, steps) && !ComesBack(d, batch, clock, ack, now, steps)
    requires id in HandledIds(d, batch, clock)
    ensures id !in HandledIds(Restarted(d, batch, clock, ack, now, steps, later), Returned(d, batch, clock, ack), again)
  {
    var after := TakeIn(d, batch, clock);
    var r := Restarted(d, batch, clock, ack, now, steps, later);
    FailedPollIs(d, batch, clock, ack, now);
    if ack.AckRefused? {
      HandledAreFinished(d, batch, clock);
      var m :| m in batch && m.id == id && UsedUp(after.mls, m.blob);
      SavingSessionMakesItForGood(after, steps, m.blob);
      ReopenedUsedUp(AfterSteps(after, steps), later, m.blob);
      NotHandledAgain(r, batch, again, id);
    } else {
      LeftAreUnhandled(batch, HandledIds(d, batch, clock));
      HandledComeFromMail(r, Left(batch, HandledIds(d, batch, clock)), again);
    }
  }

  /** Nothing saved: the second poll reads exactly what the first one read. */
  lemma {:induction false} AllTextsComeBack(d: Device, batch: seq<Mail>, clock: Clock, ack: AckReply, now: u64,
      steps: seq<Step>, later: u64, again: Clock)
    requires FailedThen(d, batch, clock, ack, now, steps) && ComesBack(d, batch, clock, ack, now, steps)
    ensures var r := Restarted(d, batch, clock, ack, now, steps, later);
            && Sound(r) && Polls.Joined(r, batch) == r && TakeIn(r, batch, again) == ReadAll(r, batch, again)
            && HandledIds(r, batch, again) == ReadIds(Polls.Joined(d, batch), batch, clock)
            && ReadIds(r, batch, again) == HandledIds(r, batch, again)
  {
    var mid := Polls.Joined(d, batch);
    var r := Restarted(d, batch, clock, ack, now, steps, later);
    FailedPollIs(d, batch, clock, ack, now);
    JoinsKeepCurrent(d, batch);
    Polls.TakeInIs(d, batch, clock);
    RestartedUnsaved(mid, batch, clock, steps, later);
    JoinedOnce(d, r, batch);
    Polls.TakeInIs(r, batch, again);
    Polls.JoinsOpen(d, batch);
    SpendingAll(d.mls, batch);
    NothingJoined(r.mls, batch);
    SameReads(mid, r, batch, clock, again);
  }

  lemma {:induction false} NothingJoined(mls: State, batch: seq<Mail>)
    requires forall m :: m in batch ==> !CanJoin(mls, m.blob)
    ensures JoinedIds(mls, batch) == []
    decreases |batch|
  {
    if batch != [] {
      assert batch[0] in batch;
      NothingJoined(mls, batch[1..]);
    }
  }

  /**
   A poll's acknowledgement fails; any calls complete; the device restarts and polls what the relay still holds.
   An envelope the failed poll handled is handled again if and only if it was no Welcome, the relay refused the
   acknowledgement rather than losing its answer, and none of the calls has saved the ratchets.
  */
  lemma {:induction false} HandledAgainExactly(d: Device, batch: seq<Mail>, clock: Clock, ack: AckReply, now: u64,
      steps: seq<Step>, later: u64, again: Clock, id: Ident)
    requires FailedThen(d, batch, clock, ack, now, steps) && id in HandledIds(d, batch, clock)
    ensures id in HandledIds(Restarted(d, batch, clock, ack, now, steps, later), Returned(d, batch, clock, ack), again)
            <==> ComesBack(d, batch, clock, ack, now, steps) && id !in JoinedIds(d.mls, batch)
  {
    if ComesBack(d, batch, clock, ack, now, steps) {
      AllTextsComeBack(d, batch, clock, ack, now, steps, later, again);
      Polls.TakeInIs(d, batch, clock);
      if id in JoinedIds(d.mls, batch) {
        JoinedAreNotRead(d, batch, clock, id);
      }
    } else {
      NothingComesBack(d, batch, clock, ack, now, steps, later, again, id);
    }
  }

  /** What the second pass does not handle, it does not write. */
  lemma {:induction false} UnreadRowsStay(d: Device, todo: seq<Mail>, clock: Clock, id: Ident)
    requires Sound(d) && id !in ReadIds(d, todo, clock)
    ensures id in ReadAll(d, todo, clock).db.messages <==> id in d.db.messages
    decreases |todo|
  {
    if todo != [] {
      ReadOneIs(d, todo[0], clock);
      ReadOneSound(d, todo[0], clock);
      UnreadRowsStay(ReadOne(d, todo[0], clock), todo[1..], clock, id);
    }
  }

  /**
   So a text that was deleted in the meantime, by whatever call or by retention at the restart, comes back if and
   only if the relay refused the acknowledgement and nothing was saved after it. It is then dated by the second
   poll. With no call in between it was deleted if and only if its retention had run out at the restart.
  */
  lemma {:induction false} FailedAcknowledgeCanBringADeletedMessageBack(d: Device, batch: seq<Mail>, clock: Clock,
      ack: AckReply, now: u64, steps: seq<Step>, later: u64, again: Clock, m: Mail)
    requires FailedThen(d, batch, clock, ack, now, steps)
    requires m in batch && Polls.IsText(m.blob) && m.id in HandledIds(d, batch, clock)
    ensures var after := TakeIn(d, batch, clock).db;
            var r := Restarted(d, batch, clock, ack, now, steps, later);
            var end := TakeIn(r, Returned(d, batch, clock, ack), again).db;
            && StoredNow(after, clock, m.id)
            && (m.id !in r.db.messages ==> (m.id in end.messages <==> ComesBack(d, batch, clock, ack, now, steps)))
            && (ComesBack(d, batch, clock, ack, now, steps) ==> StoredNow(end, again, m.id))
            && (steps == [] ==>
                  (m.id !in r.db.messages
                   <==> Outlived(after.conversations, after.messages[m.id].conversation, AsI64(clock.stored(m.id)),
                                 AsI64(later), Policy(after).Seconds())))
  {
    FirstStored(d, batch, clock, m);
    if ComesBack(d, batch, clock, ack, now, steps) {
      AllTextsComeBack(d, batch, clock, ack, now, steps, later, again);
      ReadTextsAreStored(Restarted(d, batch, clock, ack, now, steps, later), batch, again, m);
    } else {
      NotWrittenAgain(d, batch, clock, ack, now, steps, later, again, m);
    }
    if steps == [] {
      FailedPollIs(d, batch, clock, ack, now);
      TakeInSteady(d, batch, clock);
      PurgedIs(TakeIn(d, batch, clock).db, later);
    }
  }

  lemma {:induction false} FirstStored(d: Device, batch: seq<Mail>, clock: Clock, m: Mail)
    requires Current(d) && Polls.DistinctIds(batch)
    requires m in batch && Polls.IsText(m.blob) && m.id in HandledIds(d, batch, clock)
    ensures StoredNow(TakeIn(d, batch, clock).db, clock, m.id) && m.id in ReadIds(Polls.Joined(d, batch), batch, clock)
  {
    JoinsKeepCurrent(d, batch);
    Polls.TakeInIs(d, batch, clock);
    NeverJoined(d.mls, batch, m);
    ReadTextsAreStored(Polls.Joined(d, batch), batch, clock, m);
  }

  lemma {:induction false} NotWrittenAgain(d: Device, batch: seq<Mail>, clock: Clock, ack: AckReply, now: u64,
      steps: seq<Step>, later: u64, again: Clock, m: Mail)
    requires FailedThen(d, batch, clock, ack, now, steps) && !ComesBack(d, batch, clock, ack, now, steps)
    requires m.id in HandledIds(d, batch, clock)
    ensures var r := Restarted(d, batch, clock, ack, now, steps, later);
            m.id in TakeIn(r, Returned(d, batch, clock, ack), again).db.messages <==> m.id in r.db.messages
  {
    var r := Restarted(d, batch, clock, ack, now, steps, later);
    var back := Returned(d, batch, clock, ack);
    NothingComesBack(d, batch, clock, ack, now, steps, later, again, m.id);
    RestartedSteady(d, batch, clock, ack, now, steps, later);
    JoinsSteady(r, back);
    Polls.JoinsOpen(r, back);
    Polls.TakeInIs(r, back, again);
    UnreadRowsStay(Polls.Joined(r, back), back, again, m.id);
  }

  lemma {:induction false} RestartedSteady(d: Device, batch: seq<Mail>, clock: Clock, ack: AckReply, now: u64,
      steps: seq<Step>, later: u64)
    requires FailedThen(d, batch, clock, ack, now, steps)
    ensures Steady(Restarted(d, batch, clock, ack, now, steps, later))
  {
    var after := Run(d, BatchProgram(d, batch, clock, ack, now));
    BatchSteady(d, batch, clock, ack, now);
    SessionSteady(after, steps);
    ReopenSteady(AfterSteps(after, steps), later);
  }
}
