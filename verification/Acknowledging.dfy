/** The end of a poll, and what a failed acknowledgement does. */
module Acknowledging {
  import opened Basics
  import opened Mls
  import opened Tables
  import opened RelayStore
  import opened Client
  import opened Calls
  import opened Reading
  import opened Restarts
  import opened Repoll
  import opened ProgramRuns
  import Polls
  import SilentChanges

  /** However a device was left, reopening it puts memory and disk in step. */
  lemma {:induction false} ReopenedIsCurrent(d: Device, now: u64)
    requires DiskOk(d)
    ensures Current(Reopen(d, now))
  {
    ReopenSteady(d, now);
    PurgedKeeps(d.db, now);
  }

  lemma {:induction false} ReadsKeepLive(d: Device, todo: seq<Mail>, clock: Clock)
    requires Sound(d)
    ensures var after := ReadAll(d, todo, clock);
            Sound(after) && after.live.Keys == d.live.Keys && after.db.conversations == d.db.conversations
            && after.mls.groups.Keys == d.mls.groups.Keys
    decreases |todo|
  {
    if todo != [] {
      ReadOneSound(d, todo[0], clock);
      ReadsKeepLive(ReadOne(d, todo[0], clock), todo[1..], clock);
    }
  }

  /**
   A poll whose acknowledgement succeeds, or that handled nothing, leaves the snapshot equal to the ratchets in
   memory.
  */
  lemma {:induction false} SettledPollKeepsCurrent(d: Device, batch: seq<Mail>, clock: Clock, ack: AckReply, now: u64)
    requires Current(d) && (ack.Erased? || HandledIds(d, batch, clock) == [])
    ensures Current(Run(d, BatchProgram(d, batch, clock, ack, now)))
  {
    var mid := Polls.Joined(d, batch);
    var taken := TakeIn(d, batch, clock);
    BatchSteady(d, batch, clock, ack, now);
    JoinsKeepCurrent(d, batch);
    TakeInRuns(d, batch, clock);
    ReadsKeepLive(mid, Unjoined(d.mls, batch), clock);
    BatchRuns(d, batch, clock, ack, now);
    SettleRuns(taken, HandledIds(d, batch, clock), ack, now);
    PurgedIs(taken.db.(mls := Some(taken.mls)), now);
    TakeInSteady(d, batch, clock);
    PurgedKeeps(taken.db.(mls := Some(taken.mls)), now);
    ReloadedKeys(mid.db, mid.mls);
    ReloadedKeys(Run(d, BatchProgram(d, batch, clock, ack, now)).db, taken.mls);
  }

  /** A crash once both passes are done finds every row they stored, less what this poll's own purge took. */
  lemma {:induction false} CrashWhileSettling(d: Device, batch: seq<Mail>, clock: Clock, ack: AckReply, now: u64,
      k: nat)
    requires |TakeInProgram(d, batch, clock)| <= k <= |BatchProgram(d, batch, clock, ack, now)|
    ensures var at := Run(d, BatchProgram(d, batch, clock, ack, now)[..k]).db;
            var stored := TakeIn(d, batch, clock).db;
            && at.contacts == stored.contacts && at.conversations == stored.conversations
            && at.changes == stored.changes && at.settings == stored.settings
            && (at.messages == stored.messages || at.messages == Purged(stored, now).messages)
            && (at.mls == stored.mls || at.mls == Some(TakeIn(d, batch, clock).mls))
  {
    var first := TakeInProgram(d, batch, clock);
    var taken := TakeIn(d, batch, clock);
    var settle := SettleProgram(taken.db, HandledIds(d, batch, clock), ack, now);
    PrefixOfTwo(d, first, settle, k);
    SettlePoints(taken, HandledIds(d, batch, clock), ack, now, k - |first|);
  }

  lemma {:induction false} SettlePoints(d: Device, handled: seq<Ident>, ack: AckReply, now: u64, j: nat)
    requires j <= |SettleProgram(d.db, handled, ack, now)|
    ensures var at := Run(d, SettleProgram(d.db, handled, ack, now)[..j]).db;
            && at.contacts == d.db.contacts && at.conversations == d.db.conversations && at.changes == d.db.changes
            && at.settings == d.db.settings
            && (at.messages == d.db.messages || at.messages == Purged(d.db, now).messages)
            && (at.mls == d.db.mls || at.mls == Some(d.mls))
            && Run(d, SettleProgram(d.db, handled, ack, now)[..j]).mls == d.mls
    decreases j
  {
    var p := SettleProgram(d.db, handled, ack, now);
    if j == 0 {
      assert p[..0] == [];
    } else {
      SettlePoints(d, handled, ack, now, j - 1);
      PrefixStep(d, p, j - 1);
      SettleEffect(d.db, handled, ack, now, j - 1);
      SettleStep(d.db, Run(d, p[..j - 1]), p[j - 1], now);
    }
  }

  lemma {:induction false} SettleStep(db: Db, x: Device, e: Effect, now: u64)
    requires x.db.contacts == db.contacts && x.db.conversations == db.conversations && x.db.changes == db.changes
    requires x.db.settings == db.settings
    requires x.db.messages == db.messages || x.db.messages == Purged(db, now).messages
    requires x.db.mls == db.mls || x.db.mls == Some(x.mls)
    requires e.Ack? || e.Persist? || e == Sql(PurgeProgram(db, now)[0]) || e == Sql(PurgeProgram(db, now)[1])
    ensures var at := Apply(x, e).db;
            && at.contacts == db.contacts && at.conversations == db.conversations && at.changes == db.changes
            && at.settings == db.settings
            && (at.messages == db.messages || at.messages == Purged(db, now).messages)
            && (at.mls == db.mls || at.mls == Some(x.mls)) && Apply(x, e).mls == x.mls
  {
    if e.Sql? {
      PurgeStep(db, x.db, e.stmt, now);
    }
  }

  lemma {:induction false} PurgeStep(db: Db, x: Db, s: Stmt, now: u64)
    requires x.conversations == db.conversations
    requires (x.messages == db.messages || x.messages == Purged(db, now).messages)
    requires s == PurgeProgram(db, now)[0] || s == PurgeProgram(db, now)[1]
    ensures var at := Exec(x, s);
            && at == x.(messages := at.messages, outbox := at.outbox)
            && (at.messages == db.messages || at.messages == Purged(db, now).messages)
  {
    PurgedIs(db, now);
    PurgedAgain(db, now);
  }

  lemma {:induction false} SettleEffect(db: Db, handled: seq<Ident>, ack: AckReply, now: u64, i: nat)
    requires i < |SettleProgram(db, handled, ack, now)|
    ensures var e := SettleProgram(db, handled, ack, now)[i];
            e.Ack? || e.Persist? || e == Sql(PurgeProgram(db, now)[0]) || e == Sql(PurgeProgram(db, now)[1])
  {
  }

  lemma {:induction false} PurgedAgain(db: Db, now: u64)
    ensures var everywhere := Policy(db).Seconds();
            var once := KeptMessages(db.messages, db.conversations, AsI64(now), everywhere);
            KeptMessages(once, db.conversations, AsI64(now), everywhere) == once
  {
  }

  // ---- Polling again after a crash that late ----------------------------------

  /** What the relay still holds of a batch once these identifiers are erased. */
  function Left(batch: seq<Mail>, erased: seq<Ident>): seq<Mail>
    decreases |batch|
  {
    if batch == [] then [] else (if batch[0].id in erased then [] else [batch[0]]) + Left(batch[1..], erased)
  }

  lemma {:induction false} LeftAreUnhandled(batch: seq<Mail>, erased: seq<Ident>)
    ensures forall m :: m in Left(batch, erased) ==> m in batch && m.id !in erased
    decreases |batch|
  {
    if batch != [] {
      LeftAreUnhandled(batch[1..], erased);
    }
  }

  lemma {:induction false} ReadsKeepAddressing(d: Device, todo: seq<Mail>, clock: Clock)
    requires Sound(d)
    ensures var after := ReadAll(d, todo, clock);
            SilentChanges.SameAddressing(d, after) && after.mls.keyPackages == d.mls.keyPackages
    decreases |todo|
  {
    if todo != [] {
      SilentChanges.ReadKeepsAddressing(d, todo[0], clock);
      ReadOneSound(d, todo[0], clock);
      ReadOneIs(d, todo[0], clock);
      ReadsKeepAddressing(ReadOne(d, todo[0], clock), todo[1..], clock);
    }
  }

  /** Two databases with the same contacts, conversations, key changes and messages. */
  predicate SameThreads(a: Db, b: Db) {
    a.contacts == b.contacts && a.conversations == b.conversations && a.changes == b.changes && a.messages == b.messages
  }

  /** Nothing addressed and readable is left, so reading changes no table. */
  lemma {:induction false} NothingToStore(d: Device, todo: seq<Mail>, clock: Clock)
    requires Sound(d) && forall m :: m in todo ==> !Polls.Readable(d, m)
    ensures SameThreads(ReadAll(d, todo, clock).db, d.db)
    decreases |todo|
  {
    if todo != [] {
      assert todo[0] in todo;
      var next := ReadOne(d, todo[0], clock);
      ReadOneIs(d, todo[0], clock);
      ReadOneSound(d, todo[0], clock);
      SilentChanges.ReadKeepsAddressing(d, todo[0], clock);
      assert forall m :: Polls.Readable(next, m) <==> Polls.Readable(d, m);
      NothingToStore(next, todo[1..], clock);
    }
  }

  /** Purging along the way makes no difference to a later purge of the messages. */
  lemma {:induction false} LaterPurgeDecides(db: Db, at: Db, early: u64, late: u64)
    requires AsI64(early) <= AsI64(late)
    requires at.conversations == db.conversations && at.settings == db.settings
    requires at.messages == db.messages || at.messages == Purged(db, early).messages
    ensures Purged(at, late).messages == Purged(db, late).messages
  {
    PurgedIs(db, early);
    PurgedIs(db, late);
    PurgedIs(at, late);
    assert Policy(at) == Policy(db);
    KeptTwice(db.messages, db.conversations, AsI64(early), AsI64(late), Policy(db).Seconds());
  }

  lemma {:induction false} KeptTwice(table: map<Ident, Message>, conversations: map<Ident, Conversation>, early: int,
      late: int, everywhere: Option<int>)
    requires early <= late
    ensures KeptMessages(KeptMessages(table, conversations, early, everywhere), conversations, late, everywhere)
            == KeptMessages(table, conversations, late, everywhere)
  {
  }

  /** The device reopened after a crash while settling: addressed as after the first pass, with nothing left to join. */
  lemma {:induction false} ReopenedWhileSettling(d: Device, batch: seq<Mail>, clock: Clock, ack: AckReply, now: u64,
      k: nat, later: u64)
    requires Current(d) && |TakeInProgram(d, batch, clock)| <= k <= |BatchProgram(d, batch, clock, ack, now)|
    ensures var at := Run(d, BatchProgram(d, batch, clock, ack, now)[..k]);
            var r := Reopen(at, later);
            && Sound(r) && r.db == Purged(at.db, later)
            && SilentChanges.SameAddressing(Polls.Joined(d, batch), r)
            && r.mls.keyPackages == Polls.Joined(d, batch).mls.keyPackages
  {
    var mid := Polls.Joined(d, batch);
    var p := BatchProgram(d, batch, clock, ack, now);
    var at := Run(d, p[..k]);
    JoinsKeepCurrent(d, batch);
    Polls.TakeInIs(d, batch, clock);
    ReadsKeepAddressing(mid, batch, clock);
    ReadsKeepSnapshot(mid, batch, clock);
    CrashWhileSettling(d, batch, clock, ack, now, k);
    BatchLocal(d, batch, clock, ack, now);
    DiskKept(d, p[..k]);
    ReopenSteady(at, later);
    PurgedKeeps(at.db, later);
    ReloadedKeys(mid.db, mid.mls);
    ReloadedKeys(at.db, at.db.mls.value);
  }

  /**
   A crash once the passes are done, anywhere in what follows, reopened and polled again: the relay returns
   what was not acknowledged, and for a batch inside the window that adds nothing. Contacts, conversations
   and key changes are those of the uninterrupted poll, and so are the messages, with retention applied.
  */
  lemma {:induction false} CrashWhileSettlingThenPollAgain(d: Device, batch: seq<Mail>, clock: Clock, ack: AckReply,
      now: u64, k: nat, later: u64, again: Clock)
    requires Current(d) && Polls.Takeable(d, batch) && AsI64(now) <= AsI64(later)
    requires |TakeInProgram(d, batch, clock)| <= k <= |BatchProgram(d, batch, clock, ack, now)|
    ensures var stored := TakeIn(d, batch, clock).db;
            var r := Reopen(Run(d, BatchProgram(d, batch, clock, ack, now)[..k]), later);
            var end := TakeIn(r, Left(batch, HandledIds(d, batch, clock)), again).db;
            && SameThreads(end, r.db)
            && end.contacts == stored.contacts && end.conversations == stored.conversations
            && end.changes == stored.changes
            && end.messages == Purged(stored, later).messages
  {
    var mid := Polls.Joined(d, batch);
    var at := Run(d, BatchProgram(d, batch, clock, ack, now)[..k]);
    var r := Reopen(at, later);
    var left := Left(batch, HandledIds(d, batch, clock));
    ReopenedWhileSettling(d, batch, clock, ack, now, k, later);
    CrashWhileSettling(d, batch, clock, ack, now, k);
    LaterPurgeDecides(TakeIn(d, batch, clock).db, at.db, now, later);
    PurgedIs(at.db, later);
    LeftIsNothing(d, r, batch, clock, left);
    Polls.TakeInIs(r, left, again);
    NothingToStore(r, left, again);
  }

  /** What the relay returns to the next poll: everything, unless an acknowledgement of what was handled reached it. */
  function ReturnedAfter(d: Device, batch: seq<Mail>, clock: Clock, ack: AckReply, k: nat): seq<Mail> {
    if k > |TakeInProgram(d, batch, clock)| && !ack.AckRefused? then Left(batch, HandledIds(d, batch, clock)) else batch
  }

  /**
   Crash a poll after any of its effects, acknowledge, save and purge included, reopen, and poll again what
   the relay then returns. Until the acknowledgement has reached the relay the tables are those of one
   uninterrupted poll of the device with retention applied, up to the times rows were stored; from then on
   they are exactly those the passes left, with retention applied.
  */
  lemma {:induction false} CrashAnywhereThenPollAgain(d: Device, batch: seq<Mail>, clock: Clock, ack: AckReply,
      now: u64, k: nat, later: u64, again: Clock)
    requires Current(d) && Polls.Takeable(d, batch) && AsI64(now) <= AsI64(later)
    requires k <= |BatchProgram(d, batch, clock, ack, now)|
    ensures var stored := TakeIn(d, batch, clock).db;
            var r := Reopen(Run(d, BatchProgram(d, batch, clock, ack, now)[..k]), later);
            var end := TakeIn(r, ReturnedAfter(d, batch, clock, ack, k), again);
            if k <= |TakeInProgram(d, batch, clock)| || (ack.AckRefused? && HandledIds(d, batch, clock) != [])
            then SameTables(end, TakeIn(Retained(d, later), batch, clock))
            else end.db.contacts == stored.contacts && end.db.conversations == stored.conversations
                 && end.db.changes == stored.changes
                 && end.db.messages == Purged(stored, later).messages
  {
    var n := |TakeInProgram(d, batch, clock)|;
    if k <= n || (ack.AckRefused? && HandledIds(d, batch, clock) != []) {
      CrashedLikeThePasses(d, batch, clock, ack, now, k);
      CrashThenPollAgain(d, batch, clock, again, if k <= n then k else n, later);
    } else {
      CrashWhileSettlingThenPollAgain(d, batch, clock, ack, now, k, later, again);
      LeftOfNothing(batch);
    }
  }

  lemma {:induction false} LeftOfNothing(batch: seq<Mail>)
    ensures Left(batch, []) == batch
    decreases |batch|
  {
    if batch != [] {
      LeftOfNothing(batch[1..]);
    }
  }

  /** A refused acknowledgement is where the call ends, and it changes nothing on the device. */
  lemma {:induction false} CrashedLikeThePasses(d: Device, batch: seq<Mail>, clock: Clock, ack: AckReply, now: u64,
      k: nat)
    requires k <= |BatchProgram(d, batch, clock, ack, now)|
    requires k <= |TakeInProgram(d, batch, clock)| || (ack.AckRefused? && HandledIds(d, batch, clock) != [])
    ensures var first := TakeInProgram(d, batch, clock);
            Run(d, BatchProgram(d, batch, clock, ack, now)[..k]) == Run(d, first[..if k <= |first| then k else |first|])
  {
    var first := TakeInProgram(d, batch, clock);
    var settle := SettleProgram(TakeIn(d, batch, clock).db, HandledIds(d, batch, clock), ack, now);
    PrefixOfTwo(d, first, settle, k);
    assert first[..|first|] == first;
    if k > |first| {
      assert settle[..k - |first|] == [Ack(HandledIds(d, batch, clock), ack)];
      RunSnoc(Run(d, first), [], Ack(HandledIds(d, batch, clock), ack));
      assert [] + [Ack(HandledIds(d, batch, clock), ack)] == [Ack(HandledIds(d, batch, clock), ack)];
    } else if k == |first| {
      assert BatchProgram(d, batch, clock, ack, now)[..k] == first[..k];
    }
  }

  lemma {:induction false} LeftIsNothing(d: Device, r: Device, batch: seq<Mail>, clock: Clock, left: seq<Mail>)
    requires Steady(d) && Polls.Takeable(d, batch) && left == Left(batch, HandledIds(d, batch, clock))
    requires SilentChanges.SameAddressing(Polls.Joined(d, batch), r)
    requires r.mls.keyPackages == Polls.Joined(d, batch).mls.keyPackages
    ensures Polls.Joined(r, left) == r && forall m :: m in left ==> !Polls.Readable(r, m)
  {
    var mid := Polls.Joined(d, batch);
    JoinsSteady(d, batch);
    LeftAreUnhandled(batch, HandledIds(d, batch, clock));
    Polls.TakeInIs(d, batch, clock);
    Polls.ReadIdsAre(mid, batch, clock);
    Polls.JoinsOpen(d, batch);
    SpendingAll(d.mls, batch);
    assert forall m :: m in left ==> !CanJoin(r.mls, m.blob);
    NothingLeftToJoin(r.mls, left);
    forall m | m in left ensures !Polls.Readable(r, m) {
      assert m in batch && m.id !in ReadIds(mid, batch, clock);
      assert !Polls.Reads(mid, batch, m.id);
    }
  }

  // ---- What a session has used up --------------------------------------------

  /** This memory can never handle the blob: its group is joined already, or its generation's key is gone. */
  predicate UsedUp(s: State, b: Blob) {
    match b
    case Welcome(group, _, _) => group in s.groups
    case Application(group, _, generation, _) => group in s.groups && generation in s.groups[group].used
    case Other(_) => false
  }

  lemma {:induction false} UsedUpIsRefused(d: Device, b: Blob)
    requires UsedUp(d.mls, b)
    ensures !CanJoin(d.mls, b) && !Opens(d, b)
  {
  }

  lemma {:induction false} UsedUpStays(d: Device, p: seq<Effect>, b: Blob)
    requires UsedUp(d.mls, b)
    ensures UsedUp(Run(d, p).mls, b)
    decreases |p|
  {
    if p != [] {
      EffectKeepsUsedUp(d, p[0], b);
      UsedUpStays(Apply(d, p[0]), p[1..], b);
    }
  }

  lemma {:induction false} EffectKeepsUsedUp(d: Device, e: Effect, b: Blob)
    requires UsedUp(d.mls, b)
    ensures UsedUp(Apply(d, e).mls, b)
  {
  }

  lemma {:induction false} SessionKeepsUsedUp(d: Device, steps: seq<Step>, b: Blob)
    requires UsedUp(d.mls, b) && forall i :: 0 <= i < |steps| ==> steps[i].Do?
    ensures UsedUp(AfterSteps(d, steps).mls, b)
    decreases |steps|
  {
    if steps != [] {
      UsedUpStays(d, Effects(d, steps[0]), b);
      SessionKeepsUsedUp(AfterStep(d, steps[0]), steps[1..], b);
    }
  }

  /** Used up in memory and in the snapshot on disk. */
  ghost predicate UsedUpForGood(d: Device, b: Blob) {
    UsedUp(d.mls, b) && d.db.mls.Some? && UsedUp(d.db.mls.value, b)
  }

  lemma {:induction false} UsedUpForGoodStays(d: Device, p: seq<Effect>, b: Blob)
    requires UsedUpForGood(d, b) && AllOrdinary(p)
    ensures UsedUpForGood(Run(d, p), b)
    decreases |p|
  {
    if p != [] {
      assert Ordinary(p[0]);
      EffectKeepsUsedUp(d, p[0], b);
      if !p[0].Persist? {
        EffectKeepsSnapshot(d, p[0]);
      }
      UsedUpForGoodStays(Apply(d, p[0]), p[1..], b);
    }
  }

  lemma {:induction false} SessionKeepsUsedUpForGood(d: Device, steps: seq<Step>, b: Blob)
    requires UsedUpForGood(d, b)
    ensures UsedUpForGood(AfterSteps(d, steps), b)
    decreases |steps|
  {
    if steps != [] {
      var p := Effects(d, steps[0]);
      if !steps[0].Restart? {
        ProgramsAreOrdinary(d, steps[0].call);
      }
      UsedUpForGoodStays(d, p, b);
      if !steps[0].Do? {
        ReopenedUsedUp(Run(d, p), steps[0].now, b);
      }
      SessionKeepsUsedUpForGood(AfterStep(d, steps[0]), steps[1..], b);
    }
  }

  lemma {:induction false} ReopenedUsedUp(d: Device, now: u64, b: Blob)
    requires UsedUpForGood(d, b)
    ensures UsedUpForGood(Reopen(d, now), b)
  {
    if CanOpen(d.db) {
      PurgedIs(d.db, now);
    }
  }

  // ---- What a poll uses up -----------------------------------------------------

  /** An envelope of the batch with this identifier that these ratchets have used up. */
  ghost predicate Finished(s: State, batch: seq<Mail>, id: Ident) {
    exists m :: m in batch && m.id == id && UsedUp(s, m.blob)
  }

  lemma {:induction false} FinishedInRest(s: State, batch: seq<Mail>, id: Ident)
    requires batch != []
    ensures Finished(s, batch[1..], id) ==> Finished(s, batch, id)
  {
    if m :| m in batch[1..] && m.id == id && UsedUp(s, m.blob) {
      assert m in batch;
    }
  }

  lemma {:induction false} JoinedAreFinished(mls: State, batch: seq<Mail>)
    ensures forall b :: UsedUp(mls, b) ==> UsedUp(MlsAfterAll(mls, batch), b)
    ensures forall id :: id in JoinedIds(mls, batch) ==> Finished(MlsAfterAll(mls, batch), batch, id)
    decreases |batch|
  {
    if batch != [] {
      var next := MlsAfter(mls, batch[0].blob);
      JoinedAreFinished(next, batch[1..]);
      assert forall b :: UsedUp(mls, b) ==> UsedUp(next, b);
      forall id | id in JoinedIds(mls, batch) ensures Finished(MlsAfterAll(mls, batch), batch, id) {
        if id in JoinedIds(next, batch[1..]) {
          FinishedInRest(MlsAfterAll(mls, batch), batch, id);
        } else {
          assert UsedUp(next, batch[0].blob) && batch[0] in batch;
        }
      }
    }
  }

  lemma {:induction false} ReadUsesUp(d: Device, m: Mail, clock: Clock)
    requires Opens(d, m.blob)
    ensures UsedUp(ReadOne(d, m, clock).mls, m.blob)
  {
    var p := ReadProgram(d, m, clock);
    assert UsedUp(Apply(d, p[0]).mls, m.blob);
    UsedUpStays(Apply(d, p[0]), p[1..], m.blob);
  }

  lemma {:induction false} ReadsKeepUsedUp(d: Device, todo: seq<Mail>, clock: Clock, b: Blob)
    requires UsedUp(d.mls, b)
    ensures UsedUp(ReadAll(d, todo, clock).mls, b)
  {
    UsedUpStays(d, ReadAllProgram(d, todo, clock), b);
    RunReadAll(d, todo, clock);
  }

  /** Only a Welcome is handled by the first pass. */
  lemma {:induction false} NeverJoined(mls: State, batch: seq<Mail>, m: Mail)
    requires Polls.DistinctIds(batch) && m in batch && !m.blob.Welcome?
    ensures m.id !in JoinedIds(mls, batch)
    decreases |batch|
  {
    if m == batch[0] {
      assert forall n :: n in batch[1..] ==> n.id != m.id;
      JoinedAreFinished(mls, batch[1..]);
    } else {
      assert m in batch[1..] && m.id != batch[0].id;
      NeverJoined(MlsAfter(mls, batch[0].blob), batch[1..], m);
    }
  }

  lemma {:induction false} ReadAreFinished(d: Device, todo: seq<Mail>, clock: Clock)
    ensures forall id :: id in ReadIds(d, todo, clock) ==> Finished(ReadAll(d, todo, clock).mls, todo, id)
    decreases |todo|
  {
    if todo != [] {
      var next := ReadOne(d, todo[0], clock);
      var end := ReadAll(d, todo, clock);
      ReadAreFinished(next, todo[1..], clock);
      forall id | id in ReadIds(d, todo, clock) ensures Finished(end.mls, todo, id) {
        if id in ReadIds(next, todo[1..], clock) {
          FinishedInRest(end.mls, todo, id);
        } else {
          ReadUsesUp(d, todo[0], clock);
          ReadsKeepUsedUp(next, todo[1..], clock, todo[0].blob);
          assert todo[0] in todo;
        }
      }
    }
  }

  /** Everything a poll handles is used up afterwards, whatever became of the acknowledgement. */
  lemma {:induction false} HandledAreFinished(d: Device, batch: seq<Mail>, clock: Clock)
    ensures forall id :: id in HandledIds(d, batch, clock) ==> Finished(TakeIn(d, batch, clock).mls, batch, id)
  {
    var mid := Polls.Joined(d, batch);
    var end := TakeIn(d, batch, clock);
    Polls.TakeInIs(d, batch, clock);
    Polls.JoinsOpen(d, batch);
    JoinedAreFinished(d.mls, batch);
    ReadAreFinished(mid, batch, clock);
    forall id | id in JoinedIds(d.mls, batch) ensures Finished(end.mls, batch, id) {
      var m :| m in batch && m.id == id && UsedUp(mid.mls, m.blob);
      ReadsKeepUsedUp(mid, batch, clock, m.blob);
    }
  }

  /** Every envelope with this identifier is used up. */
  ghost predicate AllUsedUp(s: State, batch: seq<Mail>, id: Ident) {
    forall m :: m in batch && m.id == id ==> UsedUp(s, m.blob)
  }

  lemma {:induction false} NotJoinedAgain(mls: State, batch: seq<Mail>, id: Ident)
    requires AllUsedUp(mls, batch, id)
    ensures id !in JoinedIds(mls, batch)
    decreases |batch|
  {
    if batch != [] {
      assert batch[0] in batch;
      var next := MlsAfter(mls, batch[0].blob);
      assert forall b :: UsedUp(mls, b) ==> UsedUp(next, b);
      NotJoinedAgain(next, batch[1..], id);
    }
  }

  lemma {:induction false} NotReadAgain(d: Device, todo: seq<Mail>, clock: Clock, id: Ident)
    requires AllUsedUp(d.mls, todo, id)
    ensures id !in ReadIds(d, todo, clock)
    decreases |todo|
  {
    if todo != [] {
      assert todo[0] in todo;
      var next := ReadOne(d, todo[0], clock);
      if todo[0].id == id {
        UsedUpIsRefused(d, todo[0].blob);
      }
      forall m | m in todo[1..] && m.id == id ensures UsedUp(next.mls, m.blob) {
        UsedUpStays(d, ReadProgram(d, todo[0], clock), m.blob);
      }
      NotReadAgain(next, todo[1..], clock, id);
    }
  }

  lemma {:induction false} NotHandledAgain(d: Device, batch: seq<Mail>, clock: Clock, id: Ident)
    requires AllUsedUp(d.mls, batch, id)
    ensures id !in HandledIds(d, batch, clock)
  {
    var mid := Polls.Joined(d, batch);
    Polls.TakeInIs(d, batch, clock);
    NotJoinedAgain(d.mls, batch, id);
    forall m | m in batch && m.id == id ensures UsedUp(mid.mls, m.blob) {
      UsedUpStays(d, JoinAllProgram(d.mls, batch), m.blob);
    }
    NotReadAgain(mid, batch, clock, id);
  }

  // ---- When the acknowledgement fails -------------------------------------------

  /** The relay never gives one identifier to two blobs. */
  ghost predicate Agree(a: seq<Mail>, b: seq<Mail>) {
    forall m, n :: m in a && n in b && m.id == n.id ==> m == n
  }

  lemma {:induction false} FailedPollIs(d: Device, batch: seq<Mail>, clock: Clock, ack: AckReply, now: u64)
    requires !ack.Erased? && HandledIds(d, batch, clock) != []
    ensures Run(d, BatchProgram(d, batch, clock, ack, now)) == TakeIn(d, batch, clock)
  {
    BatchRuns(d, batch, clock, ack, now);
    SettleRuns(TakeIn(d, batch, clock), HandledIds(d, batch, clock), ack, now);
  }

  /**
   The acknowledgement fails after the batch was taken in: nothing is saved or purged, and no poll of the
   session ever handles, or acknowledges, any of what this one handled, whatever calls come in between.
  */
  lemma {:induction false} FailedAcknowledgeStrandsTheBatch(d: Device, batch: seq<Mail>, clock: Clock, ack: AckReply,
      now: u64, steps: seq<Step>,
                                       later: seq<Mail>, again: Clock)
    requires !ack.Erased? && HandledIds(d, batch, clock) != []
    requires Agree(batch, later) && forall i :: 0 <= i < |steps| ==> steps[i].Do?
    ensures var after := Run(d, BatchProgram(d, batch, clock, ack, now));
            && after == TakeIn(d, batch, clock)
            && forall id :: id in HandledIds(d, batch, clock) ==>
                 id !in HandledIds(AfterSteps(after, steps), later, again)
  {
    var after := TakeIn(d, batch, clock);
    var end := AfterSteps(after, steps);
    FailedPollIs(d, batch, clock, ack, now);
    HandledAreFinished(d, batch, clock);
    forall id | id in HandledIds(d, batch, clock) ensures id !in HandledIds(end, later, again) {
      var m :| m in batch && m.id == id && UsedUp(after.mls, m.blob);
      SessionKeepsUsedUp(after, steps, m.blob);
      assert forall n :: n in later && n.id == id ==> n == m;
      NotHandledAgain(end, later, again, id);
    }
  }

  /** What the first pass joined is used up on disk as well. */
  lemma {:induction false} JoinedForGood(d: Device, batch: seq<Mail>, clock: Clock, id: Ident) returns (m: Mail)
    requires Current(d) && id in JoinedIds(d.mls, batch)
    ensures m in batch && m.id == id && UsedUpForGood(TakeIn(d, batch, clock), m.blob)
  {
    var mid := Polls.Joined(d, batch);
    JoinsKeepCurrent(d, batch);
    Polls.JoinsOpen(d, batch);
    Polls.TakeInIs(d, batch, clock);
    JoinedAreFinished(d.mls, batch);
    m :| m in batch && m.id == id && UsedUp(mid.mls, m.blob);
    ReadsKeepUsedUpForGood(mid, batch, clock, m.blob);
  }

  lemma {:induction false} ReadsKeepUsedUpForGood(d: Device, todo: seq<Mail>, clock: Clock, b: Blob)
    requires UsedUpForGood(d, b)
    ensures UsedUpForGood(ReadAll(d, todo, clock), b)
  {
    var p := ReadAllProgram(d, todo, clock);
    ReadsTake(d, todo, clock);
    KindsAreOrdinary(p);
    assert All(p, Receives);
    UsedUpForGoodStays(d, p, b);
    RunReadAll(d, todo, clock);
  }

  /**
   A Welcome joined in such a poll is stranded for good: no session ever handles it again, restarts and crashes
   included.
  */
  lemma {:induction false} FailedAcknowledgeStrandsWelcomesForGood(d: Device, batch: seq<Mail>, clock: Clock,
      ack: AckReply, now: u64, steps: seq<Step>,
                                       later: seq<Mail>, again: Clock)
    requires Current(d) && !ack.Erased? && HandledIds(d, batch, clock) != [] && Agree(batch, later)
    ensures var after := Run(d, BatchProgram(d, batch, clock, ack, now));
            forall id :: id in JoinedIds(d.mls, batch) ==> id !in HandledIds(AfterSteps(after, steps), later, again)
  {
    var after := TakeIn(d, batch, clock);
    FailedPollIs(d, batch, clock, ack, now);
    forall id | id in JoinedIds(d.mls, batch) ensures id !in HandledIds(AfterSteps(after, steps), later, again) {
      var m := JoinedForGood(d, batch, clock, id);
      SessionKeepsUsedUpForGood(after, steps, m.blob);
      assert forall n :: n in later && n.id == id ==> n == m;
      NotHandledAgain(AfterSteps(after, steps), later, again, id);
    }
  }

  // ---- Exactly when memory runs ahead of disk ------------------------------------

  lemma {:induction false} NothingOpens(d: Device, todo: seq<Mail>, clock: Clock)
    requires forall m :: m in todo ==> !Opens(d, m.blob)
    ensures ReadAll(d, todo, clock) == d
    decreases |todo|
  {
    if todo != [] {
      assert todo[0] in todo;
      assert ReadOne(d, todo[0], clock) == d;
      NothingOpens(d, todo[1..], clock);
    }
  }

  lemma {:induction false} OpeningMovesTheRatchets(d: Device, todo: seq<Mail>, clock: Clock, m: Mail)
    requires m in todo && Opens(d, m.blob)
    ensures ReadAll(d, todo, clock).mls != d.mls
    decreases |todo|
  {
    if Opens(d, todo[0].blob) {
      ReadUsesUp(d, todo[0], clock);
      ReadsKeepUsedUp(ReadOne(d, todo[0], clock), todo[1..], clock, todo[0].blob);
    } else {
      assert ReadOne(d, todo[0], clock) == d;
      OpeningMovesTheRatchets(d, todo[1..], clock, m);
    }
  }

  lemma {:induction false} ReadsKeepSnapshot(d: Device, todo: seq<Mail>, clock: Clock)
    ensures ReadAll(d, todo, clock).db.mls == d.db.mls
  {
    var p := ReadAllProgram(d, todo, clock);
    ReadsTake(d, todo, clock);
    SnapshotUntouched(d, p);
    RunReadAll(d, todo, clock);
  }

  /**
   After a poll of a device in step, the saved snapshot equals the ratchets in memory if and only if the
   acknowledgement succeeded, or nothing was handled, or the second pass had nothing it could open.
  */
  lemma {:induction false} AnAcknowledgedPollKeepsCurrent(d: Device, batch: seq<Mail>, clock: Clock, ack: AckReply,
      now: u64)
    requires Current(d)
    ensures var after := Run(d, BatchProgram(d, batch, clock, ack, now));
            var kept := ack.Erased? || HandledIds(d, batch, clock) == [] || forall m :: m in batch ==>
              !Opens(Polls.Joined(d, batch), m.blob);
            (after.db.mls == Some(after.mls) <==> kept) && (kept ==> Current(after))
  {
    if ack.Erased? || HandledIds(d, batch, clock) == [] {
      SettledPollKeepsCurrent(d, batch, clock, ack, now);
    } else {
      var mid := Polls.Joined(d, batch);
      FailedPollIs(d, batch, clock, ack, now);
      Polls.TakeInIs(d, batch, clock);
      JoinsKeepCurrent(d, batch);
      ReadsKeepSnapshot(mid, batch, clock);
      if m :| m in batch && Opens(mid, m.blob) {
        OpeningMovesTheRatchets(mid, batch, clock, m);
      } else {
        NothingOpens(mid, batch, clock);
      }
    }
  }

  // ---- What the second pass stores ------------------------------------------------

  /** The second pass decides by the ratchets and the set of live conversations alone. */
  lemma {:induction false} SameReads(x: Device, y: Device, todo: seq<Mail>, cx: Clock, cy: Clock)
    requires Sound(x) && Sound(y) && x.mls == y.mls && x.live.Keys == y.live.Keys
    ensures ReadIds(x, todo, cx) == ReadIds(y, todo, cy)
    decreases |todo|
  {
    if todo != [] {
      ReadMoves(x, todo[0], cx);
      ReadMoves(y, todo[0], cy);
      SameReads(ReadOne(x, todo[0], cx), ReadOne(y, todo[0], cy), todo[1..], cx, cy);
    }
  }

  /** A row under this identifier, stored at this poll's reading of the clock. */
  predicate StoredNow(db: Db, clock: Clock, id: Ident) {
    id in db.messages && db.messages[id].at == AsI64(clock.stored(id))
  }

  lemma {:induction false} StoredStays(d: Device, todo: seq<Mail>, clock: Clock, id: Ident)
    requires Sound(d) && StoredNow(d.db, clock, id)
    ensures StoredNow(ReadAll(d, todo, clock).db, clock, id)
    decreases |todo|
  {
    if todo != [] {
      ReadOneIs(d, todo[0], clock);
      ReadOneSound(d, todo[0], clock);
      StoredStays(ReadOne(d, todo[0], clock), todo[1..], clock, id);
    }
  }

  /** Every text the second pass reads has its row, dated by this poll. */
  lemma {:induction false} ReadTextsAreStored(d: Device, todo: seq<Mail>, clock: Clock, m: Mail)
    requires Sound(d) && m in todo && Polls.IsText(m.blob) && m.id in ReadIds(d, todo, clock) && Polls.DistinctIds(todo)
    ensures StoredNow(ReadAll(d, todo, clock).db, clock, m.id)
    decreases |todo|
  {
    var next := ReadOne(d, todo[0], clock);
    ReadOneIs(d, todo[0], clock);
    ReadOneSound(d, todo[0], clock);
    IdsComeFromMail(next, todo[1..], clock);
    if m == todo[0] {
      assert forall n :: n in todo[1..] ==> n.id != m.id;
      assert m.id !in ReadIds(next, todo[1..], clock);
      StoredStays(next, todo[1..], clock, m.id);
    } else {
      assert m in todo[1..];
      assert m.id != todo[0].id;
      ReadTextsAreStored(next, todo[1..], clock, m);
    }
  }

  lemma {:induction false} IdsComeFromMail(d: Device, todo: seq<Mail>, clock: Clock)
    ensures forall id :: id in ReadIds(d, todo, clock) ==> exists n :: n in todo && n.id == id
    decreases |todo|
  {
    if todo != [] {
      IdsComeFromMail(ReadOne(d, todo[0], clock), todo[1..], clock);
      assert todo == [todo[0]] + todo[1..];
    }
  }

  /** What was joined and saved is not joined again. */
  lemma {:induction false} JoinedOnce(d: Device, r: Device, batch: seq<Mail>)
    requires r.mls == Polls.Joined(d, batch).mls
    ensures Polls.Joined(r, batch) == r
  {
    Polls.JoinsOpen(d, batch);
    SpendingAll(d.mls, batch);
    NothingLeftToJoin(r.mls, batch);
  }
}
