/** Key changes the user is never told of. */
module SilentChanges {
  import opened Basics
  import opened Mls
  import opened Tables
  import opened StoreRules
  import opened Client
  import opened Calls
  import opened OutboxRules
  import Reading
  import Restarts
  import Repoll
  import ProgramRuns
  import Polls
  import TrustRules

  // ---- Exactly when a crash hides a change ---------------------------------------

  /** The contact a message is attributed to. */
  function ContactOf(d: Device, m: Mail): Ident
    requires m.blob.Application? && m.blob.group in d.db.conversations
  {
    d.db.conversations[m.blob.group].contact
  }

  /** A message this device handles, from a key other than the one stored for its contact. */
  ghost predicate BringsNewKey(d: Device, m: Mail) {
    && Restarts.Steady(d) && Handles(d, m.blob)
    && d.db.contacts[ContactOf(d, m)].publicKey != m.blob.sender
  }

  lemma {:induction false} ReadBegins(d: Device, m: Mail, clock: Clock)
    requires BringsNewKey(d, m)
    ensures var p := ReadProgram(d, m, clock);
            var id := ContactOf(d, m);
            && |p| > 3 && p[0] == Decrypt(m.blob.group, m.blob.generation)
            && p[1] == Sql(SwapKey(id, m.blob.sender))
            && p[2] == Sql(NoteChange(id, d.db.contacts[id].publicKey, AsI64(clock.noticed(m.id))))
            && Run(d, p[..1]).db == d.db
            && Run(d, p[..2]).db == Exec(d.db, p[1].stmt)
            && Run(d, p[..3]).db == Exec(Exec(d.db, p[1].stmt), p[2].stmt)
  {
    var p := ReadProgram(d, m, clock);
    assert p[..0] == [];
    Repoll.PrefixStep(d, p, 0);
    Repoll.PrefixStep(d, p, 1);
    Repoll.PrefixStep(d, p, 2);
  }

  lemma {:induction false} NotedByThen(d: Device, m: Mail, clock: Clock, k: nat)
    requires BringsNewKey(d, m) && 3 <= k <= |ReadProgram(d, m, clock)|
    ensures Unanswered(Run(d, ReadProgram(d, m, clock)[..k]).db, ContactOf(d, m))
  {
    var p := ReadProgram(d, m, clock);
    var id := ContactOf(d, m);
    ReadBegins(d, m, clock);
    assert Unanswered(Run(d, p[..3]).db, id);
    TakingAnswersNothing(d, m, clock, 3, k, id);
    assert p[..k] == p[..3] + p[3..k];
    RunConcat(d, p[..3], p[3..k]);
    TrustRules.WarningKeptByRun(Run(d, p[..3]), id, p[3..k]);
  }

  lemma {:induction false} TakingAnswersNothing(d: Device, m: Mail, clock: Clock, j: nat, k: nat, id: Ident)
    requires j <= k <= |ReadProgram(d, m, clock)|
    ensures var p := ReadProgram(d, m, clock)[j..k]; AllOrdinary(p) && forall i :: 0 <= i < |p| ==>
              p[i] != Sql(AcknowledgeChange(id))
  {
    ReadTakes(d, m, clock);
  }

  /**
   A crash while a message under a new key is read, and a restart: the new key is in use with no warning if
   and only if the crash fell between the two statements of the replacement and no earlier change of that
   contact was still waiting for an answer.
  */
  lemma {:induction false} CrashInsideAReadLosesTheWarning(d: Device, m: Mail, clock: Clock, k: nat, now: u64)
    requires BringsNewKey(d, m) && k <= |ReadProgram(d, m, clock)|
    ensures var r := Reopen(Run(d, ReadProgram(d, m, clock)[..k]), now);
            ChangedSilently(r.db, ContactOf(d, m), m.blob.sender) <==> k == 2 && !Unanswered(d.db, ContactOf(d, m))
  {
    var p := ReadProgram(d, m, clock);
    ReadBegins(d, m, clock);
    TrustRules.ReopenKeepsContacts(Run(d, p[..k]), now);
    if k == 0 {
      assert p[..0] == [];
    } else if k >= 3 {
      NotedByThen(d, m, clock, k);
    }
  }

  // ---- And how long it stays hidden -----------------------------------------------

  /** The statements that would bring a warning for this contact. */
  predicate Replaces(e: Effect, id: Ident) {
    e.Sql? && ((e.stmt.SwapKey? && e.stmt.id == id) || (e.stmt.NoteChange? && e.stmt.id == id))
  }

  predicate NoneReplaces(p: seq<Effect>, id: Ident) {
    forall i :: 0 <= i < |p| ==> !Replaces(p[i], id)
  }

  /** Of the messages polled, those addressed to a conversation of the contact come from this key. */
  ghost predicate HeardOnlyFrom(d: Device, call: Call, id: Ident, key: Bytes) {
    call.ReceiveMessages? && call.batch.Some? ==>
      var x := Polls.Joined(Run(d, Flush(d.db, call.posts)), call.batch.value);
      forall m :: m in call.batch.value && Polls.Addressed(x, m.blob) && AttributedTo(x, m, id) ==> m.blob.sender == key
  }

  predicate AttributedTo(d: Device, m: Mail, id: Ident) {
    m.blob.Application? && m.blob.group in d.db.conversations && ContactOf(d, m) == id
  }

  ghost predicate HeardOnlyFromThroughout(d: Device, steps: seq<Step>, id: Ident, key: Bytes)
    decreases |steps|
  {
    steps == []
    || ((!steps[0].Restart? ==> HeardOnlyFrom(d, steps[0].call, id, key))
        && HeardOnlyFromThroughout(AfterStep(d, steps[0]), steps[1..], id, key))
  }

  lemma {:induction false} ReadReplacesNothing(d: Device, m: Mail, clock: Clock, id: Ident, key: Bytes)
    requires Sound(d) && id in d.db.contacts && d.db.contacts[id].publicKey == key
    requires Polls.Addressed(d, m.blob) && AttributedTo(d, m, id) ==> m.blob.sender == key
    ensures NoneReplaces(ReadProgram(d, m, clock), id)
    ensures var after := ReadOne(d, m, clock).db; id in after.contacts && after.contacts[id].publicKey == key
  {
    Reading.ReadOneIs(d, m, clock);
  }

  lemma {:induction false} ReadsReplaceNothing(x: Device, d: Device, todo: seq<Mail>, clock: Clock, id: Ident,
      key: Bytes)
    requires Sound(d) && id in d.db.contacts && d.db.contacts[id].publicKey == key
    requires SameAddressing(x, d)
    requires forall m :: m in todo && Polls.Addressed(x, m.blob) && AttributedTo(x, m, id) ==> m.blob.sender == key
    ensures NoneReplaces(ReadAllProgram(d, todo, clock), id)
    decreases |todo|
  {
    if todo != [] {
      var m := todo[0];
      assert m in todo;
      var next := ReadOne(d, m, clock);
      ReadReplacesNothing(d, m, clock, id, key);
      Reading.ReadOneSound(d, m, clock);
      ReadKeepsAddressing(d, m, clock);
      ReadsReplaceNothing(x, next, todo[1..], clock, id, key);
    }
  }

  /** The same conversations are live, with the same peers and contacts. */
  ghost predicate SameAddressing(x: Device, y: Device) {
    && x.live.Keys == y.live.Keys && x.db.conversations == y.db.conversations && x.mls.me == y.mls.me
    && x.mls.groups.Keys == y.mls.groups.Keys
    && forall c :: c in x.mls.groups ==> x.mls.groups[c].peer == y.mls.groups[c].peer
  }

  lemma {:induction false} ReadKeepsAddressing(d: Device, m: Mail, clock: Clock)
    requires Sound(d)
    ensures SameAddressing(d, ReadOne(d, m, clock))
  {
    Reading.ReadOneIs(d, m, clock);
    Reading.ReadOneSound(d, m, clock);
  }

  lemma {:induction false} JoinsKeepKeys(d: Device, batch: seq<Mail>, id: Ident, key: Bytes)
    requires ChangedSilently(d.db, id, key)
    ensures ChangedSilently(Polls.Joined(d, batch).db, id, key) && NoneReplaces(JoinAllProgram(d.mls, batch), id)
  {
    var p := JoinAllProgram(d.mls, batch);
    JoinsJoin(d.mls, batch);
    SilentRun(d, p, id, key);
  }

  lemma {:induction false} SilentRun(d: Device, p: seq<Effect>, id: Ident, key: Bytes)
    requires ChangedSilently(d.db, id, key) && AllOrdinary(p) && NoneReplaces(p, id)
    ensures ChangedSilently(Run(d, p).db, id, key)
    decreases |p|
  {
    if p != [] {
      assert Ordinary(p[0]) && !Replaces(p[0], id);
      if p[0].Sql? {
        SilentStep(d.db, id, key, p[0].stmt);
      }
      SilentRun(Apply(d, p[0]), p[1..], id, key);
    }
  }

  lemma {:induction false} BatchReplacesNothing(d: Device, batch: seq<Mail>, clock: Clock, ack: AckReply, now: u64,
      id: Ident, key: Bytes)
    requires Restarts.Steady(d) && ChangedSilently(d.db, id, key)
    requires var x := Polls.Joined(d, batch);
             forall m :: m in batch && Polls.Addressed(x, m.blob) && AttributedTo(x, m, id) ==> m.blob.sender == key
    ensures NoneReplaces(BatchProgram(d, batch, clock, ack, now), id)
  {
    var x := Polls.Joined(d, batch);
    var todo := Unjoined(d.mls, batch);
    JoinsKeepKeys(d, batch, id, key);
    Restarts.JoinsSteady(d, batch);
    UnjoinedIsMail(d.mls, batch);
    ReadsReplaceNothing(x, x, todo, clock, id, key);
    SettleSettles(TakeIn(d, batch, clock).db, HandledIds(d, batch, clock), ack, now);
    NoneInThree(JoinAllProgram(d.mls, batch), ReadAllProgram(x, todo, clock),
                SettleProgram(TakeIn(d, batch, clock).db, HandledIds(d, batch, clock), ack, now), id);
  }

  lemma {:induction false} NoneInThree(joins: seq<Effect>, takes: seq<Effect>, settle: seq<Effect>, id: Ident)
    requires NoneReplaces(joins, id) && NoneReplaces(takes, id) && All(settle, Settling)
    ensures NoneReplaces(joins + takes + settle, id)
  {
  }

  lemma {:induction false} UnjoinedIsMail(mls: State, batch: seq<Mail>)
    ensures forall m :: m in Unjoined(mls, batch) ==> m in batch
    decreases |batch|
  {
    if batch != [] {
      UnjoinedIsMail(MlsAfter(mls, batch[0].blob), batch[1..]);
    }
  }

  lemma {:induction false} CallReplacesNothing(d: Device, call: Call, id: Ident, key: Bytes)
    requires Restarts.Steady(d) && ChangedSilently(d.db, id, key) && HeardOnlyFrom(d, call, id, key)
    ensures NoneReplaces(Program(d, call), id)
  {
    match call
    case SendMessage(c, body, posts, localId, at, queuedAt) => SendPosts(d, c, body, posts, localId, at, queuedAt);
    case AddContact(name, invite, group, posts) => AddContactIntroduces(d, name, invite, group, posts);
    case FlushOutbox(posts) => Calls.FlushPosts(d.db.outbox, QueuedOrder(d.db), posts);
    case ReceiveMessages(posts, batch, clock, ack, now) => PollReplacesNothing(d, call, id, key);
    case _ => UpkeepUpkeeps(d, call);
  }

  lemma {:induction false} PollReplacesNothing(d: Device, call: Call, id: Ident, key: Bytes)
    requires Restarts.Steady(d) && ChangedSilently(d.db, id, key) && call.ReceiveMessages?
    requires HeardOnlyFrom(d, call, id, key)
    ensures NoneReplaces(ReceiveProgram(d, call.posts, call.batch, call.clock, call.ack, call.now), id)
  {
    var flush := Flush(d.db, call.posts);
    Calls.FlushPosts(d.db.outbox, QueuedOrder(d.db), call.posts);
    if call.batch.Some? {
      Restarts.FlushSteady(d, call.posts);
      SilentRun(d, flush, id, key);
      BatchReplacesNothing(Run(d, flush), call.batch.value, call.clock, call.ack, call.now, id, key);
    }
  }

  lemma {:induction false} StepStaysSilent(d: Device, s: Step, id: Ident, key: Bytes)
    requires Restarts.Steady(d) && ChangedSilently(d.db, id, key) && (!s.Restart? ==> HeardOnlyFrom(d, s.call, id, key))
    ensures ChangedSilently(AfterStep(d, s).db, id, key)
  {
    var p := Effects(d, s);
    if !s.Restart? {
      CallReplacesNothing(d, s.call, id, key);
    }
    TrustRules.EffectsAreOrdinary(d, s);
    SilentRun(d, p, id, key);
    TrustRules.ReopenKeepsContacts(Run(d, p), if s.Do? then 0 else s.now);
  }

  /**
   From then on no warning comes, through any calls, restarts and crashes, for as long as the contact is
   heard from under that key: the lost one is lost for good.
  */
  lemma {:induction false} TheLostWarningNeverComes(d: Device, id: Ident, key: Bytes, steps: seq<Step>)
    requires Restarts.Steady(d) && FreshThroughout(d, steps)
    requires ChangedSilently(d.db, id, key) && HeardOnlyFromThroughout(d, steps, id, key)
    ensures var after := AfterSteps(d, steps).db;
            ChangedSilently(after, id, key) && IdentityStateOf(after, id) != KeyChanged
    decreases |steps|
  {
    if steps != [] {
      StepStaysSilent(d, steps[0], id, key);
      Restarts.StepSteady(d, steps[0]);
      TheLostWarningNeverComes(AfterStep(d, steps[0]), id, key, steps[1..]);
    }
  }
}
