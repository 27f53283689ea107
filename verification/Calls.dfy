/**
 The application calls, and whole sessions of them: completed calls, restarts between calls, and crashes
 after any number of a call's effects.
*/
module Calls {
  import opened Basics
  import opened Mls
  import opened Tables
  import opened Client
  import StoreRules

  /** One call, with what the clock, the random source and the network contribute to it. */
  datatype Call =
    | SendMessage(c: Ident, body: string, posts: seq<PostReply>, localId: Ident, at: u64, queuedAt: u64)
    | AddContact(name: string, invite: Invite, group: Ident, posts: seq<PostReply>)
    | FlushOutbox(posts: seq<PostReply>)
    | ReceiveMessages(posts: seq<PostReply>, batch: Option<seq<Mail>>, clock: Clock, ack: AckReply, now: u64)
    | InviteCode(keyPackage: nat)
    | VerifyContact(id: Ident, verified: bool)
    | AcknowledgeIdentityChange(id: Ident)
    | SetRetentionPolicy(policy: RetentionPolicy, now: u64)
    | SetDisappearingMessages(c: Ident, seconds: Option<u64>, now: u64)
    | PurgeExpired(now: u64)

  function Stored(seconds: Option<u64>): Option<int> {
    match seconds case None => None case Some(s) => Some(AsI64(s))
  }

  function Program(d: Device, call: Call): seq<Effect> {
    match call
    case SendMessage(c, body, posts, localId, at, queuedAt) => SendProgram(d, c, body, posts, localId, at, queuedAt)
    case AddContact(name, invite, group, posts) => AddContactProgram(d, name, invite, group, posts)
    case FlushOutbox(posts) => Flush(d.db, posts)
    case ReceiveMessages(posts, batch, clock, ack, now) => ReceiveProgram(d, posts, batch, clock, ack, now)
    case InviteCode(keyPackage) => InviteProgram(keyPackage)
    case VerifyContact(id, verified) => [Sql(SetVerified(id, verified))]
    case AcknowledgeIdentityChange(id) => [Sql(AcknowledgeChange(id))]
    case SetRetentionPolicy(policy, now) => SettingProgram(d.db, PutSetting(RETENTION, policy.AsStr()), now)
    case SetDisappearingMessages(c, seconds, now) =>
      if c in d.db.conversations then SettingProgram(d.db, SetDisappearAfter(c, Stored(seconds)), now) else []
    case PurgeExpired(now) => Sqls(PurgeProgram(d.db, now))
  }

  /** A retention setting takes effect at once. */
  function SettingProgram(db: Db, setting: Stmt, now: u64): seq<Effect> {
    [Sql(setting)] + Sqls(PurgeProgram(Exec(db, setting), now))
  }

  /** Random identifiers do not collide with ones in use. */
  predicate Fresh(d: Device, call: Call) {
    match call
    case SendMessage(_, _, _, localId, _, _) => localId !in d.db.outbox && localId !in d.db.messages
    case AddContact(_, _, group, _) => group !in d.mls.groups && group !in d.db.conversations
    case _ => true
  }

  /** Calls that complete, one after the other. */
  function AfterCalls(d: Device, calls: seq<Call>): Device
    decreases |calls|
  {
    if calls == [] then d else AfterCalls(Run(d, Program(d, calls[0])), calls[1..])
  }

  /** A call that completes, a restart between calls, or a crash after `k` effects followed by a restart. */
  datatype Step =
    | Do(call: Call)
    | Restart(now: u64)
    | Crash(call: Call, k: nat, now: u64)

  function Reopen(d: Device, now: u64): Device {
    if CanOpen(d.db) then Opened(d.db, now) else d
  }

  function Prefix(p: seq<Effect>, k: nat): seq<Effect> {
    if k <= |p| then p[..k] else p
  }

  /** The effects a step carries out before any restart. */
  function Effects(d: Device, s: Step): seq<Effect> {
    match s
    case Do(call) => Program(d, call)
    case Restart(_) => []
    case Crash(call, k, _) => Prefix(Program(d, call), k)
  }

  function AfterStep(d: Device, s: Step): Device {
    var done := Run(d, Effects(d, s));
    if s.Do? then done else Reopen(done, s.now)
  }

  function AfterSteps(d: Device, steps: seq<Step>): Device
    decreases |steps|
  {
    if steps == [] then d else AfterSteps(AfterStep(d, steps[0]), steps[1..])
  }

  /** The identifiers each call of a session draws are fresh when it draws them. */
  predicate FreshThroughout(d: Device, steps: seq<Step>)
    decreases |steps|
  {
    || steps == []
    || ((!steps[0].Restart? ==> Fresh(d, steps[0].call)) && FreshThroughout(AfterStep(d, steps[0]), steps[1..]))
  }

  // ---- What every program is made of --------------------------------------

  /** No call deletes the database, rewrites the identity, or inserts a contact as verified. */
  predicate Ordinary(e: Effect) {
    && (e.Sql? ==> StoreRules.Routine(e.stmt) && !e.stmt.Clear? && !e.stmt.PutIdentity? && !e.stmt.PutMlsState?)
    && !e.ClearLive?
  }

  predicate AllOrdinary(p: seq<Effect>) {
    forall i :: 0 <= i < |p| ==> Ordinary(p[i])
  }

  /** No message is encrypted, posted, queued or dequeued. */
  predicate Local(e: Effect) {
    Ordinary(e) && !e.Advance? && (e.Post? ==> !e.blob.Application?)
    && !(e.Sql? && (e.stmt.Enqueue? || e.stmt.Dequeue?))
  }

  predicate AllLocal(p: seq<Effect>) {
    forall i :: 0 <= i < |p| ==> Local(p[i])
  }

  /** A contact, unverified, or a conversation with one. */
  predicate Registering(s: Stmt) {
    (s.InsertContact? && !s.contact.verified) || s.PutConversation?
  }

  /** What posting a message is made of. */
  predicate Posting(e: Effect) {
    || e.Advance? || e.Post? || e.Persist?
    || (e.Sql? && (e.stmt.PutMessage? || e.stmt.Enqueue? || e.stmt.Dequeue? || e.stmt.RecordAttempt?))
  }

  /** What opening a conversation adds to that. */
  predicate Introducing(e: Effect) {
    Posting(e) || e.Create? || e.SetPeer? || (e.Sql? && Registering(e.stmt))
  }

  /** The first pass over a batch, the second, and what follows them. */
  predicate Joining(e: Effect) {
    e.Join? || e.SetPeer? || e.Persist? || (e.Sql? && Registering(e.stmt))
  }

  predicate Taking(e: Effect) {
    || e.Decrypt? || e.SetPeer?
    || (e.Sql? && (Registering(e.stmt) || e.stmt.SwapKey? || e.stmt.NoteChange? || e.stmt.PutMessage?))
  }

  predicate Settling(e: Effect) {
    e.Ack? || e.Persist? || (e.Sql? && (e.stmt.PurgeMessages? || e.stmt.PurgeOutbox?))
  }

  predicate Receiving(e: Effect) {
    Joining(e) || Taking(e) || Settling(e)
  }

  /** What the calls that neither send nor receive are made of. */
  predicate Upkeep(e: Effect) {
    || e.AddKeyPackage? || e.Persist?
    || (e.Sql? && (e.stmt.SetVerified? || e.stmt.AcknowledgeChange? || e.stmt.PutSetting? || e.stmt.SetDisappearAfter?
                   || e.stmt.PurgeMessages? || e.stmt.PurgeOutbox?))
  }

  predicate All(p: seq<Effect>, kind: Effect -> bool) {
    forall i :: 0 <= i < |p| ==> kind(p[i])
  }

  lemma {:induction false} FlushPosts(box: map<Ident, Queued>, order: seq<Ident>, posts: seq<PostReply>)
    requires forall i :: 0 <= i < |order| ==> order[i] in box
    ensures All(FlushProgram(box, order, posts), Posting)
    decreases |order|
  {
    if order != [] && FirstReply(posts).Accepted? {
      FlushPosts(box, order[1..], RestReplies(posts));
    }
  }

  lemma {:induction false} SendPosts(d: Device, c: Ident, body: string, posts: seq<PostReply>, localId: Ident, at: u64,
      queuedAt: u64)
    ensures All(SendProgram(d, c, body, posts, localId, at, queuedAt), Posting)
  {
    FlushPosts(d.db.outbox, QueuedOrder(d.db), posts);
    OwnPostPosts(d, c, body, FirstReply(AfterFlush(|QueuedOrder(d.db)|, posts)), localId, at, queuedAt);
  }

  lemma {:induction false} OwnPostPosts(d: Device, c: Ident, body: string, reply: PostReply, localId: Ident, at: u64,
      queuedAt: u64)
    ensures All(OwnPostProgram(d, c, body, reply, localId, at, queuedAt), Posting)
  {
  }

  lemma {:induction false} AddContactIntroduces(d: Device, name: string, invite: Invite, group: Ident,
      posts: seq<PostReply>)
    ensures All(AddContactProgram(d, name, invite, group, posts), Introducing)
  {
  }

  lemma {:induction false} JoinsJoin(mls: State, batch: seq<Mail>)
    ensures All(JoinAllProgram(mls, batch), Joining)
    decreases |batch|
  {
    if batch != [] {
      JoinsJoin(MlsAfter(mls, batch[0].blob), batch[1..]);
    }
  }

  lemma {:induction false} ReadTakes(d: Device, mail: Mail, clock: Clock)
    ensures All(ReadProgram(d, mail, clock), Taking)
  {
  }

  lemma {:induction false} ReadsTake(d: Device, todo: seq<Mail>, clock: Clock)
    ensures All(ReadAllProgram(d, todo, clock), Taking)
    decreases |todo|
  {
    if todo != [] {
      ReadTakes(d, todo[0], clock);
      ReadsTake(ReadOne(d, todo[0], clock), todo[1..], clock);
    }
  }

  lemma {:induction false} SettleSettles(db: Db, handled: seq<Ident>, ack: AckReply, now: u64)
    ensures All(SettleProgram(db, handled, ack, now), Settling)
  {
  }

  lemma {:induction false} Concat(a: seq<Effect>, b: seq<Effect>, kind: Effect -> bool, other: Effect -> bool,
      either: Effect -> bool)
    requires All(a, kind) && All(b, other) && forall e :: kind(e) || other(e) ==> either(e)
    ensures All(a + b, either)
  {
  }

  lemma {:induction false} BatchReceives(d: Device, batch: seq<Mail>, clock: Clock, ack: AckReply, now: u64)
    ensures All(BatchProgram(d, batch, clock, ack, now), Receiving)
  {
    var joins := JoinAllProgram(d.mls, batch);
    var takes := ReadAllProgram(Run(d, joins), Unjoined(d.mls, batch), clock);
    var settle := SettleProgram(TakeIn(d, batch, clock).db, HandledIds(d, batch, clock), ack, now);
    JoinsJoin(d.mls, batch);
    ReadsTake(Run(d, joins), Unjoined(d.mls, batch), clock);
    SettleSettles(TakeIn(d, batch, clock).db, HandledIds(d, batch, clock), ack, now);
    Concat(joins, takes, Joining, Taking, Receiving);
    Concat(joins + takes, settle, Receiving, Settling, Receiving);
  }

  lemma {:induction false} BatchLocal(d: Device, batch: seq<Mail>, clock: Clock, ack: AckReply, now: u64)
    ensures AllLocal(BatchProgram(d, batch, clock, ack, now))
  {
    BatchReceives(d, batch, clock, ack, now);
    KindsAreOrdinary(BatchProgram(d, batch, clock, ack, now));
  }

  predicate Receives(e: Effect) {
    Posting(e) || Receiving(e)
  }

  lemma {:induction false} ReceiveReceives(d: Device, posts: seq<PostReply>, batch: Option<seq<Mail>>, clock: Clock,
      ack: AckReply, now: u64)
    ensures All(ReceiveProgram(d, posts, batch, clock, ack, now), Receives)
  {
    FlushPosts(d.db.outbox, QueuedOrder(d.db), posts);
    if batch.Some? {
      BatchReceives(Run(d, Flush(d.db, posts)), batch.value, clock, ack, now);
    }
  }

  /** The calls that neither send nor receive. */
  lemma {:induction false} UpkeepUpkeeps(d: Device, call: Call)
    requires !call.SendMessage? && !call.AddContact? && !call.FlushOutbox? && !call.ReceiveMessages?
    ensures All(Program(d, call), Upkeep)
  {
  }

  lemma {:induction false} UpkeepIsLocal(d: Device, call: Call)
    requires !call.SendMessage? && !call.AddContact? && !call.FlushOutbox? && !call.ReceiveMessages?
    ensures AllLocal(Program(d, call))
  {
    UpkeepUpkeeps(d, call);
    KindsAreOrdinary(Program(d, call));
  }

  lemma {:induction false} KindsAreOrdinary(p: seq<Effect>)
    ensures All(p, Introducing) || All(p, Receives) ==> AllOrdinary(p)
    ensures All(p, Receiving) || All(p, Upkeep) ==> AllLocal(p)
  {
  }

  lemma {:induction false} ProgramsAreOrdinary(d: Device, call: Call)
    ensures AllOrdinary(Program(d, call))
  {
    KindsAreOrdinary(Program(d, call));
    match call
    case SendMessage(c, body, posts, localId, at, queuedAt) => SendPosts(d, c, body, posts, localId, at, queuedAt);
    case AddContact(name, invite, group, posts) => AddContactIntroduces(d, name, invite, group, posts);
    case FlushOutbox(posts) => FlushPosts(d.db.outbox, QueuedOrder(d.db), posts);
    case ReceiveMessages(posts, batch, clock, ack, now) => ReceiveReceives(d, posts, batch, clock, ack, now);
    case _ => UpkeepUpkeeps(d, call);
  }
}
