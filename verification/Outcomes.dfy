/** What each call comes to, as its caller sees it. */
module Outcomes {
  import opened Basics
  import opened Mls
  import opened Tables
  import opened RelayStore
  import opened Client
  import opened Calls
  import opened OutboxRules
  import opened Reading
  import opened Restarts
  import opened ProgramRuns
  import opened StoreRules
  import Acknowledging
  import Polls
  import Repoll
  import Storage

  // ---- Sending ---------------------------------------------------------------------

  /** The answer a send's own post gets, once the flush has used up its share of the script. */
  function OwnReply(d: Device, call: Call): PostReply
    requires call.SendMessage?
  {
    FirstReply(AfterFlush(|QueuedOrder(d.db)|, call.posts))
  }

  /** The ciphertext a send makes: its body, from this device, at the conversation's next generation. */
  function OwnBlob(d: Device, call: Call): Blob
    requires call.SendMessage? && call.c in d.mls.groups
  {
    Application(call.c, d.mls.me, d.mls.groups[call.c].next, Readable(Text(call.body)))
  }

  /** The tables after a send, beside what the flush did: the message, and the ciphertext if it was not accepted. */
  function SentTables(d: Device, call: Call, flushed: map<Ident, Queued>, mls: State): Db
    requires call.SendMessage? && CanSend(d, call.c)
  {
    var message := Message(call.c, Sent, call.body, AsI64(call.at));
    match OwnReply(d, call)
    case Accepted(id) =>
      d.db.(outbox := flushed, messages := d.db.messages[id := message], mls := Some(mls))
    case reply =>
      var queued := Queued(call.c, d.live[call.c].inbox, OwnBlob(d, call), AsI64(call.queuedAt), 1, Some(reply.error));
      d.db.(outbox := flushed[call.localId := queued], messages := d.db.messages[call.localId := message],
            mls := Some(mls))
  }

  predicate FiledAs(db: Db, id: Ident, message: Message) {
    id in db.messages && db.messages[id] == message
  }

  /**
   A send: posted to where the peer was last known to receive, under the peer's conversation; the message is filed
   under the relay's identifier if it was accepted and under the local one, with its ciphertext queued, if it was
   not; the counter moves by one and is saved.
  */
  lemma {:induction false} SendOutcome(d: Device, call: Call)
    requires call.SendMessage? && CanSend(d, call.c) && call.c in d.db.conversations
    ensures var after := Run(d, Program(d, call));
            var flushed := Run(d, Flush(d.db, call.posts)).db.outbox;
            && Post(d.live[call.c].inbox, OwnBlob(d, call), OwnReply(d, call)) in Program(d, call)
            && after.live == d.live && after.identity == d.identity
            && after.mls == d.mls.(groups := d.mls.groups[call.c :=
                                     d.mls.groups[call.c].(next := d.mls.groups[call.c].next + 1)])
            && after.db == SentTables(d, call, flushed, after.mls)
            && FiledAs(after.db, if OwnReply(d, call).Accepted? then OwnReply(d, call).id else call.localId,
                       Message(call.c, Sent, call.body, AsI64(call.at)))
            && (!OwnReply(d, call).Accepted? ==>
                  && call.localId in after.db.outbox
                  && after.db.outbox[call.localId] == Queued(call.c, d.live[call.c].inbox, OwnBlob(d, call),
                                                             AsI64(call.queuedAt), 1, Some(OwnReply(d, call).error)))
  {
    var flushed := Run(d, Flush(d.db, call.posts));
    var own := OwnPostProgram(d, call.c, call.body, OwnReply(d, call), call.localId, call.at, call.queuedAt);
    FlushRuns(d, d.db.outbox, QueuedOrder(d.db), call.posts);
    SendRuns(d, call.c, call.body, call.posts, call.localId, call.at, call.queuedAt);
    PostOutcome(d, flushed, call);
    assert own[1] in Flush(d.db, call.posts) + own;
  }

  /** What follows the flush. */
  lemma {:induction false} PostOutcome(d: Device, flushed: Device, call: Call)
    requires call.SendMessage? && CanSend(d, call.c) && call.c in d.db.conversations
    requires flushed == d.(db := d.db.(outbox := flushed.db.outbox))
    ensures var reply := OwnReply(d, call);
            var own := OwnPostProgram(flushed, call.c, call.body, reply, call.localId, call.at, call.queuedAt);
            Run(flushed, own) == d.(mls := Advanced(d.mls, call.c),
                                    db := SentTables(d, call, flushed.db.outbox, Advanced(d.mls, call.c)))
  {
    OwnPostRuns(flushed, call.c, call.body, OwnReply(d, call), call.localId, call.at, call.queuedAt);
    RecordRuns(flushed.(mls := Advanced(d.mls, call.c)), call.c, d.live[call.c].inbox, call.body, OwnBlob(d, call),
               OwnReply(d, call), call.localId, call.at, call.queuedAt);
  }

  // ---- What a poll hands to its caller -----------------------------------------------

  /** The row of a received text: under the envelope's identifier, in its conversation, dated when it was stored. */
  predicate IsRowOf(m: Mail, row: Storage.StoredMessage, clock: Clock) {
    && Polls.IsText(m.blob) && row.id == m.id
    && row.message == Message(m.blob.group, Received, m.blob.plaintext.payload.body, AsI64(clock.stored(m.id)))
  }

  predicate HasRow(db: Db, row: Storage.StoredMessage) {
    row.id in db.messages && db.messages[row.id] == row.message
  }

  /** The row came with this envelope, which was handled, and is in the table once all are read. */
  predicate Came(x: Device, todo: seq<Mail>, clock: Clock, m: Mail, row: Storage.StoredMessage) {
    && m in todo && m.id in ReadIds(x, todo, clock)
    && IsRowOf(m, row, clock) && HasRow(ReadAll(x, todo, clock).db, row)
  }

  lemma {:induction false} CameFirst(x: Device, todo: seq<Mail>, clock: Clock)
    requires Sound(x) && Polls.DistinctIds(todo) && todo != [] && RowFor(x, todo[0], clock).Some?
    ensures Came(x, todo, clock, todo[0], RowFor(x, todo[0], clock).value)
  {
    var next := ReadOne(x, todo[0], clock);
    FirstRowIsRead(x, todo[0], clock);
    ReadOneSound(x, todo[0], clock);
    assert forall n :: n in todo[1..] ==> n.id != todo[0].id;
    RowKept(next, todo[1..], clock, todo[0].id);
  }

  lemma {:induction false} CameLater(x: Device, todo: seq<Mail>, clock: Clock, m: Mail, row: Storage.StoredMessage)
    requires todo != [] && Came(ReadOne(x, todo[0], clock), todo[1..], clock, m, row)
    ensures Came(x, todo, clock, m, row)
  {
  }

  lemma {:induction false} RowsAreRead(x: Device, todo: seq<Mail>, clock: Clock, rows: seq<Storage.StoredMessage>,
      k: nat)
    returns (m: Mail)
    requires Sound(x) && Polls.DistinctIds(todo) && rows == RowsFor(x, todo, clock) && k < |rows|
    ensures Came(x, todo, clock, m, rows[k]) == true
    decreases |todo|
  {
    var next := ReadOne(x, todo[0], clock);
    var first, rest := Rows(RowFor(x, todo[0], clock)), RowsFor(next, todo[1..], clock);
    assert rows == first + rest;
    if k < |first| {
      m := todo[0];
      CameFirst(x, todo, clock);
    } else {
      ReadOneSound(x, todo[0], clock);
      m := RowsAreRead(next, todo[1..], clock, rest, k - |first|);
      CameLater(x, todo, clock, m, rows[k]);
    }
  }

  lemma {:induction false} FirstRowIsRead(x: Device, m: Mail, clock: Clock)
    requires Sound(x) && RowFor(x, m, clock).Some?
    ensures Handles(x, m.blob) && IsRowOf(m, RowFor(x, m, clock).value, clock)
    ensures HasRow(ReadOne(x, m, clock).db, RowFor(x, m, clock).value)
  {
    ReadOneIs(x, m, clock);
  }

  /** Reading other envelopes leaves a row as it is. */
  lemma {:induction false} RowKept(x: Device, todo: seq<Mail>, clock: Clock, id: Ident)
    requires Sound(x) && id in x.db.messages && forall m :: m in todo ==> m.id != id
    ensures var after := ReadAll(x, todo, clock).db.messages; id in after && after[id] == x.db.messages[id]
    decreases |todo|
  {
    if todo != [] {
      assert todo[0] in todo;
      RowKeptByOne(x, todo[0], clock, id);
      RowKept(ReadOne(x, todo[0], clock), todo[1..], clock, id);
    }
  }

  lemma {:induction false} RowKeptByOne(x: Device, m: Mail, clock: Clock, id: Ident)
    requires Sound(x) && id in x.db.messages && m.id != id
    ensures var after := ReadOne(x, m, clock);
            Sound(after) && id in after.db.messages && after.db.messages[id] == x.db.messages[id]
  {
    ReadOneIs(x, m, clock);
    ReadOneSound(x, m, clock);
  }

  predicate Returned(rows: seq<Storage.StoredMessage>, id: Ident) {
    exists k :: 0 <= k < |rows| && rows[k].id == id
  }

  lemma {:induction false} ReturnedInEither(a: seq<Storage.StoredMessage>, b: seq<Storage.StoredMessage>, id: Ident)
    requires Returned(a, id) || Returned(b, id)
    ensures Returned(a + b, id)
  {
    if k :| 0 <= k < |a| && a[k].id == id {
      assert (a + b)[k].id == id;
    } else {
      var k :| 0 <= k < |b| && b[k].id == id;
      assert (a + b)[|a| + k].id == id;
    }
  }

  lemma {:induction false} ReadTextsAreReturned(x: Device, todo: seq<Mail>, clock: Clock, m: Mail)
    requires Polls.DistinctIds(todo) && m in todo && Polls.IsText(m.blob) && m.id in ReadIds(x, todo, clock)
    ensures Returned(RowsFor(x, todo, clock), m.id) == true
    decreases |todo|
  {
    var next := ReadOne(x, todo[0], clock);
    var first := Rows(RowFor(x, todo[0], clock));
    if m == todo[0] {
      Acknowledging.IdsComeFromMail(next, todo[1..], clock);
      assert forall n :: n in todo[1..] ==> n.id != m.id;
      assert first[0].id == m.id;
    } else {
      assert m in todo[1..] && m.id != todo[0].id;
      ReadTextsAreReturned(next, todo[1..], clock, m);
    }
    ReturnedInEither(first, RowsFor(next, todo[1..], clock), m.id);
  }

  lemma {:induction false} UnjoinedAreSome(mls: State, batch: seq<Mail>)
    requires Polls.DistinctIds(batch)
    ensures Polls.DistinctIds(Unjoined(mls, batch))
    ensures forall m :: m in Unjoined(mls, batch) ==> m in batch
    ensures forall m :: m in batch && !m.blob.Welcome? ==> m in Unjoined(mls, batch)
    decreases |batch|
  {
    if batch != [] {
      UnjoinedAreSome(MlsAfter(mls, batch[0].blob), batch[1..]);
      assert forall m :: m in batch[1..] ==> m.id != batch[0].id;
      assert batch == [batch[0]] + batch[1..];
    }
  }

  /** What a poll hands back of its second pass. */
  function ReturnedRows(d: Device, batch: seq<Mail>, clock: Clock): seq<Storage.StoredMessage> {
    RowsFor(Polls.Joined(d, batch), Unjoined(d.mls, batch), clock)
  }

  /**
   The messages a poll returns are those it stored: each is in the table under the identifier of a text of the
   batch, in that text's conversation, with its body and the time it was stored, and acknowledged; and every text
   acknowledged is among them.
  */
  lemma {:induction false} ReturnedAreStored(d: Device, batch: seq<Mail>, clock: Clock)
    requires Steady(d) && Polls.DistinctIds(batch)
    ensures var rows := ReturnedRows(d, batch, clock);
            && (forall k :: 0 <= k < |rows| ==>
                  && rows[k].id in HandledIds(d, batch, clock) && HasRow(TakeIn(d, batch, clock).db, rows[k])
                  && exists m :: m in batch && IsRowOf(m, rows[k], clock))
            && (forall m :: m in batch && Polls.IsText(m.blob) && m.id in HandledIds(d, batch, clock) ==>
                  Returned(rows, m.id))
  {
    var mid, todo := Polls.Joined(d, batch), Unjoined(d.mls, batch);
    var rows := ReturnedRows(d, batch, clock);
    TakeInRuns(d, batch, clock);
    JoinsSteady(d, batch);
    UnjoinedAreSome(d.mls, batch);
    forall k | 0 <= k < |rows|
      ensures rows[k].id in HandledIds(d, batch, clock) && HasRow(TakeIn(d, batch, clock).db, rows[k])
      ensures exists m :: m in batch && IsRowOf(m, rows[k], clock)
    {
      var m := RowsAreRead(mid, todo, clock, rows, k);
      assert m in batch && IsRowOf(m, rows[k], clock);
    }
    forall m | m in batch && Polls.IsText(m.blob) && m.id in HandledIds(d, batch, clock)
      ensures Returned(rows, m.id)
    {
      Acknowledging.NeverJoined(d.mls, batch, m);
      ReadTextsAreReturned(mid, todo, clock, m);
    }
  }

  /** The conversations a poll reports as opened are those whose group it gained, and they are live. */
  lemma {:induction false} OpenedAreGained(d: Device, batch: seq<Mail>)
    ensures var after := Polls.Joined(d, batch);
            forall g :: g in OpenedIn(d.mls, batch) <==> g in after.mls.groups && g !in d.mls.groups
    ensures forall g :: g in OpenedIn(d.mls, batch) ==> g in Polls.Joined(d, batch).live
  {
    OpenedAreNew(d.mls, batch);
    Polls.JoinsOpen(d, batch);
  }

  lemma {:induction false} OpenedAreNew(mls: State, batch: seq<Mail>)
    ensures forall g :: g in OpenedIn(mls, batch) <==> g in MlsAfterAll(mls, batch).groups && g !in mls.groups
    ensures mls.groups.Keys <= MlsAfterAll(mls, batch).groups.Keys
    decreases |batch|
  {
    if batch != [] {
      OpenedAreNew(MlsAfter(mls, batch[0].blob), batch[1..]);
    }
  }

  // ---- Verifying --------------------------------------------------------------------

  /** A verdict is recorded as it was given, on that contact and nothing else; on an unknown contact it does nothing. */
  lemma {:induction false} VerdictIsRecorded(d: Device, id: Ident, v: bool)
    ensures var after := Run(d, Program(d, VerifyContact(id, v)));
            && (id !in d.db.contacts ==> after == d)
            && (id in d.db.contacts ==>
                  && after == d.(db := d.db.(contacts := after.db.contacts))
                  && after.db.contacts == d.db.contacts[id := d.db.contacts[id].(verified := v)]
                  && (Unanswered(d.db, id) ==> IdentityStateOf(after.db, id) == KeyChanged)
                  && (!Unanswered(d.db, id) ==> IdentityStateOf(after.db, id) == if v then Verified else Unverified))
  {
    RunSnoc(d, [], Sql(SetVerified(id, v)));
    assert [] + [Sql(SetVerified(id, v))] == [Sql(SetVerified(id, v))];
  }

  // ---- Retention -----------------------------------------------------------------------

  /** A policy keeps rows of a conversation without its own interval for so many seconds, or for good. */
  predicate KeepsFor(policy: RetentionPolicy, seconds: Option<nat>) {
    match policy
    case Forever => seconds == None
    case Days30 => seconds == Some(2_592_000)
    case Days7 => seconds == Some(604_800)
    case Hours24 => seconds == Some(86_400)
  }

  ghost predicate LosesOlderThan(db: Db, after: Db, c: Ident, seconds: Option<nat>, now: u64) {
    && (forall m :: m in db.messages && db.messages[m].conversation == c ==>
          (m in after.messages <==> seconds == None || db.messages[m].at + seconds.value >= now))
    && (forall q :: q in db.outbox && db.outbox[q].conversation == c ==>
          (q in after.outbox <==> seconds == None || db.outbox[q].at + seconds.value >= now))
  }

  /** Choosing a policy takes, at once, what it says is too old: older than 30 days, 7 days or 24 hours. */
  lemma {:induction false} PolicyTakesEffect(d: Device, policy: RetentionPolicy, now: u64, c: Ident,
      seconds: Option<nat>)
    requires KeepsFor(policy, seconds) && now < TWO_63
    requires c in d.db.conversations && d.db.conversations[c].disappearAfter == None
    ensures var after := Run(d, Program(d, SetRetentionPolicy(policy, now))).db;
            Policy(after) == policy && LosesOlderThan(d.db, after, c, seconds, now)
  {
    SettingOutcome(d, PutSetting(RETENTION, policy.AsStr()), now);
    PolicyRoundTrip(policy);
    PurgedIs(Exec(d.db, PutSetting(RETENTION, policy.AsStr())), now);
  }

  lemma {:induction false} SettingOutcome(d: Device, setting: Stmt, now: u64)
    ensures Run(d, SettingProgram(d.db, setting, now)) == d.(db := Purged(Exec(d.db, setting), now))
  {
    SettingRuns(d, setting, now);
    RunSqls(Apply(d, Sql(setting)), PurgeProgram(Exec(d.db, setting), now));
    PurgeRuns(Exec(d.db, setting), now);
  }

  /** Giving a conversation its own interval replaces the policy for it; taking it away gives it back to the policy. */
  lemma {:induction false} IntervalTakesEffect(d: Device, c: Ident, own: Option<u64>, now: u64, seconds: Option<nat>)
    requires c in d.db.conversations && now < TWO_63
    requires own.Some? ==> own.value < TWO_63 && seconds == Some(own.value)
    requires own.None? ==> KeepsFor(Policy(d.db), seconds)
    ensures var after := Run(d, Program(d, SetDisappearingMessages(c, own, now))).db;
            && c in after.conversations && after.conversations[c].contact == d.db.conversations[c].contact
            && after.conversations[c].disappearAfter == (if own.Some? then Some(own.value) else None)
            && LosesOlderThan(d.db, after, c, seconds, now)
            && (forall other :: other in d.db.conversations && other != c ==>
                  other in after.conversations && after.conversations[other] == d.db.conversations[other])
  {
    var setting := Stmt.SetDisappearAfter(c, Stored(own));
    SettingOutcome(d, setting, now);
    PurgedIs(Exec(d.db, setting), now);
  }

  /** A stored policy that is not one of the four texts keeps everything, as if none had been chosen. */
  lemma {:induction false} UnknownPolicyKeepsEverything(db: Db, c: Ident, now: u64)
    requires c in db.conversations && db.conversations[c].disappearAfter == None
    requires RETENTION in db.settings ==> db.settings[RETENTION] !in ["30d", "7d", "24h"]
    ensures Policy(db) == Forever && LosesOlderThan(db, Purged(db, now), c, None, now)
  {
    PurgedIs(db, now);
  }
}
