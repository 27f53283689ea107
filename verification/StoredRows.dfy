/**
 What a stored row has to do with the text the relay accepted under its identifier, and which rows each program
 of the client writes and deletes.
*/
module StoredRows {
  import opened Basics
  import opened Mls
  import opened Tables
  import opened RelayStore
  import opened Client
  import opened Calls
  import opened OutboxRules
  import Polls

  /** The row is this text: its conversation, its body, and whether this device (`me`) sent it. */
  predicate Matches(me: Bytes, row: Message, b: Blob) {
    && Polls.IsText(b) && row.conversation == b.group && row.body == b.plaintext.payload.body
    && row.direction == if b.sender == me then Sent else Received
  }

  /** Every identifier is one this device drew for a queued message, or one the relay gave to the text the row holds. */
  predicate Rightful(me: Bytes, accepted: Queue<Blob>, drawn: set<Ident>, id: Ident, row: Message) {
    id in drawn || (id in accepted && Matches(me, row, accepted[id].blob))
  }

  predicate Puts(e: Effect) {
    e.Sql? && e.stmt.PutMessage?
  }

  /** The relay will have accepted the text when this effect has been carried out. */
  predicate Delivers(me: Bytes, e: Effect, id: Ident, row: Message) {
    e.Post? && e.reply.Accepted? && e.reply.id == id && Matches(me, row, e.blob)
  }

  /** Every row the program writes is rightful by the time it is written. */
  ghost predicate WritesRightfully(me: Bytes, accepted: Queue<Blob>, drawn: set<Ident>, p: seq<Effect>) {
    forall i :: 0 <= i < |p| && Puts(p[i]) ==>
      Rightful(me, accepted, drawn, p[i].stmt.id, p[i].stmt.message)
      || DeliveredBefore(me, p, i, p[i].stmt.id, p[i].stmt.message)
  }

  ghost predicate DeliveredBefore(me: Bytes, p: seq<Effect>, i: nat, id: Ident, row: Message)
    requires i <= |p|
  {
    exists j :: 0 <= j < i && Delivers(me, p[j], id, row)
  }

  lemma {:induction false} WritesConcat(me: Bytes, accepted: Queue<Blob>, drawn: set<Ident>, a: seq<Effect>,
      b: seq<Effect>)
    requires WritesRightfully(me, accepted, drawn, a) && WritesRightfully(me, accepted, drawn, b)
    ensures WritesRightfully(me, accepted, drawn, a + b)
  {
    var p := a + b;
    forall i | 0 <= i < |p| && Puts(p[i])
      ensures Rightful(me, accepted, drawn, p[i].stmt.id, p[i].stmt.message)
              || DeliveredBefore(me, p, i, p[i].stmt.id, p[i].stmt.message)
    {
      var id, row := p[i].stmt.id, p[i].stmt.message;
      if !Rightful(me, accepted, drawn, id, row) {
        if i < |a| {
          var j :| 0 <= j < i && Delivers(me, a[j], id, row);
          assert Delivers(me, p[j], id, row);
        } else {
          assert b[i - |a|] == p[i];
          var j :| 0 <= j < i - |a| && Delivers(me, b[j], id, row);
          assert Delivers(me, p[|a| + j], id, row);
        }
      }
    }
  }

  /** Effects that write no message row. */
  predicate NonePuts(p: seq<Effect>) {
    forall i :: 0 <= i < |p| ==> !Puts(p[i])
  }

  lemma {:induction false} FlushPutsNothing(box: map<Ident, Queued>, order: seq<Ident>, posts: seq<PostReply>)
    requires forall i :: 0 <= i < |order| ==> order[i] in box
    ensures NonePuts(FlushProgram(box, order, posts))
    decreases |order|
  {
    if order != [] && FirstReply(posts).Accepted? {
      FlushPutsNothing(box, order[1..], RestReplies(posts));
    }
  }

  lemma {:induction false} OwnPostWrites(me: Bytes, accepted: Queue<Blob>, drawn: set<Ident>, d: Device, c: Ident,
      body: string, reply: PostReply, localId: Ident,
                                         at: u64, queuedAt: u64)
    requires me == d.mls.me && localId in drawn
    ensures WritesRightfully(me, accepted, drawn, OwnPostProgram(d, c, body, reply, localId, at, queuedAt))
  {
    var p := OwnPostProgram(d, c, body, reply, localId, at, queuedAt);
    if CanSend(d, c) && reply.Accepted? {
      assert Delivers(me, p[1], p[2].stmt.id, p[2].stmt.message);
    }
  }

  lemma {:induction false} IntroductionPutsNothing(d: Device, name: string, invite: Invite, group: Ident,
      posts: seq<PostReply>)
    ensures NonePuts(AddContactProgram(d, name, invite, group, posts))
  {
  }

  /** Every call but a poll. */
  lemma {:induction false} CallWrites(me: Bytes, accepted: Queue<Blob>, drawn: set<Ident>, d: Device, call: Call)
    requires me == d.mls.me && !call.ReceiveMessages? && (call.SendMessage? ==> call.localId in drawn)
    ensures WritesRightfully(me, accepted, drawn, Program(d, call))
  {
    match call
    case SendMessage(c, body, posts, localId, at, queuedAt) =>
      var reply := FirstReply(AfterFlush(|QueuedOrder(d.db)|, posts));
      FlushPutsNothing(d.db.outbox, QueuedOrder(d.db), posts);
      OwnPostWrites(me, accepted, drawn, d, c, body, reply, localId, at, queuedAt);
      WritesConcat(me, accepted, drawn, Flush(d.db, posts), OwnPostProgram(d, c, body, reply, localId, at, queuedAt));
    case AddContact(name, invite, group, posts) => IntroductionPutsNothing(d, name, invite, group, posts);
    case FlushOutbox(posts) => FlushPutsNothing(d.db.outbox, QueuedOrder(d.db), posts);
    case _ => UpkeepUpkeeps(d, call);
  }

  /** The envelope came from the relay. */
  predicate FromRelay(accepted: Queue<Blob>, m: Mail) {
    m.id in accepted && accepted[m.id].blob == m.blob
  }

  lemma {:induction false} ReadWrites(accepted: Queue<Blob>, drawn: set<Ident>, d: Device, m: Mail, clock: Clock)
    requires FromRelay(accepted, m)
    ensures WritesRightfully(d.mls.me, accepted, drawn, ReadProgram(d, m, clock))
  {
  }

  lemma {:induction false} SameOwner(d: Device, p: seq<Effect>)
    ensures Run(d, p).mls.me == d.mls.me
    decreases |p|
  {
    if p != [] {
      SameOwner(Apply(d, p[0]), p[1..]);
    }
  }

  lemma {:induction false} ReadsWrite(accepted: Queue<Blob>, drawn: set<Ident>, d: Device, todo: seq<Mail>,
      clock: Clock)
    requires forall m :: m in todo ==> FromRelay(accepted, m)
    ensures WritesRightfully(d.mls.me, accepted, drawn, ReadAllProgram(d, todo, clock))
    decreases |todo|
  {
    if todo != [] {
      assert todo[0] in todo;
      var next := ReadOne(d, todo[0], clock);
      SameOwner(d, ReadProgram(d, todo[0], clock));
      ReadWrites(accepted, drawn, d, todo[0], clock);
      ReadsWrite(accepted, drawn, next, todo[1..], clock);
      WritesConcat(d.mls.me, accepted, drawn, ReadProgram(d, todo[0], clock), ReadAllProgram(next, todo[1..], clock));
    }
  }

  lemma {:induction false} UnjoinedIsFromRelay(accepted: Queue<Blob>, mls: State, batch: seq<Mail>)
    requires forall m :: m in batch ==> FromRelay(accepted, m)
    ensures forall m :: m in Unjoined(mls, batch) ==> FromRelay(accepted, m)
    decreases |batch|
  {
    if batch != [] {
      assert batch[0] in batch;
      UnjoinedIsFromRelay(accepted, MlsAfter(mls, batch[0].blob), batch[1..]);
    }
  }

  /** A poll. */
  lemma {:induction false} BatchWrites(accepted: Queue<Blob>, drawn: set<Ident>, d: Device, batch: seq<Mail>,
      clock: Clock, ack: AckReply, now: u64)
    requires forall m :: m in batch ==> FromRelay(accepted, m)
    ensures WritesRightfully(d.mls.me, accepted, drawn, BatchProgram(d, batch, clock, ack, now))
  {
    var joins := JoinAllProgram(d.mls, batch);
    var mid := Run(d, joins);
    var second := ReadAllProgram(mid, Unjoined(d.mls, batch), clock);
    var settle := SettleProgram(TakeIn(d, batch, clock).db, HandledIds(d, batch, clock), ack, now);
    JoinsJoin(d.mls, batch);
    SameOwner(d, joins);
    UnjoinedIsFromRelay(accepted, d.mls, batch);
    ReadsWrite(accepted, drawn, mid, Unjoined(d.mls, batch), clock);
    SettleSettles(TakeIn(d, batch, clock).db, HandledIds(d, batch, clock), ack, now);
    WritesConcat(d.mls.me, accepted, drawn, joins, second);
    WritesConcat(d.mls.me, accepted, drawn, joins + second, settle);
  }

  // ---- Deletions ---------------------------------------------------------------

  /** A row retention deleted, and the purge that did. */
  datatype Deletion = Deletion(row: Message, conversations: map<Ident, Conversation>, now: int, everywhere: Option<int>)

  /** The row had outlived its interval. */
  predicate Due(x: Deletion) {
    Outlived(x.conversations, x.row.conversation, x.row.at, x.now, x.everywhere)
  }

  /** The rows a purge deletes. */
  function DeletedAt(db: Db, now: int, everywhere: Option<int>): map<Ident, Deletion> {
    map id | id in db.messages && Outlived(db.conversations, db.messages[id].conversation, db.messages[id].at, now,
                                           everywhere)
      :: Deletion(db.messages[id], db.conversations, now, everywhere)
  }

  function DeletedBy(d: Device, e: Effect): map<Ident, Deletion> {
    if e.Sql? && e.stmt.PurgeMessages? then DeletedAt(d.db, e.stmt.now, e.stmt.everywhere) else map[]
  }

  lemma {:induction false} DeletedAreGone(db: Db, now: int, everywhere: Option<int>)
    ensures DeletedAt(db, now, everywhere).Keys
            == db.messages.Keys - KeptMessages(db.messages, db.conversations, now, everywhere).Keys
    ensures forall id :: id in DeletedAt(db, now, everywhere) ==> Due(DeletedAt(db, now, everywhere)[id])
  {
  }
}
