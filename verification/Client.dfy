/** Each call, effect by effect. */
module Client {
  // One SQL statement, one relay request, or one change of in-memory state at a time; a crash falls between two.

  import opened Basics
  import opened Mls
  import opened Tables
  import opened RelayStore
  import StoreRules

  /** Where a live conversation posts, and the key it was last told about. */
  datatype Peer = Peer(inbox: Ident, key: Bytes)

  /** The tables on disk, and what memory holds beside them. */
  datatype Device = Device(identity: Identity, db: Db, mls: State, live: map<Ident, Peer>)

  /** What becomes of a post. `Lost`: the relay kept the blob but the answer never arrived. */
  datatype PostReply =
    | Accepted(id: Ident)
    | Refused(error: string)
    | Lost(id: Ident, error: string)

  /** What becomes of an acknowledgement. `AckLost`: the relay erased, but the answer never arrived. */
  datatype AckReply = Erased | AckRefused | AckLost

  datatype Effect =
    | Sql(stmt: Stmt)
    | Persist
    | Advance(c: Ident)
    | Decrypt(c: Ident, generation: nat)
    | Join(blob: Blob)
    | Create(c: Ident, peer: Bytes)
    | AddKeyPackage(keyPackage: nat)
    | SetPeer(c: Ident, to: Peer)
    | ClearLive
    | Post(inbox: Ident, blob: Blob, reply: PostReply)
    | Ack(ids: seq<Ident>, ackReply: AckReply)

  function Apply(d: Device, e: Effect): Device {
    match e
    case Sql(s) => d.(db := Exec(d.db, s))
    case Persist => d.(db := Exec(d.db, PutMlsState(d.mls)))
    case Advance(c) => if c in d.mls.groups then d.(mls := Advanced(d.mls, c)) else d
    case Decrypt(c, g) => if c in d.mls.groups then d.(mls := Decrypted(d.mls, c, g)) else d
    case Join(blob) => if CanJoin(d.mls, blob) then d.(mls := Joined(d.mls, blob)) else d
    case Create(c, peer) => if c in d.mls.groups then d else d.(mls := Created(d.mls, c, peer))
    case AddKeyPackage(k) => d.(mls := d.mls.(keyPackages := d.mls.keyPackages + {k}))
    case SetPeer(c, to) => d.(live := d.live[c := to])
    case ClearLive => d.(live := map[])
    case Post(_, _, _) => d
    case Ack(_, _) => d
  }

  function Run(d: Device, p: seq<Effect>): Device
    decreases |p|
  {
    if p == [] then d else Run(Apply(d, p[0]), p[1..])
  }

  lemma {:induction false} Regroup<T>(a: seq<T>, b: seq<T>, c: seq<T>)
    ensures (a + b) + c == a + (b + c)
  {
  }

  lemma {:induction false} RunConcat(d: Device, a: seq<Effect>, b: seq<Effect>)
    ensures Run(d, a + b) == Run(Run(d, a), b)
    decreases |a|
  {
    if a == [] {
      assert a + b == b;
    } else {
      assert (a + b)[0] == a[0] && (a + b)[1..] == a[1..] + b;
      RunConcat(Apply(d, a[0]), a[1..], b);
    }
  }

  lemma {:induction false} RunSnoc(d: Device, a: seq<Effect>, e: Effect)
    ensures Run(d, a + [e]) == Apply(Run(d, a), e)
  {
    RunConcat(d, a, [e]);
    assert [e][1..] == [];
  }

  function Sqls(stmts: seq<Stmt>): (p: seq<Effect>)
    ensures |p| == |stmts| && forall i :: 0 <= i < |p| ==> p[i] == Sql(stmts[i])
  {
    if stmts == [] then [] else [Sql(stmts[0])] + Sqls(stmts[1..])
  }

  lemma {:induction false} SqlsOfTwo(a: Stmt, b: Stmt)
    ensures Sqls([a, b]) == [Sql(a), Sql(b)] && Sqls([a]) == [Sql(a)]
  {
  }

  lemma {:induction false} RunSqls(d: Device, stmts: seq<Stmt>)
    ensures Run(d, Sqls(stmts)) == d.(db := ExecAll(d.db, stmts))
    decreases |stmts|
  {
    if stmts != [] {
      var p := Sqls(stmts);
      assert p[0] == Sql(stmts[0]) && p[1..] == Sqls(stmts[1..]);
      RunSqls(Apply(d, p[0]), stmts[1..]);
    }
  }

  // ---- The outbox --------------------------------------------------------

  /** The network's answer to the next post; once the script runs out the relay is unreachable. */
  function FirstReply(posts: seq<PostReply>): PostReply {
    if posts == [] then Refused("unreachable") else posts[0]
  }

  function RestReplies(posts: seq<PostReply>): seq<PostReply> {
    if posts == [] then [] else posts[1..]
  }

  /** `flush_outbox`: post in order, dequeue what was accepted, stop at the first failure. */
  function FlushProgram(box: map<Ident, Queued>, order: seq<Ident>, posts: seq<PostReply>): seq<Effect>
    requires forall i :: 0 <= i < |order| ==> order[i] in box
    decreases |order|
  {
    if order == [] then []
    else
      var q := box[order[0]];
      var reply := FirstReply(posts);
      if reply.Accepted?
      then [Post(q.peerInbox, q.blob, reply), Sql(Dequeue(order[0]))]
           + FlushProgram(box, order[1..], RestReplies(posts))
      else [Post(q.peerInbox, q.blob, reply), Sql(RecordAttempt(order[0], reply.error))]
  }

  /** The answers left over for what the call posts next. */
  function AfterFlush(count: nat, posts: seq<PostReply>): seq<PostReply>
    decreases count
  {
    if count == 0 then posts
    else if FirstReply(posts).Accepted? then AfterFlush(count - 1, RestReplies(posts))
    else RestReplies(posts)
  }

  function Flush(db: Db, posts: seq<PostReply>): seq<Effect> {
    FlushProgram(db.outbox, QueuedOrder(db), posts)
  }

  // ---- Sending -----------------------------------------------------------

  predicate CanSend(d: Device, c: Ident) {
    c in d.live && c in d.mls.groups
  }

  /** `send_message`; `localId` is the random identifier a queued message gets, `at` and `queuedAt` the clock. */
  function SendProgram(d: Device, c: Ident, body: string, posts: seq<PostReply>, localId: Ident, at: u64,
      queuedAt: u64): seq<Effect>
  {
    Flush(d.db, posts) + OwnPostProgram(d, c, body, FirstReply(AfterFlush(|QueuedOrder(d.db)|, posts)), localId, at,
                                        queuedAt)
  }

  function OwnPostProgram(d: Device, c: Ident, body: string, reply: PostReply, localId: Ident, at: u64,
      queuedAt: u64): seq<Effect>
  {
    if !CanSend(d, c) then []
    else
      var blob := Ciphertext(d.mls, c, Text(body));
      [Advance(c), Post(d.live[c].inbox, blob, reply)]
      + RecordProgram(c, d.live[c].inbox, body, blob, reply, localId, at, queuedAt)
  }

  /** What is written down once the relay has answered: the message, the ciphertext still to post, the ratchet. */
  function RecordProgram(c: Ident, inbox: Ident, body: string, blob: Blob, reply: PostReply, localId: Ident, at: u64,
      queuedAt: u64): seq<Effect>
  {
    match reply
    case Accepted(id) => [Sql(PutMessage(id, Message(c, Sent, body, AsI64(at)))), Persist]
    case _ => [Sql(PutMessage(localId, Message(c, Sent, body, AsI64(at)))),
               Sql(Enqueue(localId, Queued(c, inbox, blob, AsI64(queuedAt), 1, Some(reply.error)))),
               Persist]
  }

  /** `send_payload`: a failed post drops the blob and saves nothing. */
  function PayloadProgram(d: Device, c: Ident, payload: Payload, reply: PostReply): seq<Effect> {
    if !CanSend(d, c) then []
    else [Advance(c), Post(d.live[c].inbox, Ciphertext(d.mls, c, payload), reply)]
         + (if reply.Accepted? then [Persist] else [])
  }

  // ---- Contacts ----------------------------------------------------------

  /** A decoded invite: where to post, the key it names, and the credential and number of its key package. */
  datatype Invite = Invite(inbox: Ident, publicKey: Bytes, credential: Bytes, keyPackage: nat)

  /** `add_contact`; `group` is the new group's random identifier. */
  function AddContactProgram(d: Device, name: string, invite: Invite, group: Ident,
      posts: seq<PostReply>): seq<Effect>
  {
    var reply := FirstReply(posts);
    var hello := Hello(d.identity.inbox, d.identity.displayName);
    OpenProgram(d.mls.me, name, invite, group, reply) +
    if reply.Accepted? then PayloadProgram(Introduced(d, invite, group), group, hello, FirstReply(RestReplies(posts)))
       else []
  }

  /** The new conversation, up to and including its Welcome; it goes live only if the Welcome was accepted. */
  function OpenProgram(me: Bytes, name: string, invite: Invite, group: Ident, reply: PostReply): seq<Effect> {
    var contactId := Hex(invite.publicKey);
    [Create(group, invite.credential),
     Sql(InsertContact(contactId, Contact(name, invite.inbox, invite.publicKey, false))),
     Sql(PutConversation(group, contactId)),
     Post(invite.inbox, Welcome(group, me, invite.keyPackage), reply)] +
    if reply.Accepted? then [SetPeer(group, Peer(invite.inbox, invite.publicKey)), Persist] else []
  }

  /** As far as the introduction that follows can see, the device with its new conversation open. */
  function Introduced(d: Device, invite: Invite, group: Ident): Device {
    d.(mls := Created(d.mls, group, invite.credential), live := d.live[group := Peer(invite.inbox, invite.publicKey)])
  }

  /** `invite_code`: a fresh key package, saved. */
  function InviteProgram(keyPackage: nat): seq<Effect> {
    [AddKeyPackage(keyPackage), Persist]
  }

  // ---- Receiving ---------------------------------------------------------

  type Mail = Envelope<Blob>

  /** The clock while a batch is read: when each envelope's key change is noticed, when its row is stored. */
  datatype Clock = Clock(noticed: Ident -> u64, stored: Ident -> u64)

  /** `try_join` on one blob. */
  function JoinProgram(mls: State, blob: Blob): seq<Effect> {
    if !CanJoin(mls, blob) then []
    else
      var key := PeerCredential(mls, blob);
      [Join(blob),
       Sql(InsertContact(Hex(key), Contact("", [], key, false))),
       Sql(PutConversation(blob.group, Hex(key))),
       SetPeer(blob.group, Peer([], key)),
       Persist]
  }

  /** The first pass: join what can be joined, in order. */
  function JoinAllProgram(mls: State, batch: seq<Mail>): seq<Effect>
    decreases |batch|
  {
    if batch == [] then []
    else JoinProgram(mls, batch[0].blob) + JoinAllProgram(MlsAfter(mls, batch[0].blob), batch[1..])
  }

  function MlsAfter(mls: State, blob: Blob): State {
    if CanJoin(mls, blob) then Joined(mls, blob) else mls
  }

  function MlsAfterAll(mls: State, batch: seq<Mail>): State
    decreases |batch|
  {
    if batch == [] then mls else MlsAfterAll(MlsAfter(mls, batch[0].blob), batch[1..])
  }

  /** What the first pass leaves for the second, and what it has handled. */
  function Unjoined(mls: State, batch: seq<Mail>): seq<Mail>
    decreases |batch|
  {
    if batch == [] then []
    else (if CanJoin(mls, batch[0].blob) then [] else [batch[0]]) + Unjoined(MlsAfter(mls, batch[0].blob), batch[1..])
  }

  function JoinedIds(mls: State, batch: seq<Mail>): seq<Ident>
    decreases |batch|
  {
    if batch == [] then []
    else (if CanJoin(mls, batch[0].blob) then [batch[0].id] else [])
         + JoinedIds(MlsAfter(mls, batch[0].blob), batch[1..])
  }

  /** Some live conversation decrypts the blob; group identifiers are distinct, so at most one does. */
  predicate Opens(d: Device, blob: Blob) {
    blob.Application? && blob.group in d.live && CanDecrypt(d.mls, blob.group, blob)
  }

  predicate Handles(d: Device, blob: Blob) {
    Opens(d, blob) && blob.plaintext.Readable?
  }

  /** The second pass on one envelope. */
  function ReadProgram(d: Device, mail: Mail, clock: Clock): seq<Effect> {
    if !Opens(d, mail.blob) then []
    else
      var c := mail.blob.group;
      var key := mail.blob.sender;
      [Decrypt(c, mail.blob.generation)] +
      match mail.blob.plaintext
      case Unreadable => []
      case Readable(payload) =>
        Sqls(NoticeKeyProgram(d.db, c, key, clock.noticed(mail.id)))
        + StoreProgram(d.db, mail.id, c, key, payload, clock.stored(mail.id))
  }

  function NoticeKeyProgram(db: Db, c: Ident, key: Bytes, now: u64): seq<Stmt> {
    if c in db.conversations then StoreRules.ReplaceKeyProgram(db, db.conversations[c].contact, key, now) else []
  }

  function StoreProgram(db: Db, id: Ident, c: Ident, key: Bytes, payload: Payload, now: u64): seq<Effect> {
    match payload
    case Hello(inbox, name) =>
      var contactId := if c in db.conversations then db.conversations[c].contact else Hex(key);
      [Sql(InsertContact(contactId, Contact(name, inbox, key, false))), Sql(PutConversation(c, contactId)),
       SetPeer(c, Peer(inbox, key))]
    case Text(body) =>
      [Sql(PutMessage(id, Message(c, Received, body, AsI64(now))))]
  }

  function ReadOne(d: Device, mail: Mail, clock: Clock): Device {
    Run(d, ReadProgram(d, mail, clock))
  }

  function ReadAll(d: Device, todo: seq<Mail>, clock: Clock): Device
    decreases |todo|
  {
    if todo == [] then d else ReadAll(ReadOne(d, todo[0], clock), todo[1..], clock)
  }

  function ReadAllProgram(d: Device, todo: seq<Mail>, clock: Clock): seq<Effect>
    decreases |todo|
  {
    if todo == [] then []
    else ReadProgram(d, todo[0], clock) + ReadAllProgram(ReadOne(d, todo[0], clock), todo[1..], clock)
  }

  function ReadIds(d: Device, todo: seq<Mail>, clock: Clock): seq<Ident>
    decreases |todo|
  {
    if todo == [] then []
    else (if Handles(d, todo[0].blob) then [todo[0].id] else []) + ReadIds(ReadOne(d, todo[0], clock), todo[1..], clock)
  }

  lemma {:induction false} RunReadAll(d: Device, todo: seq<Mail>, clock: Clock)
    ensures Run(d, ReadAllProgram(d, todo, clock)) == ReadAll(d, todo, clock)
    decreases |todo|
  {
    if todo != [] {
      RunConcat(d, ReadProgram(d, todo[0], clock), ReadAllProgram(ReadOne(d, todo[0], clock), todo[1..], clock));
      RunReadAll(ReadOne(d, todo[0], clock), todo[1..], clock);
    }
  }

  /** Both passes over a collected batch. */
  function TakeInProgram(d: Device, batch: seq<Mail>, clock: Clock): seq<Effect> {
    var joins := JoinAllProgram(d.mls, batch);
    joins + ReadAllProgram(Run(d, joins), Unjoined(d.mls, batch), clock)
  }

  function TakeIn(d: Device, batch: seq<Mail>, clock: Clock): Device {
    Run(d, TakeInProgram(d, batch, clock))
  }

  function HandledIds(d: Device, batch: seq<Mail>, clock: Clock): seq<Ident> {
    JoinedIds(d.mls, batch) + ReadIds(Run(d, JoinAllProgram(d.mls, batch)), Unjoined(d.mls, batch), clock)
  }

  /** What follows the two passes: acknowledge what was handled, save the ratchets, apply retention. */
  function SettleProgram(db: Db, handled: seq<Ident>, ack: AckReply, now: u64): seq<Effect> {
    var finish := [Persist] + Sqls(PurgeProgram(db, now));
    if handled == [] then finish
    else if ack.Erased? then [Ack(handled, ack)] + finish
    else [Ack(handled, ack)]
  }

  /** `receive_messages` from the collected batch on. */
  function BatchProgram(d: Device, batch: seq<Mail>, clock: Clock, ack: AckReply, now: u64): seq<Effect> {
    TakeInProgram(d, batch, clock) + SettleProgram(TakeIn(d, batch, clock).db, HandledIds(d, batch, clock), ack, now)
  }

  /** `receive_messages`; `batch` is what the relay returned, if it answered. */
  function ReceiveProgram(d: Device, posts: seq<PostReply>, batch: Option<seq<Mail>>, clock: Clock, ack: AckReply,
      now: u64): seq<Effect>
  {
    var flush := Flush(d.db, posts);
    flush + match batch case None => [] case Some(b) => BatchProgram(Run(d, flush), b, clock, ack, now)
  }

  // ---- First run and opening ---------------------------------------------

  /** `create`: the identity row, then the snapshot that holds its private key. */
  function CreateProgram(identity: Identity): seq<Effect> {
    [Sql(PutIdentity(identity)), Persist]
  }

  /** A device about to be created on these tables. */
  function Starting(identity: Identity, mls: State, db: Db): Device {
    Device(identity, db, mls, map[])
  }

  /** The conversations `reload_conversations` rebuilds. */
  function Reloaded(db: Db, mls: State): map<Ident, Peer> {
    map c | c in db.conversations && db.conversations[c].contact in db.contacts && c in mls.groups
      :: var contact := db.contacts[db.conversations[c].contact]; Peer(contact.inbox, contact.publicKey)
  }

  /** The device `open` builds from what is on disk. */
  function Opened(db: Db, now: u64): Device
    requires CanOpen(db)
  {
    Device(db.identity.value, Purged(db, now), db.mls.value, Reloaded(db, db.mls.value))
  }

  /** What every call keeps: references hold, and a live conversation has its row and its group. */
  ghost predicate Sound(d: Device) {
    && Integrity(d.db)
    && (forall c :: c in d.live ==> c in d.db.conversations && c in d.mls.groups)
  }
}
