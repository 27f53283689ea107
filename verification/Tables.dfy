/** The local database: its rows, and what each SQL statement of the storage layer does to them. */
module Tables {
  import opened Basics
  import opened RowOrder
  import opened Mls

  /** Rust's `as i64`, and back with `as u64`. */
  function AsI64(x: u64): (i: int)
    ensures -TWO_63 <= i < TWO_63 && AsU64(i) == x
  {
    if x < TWO_63 then x else x - TWO_64
  }

  function AsU64(i: int): u64 {
    i % TWO_64
  }

  datatype Direction = Sent | Received

  datatype Contact = Contact(displayName: string, inbox: Ident, publicKey: Bytes, verified: bool)
  datatype Conversation = Conversation(contact: Ident, disappearAfter: Option<int>)
  datatype Message = Message(conversation: Ident, direction: Direction, body: string, at: int)
  datatype Queued = Queued(conversation: Ident, peerInbox: Ident, blob: Blob, at: int, attempts: int,
      lastError: Option<string>)
  datatype Change = Change(previousKey: Bytes, changedAt: int, acknowledged: bool)
  datatype Identity = Identity(displayName: string, inbox: Ident, signerPublic: Bytes)

  /** The tables, each keyed by its primary key; `settings` holds text. */
  datatype Db = Db(
    identity: Option<Identity>,
    mls: Option<State>,
    contacts: map<Ident, Contact>,
    conversations: map<Ident, Conversation>,
    messages: map<Ident, Message>,
    outbox: map<Ident, Queued>,
    changes: map<Ident, Change>,
    settings: map<string, string>)

  const EMPTY := Db(None, None, map[], map[], map[], map[], map[], map[])

  datatype RetentionPolicy = Forever | Days30 | Days7 | Hours24 {
    function Seconds(): Option<int> {
      match this
      case Forever => None
      case Days30 => Some(30 * 24 * 60 * 60)
      case Days7 => Some(7 * 24 * 60 * 60)
      case Hours24 => Some(24 * 60 * 60)
    }

    function AsStr(): string {
      match this
      case Forever => "forever"
      case Days30 => "30d"
      case Days7 => "7d"
      case Hours24 => "24h"
    }

    /** Anything unrecognised keeps messages rather than deleting them. */
    static function Parse(s: string): RetentionPolicy {
      if s == "30d" then Days30
      else if s == "7d" then Days7
      else if s == "24h" then Hours24
      else Forever
    }
  }

  const RETENTION := "retention"

  function Policy(db: Db): RetentionPolicy {
    if RETENTION in db.settings then RetentionPolicy.Parse(db.settings[RETENTION]) else Forever
  }

  datatype Table =
    | OutboxRows | ChangeRows | MessageRows | ConversationRows | ContactRows | SettingRows | MlsRow | IdentityRow

  /** The statements of a wipe, in their order. */
  function WipeProgram(): seq<Stmt> {
    [Clear(OutboxRows), Clear(ChangeRows), Clear(MessageRows), Clear(ConversationRows),
     Clear(ContactRows), Clear(SettingRows), Clear(MlsRow), Clear(IdentityRow)]
  }

  /** One SQL statement. SQLite commits each on its own, so a crash falls between two of them. */
  datatype Stmt =
    | PutIdentity(identity: Identity)
    | PutMlsState(mls: State)
    | InsertContact(id: Ident, contact: Contact)
    | SetVerified(id: Ident, verified: bool)
    | SwapKey(id: Ident, key: Bytes)
    | NoteChange(id: Ident, previous: Bytes, at: int)
    | AcknowledgeChange(id: Ident)
    | PutConversation(id: Ident, contactId: Ident)
    | SetDisappearAfter(id: Ident, seconds: Option<int>)
    | PutMessage(id: Ident, message: Message)
    | Enqueue(id: Ident, queued: Queued)
    | Dequeue(id: Ident)
    | RecordAttempt(id: Ident, error: string)
    | PutSetting(name: string, value: string)
    | PurgeMessages(now: int, everywhere: Option<int>)
    | PurgeOutbox(now: int, everywhere: Option<int>)
    | Clear(table: Table)

  /** Foreign keys: a row may only point at a row that exists. */
  predicate Allowed(db: Db, s: Stmt) {
    match s
    case NoteChange(id, _, _) => id in db.contacts
    case PutConversation(_, contactId) => contactId in db.contacts
    case PutMessage(_, m) => m.conversation in db.conversations
    case Enqueue(_, q) => q.conversation in db.conversations
    case _ => true
  }

  /** The purge rule: the conversation's own interval if it has one, else the device-wide one. */
  predicate Outlived(conversations: map<Ident, Conversation>, c: Ident, at: int, now: int, everywhere: Option<int>) {
    && c in conversations
    && match conversations[c].disappearAfter
       case Some(d) => at < now - d
       case None => everywhere.Some? && at < now - everywhere.value
  }

  function KeptMessages(table: map<Ident, Message>, conversations: map<Ident, Conversation>, now: int,
      everywhere: Option<int>): map<Ident, Message>
  {
    map id | id in table && !Outlived(conversations, table[id].conversation, table[id].at, now, everywhere) :: table[id]
  }

  function KeptOutbox(table: map<Ident, Queued>, conversations: map<Ident, Conversation>, now: int,
      everywhere: Option<int>): map<Ident, Queued>
  {
    map id | id in table && !Outlived(conversations, table[id].conversation, table[id].at, now, everywhere) :: table[id]
  }

  /** Deleting every row of a table; a row that points at a deleted one goes with it. */
  function Cleared(db: Db, t: Table): Db {
    match t
    case OutboxRows => db.(outbox := map[])
    case ChangeRows => db.(changes := map[])
    case MessageRows => db.(messages := map[])
    case ConversationRows => db.(conversations := map[], messages := map[], outbox := map[])
    case ContactRows => db.(contacts := map[], conversations := map[], messages := map[], outbox := map[],
                            changes := map[])
    case SettingRows => db.(settings := map[])
    case MlsRow => db.(mls := None)
    case IdentityRow => db.(identity := None)
  }

  /** What a statement does; one that breaks a foreign key fails and changes nothing. */
  function Exec(db: Db, s: Stmt): Db {
    if !Allowed(db, s) then db else
    match s
    case PutIdentity(identity) => db.(identity := Some(identity))
    case PutMlsState(mls) => db.(mls := Some(mls))
    case InsertContact(id, c) =>
      var row := if id in db.contacts then db.contacts[id].(displayName := c.displayName, inbox := c.inbox) else c;
      db.(contacts := db.contacts[id := row])
    case SetVerified(id, verified) =>
      if id in db.contacts then db.(contacts := db.contacts[id := db.contacts[id].(verified := verified)]) else db
    case SwapKey(id, key) =>
      if id in db.contacts
      then db.(contacts := db.contacts[id := db.contacts[id].(publicKey := key, verified := false)]) else db
    case NoteChange(id, previous, at) => db.(changes := db.changes[id := Change(previous, at, false)])
    case AcknowledgeChange(id) =>
      if id in db.changes then db.(changes := db.changes[id := db.changes[id].(acknowledged := true)]) else db
    case PutConversation(id, contactId) =>
      var row := if id in db.conversations then db.conversations[id].(contact := contactId)
      else Conversation(contactId, None);
      db.(conversations := db.conversations[id := row])
    case SetDisappearAfter(id, seconds) =>
      if id in db.conversations
         then db.(conversations := db.conversations[id := db.conversations[id].(disappearAfter := seconds)]) else db
    case PutMessage(id, m) => db.(messages := db.messages[id := m])
    case Enqueue(id, q) => db.(outbox := db.outbox[id := q])
    case Dequeue(id) => db.(outbox := db.outbox - {id})
    case RecordAttempt(id, error) =>
      if id in db.outbox then
        var failed := db.outbox[id].(attempts := db.outbox[id].attempts + 1, lastError := Some(error));
        db.(outbox := db.outbox[id := failed])
      else db
    case PutSetting(name, value) => db.(settings := db.settings[name := value])
    case PurgeMessages(now, everywhere) => db.(messages := KeptMessages(db.messages, db.conversations, now, everywhere))
    case PurgeOutbox(now, everywhere) => db.(outbox := KeptOutbox(db.outbox, db.conversations, now, everywhere))
    case Clear(t) => Cleared(db, t)
  }

  function ExecAll(db: Db, stmts: seq<Stmt>): Db
    decreases |stmts|
  {
    if stmts == [] then db else ExecAll(Exec(db, stmts[0]), stmts[1..])
  }

  lemma {:induction false} ExecAllConcat(db: Db, a: seq<Stmt>, b: seq<Stmt>)
    ensures ExecAll(db, a + b) == ExecAll(ExecAll(db, a), b)
    decreases |a|
  {
    if a == [] {
      assert a + b == b;
    } else {
      assert (a + b)[1..] == a[1..] + b;
      ExecAllConcat(Exec(db, a[0]), a[1..], b);
    }
  }

  lemma {:induction false} ExecAllSnoc(db: Db, a: seq<Stmt>, s: Stmt)
    ensures ExecAll(db, a + [s]) == Exec(ExecAll(db, a), s)
  {
    ExecAllConcat(db, a, [s]);
    assert [s][1..] == [];
  }

  /** Queries. */
  function Times(box: map<Ident, Queued>): map<Ident, int> {
    map id | id in box :: box[id].at
  }

  function QueuedOrder(db: Db): seq<Ident> {
    InOrder(Times(db.outbox))
  }

  function MessageTimes(db: Db, c: Ident): map<Ident, int> {
    map id | id in db.messages && db.messages[id].conversation == c :: db.messages[id].at
  }

  function MessagesOrder(db: Db, c: Ident): seq<Ident> {
    InOrder(MessageTimes(db, c))
  }

  function ConversationsFor(db: Db, contact: Ident): seq<Ident> {
    InOrder(map c | c in db.conversations && db.conversations[c].contact == contact :: 0)
  }

  /** Every row once, in any order. */
  ghost predicate Lists<V>(s: seq<Ident>, table: map<Ident, V>) {
    && (forall k :: k in table ==> k in s)
    && (forall i :: 0 <= i < |s| ==> s[i] in table)
    && (forall i, j :: 0 <= i < j < |s| ==> s[i] != s[j])
  }

  /** The references every row holds: no row points at a missing one. */
  ghost predicate Integrity(db: Db) {
    && (forall c :: c in db.conversations ==> db.conversations[c].contact in db.contacts)
    && (forall m :: m in db.messages ==> db.messages[m].conversation in db.conversations)
    && (forall q :: q in db.outbox ==> db.outbox[q].conversation in db.conversations)
    && (forall k :: k in db.changes ==> k in db.contacts)
  }

  /** The identity row and the MLS state it names are both there. */
  predicate CanOpen(db: Db) {
    db.identity.Some? && db.mls.Some? && db.identity.value.signerPublic == db.mls.value.me
  }

  /** The purge an application call performs: both tables at one clock reading. */
  function PurgeProgram(db: Db, now: u64): seq<Stmt> {
    var everywhere := Policy(db).Seconds();
    [PurgeMessages(AsI64(now), everywhere), PurgeOutbox(AsI64(now), everywhere)]
  }

  function Purged(db: Db, now: u64): Db {
    var everywhere := Policy(db).Seconds();
    Exec(Exec(db, PurgeMessages(AsI64(now), everywhere)), PurgeOutbox(AsI64(now), everywhere))
  }

  lemma {:induction false} PurgedIs(db: Db, now: u64)
    ensures var everywhere := Policy(db).Seconds();
            Purged(db, now) == db.(messages := KeptMessages(db.messages, db.conversations, AsI64(now), everywhere),
                                   outbox := KeptOutbox(db.outbox, db.conversations, AsI64(now), everywhere))
  {
  }

  lemma {:induction false} PurgeRuns(db: Db, now: u64)
    ensures ExecAll(db, PurgeProgram(db, now)) == Purged(db, now)
  {
    var p := PurgeProgram(db, now);
    assert p[1..] == [p[1]] && p[1..][1..] == [];
    assert ExecAll(Exec(db, p[0]), p[1..]) == Exec(Exec(db, p[0]), p[1]);
  }
}
