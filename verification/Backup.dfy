/** Exporting a device and rebuilding it. */
module Backup {
  import opened Basics
  import opened RowOrder
  import opened Mls
  import opened Tables
  import opened Client
  import opened Storage
  import opened Sessions
  import opened Protocol
  import opened ProgramRuns
  import opened BackupFile
  import StoreRules
  import Restarts

  datatype BackupConversation = BackupConversation(id: Ident, contactId: Ident, disappearAfter: Option<u64>)
  datatype BackupMessage = BackupMessage(id: Ident, conversation: Ident, outgoing: bool, body: string, at: u64)

  /** What is sealed into the file. */
  datatype Payload = Payload(
    displayName: string, inbox: Ident, signerPublic: Bytes, mls: State,
    contacts: seq<StoredContact>, conversations: seq<BackupConversation>, messages: seq<BackupMessage>,
    retention: string)

  // ---- Rows in and out ------------------------------------------------------

  function Unsigned(seconds: Option<int>): Option<u64> {
    match seconds case None => None case Some(s) => Some(AsU64(s))
  }

  function Signed(seconds: Option<u64>): Option<int> {
    match seconds case None => None case Some(s) => Some(AsI64(s))
  }

  function BackedUp(id: Ident, m: Message): BackupMessage {
    BackupMessage(id, m.conversation, m.direction == Sent, m.body, AsU64(m.at))
  }

  function Restored(m: BackupMessage): Message {
    Message(m.conversation, if m.outgoing then Sent else Received, m.body, AsI64(m.at))
  }

  /** An INTEGER column holds 64 bits. */
  predicate Fits(i: int) {
    -TWO_63 <= i < TWO_63
  }

  ghost predicate ColumnsFit(db: Db) {
    && (forall m :: m in db.messages ==> Fits(db.messages[m].at))
    && (forall c :: c in db.conversations && db.conversations[c].disappearAfter.Some? ==>
          Fits(db.conversations[c].disappearAfter.value))
  }

  lemma {:induction false} CastsCancel(i: int)
    requires Fits(i)
    ensures AsI64(AsU64(i)) == i
  {
  }

  // ---- What an export holds -------------------------------------------------

  function ContactIds(rows: seq<StoredContact>): (ids: seq<Ident>)
    ensures |ids| == |rows| && forall i :: 0 <= i < |ids| ==> ids[i] == rows[i].id
  {
    seq(|rows|, i requires 0 <= i < |rows| => rows[i].id)
  }

  function ConversationIds(rows: seq<BackupConversation>): (ids: seq<Ident>)
    ensures |ids| == |rows| && forall i :: 0 <= i < |ids| ==> ids[i] == rows[i].id
  {
    seq(|rows|, i requires 0 <= i < |rows| => rows[i].id)
  }

  function MessageIds(rows: seq<BackupMessage>): (ids: seq<Ident>)
    ensures |ids| == |rows| && forall i :: 0 <= i < |ids| ==> ids[i] == rows[i].id
  {
    seq(|rows|, i requires 0 <= i < |rows| => rows[i].id)
  }

  ghost predicate HoldsContacts(table: map<Ident, Contact>, rows: seq<StoredContact>) {
    Lists(ContactIds(rows), table) && forall i :: 0 <= i < |rows| ==>
      rows[i].id in table && rows[i].contact == table[rows[i].id]
  }

  function BackedUpConversation(id: Ident, c: Conversation): BackupConversation {
    BackupConversation(id, c.contact, Unsigned(c.disappearAfter))
  }

  ghost predicate HoldsConversations(table: map<Ident, Conversation>, rows: seq<BackupConversation>) {
    Lists(ConversationIds(rows), table) && forall i :: 0 <= i < |rows| ==>
      rows[i].id in table && rows[i] == BackedUpConversation(rows[i].id, table[rows[i].id])
  }

  ghost predicate HoldsMessages(table: map<Ident, Message>, rows: seq<BackupMessage>) {
    Lists(MessageIds(rows), table) && forall i :: 0 <= i < |rows| ==>
      rows[i].id in table && rows[i] == BackedUp(rows[i].id, table[rows[i].id])
  }

  /** The payload lists every row of the three tables once, and the live MLS state rather than the saved one. */
  ghost predicate Exports(d: Device, p: Payload) {
    && p.displayName == d.identity.displayName && p.inbox == d.identity.inbox
    && p.signerPublic == d.identity.signerPublic
    && p.mls == d.mls && p.retention == Policy(d.db).AsStr()
    && HoldsContacts(d.db.contacts, p.contacts) && HoldsConversations(d.db.conversations, p.conversations)
    && HoldsMessages(d.db.messages, p.messages)
  }

  // ---- The statements of an import --------------------------------------------

  function ContactStmts(rows: seq<StoredContact>): seq<Stmt>
    decreases |rows|
  {
    if rows == [] then []
    else ContactStmts(rows[..|rows| - 1]) + [InsertContact(rows[|rows| - 1].id, rows[|rows| - 1].contact)]
  }

  function ConversationStmts(rows: seq<BackupConversation>): seq<Stmt>
    decreases |rows|
  {
    if rows == [] then [] else
      var c := rows[|rows| - 1];
      ConversationStmts(rows[..|rows| - 1]) + [PutConversation(c.id, c.contactId),
                                               SetDisappearAfter(c.id, Signed(c.disappearAfter))]
  }

  function MessageStmts(rows: seq<BackupMessage>): seq<Stmt>
    decreases |rows|
  {
    if rows == [] then []
    else MessageStmts(rows[..|rows| - 1]) + [PutMessage(rows[|rows| - 1].id, Restored(rows[|rows| - 1]))]
  }

  /** `import_backup`, statement by statement. */
  function ImportProgram(p: Payload): seq<Stmt> {
    HeadStmts(p) + ConversationStmts(p.conversations) + MessageStmts(p.messages)
    + [PutSetting(RETENTION, RetentionPolicy.Parse(p.retention).AsStr())]
  }

  // ---- What the statements rebuild ---------------------------------------------

  /** The rows of a table with these keys. */
  function Restrict<V>(table: map<Ident, V>, ids: seq<Ident>): map<Ident, V> {
    map k | k in table && k in ids :: table[k]
  }

  lemma {:induction false} RestrictSnoc<V>(table: map<Ident, V>, ids: seq<Ident>, n: nat)
    requires n < |ids| && ids[n] in table
    ensures Restrict(table, ids[..n + 1]) == Restrict(table, ids[..n])[ids[n] := table[ids[n]]]
  {
    assert ids[..n + 1] == ids[..n] + [ids[n]];
  }

  lemma {:induction false} RestrictAll<V>(table: map<Ident, V>, ids: seq<Ident>)
    requires Lists(ids, table)
    ensures Restrict(table, ids) == table
  {
  }

  lemma {:induction false} NotYet(ids: seq<Ident>, n: nat)
    requires n < |ids| && forall i, j :: 0 <= i < j < |ids| ==> ids[i] != ids[j]
    ensures ids[n] !in ids[..n]
  {
  }

  lemma {:induction false} ContactRestored(db: Db, id: Ident, c: Contact)
    requires id !in db.contacts
    ensures Exec(db, InsertContact(id, c)) == db.(contacts := db.contacts[id := c])
  {
  }

  lemma {:induction false} ContactsRebuilt(db: Db, source: Db, rows: seq<StoredContact>, n: nat)
    requires HoldsContacts(source.contacts, rows) && n <= |rows| && db.contacts == map[]
    ensures ExecAll(db, ContactStmts(rows[..n])) == db.(contacts := Restrict(source.contacts, ContactIds(rows)[..n]))
    decreases n
  {
    var ids := ContactIds(rows);
    if n == 0 {
      assert Restrict(source.contacts, ids[..0]) == map[];
    } else {
      var row := rows[n - 1];
      var front := ContactStmts(rows[..n - 1]);
      assert rows[..n][..n - 1] == rows[..n - 1];
      assert ContactStmts(rows[..n]) == front + [InsertContact(row.id, row.contact)];
      ContactsRebuilt(db, source, rows, n - 1);
      ExecAllSnoc(db, front, InsertContact(row.id, row.contact));
      NotYet(ids, n - 1);
      assert row.id !in Restrict(source.contacts, ids[..n - 1]);
      ContactRestored(ExecAll(db, front), row.id, source.contacts[row.id]);
      RestrictSnoc(source.contacts, ids, n - 1);
    }
  }

  lemma {:induction false} FiledWithInterval(db: Db, id: Ident, row: Conversation)
    requires id !in db.conversations && row.contact in db.contacts
    ensures Exec(Exec(db, PutConversation(id, row.contact)), SetDisappearAfter(id, row.disappearAfter))
            == db.(conversations := db.conversations[id := row])
  {
  }

  lemma {:induction false} ConversationsRebuilt(db: Db, source: Db, rows: seq<BackupConversation>, n: nat)
    requires HoldsConversations(source.conversations, rows) && Integrity(source) && ColumnsFit(source) && n <= |rows|
    requires db.conversations == map[] && db.contacts == source.contacts
    ensures ExecAll(db, ConversationStmts(rows[..n]))
            == db.(conversations := Restrict(source.conversations, ConversationIds(rows)[..n]))
    decreases n
  {
    var ids := ConversationIds(rows);
    if n == 0 {
      assert Restrict(source.conversations, ids[..0]) == map[];
    } else {
      var c := rows[n - 1];
      var front := ConversationStmts(rows[..n - 1]);
      assert rows[..n][..n - 1] == rows[..n - 1];
      ConversationsRebuilt(db, source, rows, n - 1);
      assert front + [PutConversation(c.id, c.contactId), SetDisappearAfter(c.id, Signed(c.disappearAfter))]
          == front + [PutConversation(c.id, c.contactId)] + [SetDisappearAfter(c.id, Signed(c.disappearAfter))];
      ExecAllSnoc(db, front, PutConversation(c.id, c.contactId));
      ExecAllSnoc(db, front + [PutConversation(c.id, c.contactId)], SetDisappearAfter(c.id, Signed(c.disappearAfter)));
      NotYet(ids, n - 1);
      RestrictSnoc(source.conversations, ids, n - 1);
      IntervalSurvives(source.conversations[c.id].disappearAfter);
      FiledWithInterval(ExecAll(db, front), c.id, source.conversations[c.id]);
    }
  }

  lemma {:induction false} IntervalSurvives(seconds: Option<int>)
    requires seconds.Some? ==> Fits(seconds.value)
    ensures Signed(Unsigned(seconds)) == seconds
  {
    if seconds.Some? {
      CastsCancel(seconds.value);
    }
  }

  /** One message restored: its row is the one that was backed up. */
  lemma {:induction false} MessageRestored(db: Db, id: Ident, m: Message)
    requires Fits(m.at) && m.conversation in db.conversations
    ensures Exec(db, PutMessage(id, Restored(BackedUp(id, m)))) == db.(messages := db.messages[id := m])
  {
    CastsCancel(m.at);
  }

  lemma {:induction false} MessagesRebuilt(db: Db, source: Db, rows: seq<BackupMessage>, n: nat)
    requires HoldsMessages(source.messages, rows) && n <= |rows| && db.messages == map[]
    requires forall m :: m in source.messages ==>
               Fits(source.messages[m].at) && source.messages[m].conversation in db.conversations
    ensures ExecAll(db, MessageStmts(rows[..n])) == db.(messages := Restrict(source.messages, MessageIds(rows)[..n]))
    decreases n
  {
    var ids := MessageIds(rows);
    if n == 0 {
      assert Restrict(source.messages, ids[..0]) == map[];
    } else {
      var m := rows[n - 1];
      var front := MessageStmts(rows[..n - 1]);
      assert rows[..n][..n - 1] == rows[..n - 1];
      assert MessageStmts(rows[..n]) == front + [PutMessage(m.id, Restored(m))];
      MessagesRebuilt(db, source, rows, n - 1);
      ExecAllSnoc(db, front, PutMessage(m.id, Restored(m)));
      MessageRestored(ExecAll(db, front), m.id, source.messages[m.id]);
      RestrictSnoc(source.messages, ids, n - 1);
    }
  }

  /** The tables an import of this device leaves: no outbox, no key-change history, no setting but retention. */
  function Transplanted(d: Device): Db {
    Db(Some(d.identity), Some(d.mls), d.db.contacts, d.db.conversations, d.db.messages, map[], map[],
       map[RETENTION := Policy(d.db).AsStr()])
  }

  function HeadStmts(p: Payload): seq<Stmt> {
    [PutIdentity(Identity(p.displayName, p.inbox, p.signerPublic)), PutMlsState(p.mls)] + ContactStmts(p.contacts)
  }

  lemma {:induction false} HeadRebuilds(d: Device, p: Payload)
    requires Exports(d, p)
    ensures ExecAll(EMPTY, HeadStmts(p)) == EMPTY.(identity := Some(d.identity), mls := Some(d.mls),
                                                   contacts := d.db.contacts)
  {
    var first := [PutIdentity(Identity(p.displayName, p.inbox, p.signerPublic)), PutMlsState(p.mls)];
    var db1 := EMPTY.(identity := Some(d.identity), mls := Some(d.mls));
    assert first == [first[0]] + [first[1]];
    ExecAllSnoc(EMPTY, [first[0]], first[1]);
    ExecAllSnoc(EMPTY, [], first[0]);
    assert ExecAll(EMPTY, first) == db1;
    ExecAllConcat(EMPTY, first, ContactStmts(p.contacts));
    assert p.contacts[..|p.contacts|] == p.contacts && ContactIds(p.contacts)[..|p.contacts|] == ContactIds(p.contacts);
    ContactsRebuilt(db1, d.db, p.contacts, |p.contacts|);
    RestrictAll(d.db.contacts, ContactIds(p.contacts));
  }

  /** Importing what a device exported rebuilds its tables, but for what a backup does not carry. */
  lemma {:induction false} ImportRebuilds(d: Device, p: Payload)
    requires Exports(d, p) && Integrity(d.db) && ColumnsFit(d.db)
    ensures ExecAll(EMPTY, ImportProgram(p)) == Transplanted(d)
  {
    var head := HeadStmts(p);
    var conversations := ConversationStmts(p.conversations);
    var messages := MessageStmts(p.messages);
    HeadRebuilds(d, p);
    ThreadsRebuild(d, p, ExecAll(EMPTY, head));
    ExecAllConcat(EMPTY, head, conversations);
    ExecAllConcat(EMPTY, head + conversations, messages);
    ExecAllSnoc(EMPTY, head + conversations + messages,
                PutSetting(RETENTION, RetentionPolicy.Parse(p.retention).AsStr()));
    SettingRestored(d, p);
  }

  lemma {:induction false} SettingRestored(d: Device, p: Payload)
    requires p.retention == Policy(d.db).AsStr()
    ensures Exec(EMPTY.(identity := Some(d.identity), mls := Some(d.mls), contacts := d.db.contacts,
                        conversations := d.db.conversations, messages := d.db.messages),
                 PutSetting(RETENTION, RetentionPolicy.Parse(p.retention).AsStr())) == Transplanted(d)
  {
    StoreRules.PolicyRoundTrip(Policy(d.db));
  }

  lemma {:induction false} ThreadsRebuild(d: Device, p: Payload, db: Db)
    requires Exports(d, p) && Integrity(d.db) && ColumnsFit(d.db)
    requires db.contacts == d.db.contacts && db.conversations == map[] && db.messages == map[]
    ensures ExecAll(ExecAll(db, ConversationStmts(p.conversations)), MessageStmts(p.messages))
            == db.(conversations := d.db.conversations, messages := d.db.messages)
  {
    assert p.conversations[..|p.conversations|] == p.conversations
           && ConversationIds(p.conversations)[..|p.conversations|] == ConversationIds(p.conversations);
    ConversationsRebuilt(db, d.db, p.conversations, |p.conversations|);
    RestrictAll(d.db.conversations, ConversationIds(p.conversations));
    assert p.messages[..|p.messages|] == p.messages && MessageIds(p.messages)[..|p.messages|] == MessageIds(p.messages);
    MessagesRebuilt(db.(conversations := d.db.conversations), d.db, p.messages, |p.messages|);
    RestrictAll(d.db.messages, MessageIds(p.messages));
  }

  // ---- The round trip -----------------------------------------------------------

  /** A device that opens: its credential is the one its identity row names. */
  ghost predicate Exportable(d: Device) {
    Integrity(d.db) && ColumnsFit(d.db) && d.identity.signerPublic == d.mls.me
  }

  /**
   Importing an export on an empty device opens it as the exporting device was at that instant: identity,
   ratchets, contacts with their keys and verification, conversations with their intervals, the retention
   policy, and every thread in its order, less what retention takes at the moment of opening.
  */
  lemma {:induction false} BackupRoundTrip(d: Device, p: Payload, now: u64)
    requires Exports(d, p) && Exportable(d)
    ensures var imported := ExecAll(EMPTY, ImportProgram(p));
            && CanOpen(imported)
            && var r := Opened(imported, now);
               && r.identity == d.identity && r.mls == d.mls && r.live == Reloaded(d.db, d.mls)
               && r.db.contacts == d.db.contacts && r.db.conversations == d.db.conversations
               && Policy(r.db) == Policy(d.db)
               && r.db.messages == Purged(d.db, now).messages
               && (forall c :: MessagesOrder(imported, c) == MessagesOrder(d.db, c)
                                && MessagesOrder(r.db, c) == MessagesOrder(Purged(d.db, now), c))
               && r.db.outbox == map[] && r.db.changes == map[]
  {
    var imported := ExecAll(EMPTY, ImportProgram(p));
    ImportRebuilds(d, p);
    StoreRules.PolicyRoundTrip(Policy(d.db));
    assert Policy(imported) == Policy(d.db);
    PurgedIs(imported, now);
    PurgedIs(d.db, now);
    SameMessagesSameOrder(imported, d.db);
    SameMessagesSameOrder(Purged(imported, now), Purged(d.db, now));
  }

  lemma {:induction false} SameMessagesSameOrder(a: Db, b: Db)
    requires a.messages == b.messages
    ensures forall c :: MessagesOrder(a, c) == MessagesOrder(b, c)
  {
    forall c ensures MessagesOrder(a, c) == MessagesOrder(b, c) {
      assert MessageTimes(a, c) == MessageTimes(b, c);
    }
  }

  /** A restored contact is verified only on the strength of the same action the old device remembers. */
  lemma {:induction false} TrustSurvivesRestore(d: Device, h: StoreRules.History, p: Payload, now: u64)
    requires Exports(d, p) && Exportable(d) && StoreRules.Trusted(d.db, h)
    ensures CanOpen(ExecAll(EMPTY, ImportProgram(p)))
    ensures StoreRules.Trusted(Opened(ExecAll(EMPTY, ImportProgram(p)), now).db, h)
  {
    BackupRoundTrip(d, p, now);
  }

  /** What a backup forgets: a key change the user had not answered is no longer reported for anyone. */
  lemma {:induction false} WarningsAreNotBackedUp(d: Device, p: Payload, now: u64, id: Ident)
    requires Exports(d, p) && Exportable(d) && id in d.db.contacts && StoreRules.Unanswered(d.db, id)
    ensures StoreRules.IdentityStateOf(d.db, id) == StoreRules.KeyChanged
    ensures CanOpen(ExecAll(EMPTY, ImportProgram(p)))
    ensures var r := Opened(ExecAll(EMPTY, ImportProgram(p)), now).db;
            id in r.contacts && StoreRules.IdentityStateOf(r, id) != StoreRules.KeyChanged
  {
    BackupRoundTrip(d, p, now);
  }

  // ---- Exporting ------------------------------------------------------------------

  lemma {:induction false} ListsJoin<V>(a: seq<Ident>, s: map<Ident, V>, b: seq<Ident>, t: map<Ident, V>)
    requires Lists(a, s) && Lists(b, t) && s.Keys !! t.Keys
    ensures Lists(a + b, s + t)
  {
  }

  /** The messages of these conversations. */
  function MessagesOf(table: map<Ident, Message>, conversations: set<Ident>): map<Ident, Message> {
    map id | id in table && table[id].conversation in conversations :: table[id]
  }

  /** The conversations of these contacts. */
  function ConversationsOf(table: map<Ident, Conversation>, contacts: set<Ident>): map<Ident, Conversation> {
    map c | c in table && table[c].contact in contacts :: table[c]
  }

  lemma {:induction false} MessagesJoin(table: map<Ident, Message>, a: seq<BackupMessage>, s: set<Ident>,
      b: seq<BackupMessage>, t: set<Ident>)
    requires HoldsMessages(MessagesOf(table, s), a) && HoldsMessages(MessagesOf(table, t), b) && s !! t
    ensures HoldsMessages(MessagesOf(table, s + t), a + b)
  {
    MessagesSplit(table, s, t);
    ListsJoin(MessageIds(a), MessagesOf(table, s), MessageIds(b), MessagesOf(table, t));
    assert MessageIds(a + b) == MessageIds(a) + MessageIds(b);
    var all := MessagesOf(table, s + t);
    forall i | 0 <= i < |a + b|
      ensures (a + b)[i].id in all && (a + b)[i] == BackedUp((a + b)[i].id, all[(a + b)[i].id])
    {
      assert (a + b)[i] == if i < |a| then a[i] else b[i - |a|];
    }
  }

  lemma {:induction false} MessagesSplit(table: map<Ident, Message>, s: set<Ident>, t: set<Ident>)
    requires s !! t
    ensures MessagesOf(table, s) + MessagesOf(table, t) == MessagesOf(table, s + t)
    ensures MessagesOf(table, s).Keys !! MessagesOf(table, t).Keys
  {
  }

  lemma {:induction false} ConversationsJoin(table: map<Ident, Conversation>, a: seq<BackupConversation>, s: set<Ident>,
      b: seq<BackupConversation>, t: set<Ident>)
    requires HoldsConversations(ConversationsOf(table, s), a) && HoldsConversations(ConversationsOf(table, t), b)
    requires s !! t
    ensures HoldsConversations(ConversationsOf(table, s + t), a + b)
  {
    ConversationsSplit(table, s, t);
    ListsJoin(ConversationIds(a), ConversationsOf(table, s), ConversationIds(b), ConversationsOf(table, t));
    assert ConversationIds(a + b) == ConversationIds(a) + ConversationIds(b);
    var all := ConversationsOf(table, s + t);
    forall i | 0 <= i < |a + b|
      ensures (a + b)[i].id in all && (a + b)[i] == BackedUpConversation((a + b)[i].id, all[(a + b)[i].id])
    {
      assert (a + b)[i] == if i < |a| then a[i] else b[i - |a|];
    }
  }

  lemma {:induction false} ConversationsSplit(table: map<Ident, Conversation>, s: set<Ident>, t: set<Ident>)
    requires s !! t
    ensures ConversationsOf(table, s) + ConversationsOf(table, t) == ConversationsOf(table, s + t)
    ensures ConversationsOf(table, s).Keys !! ConversationsOf(table, t).Keys
  {
  }

  /** One conversation's messages, in backup framing. */
  method ExportMessages(store: LocalStore, c: Ident) returns (rows: seq<BackupMessage>)
    ensures HoldsMessages(MessagesOf(store.messages, {c}), rows)
  {
    rows := [];
    var stored := store.Messages(c);
    ghost var order := MessagesOrder(store.Tables(), c);
    for i := 0 to |stored|
      invariant |rows| == i
      invariant forall k :: 0 <= k < i ==> rows[k] == BackedUp(order[k], store.messages[order[k]])
    {
      var m := stored[i];
      rows := rows + [BackupMessage(m.id, m.message.conversation, m.message.direction == Sent, m.message.body,
                                    AsU64(m.message.at))];
    }
    ThreadIsHeld(store.Tables(), c, rows);
  }

  /** A thread in the order it is read, row for row. */
  lemma {:induction false} ThreadIsHeld(db: Db, c: Ident, rows: seq<BackupMessage>)
    requires |rows| == |MessagesOrder(db, c)|
    requires forall k :: 0 <= k < |rows| ==>
               var id := MessagesOrder(db, c)[k]; id in db.messages && rows[k] == BackedUp(id, db.messages[id])
    ensures HoldsMessages(MessagesOf(db.messages, {c}), rows)
  {
    InOrderEnumerates(MessageTimes(db, c));
    assert MessageIds(rows) == MessagesOrder(db, c);
  }

  /** The conversations with these contacts and their messages, each listed once. */
  ghost predicate GatheredFrom(db: Db, contacts: set<Ident>, conversations: seq<BackupConversation>,
      messages: seq<BackupMessage>)
  {
    && HoldsConversations(ConversationsOf(db.conversations, contacts), conversations)
    && HoldsMessages(MessagesOf(db.messages, ConversationsOf(db.conversations, contacts).Keys), messages)
  }

  lemma {:induction false} GatherContact(db: Db, done: set<Ident>, conversations: seq<BackupConversation>,
      messages: seq<BackupMessage>, id: Ident, theirs: seq<BackupConversation>, said: seq<BackupMessage>)
    requires GatheredFrom(db, done, conversations, messages) && GatheredFrom(db, {id}, theirs, said) && id !in done
    ensures GatheredFrom(db, done + {id}, conversations + theirs, messages + said)
  {
    var before, more := ConversationsOf(db.conversations, done), ConversationsOf(db.conversations, {id});
    ConversationsJoin(db.conversations, conversations, done, theirs, {id});
    MessagesJoin(db.messages, messages, before.Keys, said, more.Keys);
    assert before.Keys + more.Keys == ConversationsOf(db.conversations, done + {id}).Keys;
  }

  /** One conversation and its messages, added to those gathered so far. */
  method ExportConversation(store: LocalStore, contact: Ident, c: Ident, gathered: seq<BackupMessage>,
      ghost done: set<Ident>)
    returns (conversation: BackupConversation, messages: seq<BackupMessage>)
    requires c in store.conversations && store.conversations[c].contact == contact && c !in done
    requires HoldsMessages(MessagesOf(store.messages, done), gathered)
    ensures conversation == BackedUpConversation(c, store.conversations[c])
    ensures HoldsMessages(MessagesOf(store.messages, done + {c}), messages)
  {
    var seconds := store.DisappearAfter(c);
    conversation := BackupConversation(c, contact, seconds);
    var rows := ExportMessages(store, c);
    MessagesJoin(store.messages, gathered, done, rows, {c});
    messages := gathered + rows;
  }

  /** One contact's conversations and their messages. */
  method ExportContact(store: LocalStore, contact: Ident)
    returns (conversations: seq<BackupConversation>, messages: seq<BackupMessage>)
    ensures GatheredFrom(store.Tables(), {contact}, conversations, messages)
  {
    conversations, messages := [], [];
    var ids := store.ConversationsOf(contact);
    ConversationsForExactly(store.Tables(), contact);
    ghost var done: set<Ident> := {};
    for i := 0 to |ids|
      invariant |conversations| == i
      invariant forall k :: 0 <= k < i ==> conversations[k] == BackedUpConversation(ids[k], store.conversations[ids[k]])
      invariant HoldsMessages(MessagesOf(store.messages, done), messages)
      invariant forall c :: c in done <==> c in ids[..i]
    {
      NotYet(ids, i);
      var conversation;
      conversation, messages := ExportConversation(store, contact, ids[i], messages, done);
      conversations := conversations + [conversation];
      done := done + {ids[i]};
      assert ids[..i + 1] == ids[..i] + [ids[i]];
    }
    assert ids[..|ids|] == ids;
    ConversationsListed(store.Tables(), contact, ids, conversations);
    assert done == ConversationsOf(store.conversations, {contact}).Keys;
  }

  lemma {:induction false} ConversationsListed(db: Db, contact: Ident, ids: seq<Ident>, rows: seq<BackupConversation>)
    requires ids == ConversationsFor(db, contact) && |rows| == |ids|
    requires forall k :: 0 <= k < |ids| ==>
               ids[k] in db.conversations && rows[k] == BackedUpConversation(ids[k], db.conversations[ids[k]])
    ensures HoldsConversations(ConversationsOf(db.conversations, {contact}), rows)
  {
    ConversationsForExactly(db, contact);
    assert ConversationIds(rows) == ids;
  }

  /** Everything a backup restores, gathered contact by contact. */
  method ExportPayload(pouch: Pouch) returns (p: Payload)
    requires Integrity(pouch.store.Tables())
    ensures Exports(pouch.Device(), p)
  {
    var store := pouch.store;
    var contacts := store.Contacts();
    var conversations, messages := [], [];
    ghost var done: set<Ident> := {};
    for i := 0 to |contacts|
      invariant GatheredFrom(store.Tables(), done, conversations, messages)
      invariant forall k :: 0 <= k < |contacts| ==> (contacts[k].id in done <==> k < i)
    {
      var id := contacts[i].id;
      var theirs, said := ExportContact(store, id);
      GatherContact(store.Tables(), done, conversations, messages, id, theirs, said);
      conversations := conversations + theirs;
      messages := messages + said;
      done := done + {id};
    }
    EveryRowIsReached(store.Tables(), done);
    var policy := store.RetentionPolicySetting();
    p := Payload(pouch.identity.displayName, pouch.identity.inbox, pouch.identity.signerPublic, pouch.provider.state,
                 contacts, conversations, messages, policy.AsStr());
  }

  /** With every reference valid, going through the contacts reaches every row. */
  lemma {:induction false} EveryRowIsReached(db: Db, done: set<Ident>)
    requires Integrity(db) && forall id :: id in db.contacts ==> id in done
    ensures ConversationsOf(db.conversations, done) == db.conversations
    ensures MessagesOf(db.messages, db.conversations.Keys) == db.messages
  {
  }

  /** The file: everything gathered, serialised, and sealed under a key derived from the recovery key. */
  method ExportBackup(pouch: Pouch, l: Libraries<Payload>, recoveryKey: Bytes, salt: Bytes,
      nonce: Bytes) returns (file: Bytes)
    requires Integrity(pouch.store.Tables())
    ensures exists p :: Exports(pouch.Device(), p) && file == Written(l, recoveryKey, salt, nonce, p)
  {
    var payload := ExportPayload(pouch);
    var key := l.derive(recoveryKey, salt);
    var ciphertext := l.seal(key, nonce, l.encode(payload));
    file := MAGIC + [FORMAT_VERSION] + salt + nonce + ciphertext;
    assert file == Written(l, recoveryKey, salt, nonce, payload);
  }

  // ---- Importing ------------------------------------------------------------------

  method PutContacts(store: LocalStore, rows: seq<StoredContact>)
    modifies store, store.journal
    ensures store.Tables() == ExecAll(old(store.Tables()), ContactStmts(rows))
    ensures store.Tables() == old(store.Tables()).(contacts := store.contacts)
    ensures forall id :: id in store.contacts <==> id in old(store.contacts) || id in ContactIds(rows)
  {
    ghost var ids := ContactIds(rows);
    for i := 0 to |rows|
      invariant store.Tables() == ExecAll(old(store.Tables()), ContactStmts(rows[..i]))
      invariant store.Tables() == old(store.Tables()).(contacts := store.contacts)
      invariant forall id :: id in store.contacts <==> id in old(store.contacts) || id in ids[..i]
    {
      assert rows[..i + 1][..i] == rows[..i] && ids[..i + 1] == ids[..i] + [ids[i]];
      ExecAllSnoc(old(store.Tables()), ContactStmts(rows[..i]), InsertContact(rows[i].id, rows[i].contact));
      store.PutContact(rows[i].id, rows[i].contact);
    }
    assert rows[..|rows|] == rows && ids[..|ids|] == ids;
  }

  ghost function IdSet(ids: seq<Ident>): set<Ident> {
    set id | id in ids
  }

  lemma {:induction false} IdSetSnoc(ids: seq<Ident>, i: nat)
    requires i < |ids|
    ensures IdSet(ids[..i + 1]) == IdSet(ids[..i]) + {ids[i]}
  {
    assert ids[..i + 1] == ids[..i] + [ids[i]];
  }

  /** Stops at the first conversation whose contact is missing. */
  method PutConversations(store: LocalStore, rows: seq<BackupConversation>) returns (ok: bool)
    modifies store, store.journal
    ensures ok <==> forall i :: 0 <= i < |rows| ==> rows[i].contactId in old(store.contacts)
    ensures ok ==> store.Tables() == ExecAll(old(store.Tables()), ConversationStmts(rows))
  {
    for i := 0 to |rows|
      invariant forall k :: 0 <= k < i ==> rows[k].contactId in old(store.contacts)
      invariant store.Tables() == ExecAll(old(store.Tables()), ConversationStmts(rows[..i]))
      invariant store.contacts == old(store.contacts)
    {
      ConversationStmtsSnoc(old(store.Tables()), rows, i);
      var filed := PutOneConversation(store, rows[i]);
      if !filed {
        return false;
      }
    }
    assert rows[..|rows|] == rows;
    return true;
  }

  lemma {:induction false} ConversationKeys(db: Db, rows: seq<BackupConversation>)
    requires forall i :: 0 <= i < |rows| ==> rows[i].contactId in db.contacts
    ensures var after := ExecAll(db, ConversationStmts(rows));
            after == db.(conversations := after.conversations)
            && after.conversations.Keys == db.conversations.Keys + IdSet(ConversationIds(rows))
    decreases |rows|
  {
    if rows == [] {
      assert IdSet(ConversationIds(rows)) == {};
    } else {
      var n := |rows| - 1;
      var mid := ExecAll(db, ConversationStmts(rows[..n]));
      ConversationKeys(db, rows[..n]);
      ConversationStmtsSnoc(db, rows, n);
      assert rows[..n + 1] == rows;
      IdSetSnoc(ConversationIds(rows), n);
      assert ConversationIds(rows)[..n] == ConversationIds(rows[..n])
             && ConversationIds(rows)[..n + 1] == ConversationIds(rows);
      FiledKeys(mid, rows[n]);
    }
  }

  lemma {:induction false} FiledKeys(db: Db, row: BackupConversation)
    requires row.contactId in db.contacts
    ensures var after := Exec(Exec(db, PutConversation(row.id, row.contactId)),
                              SetDisappearAfter(row.id, Signed(row.disappearAfter)));
            after == db.(conversations := after.conversations)
            && after.conversations.Keys == db.conversations.Keys + {row.id}
  {
  }

  method PutOneConversation(store: LocalStore, row: BackupConversation) returns (ok: bool)
    modifies store, store.journal
    ensures ok <==> row.contactId in old(store.contacts)
    ensures ok ==> store.Tables() == Exec(Exec(old(store.Tables()), PutConversation(row.id, row.contactId)),
                                          SetDisappearAfter(row.id, Signed(row.disappearAfter)))
    ensures ok ==> store.contacts == old(store.contacts)
  {
    ok := store.PutConversation(row.id, row.contactId);
    if ok {
      store.SetDisappearAfter(row.id, row.disappearAfter);
    }
  }

  lemma {:induction false} ConversationStmtsSnoc(db: Db, rows: seq<BackupConversation>, i: nat)
    requires i < |rows|
    ensures ExecAll(db, ConversationStmts(rows[..i + 1]))
            == Exec(Exec(ExecAll(db, ConversationStmts(rows[..i])), PutConversation(rows[i].id, rows[i].contactId)),
                    SetDisappearAfter(rows[i].id, Signed(rows[i].disappearAfter)))
  {
    var front := ConversationStmts(rows[..i]);
    var put := PutConversation(rows[i].id, rows[i].contactId);
    var set' := SetDisappearAfter(rows[i].id, Signed(rows[i].disappearAfter));
    assert rows[..i + 1][..i] == rows[..i];
    assert ConversationStmts(rows[..i + 1]) == (front + [put]) + [set'];
    ExecAllSnoc(db, front, put);
    ExecAllSnoc(db, front + [put], set');
  }

  /** Stops at the first message whose conversation is missing. */
  method PutMessages(store: LocalStore, rows: seq<BackupMessage>) returns (ok: bool)
    modifies store, store.journal
    ensures ok <==> forall i :: 0 <= i < |rows| ==> rows[i].conversation in old(store.conversations)
    ensures ok ==> store.Tables() == ExecAll(old(store.Tables()), MessageStmts(rows))
  {
    for i := 0 to |rows|
      invariant forall k :: 0 <= k < i ==> rows[k].conversation in old(store.conversations)
      invariant store.Tables() == ExecAll(old(store.Tables()), MessageStmts(rows[..i]))
      invariant store.conversations == old(store.conversations)
    {
      assert rows[..i + 1][..i] == rows[..i];
      var row := Message(rows[i].conversation, if rows[i].outgoing then Sent else Received, rows[i].body,
                         AsI64(rows[i].at));
      ExecAllSnoc(old(store.Tables()), MessageStmts(rows[..i]), PutMessage(rows[i].id, row));
      var stored := store.PutMessage(rows[i].id, row);
      if !stored {
        return false;
      }
    }
    assert rows[..|rows|] == rows;
    return true;
  }

  /** No row of the payload points outside it. */
  ghost predicate SelfContained(p: Payload) {
    && (forall i :: 0 <= i < |p.conversations| ==> p.conversations[i].contactId in ContactIds(p.contacts))
    && (forall i :: 0 <= i < |p.messages| ==> p.messages[i].conversation in ConversationIds(p.conversations))
  }

  /** Fills an empty database from a payload, row by row. */
  method Populate(store: LocalStore, p: Payload) returns (ok: bool)
    requires store.Tables() == EMPTY
    modifies store, store.journal
    ensures ok <==> SelfContained(p)
    ensures ok ==> store.Tables() == ExecAll(EMPTY, ImportProgram(p))
  {
    PopulateHead(store, p);
    ghost var head := store.Tables();
    ok := PutConversations(store, p.conversations);
    if !ok {
      return;
    }
    ConversationKeys(head, p.conversations);
    ok := PutMessages(store, p.messages);
    if !ok {
      return;
    }
    store.SetRetentionPolicy(RetentionPolicy.Parse(p.retention));
    ExecAllConcat(EMPTY, HeadStmts(p), ConversationStmts(p.conversations));
    ExecAllConcat(EMPTY, HeadStmts(p) + ConversationStmts(p.conversations), MessageStmts(p.messages));
    ExecAllSnoc(EMPTY, HeadStmts(p) + ConversationStmts(p.conversations) + MessageStmts(p.messages),
                PutSetting(RETENTION, RetentionPolicy.Parse(p.retention).AsStr()));
  }

  method PopulateHead(store: LocalStore, p: Payload)
    requires store.Tables() == EMPTY
    modifies store, store.journal
    ensures store.Tables() == ExecAll(EMPTY, HeadStmts(p))
    ensures store.conversations == map[] && forall id :: id in store.contacts <==> id in ContactIds(p.contacts)
  {
    var row := Identity(p.displayName, p.inbox, p.signerPublic);
    store.PutIdentity(row);
    store.PutMlsState(p.mls);
    ghost var first := [PutIdentity(row), PutMlsState(p.mls)];
    assert first == [first[0]] + [first[1]];
    ExecAllSnoc(EMPTY, [first[0]], first[1]);
    ExecAllSnoc(EMPTY, [], first[0]);
    ExecAllConcat(EMPTY, first, ContactStmts(p.contacts));
    PutContacts(store, p.contacts);
  }

  datatype Imported = Running(pouch: Pouch) | Unreadable(error: BackupError) | StorageFailed | NotOpened

  /** Onto a path with no identity yet: read, populate, then open as any other database. */
  method ImportBackup(l: Libraries<Payload>, recoveryKey: Bytes, file: Bytes, store: LocalStore, relay: RelayLink,
      ghost journal: Journal, now: u64)
    returns (r: Imported)
    requires store.Tables() == EMPTY && store.journal == journal && relay.journal == journal
    modifies store, journal
    ensures match Read(l, recoveryKey, file)
            case Err(e) => r == Imported.Unreadable(e) && store.Tables() == EMPTY
            case Ok(p) =>
              if !SelfContained(p) then r == StorageFailed
              else if !CanOpen(ExecAll(EMPTY, ImportProgram(p))) then r == NotOpened
              else r.Running? && r.pouch.Wired() && r.pouch.Device() == Opened(ExecAll(EMPTY, ImportProgram(p)), now)
  {
    var header := ParseHeader(file);
    if header.Err? {
      return Imported.Unreadable(header.error);
    }
    var key := l.derive(recoveryKey, header.value.salt);
    var plaintext := l.unseal(key, header.value.nonce, header.value.ciphertext);
    if plaintext.None? {
      return Imported.Unreadable(WrongKeyOrCorrupted);
    }
    var payload := l.decode(plaintext.value);
    if payload.None? {
      return Imported.Unreadable(Malformed);
    }
    var ok := Populate(store, payload.value);
    if !ok {
      return StorageFailed;
    }
    var pouch := Pouch.Open(store, relay, journal, now);
    return if pouch.Some? then Running(pouch.value) else NotOpened;
  }

  /** What a device exports points nowhere outside itself, so importing it with its recovery key always opens. */
  lemma {:induction false} ExportsImport(d: Device, l: Libraries<Payload>, recoveryKey: Bytes, salt: Bytes,
      nonce: Bytes, p: Payload)
    requires Exports(d, p) && Exportable(d) && Ideal(l) && |salt| == BackupFile.SALT_BYTES && |nonce| == NONCE_BYTES
    ensures Read(l, recoveryKey, Written(l, recoveryKey, salt, nonce, p)) == Ok(p)
    ensures SelfContained(p) && CanOpen(ExecAll(EMPTY, ImportProgram(p)))
  {
    WrittenReadsBack(l, recoveryKey, salt, nonce, p, recoveryKey);
    BackupRoundTrip(d, p, 0);
  }
}
