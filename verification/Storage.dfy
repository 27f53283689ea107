/** The encrypted local store. */
module Storage {
  // A class over the tables. Every method commits its statements one at a time and notes each in the
  // journal it shares with the rest of the client.

  import opened Basics
  import opened RowOrder
  import opened Mls
  import opened Tables
  import opened Client
  import StoreRules

  /** What the client has done, effect by effect. */
  class Journal {
    ghost var log: seq<Effect>

    ghost constructor ()
      ensures log == []
    {
      log := [];
    }

    ghost method Note(e: Effect)
      modifies this
      ensures log == old(log) + [e]
    {
      log := log + [e];
    }
  }

  /** One row of `contacts()`. */
  datatype StoredContact = StoredContact(id: Ident, contact: Contact)
  datatype StoredMessage = StoredMessage(id: Ident, message: Message)
  datatype StoredQueued = StoredQueued(id: Ident, queued: Queued)

  /** Dated earlier, or at the same time and no later by identifier. */
  predicate Earlier(a: StoredMessage, b: StoredMessage) {
    a.message.at < b.message.at || (a.message.at == b.message.at && Leq(a.id, b.id))
  }

  class LocalStore {
    var identity: Option<Identity>
    var mls: Option<State>
    var contacts: map<Ident, Contact>
    var conversations: map<Ident, Conversation>
    var messages: map<Ident, Message>
    var outbox: map<Ident, Queued>
    var changes: map<Ident, Change>
    var settings: map<string, string>
    ghost const journal: Journal

    ghost function Tables(): Db
      reads this
    {
      Db(identity, mls, contacts, conversations, messages, outbox, changes, settings)
    }

    constructor (ghost journal: Journal, identity: Option<Identity>, mls: Option<State>, contacts: map<Ident, Contact>,
                 conversations: map<Ident, Conversation>, messages: map<Ident, Message>, outbox: map<Ident, Queued>,
                 changes: map<Ident, Change>, settings: map<string, string>)
      ensures this.journal == journal
      ensures Tables() == Db(identity, mls, contacts, conversations, messages, outbox, changes, settings)
    {
      this.journal := journal;
      this.identity, this.mls, this.contacts, this.conversations := identity, mls, contacts, conversations;
      this.messages, this.outbox, this.changes, this.settings := messages, outbox, changes, settings;
    }

    // ---- Identity and MLS state ------------------------------------------

    method PutIdentity(row: Identity)
      modifies this, journal
      ensures Tables() == Exec(old(Tables()), Stmt.PutIdentity(row))
      ensures journal.log == old(journal.log) + [Sql(Stmt.PutIdentity(row))]
    {
      identity := Some(row);
      journal.Note(Sql(Stmt.PutIdentity(row)));
    }

    /** Saving the snapshot of the client's live MLS state; `Persist` in the journal. */
    method PutMlsState(snapshot: State)
      modifies this, journal
      ensures Tables() == Exec(old(Tables()), Stmt.PutMlsState(snapshot))
      ensures journal.log == old(journal.log) + [Persist]
    {
      mls := Some(snapshot);
      journal.Note(Persist);
    }

    // ---- Contacts and conversations --------------------------------------

    /** An upsert: an existing row keeps its key and its verification. */
    method PutContact(id: Ident, row: Contact)
      modifies this, journal
      ensures Tables() == Exec(old(Tables()), InsertContact(id, row))
      ensures id !in old(contacts) ==> contacts == old(contacts)[id := row]
      ensures id in old(contacts) ==>
                contacts == old(contacts)[id := old(contacts)[id].(displayName := row.displayName, inbox := row.inbox)]
      ensures journal.log == old(journal.log) + [Sql(InsertContact(id, row))]
    {
      if id in contacts {
        contacts := contacts[id := contacts[id].(displayName := row.displayName, inbox := row.inbox)];
      } else {
        contacts := contacts[id := row];
      }
      journal.Note(Sql(InsertContact(id, row)));
    }

    method SetVerified(id: Ident, verified: bool)
      modifies this, journal
      ensures Tables() == Exec(old(Tables()), Stmt.SetVerified(id, verified))
      ensures contacts == if id in old(contacts) then old(contacts)[id := old(contacts)[id].(verified := verified)]
                          else old(contacts)
      ensures journal.log == old(journal.log) + [Sql(Stmt.SetVerified(id, verified))]
    {
      if id in contacts {
        contacts := contacts[id := contacts[id].(verified := verified)];
      }
      journal.Note(Sql(Stmt.SetVerified(id, verified)));
    }

    method ContactRow(id: Ident) returns (row: Option<Contact>)
      ensures row == if id in contacts then Some(contacts[id]) else None
    {
      if id in contacts {
        return Some(contacts[id]);
      }
      return None;
    }

    /** The new key, then the note of what it replaced: two statements, each its own commit. */
    method ReplaceIdentityKey(id: Ident, key: Bytes, now: u64) returns (changed: bool)
      modifies this, journal
      ensures changed == (id in old(contacts) && old(contacts)[id].publicKey != key)
      ensures Tables() == ExecAll(old(Tables()), StoreRules.ReplaceKeyProgram(old(Tables()), id, key, now))
      ensures journal.log == old(journal.log) + Sqls(StoreRules.ReplaceKeyProgram(old(Tables()), id, key, now))
    {
      var existing := ContactRow(id);
      if existing.None? || existing.value.publicKey == key {
        return false;
      }
      ghost var p := StoreRules.ReplaceKeyProgram(Tables(), id, key, now);
      contacts := contacts[id := contacts[id].(publicKey := key, verified := false)];
      journal.Note(Sql(SwapKey(id, key)));
      changes := changes[id := Change(existing.value.publicKey, AsI64(now), false)];
      journal.Note(Sql(NoteChange(id, existing.value.publicKey, AsI64(now))));
      assert p == [p[0]] + [p[1]];
      ExecAllSnoc(old(Tables()), [p[0]], p[1]);
      ExecAllSnoc(old(Tables()), [], p[0]);
      return true;
    }

    method AcknowledgeIdentityChange(id: Ident)
      modifies this, journal
      ensures Tables() == Exec(old(Tables()), AcknowledgeChange(id))
      ensures id in changes ==> changes[id].acknowledged
      ensures journal.log == old(journal.log) + [Sql(AcknowledgeChange(id))]
    {
      if id in changes {
        changes := changes[id := changes[id].(acknowledged := true)];
      }
      journal.Note(Sql(AcknowledgeChange(id)));
    }

    /** Fails, changing nothing, when there is no such contact. */
    method PutConversation(id: Ident, contactId: Ident) returns (ok: bool)
      modifies this, journal
      ensures ok == Allowed(old(Tables()), Stmt.PutConversation(id, contactId))
      ensures Tables() == Exec(old(Tables()), Stmt.PutConversation(id, contactId))
      ensures ok <==> contactId in contacts
      ensures ok ==> id in conversations && conversations[id].contact == contactId
      ensures ok ==> conversations[id].disappearAfter
                     == if id in old(conversations) then old(conversations)[id].disappearAfter else None
      ensures journal.log == old(journal.log) + [Sql(Stmt.PutConversation(id, contactId))]
    {
      journal.Note(Sql(Stmt.PutConversation(id, contactId)));
      if contactId !in contacts {
        return false;
      }
      if id in conversations {
        conversations := conversations[id := conversations[id].(contact := contactId)];
      } else {
        conversations := conversations[id := Conversation(contactId, None)];
      }
      return true;
    }

    method ConversationContact(id: Ident) returns (contact: Option<Ident>)
      ensures contact == if id in conversations then Some(conversations[id].contact) else None
    {
      if id in conversations {
        return Some(conversations[id].contact);
      }
      return None;
    }

    /** The contacts by display name, in an order the query leaves open between equal names. */
    method Contacts() returns (rows: seq<StoredContact>)
      ensures |rows| == |contacts|
      ensures forall i :: 0 <= i < |rows| ==> rows[i].id in contacts && rows[i].contact == contacts[rows[i].id]
      ensures forall i, j :: 0 <= i < j < |rows| ==> rows[i].id != rows[j].id
      ensures forall id :: id in contacts ==> exists i :: 0 <= i < |rows| && rows[i].id == id
      ensures SortedByName(rows)
    {
      rows := [];
      var left := contacts.Keys;
      while left != {}
        invariant Gathered(contacts, rows, left)
        decreases |left|
      {
        ghost var first := FirstNameExists(contacts, left);
        var id :| id in left && FirstNamed(contacts, left, id);
        GatherNext(contacts, rows, left, id);
        rows := rows + [StoredContact(id, contacts[id])];
        left := left - {id};
      }
      assert |contacts| == |contacts.Keys|;
    }

    method ConversationsOf(contact: Ident) returns (ids: seq<Ident>)
      ensures ids == ConversationsFor(Tables(), contact)
    {
      var rows := InOrder(map c | c in conversations && conversations[c].contact == contact :: 0);
      ids := [];
      for i := 0 to |rows|
        invariant ids == rows[..i]
      {
        ids := ids + [rows[i]];
      }
    }

    // ---- Messages and the outbox -----------------------------------------

    method PutMessage(id: Ident, row: Message) returns (ok: bool)
      modifies this, journal
      ensures ok == Allowed(old(Tables()), Stmt.PutMessage(id, row))
      ensures Tables() == Exec(old(Tables()), Stmt.PutMessage(id, row))
      ensures journal.log == old(journal.log) + [Sql(Stmt.PutMessage(id, row))]
    {
      journal.Note(Sql(Stmt.PutMessage(id, row)));
      if row.conversation !in conversations {
        return false;
      }
      messages := messages[id := row];
      return true;
    }

    method MessagesInOrder(c: Ident) returns (order: seq<Ident>)
      ensures order == MessagesOrder(Tables(), c)
    {
      order := InOrder(map id | id in messages && messages[id].conversation == c :: messages[id].at);
    }

    /** A conversation's rows in `(at, id)` order. */
    method Messages(c: Ident) returns (rows: seq<StoredMessage>)
      ensures |rows| == |MessagesOrder(Tables(), c)|
      ensures forall i :: 0 <= i < |rows| ==>
                var id := MessagesOrder(Tables(), c)[i];
                id in messages && messages[id].conversation == c && rows[i] == StoredMessage(id, messages[id])
      ensures forall id :: id in messages && messages[id].conversation == c ==>
                exists i :: 0 <= i < |rows| && rows[i] == StoredMessage(id, messages[id])
      ensures forall i, j :: 0 <= i < j < |rows| ==> rows[i].id != rows[j].id && Earlier(rows[i], rows[j])
    {
      var order := MessagesInOrder(c);
      rows := [];
      for i := 0 to |order|
        invariant |rows| == i
        invariant forall k :: 0 <= k < i ==> rows[k] == StoredMessage(order[k], messages[order[k]])
      {
        rows := rows + [StoredMessage(order[i], messages[order[i]])];
      }
      ThreadInOrder(Tables(), c, rows);
    }

    method Enqueue(id: Ident, row: Queued) returns (ok: bool)
      modifies this, journal
      ensures ok == Allowed(old(Tables()), Stmt.Enqueue(id, row))
      ensures Tables() == Exec(old(Tables()), Stmt.Enqueue(id, row))
      ensures journal.log == old(journal.log) + [Sql(Stmt.Enqueue(id, row))]
    {
      journal.Note(Sql(Stmt.Enqueue(id, row)));
      if row.conversation !in conversations {
        return false;
      }
      outbox := outbox[id := row];
      return true;
    }

    /** Everything waiting, in `(at, id)` order. */
    method QueuedRows() returns (rows: seq<StoredQueued>)
      ensures |rows| == |QueuedOrder(Tables())|
      ensures forall i :: 0 <= i < |rows| ==>
                rows[i].id == QueuedOrder(Tables())[i] && rows[i].id in outbox && rows[i].queued == outbox[rows[i].id]
      ensures |rows| == |outbox| && forall i, j :: 0 <= i < j < |rows| ==>
                rows[i].id != rows[j].id
                && (rows[i].queued.at < rows[j].queued.at
                    || (rows[i].queued.at == rows[j].queued.at && Leq(rows[i].id, rows[j].id)))
    {
      var order := InOrder(Times(outbox));
      rows := [];
      for i := 0 to |order|
        invariant |rows| == i
        invariant forall k :: 0 <= k < i ==> rows[k] == StoredQueued(order[k], outbox[order[k]])
      {
        rows := rows + [StoredQueued(order[i], outbox[order[i]])];
      }
      QueueInOrder(outbox, rows);
    }

    method Dequeue(id: Ident)
      modifies this, journal
      ensures Tables() == Exec(old(Tables()), Stmt.Dequeue(id))
      ensures journal.log == old(journal.log) + [Sql(Stmt.Dequeue(id))]
    {
      outbox := outbox - {id};
      journal.Note(Sql(Stmt.Dequeue(id)));
    }

    method RecordAttempt(id: Ident, error: string)
      modifies this, journal
      ensures Tables() == Exec(old(Tables()), Stmt.RecordAttempt(id, error))
      ensures outbox.Keys == old(outbox).Keys
      ensures id in outbox ==>
                outbox[id].attempts == old(outbox)[id].attempts + 1 && outbox[id].lastError == Some(error)
      ensures forall q :: q in outbox && q != id ==> outbox[q] == old(outbox)[q]
      ensures journal.log == old(journal.log) + [Sql(Stmt.RecordAttempt(id, error))]
    {
      if id in outbox {
        outbox := outbox[id := outbox[id].(attempts := outbox[id].attempts + 1, lastError := Some(error))];
      }
      journal.Note(Sql(Stmt.RecordAttempt(id, error)));
    }

    // ---- Settings and retention ------------------------------------------

    method RetentionPolicySetting() returns (p: RetentionPolicy)
      ensures p == Policy(Tables())
    {
      if RETENTION in settings {
        return RetentionPolicy.Parse(settings[RETENTION]);
      }
      return Forever;
    }

    method SetRetentionPolicy(p: RetentionPolicy)
      modifies this, journal
      ensures Tables() == Exec(old(Tables()), PutSetting(RETENTION, p.AsStr()))
      ensures Policy(Tables()) == p
      ensures journal.log == old(journal.log) + [Sql(PutSetting(RETENTION, p.AsStr()))]
    {
      settings := settings[RETENTION := p.AsStr()];
      journal.Note(Sql(PutSetting(RETENTION, p.AsStr())));
      StoreRules.PolicyRoundTrip(p);
    }

    /** An interval reads back as it was set: the casts into the column and out of it cancel. */
    method DisappearAfter(c: Ident) returns (seconds: Option<u64>)
      ensures seconds.Some? <==> c in conversations && conversations[c].disappearAfter.Some?
      ensures seconds.Some? ==> seconds.value == AsU64(conversations[c].disappearAfter.value)
      ensures forall s: u64 :: c in conversations && conversations[c].disappearAfter == Some(AsI64(s)) ==>
                seconds == Some(s)
    {
      if c in conversations && conversations[c].disappearAfter.Some? {
        return Some(AsU64(conversations[c].disappearAfter.value));
      }
      return None;
    }

    method SetDisappearAfter(c: Ident, seconds: Option<u64>)
      modifies this, journal
      ensures Tables() == Exec(old(Tables()), Stmt.SetDisappearAfter(c,
            if seconds.Some? then Some(AsI64(seconds.value)) else None))
      ensures c in old(conversations) ==>
                && c in conversations && conversations[c].contact == old(conversations)[c].contact
                && (seconds.Some? ==> conversations[c].disappearAfter == Some(AsI64(seconds.value)))
                && (seconds.None? ==> conversations[c].disappearAfter == None)
      ensures journal.log == old(journal.log) + [Sql(Stmt.SetDisappearAfter(c,
            if seconds.Some? then Some(AsI64(seconds.value)) else None))]
    {
      var stored := if seconds.Some? then Some(AsI64(seconds.value)) else None;
      if c in conversations {
        conversations := conversations[c := conversations[c].(disappearAfter := stored)];
      }
      journal.Note(Sql(Stmt.SetDisappearAfter(c, stored)));
    }

    /** Both purges; the count is in rows, so a queued message counts once in each table. */
    method PurgeExpired(now: u64) returns (deleted: nat)
      modifies this, journal
      ensures Tables() == Purged(old(Tables()), now)
      ensures deleted == |old(messages).Keys - messages.Keys| + |old(outbox).Keys - outbox.Keys|
      ensures journal.log == old(journal.log) + Sqls(PurgeProgram(old(Tables()), now))
    {
      var p := RetentionPolicySetting();
      var everywhere := p.Seconds();
      deleted := DeleteOldMessages(AsI64(now), everywhere);
      var more := DeleteOldQueued(AsI64(now), everywhere);
      deleted := deleted + more;
      SqlsOfTwo(PurgeMessages(AsI64(now), everywhere), PurgeOutbox(AsI64(now), everywhere));
      PurgedIs(old(Tables()), now);
    }

    method DeleteOldMessages(now: int, everywhere: Option<int>) returns (deleted: nat)
      modifies this, journal
      ensures Tables() == old(Tables()).(messages := KeptMessages(old(messages), conversations, now, everywhere))
      ensures deleted == |old(messages).Keys - messages.Keys|
      ensures journal.log == old(journal.log) + [Sql(PurgeMessages(now, everywhere))]
    {
      var kept := KeptMessages(messages, conversations, now, everywhere);
      RemovedCount(messages, kept);
      deleted := |messages| - |kept|;
      messages := kept;
      journal.Note(Sql(PurgeMessages(now, everywhere)));
    }

    method DeleteOldQueued(now: int, everywhere: Option<int>) returns (deleted: nat)
      modifies this, journal
      ensures Tables() == old(Tables()).(outbox := KeptOutbox(old(outbox), conversations, now, everywhere))
      ensures deleted == |old(outbox).Keys - outbox.Keys|
      ensures journal.log == old(journal.log) + [Sql(PurgeOutbox(now, everywhere))]
    {
      var kept := KeptOutbox(outbox, conversations, now, everywhere);
      RemovedCount(outbox, kept);
      deleted := |outbox| - |kept|;
      outbox := kept;
      journal.Note(Sql(PurgeOutbox(now, everywhere)));
    }

    /** Deletes a table's rows; rows that point at them go too. */
    method DeleteFrom(t: Table)
      modifies this, journal
      ensures Tables() == Exec(old(Tables()), Clear(t))
      ensures journal.log == old(journal.log) + [Sql(Clear(t))]
    {
      journal.Note(Sql(Clear(t)));
      match t {
        case OutboxRows => outbox := map[];
        case ChangeRows => changes := map[];
        case MessageRows => messages := map[];
        case ConversationRows => conversations, messages, outbox := map[], map[], map[];
        case ContactRows => contacts, conversations, messages, outbox, changes := map[], map[], map[], map[], map[];
        case SettingRows => settings := map[];
        case MlsRow => mls := None;
        case IdentityRow => identity := None;
      }
    }

    /** The `i`th deletion of a wipe. */
    method DeleteNext(ghost before: Db, ghost i: nat, t: Table)
      requires i < 8 && Tables() == StoreRules.WipedUpTo(before, i) && WipeProgram()[i] == Clear(t)
      modifies this, journal
      ensures Tables() == StoreRules.WipedUpTo(before, i + 1)
      ensures journal.log == old(journal.log) + [Sql(Clear(t))]
    {
      StoreRules.WipeStep(before, i);
      DeleteFrom(t);
    }

    /** Deletes every table, statement by statement. */
    method Wipe()
      modifies this, journal
      ensures Tables() == EMPTY
      ensures journal.log == old(journal.log) + Sqls(WipeProgram())
    {
      ghost var before := Tables();
      var batch := WipeProgram();
      for i := 0 to |batch|
        invariant Tables() == StoreRules.WipedUpTo(before, i)
        invariant journal.log == old(journal.log) + Sqls(batch)[..i]
      {
        WipeNoted(i);
        DeleteNext(before, i, batch[i].table);
        Regroup(old(journal.log), Sqls(batch)[..i], [Sql(batch[i])]);
      }
      assert Sqls(batch)[..|batch|] == Sqls(batch);
    }
  }

  /** The rows of a conversation as the query lists them. */
  ghost predicate AsListed(db: Db, c: Ident, rows: seq<StoredMessage>) {
    && |rows| == |MessagesOrder(db, c)|
    && forall i :: 0 <= i < |rows| ==>
         var id := MessagesOrder(db, c)[i]; id in db.messages && rows[i] == StoredMessage(id, db.messages[id])
  }

  /** All of them, each once, earliest first. */
  lemma {:induction false} ThreadInOrder(db: Db, c: Ident, rows: seq<StoredMessage>)
    requires AsListed(db, c, rows)
    ensures forall i :: 0 <= i < |rows| ==> rows[i].message.conversation == c
    ensures forall id :: id in db.messages && db.messages[id].conversation == c ==>
              exists i :: 0 <= i < |rows| && rows[i] == StoredMessage(id, db.messages[id])
    ensures forall i, j :: 0 <= i < j < |rows| ==> rows[i].id != rows[j].id && Earlier(rows[i], rows[j])
  {
    InOrderEnumerates(MessageTimes(db, c));
    forall id | id in db.messages && db.messages[id].conversation == c
      ensures exists i :: 0 <= i < |rows| && rows[i] == StoredMessage(id, db.messages[id])
    {
      ListedSomewhere(db, c, rows, id);
    }
    forall i, j | 0 <= i < j < |rows| ensures rows[i].id != rows[j].id && Earlier(rows[i], rows[j]) {
      assert MessagesOrder(db, c)[i] != MessagesOrder(db, c)[j];
    }
  }

  lemma {:induction false} ListedSomewhere(db: Db, c: Ident, rows: seq<StoredMessage>, id: Ident)
    requires AsListed(db, c, rows) && id in db.messages && db.messages[id].conversation == c
    ensures exists i :: 0 <= i < |rows| && rows[i] == StoredMessage(id, db.messages[id])
  {
    var order := MessagesOrder(db, c);
    InOrderEnumerates(MessageTimes(db, c));
    assert id in order;
    var i :| 0 <= i < |order| && order[i] == id;
    assert rows[i] == StoredMessage(id, db.messages[id]);
  }

  lemma {:induction false} QueueInOrder(box: map<Ident, Queued>, rows: seq<StoredQueued>)
    requires |rows| == |InOrder(Times(box))|
    requires forall i :: 0 <= i < |rows| ==>
               rows[i].id == InOrder(Times(box))[i] && rows[i].id in box && rows[i].queued == box[rows[i].id]
    ensures |rows| == |box|
    ensures forall i, j :: 0 <= i < j < |rows| ==>
              rows[i].id != rows[j].id
              && (rows[i].queued.at < rows[j].queued.at
                  || (rows[i].queued.at == rows[j].queued.at && Leq(rows[i].id, rows[j].id)))
  {
    InOrderEnumerates(Times(box));
    assert Times(box).Keys == box.Keys;
    assert |Times(box)| == |Times(box).Keys| && |box| == |box.Keys|;
  }

  /** No contact of these has a name that sorts before this one's. */
  predicate FirstNamed(contacts: map<Ident, Contact>, left: set<Ident>, id: Ident)
    requires left <= contacts.Keys
  {
    id in left && forall x :: x in left ==> TextLeq(contacts[id].displayName, contacts[x].displayName)
  }

  lemma {:induction false} FirstNameExists(contacts: map<Ident, Contact>, left: set<Ident>) returns (first: Ident)
    requires left <= contacts.Keys && left != {}
    ensures FirstNamed(contacts, left, first)
    decreases |left|
  {
    first :| first in left;
    TextLeqTotal(contacts[first].displayName, contacts[first].displayName);
    if left != {first} {
      var other := FirstNameExists(contacts, left - {first});
      TextLeqTotal(contacts[first].displayName, contacts[other].displayName);
      if TextLeq(contacts[other].displayName, contacts[first].displayName) {
        first := other;
      } else {
        forall x | x in left && x != first ensures TextLeq(contacts[first].displayName, contacts[x].displayName) {
          TextLeqTransitive(contacts[first].displayName, contacts[other].displayName, contacts[x].displayName);
        }
      }
    }
  }

  /** All contacts but these, once each, by name. */
  ghost predicate Gathered(contacts: map<Ident, Contact>, rows: seq<StoredContact>, left: set<Ident>) {
    EachOnce(contacts, rows, left) && ByName(contacts, rows, left)
  }

  ghost predicate EachOnce(contacts: map<Ident, Contact>, rows: seq<StoredContact>, left: set<Ident>) {
    && left <= contacts.Keys && |rows| + |left| == |contacts.Keys|
    && (forall i :: 0 <= i < |rows| ==>
         rows[i].id in contacts && rows[i].id !in left && rows[i].contact == contacts[rows[i].id])
    && (forall i, j :: 0 <= i < j < |rows| ==> rows[i].id != rows[j].id)
    && (forall id :: id in contacts && id !in left ==> exists i :: 0 <= i < |rows| && rows[i].id == id)
  }

  predicate SortedByName(rows: seq<StoredContact>) {
    forall i, j :: 0 <= i < j < |rows| ==> TextLeq(rows[i].contact.displayName, rows[j].contact.displayName)
  }

  /** Sorted by name, and by names that sort no later than any of those left. */
  predicate ByName(contacts: map<Ident, Contact>, rows: seq<StoredContact>, left: set<Ident>)
    requires left <= contacts.Keys
  {
    && SortedByName(rows)
    && (forall i, id :: 0 <= i < |rows| && id in left ==>
          TextLeq(rows[i].contact.displayName, contacts[id].displayName))
  }

  lemma {:induction false} GatherNext(contacts: map<Ident, Contact>, rows: seq<StoredContact>, left: set<Ident>,
      id: Ident)
    requires Gathered(contacts, rows, left) && FirstNamed(contacts, left, id)
    ensures Gathered(contacts, rows + [StoredContact(id, contacts[id])], left - {id})
  {
    ListNext(contacts, rows, left, id);
    NameNext(contacts, rows, left, id);
  }

  lemma {:induction false} ListNext(contacts: map<Ident, Contact>, rows: seq<StoredContact>, left: set<Ident>,
      id: Ident)
    requires EachOnce(contacts, rows, left) && id in left
    ensures EachOnce(contacts, rows + [StoredContact(id, contacts[id])], left - {id})
  {
    var more := rows + [StoredContact(id, contacts[id])];
    forall k | k in contacts && k !in left - {id} ensures exists i :: 0 <= i < |more| && more[i].id == k {
      if k == id {
        assert more[|rows|].id == k;
      } else {
        var i :| 0 <= i < |rows| && rows[i].id == k;
        assert more[i].id == k;
      }
    }
  }

  lemma {:induction false} NameNext(contacts: map<Ident, Contact>, rows: seq<StoredContact>, left: set<Ident>,
      id: Ident)
    requires left <= contacts.Keys && ByName(contacts, rows, left) && FirstNamed(contacts, left, id)
    ensures ByName(contacts, rows + [StoredContact(id, contacts[id])], left - {id})
  {
  }

  lemma {:induction false} WipeNoted(i: nat)
    requires i < 8
    ensures |WipeProgram()| == 8 && WipeProgram()[i].Clear?
    ensures Sqls(WipeProgram())[..i + 1] == Sqls(WipeProgram())[..i] + [Sql(WipeProgram()[i])]
  {
    StoreRules.WipeTable(i);
  }

  lemma {:induction false} RemovedCount<V>(before: map<Ident, V>, kept: map<Ident, V>)
    requires kept.Keys <= before.Keys
    ensures |before| - |kept| == |before.Keys - kept.Keys|
  {
    assert before.Keys == kept.Keys + (before.Keys - kept.Keys);
    assert |before.Keys| == |kept.Keys| + |before.Keys - kept.Keys|;
  }
}
