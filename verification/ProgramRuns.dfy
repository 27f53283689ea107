/**
 What each program comes to when it runs to the end, and how it divides into the steps the code takes, in
 the order the code takes them.
*/
module ProgramRuns {
  import opened Basics
  import opened RowOrder
  import opened Mls
  import opened Tables
  import opened Client
  import opened Calls
  import opened OutboxRules
  import opened Storage
  import Restarts
  import Repoll
  import Polls

  lemma {:induction false} JoinRuns(d: Client.Device, blob: Blob)
    requires CanJoin(d.mls, blob)
    ensures var key := PeerCredential(d.mls, blob);
            && Run(d, JoinProgram(d.mls, blob))
               == Client.Device(d.identity, Repoll.Registered(d.db, blob.group, key).(mls := Some(Joined(d.mls, blob))),
                                Joined(d.mls, blob), d.live[blob.group := Peer([], key)])
            && JoinProgram(d.mls, blob)
               == [Join(blob)] + [Sql(InsertContact(Hex(key), Contact("", [], key, false))),
                                  Sql(PutConversation(blob.group, Hex(key))),
                                  SetPeer(blob.group, Peer([], key)), Persist]
  {
    Repoll.JoinOutcome(d, blob);
  }

  lemma {:induction false} StoreRuns(d: Client.Device, id: Ident, c: Ident, key: Bytes, payload: Payload, now: u64)
    ensures var p := StoreProgram(d.db, id, c, key, payload, now);
            Run(d, p) == match payload
                         case Hello(_, _) => Apply(Apply(Apply(d, p[0]), p[1]), p[2])
                         case Text(_) => Apply(d, p[0])
  {
    var p := StoreProgram(d.db, id, c, key, payload, now);
    if payload.Hello? {
      Restarts.ThreeSteps(d, p[0], p[1], p[2]);
    } else {
      assert p[1..] == [];
    }
  }

  lemma {:induction false} FirstPassConcat(mls: State, a: seq<Mail>, m: Mail)
    ensures var mid := MlsAfterAll(mls, a);
            && MlsAfterAll(mls, a + [m]) == MlsAfter(mid, m.blob)
            && JoinAllProgram(mls, a + [m]) == JoinAllProgram(mls, a) + JoinProgram(mid, m.blob)
            && Unjoined(mls, a + [m]) == Unjoined(mls, a) + (if CanJoin(mid, m.blob) then [] else [m])
            && JoinedIds(mls, a + [m]) == JoinedIds(mls, a) + (if CanJoin(mid, m.blob) then [m.id] else [])
    decreases |a|
  {
    if a == [] {
      assert a + [m] == [m] && [m][1..] == [];
    } else {
      assert (a + [m])[0] == a[0] && (a + [m])[1..] == a[1..] + [m];
      FirstPassConcat(MlsAfter(mls, a[0].blob), a[1..], m);
    }
  }

  /** The conversations the first pass opens, in order. */
  function OpenedIn(mls: State, batch: seq<Mail>): seq<Ident>
    decreases |batch|
  {
    if batch == [] then []
    else (if CanJoin(mls, batch[0].blob) then [batch[0].blob.group] else [])
         + OpenedIn(MlsAfter(mls, batch[0].blob), batch[1..])
  }

  lemma {:induction false} OpenedConcat(mls: State, a: seq<Mail>, m: Mail)
    ensures OpenedIn(mls, a + [m]) == OpenedIn(mls, a)
            + (if CanJoin(MlsAfterAll(mls, a), m.blob) then [m.blob.group] else [])
    decreases |a|
  {
    if a == [] {
      assert a + [m] == [m] && [m][1..] == [];
    } else {
      assert (a + [m])[0] == a[0] && (a + [m])[1..] == a[1..] + [m];
      OpenedConcat(MlsAfter(mls, a[0].blob), a[1..], m);
    }
  }

  lemma {:induction false} FirstPassStep(d: Client.Device, batch: seq<Mail>, i: nat)
    requires i < |batch|
    ensures var mid := MlsAfterAll(d.mls, batch[..i]);
            && MlsAfterAll(d.mls, batch[..i + 1]) == MlsAfter(mid, batch[i].blob)
            && JoinAllProgram(d.mls, batch[..i + 1])
               == JoinAllProgram(d.mls, batch[..i]) + JoinProgram(mid, batch[i].blob)
            && Run(d, JoinAllProgram(d.mls, batch[..i + 1]))
               == Run(Run(d, JoinAllProgram(d.mls, batch[..i])), JoinProgram(mid, batch[i].blob))
            && Unjoined(d.mls, batch[..i + 1]) == Unjoined(d.mls, batch[..i])
               + (if CanJoin(mid, batch[i].blob) then [] else [batch[i]])
            && JoinedIds(d.mls, batch[..i + 1]) == JoinedIds(d.mls, batch[..i])
               + (if CanJoin(mid, batch[i].blob) then [batch[i].id] else [])
            && OpenedIn(d.mls, batch[..i + 1]) == OpenedIn(d.mls, batch[..i])
               + (if CanJoin(mid, batch[i].blob) then [batch[i].blob.group] else [])
  {
    assert batch[..i + 1] == batch[..i] + [batch[i]];
    OpenedConcat(d.mls, batch[..i], batch[i]);
    FirstPassConcat(d.mls, batch[..i], batch[i]);
    RunConcat(d, JoinAllProgram(d.mls, batch[..i]), JoinProgram(MlsAfterAll(d.mls, batch[..i]), batch[i].blob));
  }

  /** The row a handled text leaves. */
  function RowFor(d: Client.Device, m: Mail, clock: Clock): Option<StoredMessage> {
    if Handles(d, m.blob) && m.blob.plaintext.payload.Text?
    then Some(StoredMessage(m.id, Message(m.blob.group, Received, m.blob.plaintext.payload.body,
                                          AsI64(clock.stored(m.id)))))
    else None
  }

  function Rows(row: Option<StoredMessage>): seq<StoredMessage> {
    match row case Some(r) => [r] case None => []
  }

  function HandledId(d: Client.Device, m: Mail): seq<Ident> {
    if Handles(d, m.blob) then [m.id] else []
  }

  function RowsFor(d: Client.Device, todo: seq<Mail>, clock: Clock): seq<StoredMessage>
    decreases |todo|
  {
    if todo == [] then [] else Rows(RowFor(d, todo[0], clock)) + RowsFor(ReadOne(d, todo[0], clock), todo[1..], clock)
  }

  lemma {:induction false} ReadRuns(d: Client.Device, m: Mail, clock: Clock)
    ensures Opens(d, m.blob) ==>
              var c := m.blob.group;
              var decrypted := d.(mls := Decrypted(d.mls, c, m.blob.generation));
              if m.blob.plaintext.Unreadable?
              then ReadProgram(d, m, clock) == [Effect.Decrypt(c, m.blob.generation)]
                   && Run(d, ReadProgram(d, m, clock)) == decrypted
              else
                var p := Sqls(NoticeKeyProgram(d.db, c, m.blob.sender, clock.noticed(m.id)))
                         + StoreProgram(d.db, m.id, c, m.blob.sender, m.blob.plaintext.payload, clock.stored(m.id));
                ReadProgram(d, m, clock) == [Effect.Decrypt(c, m.blob.generation)] + p
                && Run(d, ReadProgram(d, m, clock)) == Run(decrypted, p)
  {
    if Opens(d, m.blob) {
      var first := [Effect.Decrypt(m.blob.group, m.blob.generation)];
      assert first[1..] == [];
      assert Run(d, first) == d.(mls := Decrypted(d.mls, m.blob.group, m.blob.generation));
      if m.blob.plaintext.Readable? {
        RunConcat(d, first, Sqls(NoticeKeyProgram(d.db, m.blob.group, m.blob.sender, clock.noticed(m.id)))
                            + StoreProgram(d.db, m.id, m.blob.group, m.blob.sender, m.blob.plaintext.payload,
                                           clock.stored(m.id)));
      }
    }
  }

  /** Noticing the key leaves the conversations alone, so what follows reads them as they were. */
  lemma {:induction false} TakeRuns(d: Client.Device, id: Ident, c: Ident, key: Bytes, payload: Payload, clock: Clock)
    ensures var notice := NoticeKeyProgram(d.db, c, key, clock.noticed(id));
            var noticed := d.(db := ExecAll(d.db, notice));
            var p := StoreProgram(d.db, id, c, key, payload, clock.stored(id));
            && noticed.db.conversations == d.db.conversations
            && StoreProgram(noticed.db, id, c, key, payload, clock.stored(id)) == p
            && Run(d, Sqls(notice) + p) == Run(noticed, p)
  {
    var notice := NoticeKeyProgram(d.db, c, key, clock.noticed(id));
    RunConcat(d, Sqls(notice), StoreProgram(d.db, id, c, key, payload, clock.stored(id)));
    RunSqls(d, notice);
    if notice != [] {
      assert notice == [notice[0]] + [notice[1]];
      ExecAllSnoc(d.db, [notice[0]], notice[1]);
      ExecAllSnoc(d.db, [], notice[0]);
    }
  }

  lemma {:induction false} SecondPassConcat(d: Client.Device, a: seq<Mail>, m: Mail, clock: Clock)
    ensures ReadAll(d, a + [m], clock) == ReadOne(ReadAll(d, a, clock), m, clock)
    decreases |a|
  {
    if a == [] {
      assert a + [m] == [m] && [m][1..] == [];
    } else {
      assert (a + [m])[0] == a[0] && (a + [m])[1..] == a[1..] + [m];
      SecondPassConcat(ReadOne(d, a[0], clock), a[1..], m, clock);
    }
  }

  lemma {:induction false} SecondPassProgram(d: Client.Device, a: seq<Mail>, m: Mail, clock: Clock)
    ensures ReadAllProgram(d, a + [m], clock)
            == ReadAllProgram(d, a, clock) + ReadProgram(ReadAll(d, a, clock), m, clock)
    decreases |a|
  {
    if a == [] {
      assert a + [m] == [m] && [m][1..] == [];
    } else {
      assert (a + [m])[0] == a[0] && (a + [m])[1..] == a[1..] + [m];
      var next := ReadOne(d, a[0], clock);
      SecondPassProgram(next, a[1..], m, clock);
      Regroup(ReadProgram(d, a[0], clock), ReadAllProgram(next, a[1..], clock),
              ReadProgram(ReadAll(d, a, clock), m, clock));
    }
  }

  lemma {:induction false} SecondPassIds(d: Client.Device, a: seq<Mail>, m: Mail, clock: Clock)
    ensures ReadIds(d, a + [m], clock) == ReadIds(d, a, clock) + HandledId(ReadAll(d, a, clock), m)
    decreases |a|
  {
    if a == [] {
      assert a + [m] == [m] && [m][1..] == [];
    } else {
      assert (a + [m])[0] == a[0] && (a + [m])[1..] == a[1..] + [m];
      var next := ReadOne(d, a[0], clock);
      SecondPassIds(next, a[1..], m, clock);
      Regroup(HandledId(d, a[0]), ReadIds(next, a[1..], clock), HandledId(ReadAll(d, a, clock), m));
    }
  }

  lemma {:induction false} SecondPassRows(d: Client.Device, a: seq<Mail>, m: Mail, clock: Clock)
    ensures RowsFor(d, a + [m], clock) == RowsFor(d, a, clock) + Rows(RowFor(ReadAll(d, a, clock), m, clock))
    decreases |a|
  {
    if a == [] {
      assert a + [m] == [m] && [m][1..] == [];
    } else {
      assert (a + [m])[0] == a[0] && (a + [m])[1..] == a[1..] + [m];
      var next := ReadOne(d, a[0], clock);
      SecondPassRows(next, a[1..], m, clock);
      Regroup(Rows(RowFor(d, a[0], clock)), RowsFor(next, a[1..], clock), Rows(RowFor(ReadAll(d, a, clock), m, clock)));
    }
  }

  lemma {:induction false} SecondPassStep(d: Client.Device, todo: seq<Mail>, clock: Clock, i: nat)
    requires i < |todo|
    ensures var mid := ReadAll(d, todo[..i], clock);
            && ReadAll(d, todo[..i + 1], clock) == ReadOne(mid, todo[i], clock)
            && ReadAllProgram(d, todo[..i + 1], clock)
               == ReadAllProgram(d, todo[..i], clock) + ReadProgram(mid, todo[i], clock)
            && ReadIds(d, todo[..i + 1], clock) == ReadIds(d, todo[..i], clock) + HandledId(mid, todo[i])
            && RowsFor(d, todo[..i + 1], clock) == RowsFor(d, todo[..i], clock) + Rows(RowFor(mid, todo[i], clock))
  {
    assert todo[..i + 1] == todo[..i] + [todo[i]];
    SecondPassConcat(d, todo[..i], todo[i], clock);
    SecondPassProgram(d, todo[..i], todo[i], clock);
    SecondPassIds(d, todo[..i], todo[i], clock);
    SecondPassRows(d, todo[..i], todo[i], clock);
  }

  lemma {:induction false} TakeInRuns(d: Client.Device, batch: seq<Mail>, clock: Clock)
    ensures var mid := Polls.Joined(d, batch);
            && mid == Run(d, JoinAllProgram(d.mls, batch))
            && TakeIn(d, batch, clock) == ReadAll(mid, Unjoined(d.mls, batch), clock)
            && TakeInProgram(d, batch, clock) == JoinAllProgram(d.mls, batch)
               + ReadAllProgram(mid, Unjoined(d.mls, batch), clock)
            && HandledIds(d, batch, clock) == JoinedIds(d.mls, batch) + ReadIds(mid, Unjoined(d.mls, batch), clock)
  {
    var mid := Polls.Joined(d, batch);
    RunConcat(d, JoinAllProgram(d.mls, batch), ReadAllProgram(mid, Unjoined(d.mls, batch), clock));
    RunReadAll(mid, Unjoined(d.mls, batch), clock);
  }

  /** The acknowledgement, if there is one to make; then, unless it failed, the save and the purge. */
  lemma {:induction false} SettleSplits(db: Db, handled: seq<Ident>, ack: AckReply, now: u64)
    ensures SettleProgram(db, handled, ack, now)
            == (if handled == [] then [] else [Ack(handled, ack)])
               + (if handled == [] || ack.Erased? then [Persist] + Sqls(PurgeProgram(db, now)) else [])
  {
  }

  lemma {:induction false} SettleRuns(d: Client.Device, handled: seq<Ident>, ack: AckReply, now: u64)
    ensures Run(d, SettleProgram(d.db, handled, ack, now))
            == if handled == [] || ack.Erased? then d.(db := Purged(d.db.(mls := Some(d.mls)), now)) else d
  {
    var finish := [Persist] + Sqls(PurgeProgram(d.db, now));
    var saved := Apply(d, Persist);
    assert [Persist][1..] == [];
    assert Run(d, [Persist]) == saved;
    RunConcat(d, [Persist], Sqls(PurgeProgram(d.db, now)));
    RunSqls(saved, PurgeProgram(saved.db, now));
    PurgeRuns(saved.db, now);
    assert PurgeProgram(saved.db, now) == PurgeProgram(d.db, now);
    if handled != [] {
      var first := [Ack(handled, ack)];
      assert first[1..] == [];
      assert Run(d, first) == d;
      RunConcat(d, first, finish);
    }
  }

  lemma {:induction false} BatchRuns(d: Client.Device, batch: seq<Mail>, clock: Clock, ack: AckReply, now: u64)
    ensures var taken := TakeIn(d, batch, clock);
            var handled := HandledIds(d, batch, clock);
            var settle := SettleProgram(taken.db, handled, ack, now);
            && BatchProgram(d, batch, clock, ack, now) == TakeInProgram(d, batch, clock) + settle
            && Run(d, BatchProgram(d, batch, clock, ack, now)) == Run(taken, settle)
  {
    var taken := TakeIn(d, batch, clock);
    var handled := HandledIds(d, batch, clock);
    RunConcat(d, TakeInProgram(d, batch, clock), SettleProgram(taken.db, handled, ack, now));
  }

  lemma {:induction false} ReceiveRuns(d: Client.Device, posts: seq<PostReply>, batch: Option<seq<Mail>>, clock: Clock,
      ack: AckReply, now: u64)
    ensures var flush := Flush(d.db, posts);
            var flushed := Run(d, flush);
            var p := ReceiveProgram(d, posts, batch, clock, ack, now);
            if batch.None? then p == flush
            else p == flush + BatchProgram(flushed, batch.value, clock, ack, now)
                 && Run(d, p) == Run(flushed, BatchProgram(flushed, batch.value, clock, ack, now))
  {
    if batch.Some? {
      RunConcat(d, Flush(d.db, posts), BatchProgram(Run(d, Flush(d.db, posts)), batch.value, clock, ack, now));
    }
  }

  /** The first four effects of adding a contact. */
  function OfferProgram(me: Bytes, name: string, invite: Invite, group: Ident, reply: PostReply): seq<Effect> {
    [Create(group, invite.credential),
     Sql(InsertContact(Hex(invite.publicKey), Contact(name, invite.inbox, invite.publicKey, false))),
     Sql(PutConversation(group, Hex(invite.publicKey))),
     Post(invite.inbox, Welcome(group, me, invite.keyPackage), reply)]
  }

  /**
   The tables with a contact and a conversation with it filed; what was there keeps its key, verification and
   interval.
  */
  function WithContact(db: Db, group: Ident, contact: Contact): Db {
    var id := Hex(contact.publicKey);
    var row := if id in db.contacts then db.contacts[id].(displayName := contact.displayName, inbox := contact.inbox)
               else contact;
    var interval := if group in db.conversations then db.conversations[group].disappearAfter else None;
    db.(contacts := db.contacts[id := row], conversations := db.conversations[group := Conversation(id, interval)])
  }

  lemma {:induction false} WithContactIs(db: Db, group: Ident, contact: Contact)
    ensures Exec(Exec(db, InsertContact(Hex(contact.publicKey), contact)),
                 PutConversation(group, Hex(contact.publicKey))) == WithContact(db, group, contact)
  {
  }

  /** The device once an invite's conversation has been opened, and its Welcome posted or not. */
  function OpenedContact(d: Client.Device, name: string, invite: Invite, group: Ident, posted: bool): Client.Device {
    var mls := Created(d.mls, group, invite.credential);
    var db := WithContact(d.db, group, Contact(name, invite.inbox, invite.publicKey, false));
    if posted then Client.Device(d.identity, db.(mls := Some(mls)), mls,
                                 d.live[group := Peer(invite.inbox, invite.publicKey)])
    else Client.Device(d.identity, db, mls, d.live)
  }

  lemma {:induction false} OpenRuns(d: Client.Device, name: string, invite: Invite, group: Ident, reply: PostReply)
    requires group !in d.mls.groups
    ensures Run(d, OpenProgram(d.mls.me, name, invite, group, reply))
            == OpenedContact(d, name, invite, group, reply.Accepted?)
  {
    var offer := OfferProgram(d.mls.me, name, invite, group, reply);
    OfferRuns(d, name, invite, group, reply);
    if reply.Accepted? {
      var open := [SetPeer(group, Peer(invite.inbox, invite.publicKey)), Persist];
      assert OpenProgram(d.mls.me, name, invite, group, reply) == offer + open;
      RunConcat(d, offer, open);
      TwoSteps(OpenedContact(d, name, invite, group, false), open[0], open[1]);
    } else {
      assert offer + [] == offer;
    }
  }

  /** The first four effects, the Welcome's post included, leave the conversation filed and not live. */
  lemma {:induction false} OfferRuns(d: Client.Device, name: string, invite: Invite, group: Ident, reply: PostReply)
    requires group !in d.mls.groups
    ensures Run(d, OfferProgram(d.mls.me, name, invite, group, reply)) == OpenedContact(d, name, invite, group, false)
  {
    var p := OfferProgram(d.mls.me, name, invite, group, reply);
    assert p == [p[0], p[1], p[2]] + [p[3]];
    Restarts.ThreeSteps(d, p[0], p[1], p[2]);
    WithContactIs(d.db, group, Contact(name, invite.inbox, invite.publicKey, false));
    RunSnoc(d, [p[0], p[1], p[2]], p[3]);
  }

  lemma {:induction false} AddContactRuns(d: Client.Device, name: string, invite: Invite, group: Ident,
      posts: seq<PostReply>)
    requires group !in d.mls.groups
    ensures var reply := FirstReply(posts);
            var first := OpenProgram(d.mls.me, name, invite, group, reply);
            var mid := OpenedContact(d, name, invite, group, reply.Accepted?);
            var hello := PayloadProgram(mid, group, Hello(d.identity.inbox, d.identity.displayName),
                                        FirstReply(RestReplies(posts)));
            var p := AddContactProgram(d, name, invite, group, posts);
            && (reply.Accepted? ==> CanSend(mid, group) && p == first + hello && Run(d, p) == Run(mid, hello))
            && (!reply.Accepted? ==> p == first && Run(d, p) == mid)
  {
    var reply := FirstReply(posts);
    var first := OpenProgram(d.mls.me, name, invite, group, reply);
    var mid := OpenedContact(d, name, invite, group, reply.Accepted?);
    OpenRuns(d, name, invite, group, reply);
    if reply.Accepted? {
      RunConcat(d, first, PayloadProgram(mid, group, Hello(d.identity.inbox, d.identity.displayName),
                                         FirstReply(RestReplies(posts))));
    } else {
      assert first + [] == first;
    }
  }

  lemma {:induction false} ConversationsForExactly(db: Db, contact: Ident)
    ensures forall i :: 0 <= i < |ConversationsFor(db, contact)| ==>
              ConversationsFor(db, contact)[i] in db.conversations
              && db.conversations[ConversationsFor(db, contact)[i]].contact == contact
    ensures forall i, j :: 0 <= i < j < |ConversationsFor(db, contact)| ==>
              ConversationsFor(db, contact)[i] != ConversationsFor(db, contact)[j]
    ensures forall c :: c in db.conversations && db.conversations[c].contact == contact ==>
              c in ConversationsFor(db, contact)
  {
    InOrderEnumerates(map c | c in db.conversations && db.conversations[c].contact == contact :: 0);
  }

  lemma {:induction false} PurgingKeepsPolicy(db: Db, now: u64)
    ensures Policy(Purged(db, now)) == Policy(db)
  {
    PurgedIs(db, now);
  }

  lemma {:induction false} SettingRuns(d: Client.Device, setting: Stmt, now: u64)
    ensures var mid := Apply(d, Sql(setting));
            var purge := Sqls(PurgeProgram(mid.db, now));
            SettingProgram(d.db, setting, now) == [Sql(setting)] + purge
            && Run(d, [Sql(setting)] + purge) == Run(mid, purge)
  {
    var mid := Apply(d, Sql(setting));
    RunConcat(d, [Sql(setting)], Sqls(PurgeProgram(mid.db, now)));
    RunSnoc(d, [], Sql(setting));
    assert [] + [Sql(setting)] == [Sql(setting)];
  }

  lemma {:induction false} PayloadRuns(d: Client.Device, c: Ident, payload: Payload, reply: PostReply)
    requires CanSend(d, c)
    ensures var advanced := d.(mls := Advanced(d.mls, c));
            Run(d, PayloadProgram(d, c, payload, reply)) == if reply.Accepted? then Apply(advanced, Persist)
            else advanced
  {
    var blob := Ciphertext(d.mls, c, payload);
    if reply.Accepted? {
      Restarts.ThreeSteps(d, Advance(c), Post(d.live[c].inbox, blob, reply), Persist);
    } else {
      TwoSteps(d, Advance(c), Post(d.live[c].inbox, blob, reply));
      assert PayloadProgram(d, c, payload, reply) == [Advance(c), Post(d.live[c].inbox, blob, reply)];
    }
  }

  lemma {:induction false} OwnPostRuns(d: Client.Device, c: Ident, body: string, reply: PostReply, localId: Ident,
      at: u64, queuedAt: u64)
    requires CanSend(d, c)
    ensures var blob := Ciphertext(d.mls, c, Text(body));
            var first := [Advance(c), Post(d.live[c].inbox, blob, reply)];
            var record := RecordProgram(c, d.live[c].inbox, body, blob, reply, localId, at, queuedAt);
            var p := OwnPostProgram(d, c, body, reply, localId, at, queuedAt);
            p == first + record && Run(d, p) == Run(d.(mls := Advanced(d.mls, c)), record)
  {
    var blob := Ciphertext(d.mls, c, Text(body));
    var record := RecordProgram(c, d.live[c].inbox, body, blob, reply, localId, at, queuedAt);
    TwoSteps(d, Advance(c), Post(d.live[c].inbox, blob, reply));
    RunConcat(d, [Advance(c), Post(d.live[c].inbox, blob, reply)], record);
  }

  /** A send is its flush, then its own post: the flush touches nothing the post looks at. */
  lemma {:induction false} SendRuns(d: Client.Device, c: Ident, body: string, posts: seq<PostReply>, localId: Ident,
      at: u64, queuedAt: u64)
    ensures var flush := Flush(d.db, posts);
            var flushed := Run(d, flush);
            var reply := FirstReply(AfterFlush(|QueuedOrder(d.db)|, posts));
            var p := OwnPostProgram(flushed, c, body, reply, localId, at, queuedAt);
            && CanSend(flushed, c) == CanSend(d, c) && flushed.db.conversations == d.db.conversations
            && SendProgram(d, c, body, posts, localId, at, queuedAt) == flush + p
            && Run(d, flush + p) == Run(flushed, p)
  {
    var flush := Flush(d.db, posts);
    var reply := FirstReply(AfterFlush(|QueuedOrder(d.db)|, posts));
    FlushRuns(d, d.db.outbox, QueuedOrder(d.db), posts);
    RunConcat(d, flush, OwnPostProgram(d, c, body, reply, localId, at, queuedAt));
  }

  lemma {:induction false} RecordRuns(d: Client.Device, c: Ident, inbox: Ident, body: string, blob: Blob,
      reply: PostReply, localId: Ident, at: u64, queuedAt: u64)
    ensures Run(d, RecordProgram(c, inbox, body, blob, reply, localId, at, queuedAt))
            == if reply.Accepted?
               then Apply(Apply(d, Sql(PutMessage(reply.id, Message(c, Sent, body, AsI64(at))))), Persist)
               else
                 var q := Queued(c, inbox, blob, AsI64(queuedAt), 1, Some(reply.error));
                 Apply(Apply(Apply(d, Sql(PutMessage(localId, Message(c, Sent, body, AsI64(at))))),
                             Sql(Enqueue(localId, q))),
                       Persist)
  {
    var record := RecordProgram(c, inbox, body, blob, reply, localId, at, queuedAt);
    if reply.Accepted? {
      TwoSteps(d, record[0], record[1]);
    } else {
      Restarts.ThreeSteps(d, record[0], record[1], record[2]);
    }
  }
}
