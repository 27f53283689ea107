/** The client object, method by method. */
module Protocol {
  // Each method is proved to carry out exactly the program the rules of this project are about, effect by
  // effect, so that a crash inside it leaves what a prefix of that program leaves.

  import opened Basics
  import opened RowOrder
  import opened Mls
  import opened Tables
  import opened Client
  import opened Calls
  import opened OutboxRules
  import opened Storage
  import opened Sessions
  import opened ProgramRuns
  import Restarts
  import Generations
  import Introductions
  import opened StoreRules
  import Repoll
  import Polls

  /** A line of the conversation list. */
  datatype Summary = Summary(id: Ident, contactName: string, contactId: Ident, identity: IdentityState,
      lastMessage: Option<string>)

  function LastBody(db: Db, c: Ident): Option<string> {
    var order := MessagesOrder(db, c);
    if order == [] then None else Some(db.messages[order[|order| - 1]].body)
  }

  /** A message of the conversation. */
  predicate SaidIn(db: Db, c: Ident, m: Ident) {
    m in db.messages && db.messages[m].conversation == c
  }

  /** The first of two messages was stored no later by the clock, and sorts first by identifier if at the same time. */
  predicate NoLater(messages: map<Ident, Message>, a: Ident, b: Ident)
    requires a in messages && b in messages
  {
    messages[a].at < messages[b].at || (messages[a].at == messages[b].at && Leq(a, b))
  }

  /** The body of a message that no other of its conversation is later than; nothing if there is none. */
  ghost predicate IsLatest(db: Db, c: Ident, body: Option<string>) {
    match body
    case None => forall m :: !SaidIn(db, c, m)
    case Some(b) =>
      exists m ::
        SaidIn(db, c, m) && db.messages[m].body == b && forall n :: SaidIn(db, c, n) ==> NoLater(db.messages, n, m)
  }

  lemma {:induction false} LastBodyIsLatest(db: Db, c: Ident)
    ensures IsLatest(db, c, LastBody(db, c))
  {
    var order := MessagesOrder(db, c);
    InOrderEnumerates(MessageTimes(db, c));
    if order != [] {
      var last := order[|order| - 1];
      assert SaidIn(db, c, last);
      forall n | SaidIn(db, c, n) ensures NoLater(db.messages, n, last) {
        assert n in order;
        LeqReflexive(n);
      }
    } else {
      forall m ensures !SaidIn(db, c, m) {
        assert m !in order;
      }
    }
  }

  /** The line says what the tables say. */
  predicate Describes(db: Db, s: Summary) {
    && s.id in db.conversations && db.conversations[s.id].contact == s.contactId && s.contactId in db.contacts
    && s.contactName == db.contacts[s.contactId].displayName && s.identity == IdentityStateOf(db, s.contactId)
    && s.lastMessage == LastBody(db, s.id)
  }

  /** Lines about conversations of these contacts, each conversation at most once. */
  ghost predicate Faithful(db: Db, out: seq<Summary>, contacts: set<Ident>) {
    && (forall k :: 0 <= k < |out| ==> Describes(db, out[k]) && out[k].contactId in contacts)
    && (forall k, l :: 0 <= k < l < |out| ==> out[k].id != out[l].id)
  }

  lemma {:induction false} FaithfulGrow(db: Db, a: seq<Summary>, contacts: set<Ident>, b: seq<Summary>, id: Ident)
    requires Faithful(db, a, contacts) && Faithful(db, b, {id}) && id !in contacts
    ensures Faithful(db, a + b, contacts + {id})
  {
  }

  /** One line for each of these conversations of a contact. */
  lemma {:induction false} ListedOnce(db: Db, out: seq<Summary>, ids: seq<Ident>, contact: Ident)
    requires |out| == |ids| && forall k :: 0 <= k < |out| ==>
               Describes(db, out[k]) && out[k].contactId == contact && out[k].id == ids[k]
    requires forall i, j :: 0 <= i < j < |ids| ==> ids[i] != ids[j]
    ensures Faithful(db, out, {contact}) && forall c :: c in ids ==> Mentions(out, c)
  {
    forall c | c in ids ensures Mentions(out, c) {
      var j :| 0 <= j < |ids| && ids[j] == c;
      assert out[j].id == c;
    }
  }

  predicate Mentions(out: seq<Summary>, c: Ident) {
    exists i :: 0 <= i < |out| && out[i].id == c
  }

  lemma {:induction false} MentionsGrow(a: seq<Summary>, b: seq<Summary>)
    ensures forall c :: Mentions(a, c) || Mentions(b, c) ==> Mentions(a + b, c)
  {
    forall c | Mentions(a, c) || Mentions(b, c) ensures Mentions(a + b, c) {
      if Mentions(a, c) {
        var i :| 0 <= i < |a| && a[i].id == c;
        assert (a + b)[i].id == c;
      } else {
        var i :| 0 <= i < |b| && b[i].id == c;
        assert (a + b)[|a| + i].id == c;
      }
    }
  }

  /** A ciphertext, where it was posted, and what the client heard back. */
  datatype Posted = Posted(inbox: Ident, blob: Blob, id: Option<Ident>, error: string)

  /** What the client sees of an answer: it cannot tell a refusal from a lost answer. */
  ghost predicate Answers(reply: PostReply, id: Option<Ident>, error: string) {
    id == (if reply.Accepted? then Some(reply.id) else None) && (!reply.Accepted? ==> error == reply.error)
  }

  /** What a poll returns: the conversations it opened and the messages it stored, in order. */
  datatype Arrivals = Arrivals(conversationsOpened: seq<Ident>, messages: seq<StoredMessage>)

  function ReceivedFrom(d: Client.Device, batch: seq<Mail>, clock: Clock): Arrivals {
    Arrivals(OpenedIn(d.mls, batch), RowsFor(Polls.Joined(d, batch), Unjoined(d.mls, batch), clock))
  }

  /** Why adding a contact fails: the Welcome's answer, or once that was accepted the introduction's. */
  function FirstFailure(posts: seq<PostReply>): string
    requires !FirstReply(posts).Accepted? || !FirstReply(RestReplies(posts)).Accepted?
  {
    if FirstReply(posts).Accepted? then FirstReply(RestReplies(posts)).error else FirstReply(posts).error
  }

  /** What a call that posts comes to. */
  datatype Outcome<T> = Done(value: T) | UnknownConversation | RelayFailed(error: string)

  class Pouch {
    const identity: Identity
    const store: LocalStore
    const provider: Provider
    const relay: RelayLink
    ghost const journal: Journal
    var conversations: map<Ident, LiveConversation>

    constructor (identity: Identity, store: LocalStore, provider: Provider, relay: RelayLink, ghost journal: Journal)
      requires store.journal == journal && provider.journal == journal && relay.journal == journal
      ensures Wired() && conversations == map[] && this.journal == journal
      ensures this.identity == identity && this.store == store && this.provider == provider && this.relay == relay
    {
      this.identity, this.store, this.provider, this.relay, this.journal := identity, store, provider, relay, journal;
      this.conversations := map[];
    }

    ghost function Live(): map<Ident, Peer>
      reads this, conversations.Values
    {
      map c | c in conversations :: conversations[c].peer
    }

    ghost function Device(): Client.Device
      reads this, store, provider, conversations.Values
    {
      Client.Device(identity, store.Tables(), provider.state, Live())
    }

    /** One journal, one provider, and each conversation filed under its own group. */
    ghost predicate Wired()
      reads this
    {
      && store.journal == journal && provider.journal == journal && relay.journal == journal
      && forall c :: c in conversations ==>
           conversations[c].group == c && conversations[c].provider == provider && conversations[c].journal == journal
    }

    /** Every live conversation has its row. */
    ghost predicate Filed()
      reads this, store
    {
      conversations.Keys <= store.conversations.Keys
    }

    /** Posts everything waiting, in order, and stops at the first failure. */
    method FlushOutbox() returns (delivered: nat)
      requires Wired()
      modifies store, relay`posts, journal
      ensures Wired() && (old(Filed()) ==> Filed())
      ensures Device() == Run(old(Device()), Flush(old(store.Tables()), old(relay.posts)))
      ensures journal.log == old(journal.log) + Flush(old(store.Tables()), old(relay.posts))
      ensures delivered == Delivered(|QueuedOrder(old(store.Tables()))|, old(relay.posts))
      ensures relay.posts == AfterFlush(|QueuedOrder(old(store.Tables()))|, old(relay.posts))
    {
      var rows := store.QueuedRows();
      ghost var order := QueuedOrder(store.Tables());
      delivered := PostRows(rows, order);
      FlushRuns(old(Device()), old(store.outbox), order, old(relay.posts));
    }

    /** The loop of `FlushOutbox`, over the rows it read. */
    method PostRows(rows: seq<StoredQueued>, ghost order: seq<Ident>) returns (delivered: nat)
      requires store.journal == journal && relay.journal == journal
      requires |rows| == |order|
      requires forall k :: 0 <= k < |rows| ==>
                 rows[k].id == order[k] && order[k] in store.outbox && rows[k].queued == store.outbox[order[k]]
      modifies store, relay`posts, journal
      ensures store.Tables() == old(store.Tables()).(outbox := BoxAfter(old(store.outbox), order, old(relay.posts)))
      ensures journal.log == old(journal.log) + FlushProgram(old(store.outbox), order, old(relay.posts))
      ensures delivered == Delivered(|order|, old(relay.posts))
      ensures relay.posts == AfterFlush(|order|, old(relay.posts))
    {
      ghost var box := store.outbox;
      ghost var posts := relay.posts;
      delivered := 0;
      var i := 0;
      assert order[0..] == order;
      while i < |rows|
        invariant 0 <= i <= |rows| && delivered == i
        invariant store.Tables() == old(store.Tables()).(outbox := store.outbox)
        invariant BoxAfter(store.outbox, order[i..], relay.posts) == BoxAfter(box, order, posts)
        invariant journal.log + FlushProgram(box, order[i..], relay.posts) == old(journal.log)
                  + FlushProgram(box, order, posts)
        invariant Delivered(|order|, posts) == i + Delivered(|order| - i, relay.posts)
        invariant AfterFlush(|order|, posts) == AfterFlush(|order| - i, relay.posts)
      {
        var row := rows[i];
        FlushUnfolds(box, store.outbox, order, i, relay.posts);
        ghost var log, left := journal.log, FlushProgram(box, order[i..], relay.posts);
        var ok := Offer(row);
        if !ok {
          assert journal.log == log + left;
          break;
        }
        delivered := delivered + 1;
        i := i + 1;
        Regroup(log, left[..2], FlushProgram(box, order[i..], relay.posts));
      }
      assert i == |rows| ==> FlushProgram(box, order[i..], relay.posts) == [];
    }

    /** Posts one queued ciphertext: it leaves the outbox, or its failure is recorded. */
    method Offer(row: StoredQueued) returns (ok: bool)
      requires store.journal == journal && relay.journal == journal
      modifies store, relay`posts, journal
      ensures ok == FirstReply(old(relay.posts)).Accepted? && relay.posts == RestReplies(old(relay.posts))
      ensures ok ==>
                && store.Tables() == old(store.Tables()).(outbox := old(store.outbox) - {row.id})
                && journal.log == old(journal.log)
                   + [Post(row.queued.peerInbox, row.queued.blob, FirstReply(old(relay.posts))), Sql(Dequeue(row.id))]
      ensures !ok ==>
                var error := FirstReply(old(relay.posts)).error;
                && store.Tables() == Exec(old(store.Tables()), RecordAttempt(row.id, error))
                && journal.log == old(journal.log) + [Post(row.queued.peerInbox, row.queued.blob,
                      FirstReply(old(relay.posts))), Sql(RecordAttempt(row.id, error))]
    {
      var id, error := relay.Send(row.queued.peerInbox, row.queued.blob);
      if id.None? {
        store.RecordAttempt(row.id, error);
        return false;
      }
      store.Dequeue(row.id);
      return true;
    }

    // ---- Sending ---------------------------------------------------------

    /** Writes the live MLS state back to the database. */
    method PersistMlsState()
      requires store.journal == journal
      modifies store, journal
      ensures store.Tables() == old(store.Tables()).(mls := Some(provider.state))
      ensures journal.log == old(journal.log) + [Persist]
    {
      store.PutMlsState(provider.state);
    }

    /** Encrypts a payload and posts it to the conversation's peer. */
    method EncryptAndPost(c: Ident, payload: Payload) returns (posted: Option<Posted>)
      requires Wired()
      modifies provider, relay`posts, journal
      ensures Wired()
      ensures posted.Some? <==> CanSend(old(Device()), c)
      ensures posted.None? ==>
                Device() == old(Device()) && journal.log == old(journal.log) && relay.posts == old(relay.posts)
      ensures posted.Some? ==>
                var d := old(Device());
                var reply := FirstReply(old(relay.posts));
                && Device() == d.(mls := Advanced(d.mls, c)) && relay.posts == RestReplies(old(relay.posts))
                && posted.value.inbox == d.live[c].inbox && posted.value.blob == Ciphertext(d.mls, c, payload)
                && Answers(reply, posted.value.id, posted.value.error)
                && journal.log == old(journal.log) + [Advance(c), Post(posted.value.inbox, posted.value.blob, reply)]
    {
      if c !in conversations {
        return None;
      }
      var blob := conversations[c].Encrypt(payload);
      if blob.None? {
        return None;
      }
      var inbox := conversations[c].peer.inbox;
      var id, error := relay.Send(inbox, blob.value);
      return Some(Posted(inbox, blob.value, id, error));
    }

    /** One payload, sent or lost: a failed post drops the ciphertext and saves nothing. */
    method SendPayload(c: Ident, payload: Payload) returns (r: Outcome<Ident>)
      requires Wired()
      modifies store, provider, relay`posts, journal
      ensures Wired()
      ensures var p := PayloadProgram(old(Device()), c, payload, FirstReply(old(relay.posts)));
              Device() == Run(old(Device()), p) && journal.log == old(journal.log) + p
      ensures !CanSend(old(Device()), c) <==> r == UnknownConversation
      ensures r.Done? <==> CanSend(old(Device()), c) && FirstReply(old(relay.posts)).Accepted?
      ensures r.Done? ==> r.value == FirstReply(old(relay.posts)).id
      ensures r.RelayFailed? ==> r.error == FirstReply(old(relay.posts)).error
    {
      var posted := EncryptAndPost(c, payload);
      if posted.None? {
        return UnknownConversation;
      }
      PayloadRuns(old(Device()), c, payload, FirstReply(old(relay.posts)));
      if posted.value.id.None? {
        return RelayFailed(posted.value.error);
      }
      PersistMlsState();
      return Done(posted.value.id.value);
    }

    /** Flushes the outbox whatever comes of it, then sends; a failed post leaves the ciphertext queued. */
    method SendMessage(c: Ident, body: string, localId: Ident, at: u64, queuedAt: u64) returns (r: Outcome<Ident>)
      requires Wired() && Filed()
      modifies store, provider, relay`posts, journal
      ensures Wired() && Filed()
      ensures var p := SendProgram(old(Device()), c, body, old(relay.posts), localId, at, queuedAt);
              Device() == Run(old(Device()), p) && journal.log == old(journal.log) + p
      ensures r == UnknownConversation <==> !CanSend(old(Device()), c)
      ensures var left := AfterFlush(|QueuedOrder(old(store.Tables()))|, old(relay.posts));
              && (r.Done? <==> CanSend(old(Device()), c) && FirstReply(left).Accepted?)
              && (r.Done? ==> r.value == FirstReply(left).id)
              && (r.RelayFailed? ==> !FirstReply(left).Accepted? && r.error == FirstReply(left).error)
    {
      ghost var d, posts := Device(), relay.posts;
      var delivered := FlushOutbox();
      SendRuns(d, c, body, posts, localId, at, queuedAt);
      ghost var flushed := Device();
      assert CanSend(flushed, c) == CanSend(d, c);
      ghost var reply := FirstReply(relay.posts);
      r := SendFlushed(c, body, localId, at, queuedAt);
      Regroup(old(journal.log), Flush(d.db, posts), OwnPostProgram(flushed, c, body, reply, localId, at, queuedAt));
    }

    /** Everything `SendMessage` does once the outbox has been flushed. */
    method SendFlushed(c: Ident, body: string, localId: Ident, at: u64, queuedAt: u64) returns (r: Outcome<Ident>)
      requires Wired() && Filed()
      modifies store, provider, relay`posts, journal
      ensures Wired() && Filed()
      ensures var p := OwnPostProgram(old(Device()), c, body, FirstReply(old(relay.posts)), localId, at, queuedAt);
              Device() == Run(old(Device()), p) && journal.log == old(journal.log) + p
      ensures r == UnknownConversation <==> !CanSend(old(Device()), c)
      ensures r.Done? <==> CanSend(old(Device()), c) && FirstReply(old(relay.posts)).Accepted?
      ensures r.Done? ==> r.value == FirstReply(old(relay.posts)).id
      ensures r.RelayFailed? ==> r.error == FirstReply(old(relay.posts)).error
    {
      var posted := EncryptAndPost(c, Text(body));
      if posted.None? {
        return UnknownConversation;
      }
      OwnPostRuns(old(Device()), c, body, FirstReply(old(relay.posts)), localId, at, queuedAt);
      Record(c, body, posted.value, FirstReply(old(relay.posts)), localId, at, queuedAt);
      return if posted.value.id.Some? then Done(posted.value.id.value) else RelayFailed(posted.value.error);
    }

    /** Writes down what the relay's answer calls for: the message, and the ciphertext still to be posted. */
    method Record(c: Ident, body: string, posted: Posted, ghost reply: PostReply, localId: Ident, at: u64,
        queuedAt: u64)
      requires Wired() && c in store.conversations && Answers(reply, posted.id, posted.error)
      modifies store, journal
      ensures Wired() && (old(Filed()) ==> Filed())
      ensures var p := RecordProgram(c, posted.inbox, body, posted.blob, reply, localId, at, queuedAt);
              Device() == Run(old(Device()), p) && journal.log == old(journal.log) + p
    {
      RecordRuns(Device(), c, posted.inbox, body, posted.blob, reply, localId, at, queuedAt);
      if posted.id.None? {
        KeepForLater(c, body, posted, localId, at, queuedAt);
      } else {
        var stored := store.PutMessage(posted.id.value, Message(c, Sent, body, AsI64(at)));
        assert stored;
      }
      PersistMlsState();
    }

    /** The message under a local identifier, and its finished ciphertext in the outbox. */
    method KeepForLater(c: Ident, body: string, posted: Posted, localId: Ident, at: u64, queuedAt: u64)
      requires store.journal == journal && c in store.conversations
      modifies store, journal
      ensures var row := Message(c, Sent, body, AsI64(at));
              var queued := Queued(c, posted.inbox, posted.blob, AsI64(queuedAt), 1, Some(posted.error));
              && store.Tables() == Exec(Exec(old(store.Tables()), PutMessage(localId, row)), Enqueue(localId, queued))
              && store.conversations == old(store.conversations)
              && journal.log == old(journal.log) + [Sql(PutMessage(localId, row)), Sql(Enqueue(localId, queued))]
    {
      var stored := store.PutMessage(localId, Message(c, Sent, body, AsI64(at)));
      var queued := store.Enqueue(localId, Queued(c, posted.inbox, posted.blob, AsI64(queuedAt), 1,
                                                  Some(posted.error)));
      assert stored && queued;
    }

    // ---- Receiving -------------------------------------------------------

    /** Each live conversation was live before, or has just been made. */
    twostate predicate OnlyNewConversations()
      reads this
    {
      forall c :: c in conversations ==> conversations[c] in old(conversations.Values) || fresh(conversations[c])
    }

    /** Treats a blob as a Welcome if it is one this device can use. */
    method TryJoin(blob: Blob) returns (joined: Option<Ident>)
      requires Wired() && Filed()
      modifies this`conversations, store, provider, journal
      ensures Wired() && Filed() && OnlyNewConversations()
      ensures joined == if CanJoin(old(provider.state), blob) then Some(blob.group) else None
      ensures provider.state == MlsAfter(old(provider.state), blob)
      ensures var p := JoinProgram(old(provider.state), blob);
              Device() == Run(old(Device()), p) && journal.log == old(journal.log) + p
      ensures joined.Some? && blob.creator != provider.state.me ==>
                && blob.group in store.conversations && store.conversations[blob.group].contact == Hex(blob.creator)
                && Hex(blob.creator) in store.contacts
                && (Hex(blob.creator) !in old(store.contacts) ==>
                      store.contacts[Hex(blob.creator)] == Contact("", [], blob.creator, false))
                && blob.group in Live() && Live()[blob.group] == Peer([], blob.creator)
    {
      var conversation := LiveConversation.JoinGroup(blob, provider, journal);
      if conversation.None? {
        return None;
      }
      var key := conversation.value.PeerKey(blob);
      conversation.value.TellPeer([], key);
      assert Live() == old(Live()) && store.Tables() == old(store.Tables());
      OpenJoined(conversation.value, key);
      JoinRuns(old(Device()), blob);
      if blob.creator != old(provider.state).me {
        Introductions.JoinFilesTheCreator(old(Device()), blob);
      }
      Regroup(old(journal.log), [Join(blob)], JoinProgram(old(provider.state), blob)[1..]);
      return Some(blob.group);
    }

    /** Files a conversation just joined, makes it live and saves the ratchets. */
    method OpenJoined(conversation: LiveConversation, key: Bytes)
      requires Wired() && Filed() && conversation.provider == provider && conversation.journal == journal
      requires conversation.peer == Peer([], key)
      modifies this`conversations, store, journal
      ensures Wired() && Filed() && conversations == old(conversations)[conversation.group := conversation]
      ensures Live() == old(Live())[conversation.group := Peer([], key)]
      ensures store.Tables() == Repoll.Registered(old(store.Tables()), conversation.group,
                                                  key).(mls := Some(provider.state))
      ensures journal.log == old(journal.log)
              + [Sql(InsertContact(Hex(key), Contact("", [], key, false))),
                 Sql(PutConversation(conversation.group, Hex(key))),
                 SetPeer(conversation.group, Peer([], key)), Persist]
    {
      Register(conversation.group, key);
      GoLiveAndSave(conversation);
      Regroup(old(journal.log), [Sql(InsertContact(Hex(key), Contact("", [], key, false))),
                                 Sql(PutConversation(conversation.group, Hex(key)))],
              [SetPeer(conversation.group, Peer([], key)), Persist]);
    }

    /** A contact with nothing known but its key, unverified, and the conversation with it. */
    method Register(group: Ident, key: Bytes)
      requires store.journal == journal
      modifies store, journal
      ensures store.Tables() == Repoll.Registered(old(store.Tables()), group, key)
      ensures store.conversations.Keys == old(store.conversations).Keys + {group}
      ensures journal.log == old(journal.log) + [Sql(InsertContact(Hex(key), Contact("", [], key, false))),
                                                 Sql(PutConversation(group, Hex(key)))]
    {
      store.PutContact(Hex(key), Contact("", [], key, false));
      var filed := store.PutConversation(group, Hex(key));
      assert filed;
      Repoll.RegisteredIs(old(store.Tables()), group, key);
    }

    method GoLiveAndSave(conversation: LiveConversation)
      requires Wired() && Filed() && conversation.provider == provider && conversation.journal == journal
      requires conversation.group in store.conversations
      modifies this`conversations, store, journal
      ensures Wired() && Filed() && conversations == old(conversations)[conversation.group := conversation]
      ensures Live() == old(Live())[conversation.group := conversation.peer]
      ensures store.Tables() == old(store.Tables()).(mls := Some(provider.state))
      ensures journal.log == old(journal.log) + [SetPeer(conversation.group, conversation.peer), Persist]
    {
      GoLive(conversation);
      PersistMlsState();
    }

    method GoLive(conversation: LiveConversation)
      requires Wired() && conversation.provider == provider && conversation.journal == journal
      modifies this`conversations, journal
      ensures Wired() && conversations == old(conversations)[conversation.group := conversation]
      ensures Live() == old(Live())[conversation.group := conversation.peer]
      ensures journal.log == old(journal.log) + [SetPeer(conversation.group, conversation.peer)]
    {
      conversations := conversations[conversation.group := conversation];
      journal.Note(SetPeer(conversation.group, conversation.peer));
    }

    /** The first pass: Welcomes, so that the second pass always has somewhere to put a message. */
    method JoinWelcomes(batch: seq<Mail>) returns (remaining: seq<Mail>, handled: seq<Ident>, opened': seq<Ident>)
      requires Wired() && Filed()
      modifies this`conversations, store, provider, journal
      ensures Wired() && Filed() && OnlyNewConversations()
      ensures var p := JoinAllProgram(old(provider.state), batch);
              Device() == Run(old(Device()), p) && journal.log == old(journal.log) + p
      ensures remaining == Unjoined(old(provider.state), batch) && handled == JoinedIds(old(provider.state), batch)
      ensures opened' == OpenedIn(old(provider.state), batch)
    {
      ghost var d := Device();
      remaining, handled, opened' := [], [], [];
      assert batch[..0] == [];
      for i := 0 to |batch|
        invariant Wired() && Filed() && OnlyNewConversations()
        invariant provider.state == MlsAfterAll(d.mls, batch[..i])
        invariant Device() == Run(d, JoinAllProgram(d.mls, batch[..i]))
        invariant journal.log == old(journal.log) + JoinAllProgram(d.mls, batch[..i])
        invariant remaining == Unjoined(d.mls, batch[..i]) && handled == JoinedIds(d.mls, batch[..i])
        invariant opened' == OpenedIn(d.mls, batch[..i])
      {
        FirstPassStep(d, batch, i);
        ghost var next := JoinProgram(provider.state, batch[i].blob);
        remaining, handled, opened' := JoinOrKeep(batch[i], remaining, handled, opened');
        Regroup(old(journal.log), JoinAllProgram(d.mls, batch[..i]), next);
      }
      assert batch[..|batch|] == batch;
    }

    /** One turn of the first pass: an envelope is joined and handled, or kept for the second pass. */
    method JoinOrKeep(envelope: Mail, remaining: seq<Mail>, handled: seq<Ident>, opened': seq<Ident>)
      returns (remaining': seq<Mail>, handled': seq<Ident>, opened'': seq<Ident>)
      requires Wired() && Filed()
      modifies this`conversations, store, provider, journal
      ensures Wired() && Filed() && OnlyNewConversations()
      ensures provider.state == MlsAfter(old(provider.state), envelope.blob)
      ensures Device() == Run(old(Device()), JoinProgram(old(provider.state), envelope.blob))
      ensures journal.log == old(journal.log) + JoinProgram(old(provider.state), envelope.blob)
      ensures remaining' == remaining + if CanJoin(old(provider.state), envelope.blob) then [] else [envelope]
      ensures handled' == handled + if CanJoin(old(provider.state), envelope.blob) then [envelope.id] else []
      ensures opened'' == opened' + if CanJoin(old(provider.state), envelope.blob) then [envelope.blob.group] else []
    {
      var joined := TryJoin(envelope.blob);
      if joined.Some? {
        return remaining, handled + [envelope.id], opened' + [joined.value];
      }
      return remaining + [envelope], handled, opened';
    }

    /** The live conversation that opens a blob, if one does; they are tried in no particular order. */
    method FindOpening(blob: Blob) returns (found: Option<(Ident, Opening)>)
      requires Wired()
      modifies provider, journal
      ensures Wired()
      ensures found.Some? <==> Opens(old(Device()), blob)
      ensures found.None? ==> provider.state == old(provider.state) && journal.log == old(journal.log)
      ensures found.Some? ==>
                && found.value == (blob.group, Opening(blob.plaintext, blob.sender))
                && provider.state == Decrypted(old(provider.state), blob.group, blob.generation)
                && journal.log == old(journal.log) + [Effect.Decrypt(blob.group, blob.generation)]
    {
      found := None;
      var untried := conversations.Keys;
      while untried != {}
        invariant untried <= conversations.Keys
        invariant provider.state == old(provider.state) && journal.log == old(journal.log)
        invariant forall c :: c in conversations && c !in untried ==> !CanDecrypt(provider.state, c, blob)
        decreases |untried|
      {
        var c :| c in untried;
        var opening := conversations[c].Decrypt(blob);
        if opening.Some? {
          return Some((c, opening.value));
        }
        untried := untried - {c};
      }
    }

    /** A sender key other than the stored one is recorded before anything is acted on. */
    method NoticeKey(c: Ident, key: Bytes, now: u64)
      requires store.journal == journal
      modifies store, journal
      ensures var p := NoticeKeyProgram(old(store.Tables()), c, key, now);
              store.Tables() == ExecAll(old(store.Tables()), p) && journal.log == old(journal.log) + Sqls(p)
    {
      var existing := store.ConversationContact(c);
      if existing.Some? {
        var changed := store.ReplaceIdentityKey(existing.value, key, now);
      }
    }

    /** An introduction updates the contact already attached to the conversation; a text becomes a row. */
    method StorePayload(id: Ident, c: Ident, key: Bytes, payload: Payload,
        now: u64) returns (message: Option<StoredMessage>)
      requires Wired() && Filed() && c in conversations
      modifies store, journal, conversations.Values
      ensures Wired() && Filed()
      ensures var p := StoreProgram(old(store.Tables()), id, c, key, payload, now);
              Device() == Run(old(Device()), p) && journal.log == old(journal.log) + p
      ensures message == match payload
                         case Hello(_, _) => None
                         case Text(body) => Some(StoredMessage(id, Message(c, Received, body, AsI64(now))))
    {
      StoreRuns(Device(), id, c, key, payload, now);
      match payload {
        case Hello(inbox, name) =>
          Introduce(c, key, inbox, name);
          return None;
        case Text(body) =>
          var row := Message(c, Received, body, AsI64(now));
          var stored := store.PutMessage(id, row);
          assert stored;
          return Some(StoredMessage(id, row));
      }
    }

    /** The contact attached to the conversation wins over one derived from the key. */
    method Introduce(c: Ident, key: Bytes, inbox: Ident, name: string)
      requires Wired() && Filed() && c in conversations
      modifies store, journal, conversations.Values
      ensures Wired() && Filed()
      ensures var id := old(store.conversations)[c].contact;
              && store.Tables() == Exec(Exec(old(store.Tables()), InsertContact(id, Contact(name, inbox, key, false))),
                                        PutConversation(c, id))
              && journal.log == old(journal.log)
                 + [Sql(InsertContact(id, Contact(name, inbox, key, false))), Sql(PutConversation(c, id)),
                    SetPeer(c, Peer(inbox, key))]
      ensures Live() == old(Live())[c := Peer(inbox, key)]
    {
      var existing := store.ConversationContact(c);
      var contactId := if existing.Some? then existing.value else Hex(key);
      store.PutContact(contactId, Contact(name, inbox, key, false));
      var filed := store.PutConversation(c, contactId);
      assert filed;
      conversations[c].TellPeer(inbox, key);
      journal.Note(SetPeer(c, Peer(inbox, key)));
    }

    /** The second pass on one envelope: opened, noticed, stored; whatever does not open is left alone. */
    method ReadEnvelope(envelope: Mail, clock: Clock) returns (handled: bool, message: Option<StoredMessage>)
      requires Wired() && Filed()
      modifies store, provider, journal, conversations.Values
      ensures Wired() && Filed()
      ensures var p := ReadProgram(old(Device()), envelope, clock);
              Device() == Run(old(Device()), p) && journal.log == old(journal.log) + p
      ensures handled <==> Handles(old(Device()), envelope.blob)
      ensures message == RowFor(old(Device()), envelope, clock)
    {
      ReadRuns(Device(), envelope, clock);
      var found := FindOpening(envelope.blob);
      if found.None? {
        return false, None;
      }
      assert Device()
             == old(Device()).(mls := Decrypted(old(provider.state), envelope.blob.group, envelope.blob.generation));
      if found.value.1.plaintext.Unreadable? {
        return false, None;
      }
      var c, opening := found.value.0, found.value.1;
      ghost var db := store.Tables();
      message := TakePayload(envelope.id, c, opening.senderKey, opening.plaintext.payload, clock);
      Regroup(old(journal.log), [Effect.Decrypt(c, envelope.blob.generation)],
              Sqls(NoticeKeyProgram(db, c, opening.senderKey, clock.noticed(envelope.id)))
              + StoreProgram(db, envelope.id, c, opening.senderKey, opening.plaintext.payload,
                             clock.stored(envelope.id)));
      return true, message;
    }

    method TakePayload(id: Ident, c: Ident, key: Bytes, payload: Payload,
        clock: Clock) returns (message: Option<StoredMessage>)
      requires Wired() && Filed() && c in conversations
      modifies store, journal, conversations.Values
      ensures Wired() && Filed()
      ensures var d := old(Device());
              var p := Sqls(NoticeKeyProgram(d.db, c, key, clock.noticed(id)))
              + StoreProgram(d.db, id, c, key, payload, clock.stored(id));
              Device() == Run(d, p) && journal.log == old(journal.log) + p
      ensures message == if payload.Text? then Some(StoredMessage(id,
            Message(c, Received, payload.body, AsI64(clock.stored(id))))) else None
    {
      TakeRuns(Device(), id, c, key, payload, clock);
      NoticeKey(c, key, clock.noticed(id));
      ghost var db := store.Tables();
      message := StorePayload(id, c, key, payload, clock.stored(id));
      Regroup(old(journal.log), Sqls(NoticeKeyProgram(old(store.Tables()), c, key, clock.noticed(id))),
              StoreProgram(db, id, c, key, payload, clock.stored(id)));
    }

    /** The second pass over everything the first one left. */
    method ReadMessages(todo: seq<Mail>, clock: Clock) returns (handled: seq<Ident>, messages: seq<StoredMessage>)
      requires Wired() && Filed()
      modifies store, provider, journal, conversations.Values
      ensures Wired() && Filed()
      ensures Device() == ReadAll(old(Device()), todo, clock)
      ensures journal.log == old(journal.log) + ReadAllProgram(old(Device()), todo, clock)
      ensures handled == ReadIds(old(Device()), todo, clock)
      ensures messages == RowsFor(old(Device()), todo, clock)
    {
      ghost var d := Device();
      handled, messages := [], [];
      assert todo[..0] == [];
      for i := 0 to |todo|
        invariant Wired() && Filed() && conversations == old(conversations)
        invariant Device() == ReadAll(d, todo[..i], clock)
        invariant journal.log == old(journal.log) + ReadAllProgram(d, todo[..i], clock)
        invariant handled == ReadIds(d, todo[..i], clock) && messages == RowsFor(d, todo[..i], clock)
      {
        SecondPassStep(d, todo, clock, i);
        ghost var next := ReadProgram(Device(), todo[i], clock);
        handled, messages := ReadNext(todo[i], handled, messages, clock);
        Regroup(old(journal.log), ReadAllProgram(d, todo[..i], clock), next);
      }
      assert todo[..|todo|] == todo;
    }

    /** One turn of the second pass. */
    method ReadNext(envelope: Mail, handled: seq<Ident>, messages: seq<StoredMessage>, clock: Clock)
      returns (handled': seq<Ident>, messages': seq<StoredMessage>)
      requires Wired() && Filed()
      modifies store, provider, journal, conversations.Values
      ensures Wired() && Filed()
      ensures Device() == ReadOne(old(Device()), envelope, clock)
      ensures journal.log == old(journal.log) + ReadProgram(old(Device()), envelope, clock)
      ensures handled' == handled + HandledId(old(Device()), envelope)
      ensures messages' == messages + Rows(RowFor(old(Device()), envelope, clock))
    {
      var taken, message := ReadEnvelope(envelope, clock);
      handled' := if taken then handled + [envelope.id] else handled;
      messages' := if message.Some? then messages + [message.value] else messages;
    }

    /** Acknowledged only after everything is in the tables; saved and purged only after that. */
    method Settle(handled: seq<Ident>, now: u64) returns (ok: bool)
      requires Wired() && Filed()
      modifies store, journal
      ensures Wired() && Filed()
      ensures ok == (handled == [] || relay.ack.Erased?)
      ensures var p := SettleProgram(old(store.Tables()), handled, relay.ack, now);
              Device() == Run(old(Device()), p) && journal.log == old(journal.log) + p
    {
      SettleRuns(Device(), handled, relay.ack, now);
      ghost var acks := if handled == [] then [] else [Ack(handled, relay.ack)];
      SettleSplits(store.Tables(), handled, relay.ack, now);
      ok := relay.Acknowledge(handled);
      if !ok {
        return false;
      }
      SaveAndPurge(now);
      Regroup(old(journal.log), acks, [Persist] + Sqls(PurgeProgram(old(store.Tables()), now)));
    }

    /** Retention is enforced here as well as on opening. */
    method SaveAndPurge(now: u64)
      requires store.journal == journal
      modifies store, journal
      ensures store.Tables() == Purged(old(store.Tables()).(mls := Some(provider.state)), now)
      ensures store.conversations == old(store.conversations)
      ensures journal.log == old(journal.log) + ([Persist] + Sqls(PurgeProgram(old(store.Tables()), now)))
    {
      ghost var db := store.Tables();
      PersistMlsState();
      assert PurgeProgram(store.Tables(), now) == PurgeProgram(db, now);
      PurgedIs(store.Tables(), now);
      var deleted := store.PurgeExpired(now);
      Regroup(old(journal.log), [Persist], Sqls(PurgeProgram(db, now)));
    }

    /** A poll: flush, collect, join, read, acknowledge, save, purge. */
    method ReceiveMessages(clock: Clock, now: u64) returns (r: Outcome<Arrivals>)
      requires Wired() && Filed()
      modifies this`conversations, store, provider, relay`posts, journal, conversations.Values
      ensures Wired() && Filed() && OnlyNewConversations()
      ensures var p := ReceiveProgram(old(Device()), old(relay.posts), relay.batch, clock, relay.ack, now);
              Device() == Run(old(Device()), p) && journal.log == old(journal.log) + p
      ensures var flushed := Run(old(Device()), Flush(old(store.Tables()), old(relay.posts)));
              && (r.Done?
                  <==> relay.batch.Some? && (HandledIds(flushed, relay.batch.value, clock) == [] || relay.ack.Erased?))
              && (r.Done? ==> r.value == ReceivedFrom(flushed, relay.batch.value, clock))
    {
      ghost var d, posts := Device(), relay.posts;
      var delivered := FlushOutbox();
      ghost var flushed := Device();
      ReceiveRuns(d, posts, relay.batch, clock, relay.ack, now);
      var batch := relay.Collect();
      if batch.None? {
        return RelayFailed("collect");
      }
      r := TakeInAndSettle(batch.value, clock, now);
      Regroup(old(journal.log), Flush(d.db, posts), BatchProgram(flushed, batch.value, clock, relay.ack, now));
    }

    /** Everything a poll does once the relay has answered. */
    method TakeInAndSettle(batch: seq<Mail>, clock: Clock, now: u64) returns (r: Outcome<Arrivals>)
      requires Wired() && Filed()
      modifies this`conversations, store, provider, journal, conversations.Values
      ensures Wired() && Filed() && OnlyNewConversations()
      ensures var p := BatchProgram(old(Device()), batch, clock, relay.ack, now);
              Device() == Run(old(Device()), p) && journal.log == old(journal.log) + p
      ensures r.Done? <==> HandledIds(old(Device()), batch, clock) == [] || relay.ack.Erased?
      ensures r.Done? ==> r.value == ReceivedFrom(old(Device()), batch, clock)
    {
      ghost var d := Device();
      var handled, received := TakeInBatch(batch, clock);
      ghost var taken := Device();
      BatchRuns(d, batch, clock, relay.ack, now);
      var ok := Settle(handled, now);
      Regroup(old(journal.log), TakeInProgram(d, batch, clock), SettleProgram(taken.db, handled, relay.ack, now));
      if !ok {
        return RelayFailed("acknowledge");
      }
      return Done(received);
    }

    /** Both passes. */
    method TakeInBatch(batch: seq<Mail>, clock: Clock) returns (handled: seq<Ident>, received: Arrivals)
      requires Wired() && Filed()
      modifies this`conversations, store, provider, journal, conversations.Values
      ensures Wired() && Filed() && OnlyNewConversations()
      ensures Device() == TakeIn(old(Device()), batch, clock)
      ensures journal.log == old(journal.log) + TakeInProgram(old(Device()), batch, clock)
      ensures handled == HandledIds(old(Device()), batch, clock)
      ensures received == ReceivedFrom(old(Device()), batch, clock)
    {
      ghost var d := Device();
      var remaining, welcomed, conversationsOpened := JoinWelcomes(batch);
      ghost var joined := Device();
      TakeInRuns(d, batch, clock);
      var readIds, rows := ReadMessages(remaining, clock);
      Regroup(old(journal.log), JoinAllProgram(d.mls, batch), ReadAllProgram(joined, remaining, clock));
      return welcomed + readIds, Arrivals(conversationsOpened, rows);
    }

    // ---- Contacts --------------------------------------------------------

    method InviteCode(keyPackage: nat)
      requires Wired()
      modifies store, provider, journal
      ensures Wired()
      ensures Device() == Run(old(Device()), InviteProgram(keyPackage))
      ensures journal.log == old(journal.log) + InviteProgram(keyPackage)
    {
      TwoSteps(Device(), AddKeyPackage(keyPackage), Persist);
      provider.NewKeyPackage(keyPackage);
      PersistMlsState();
    }

    /** Opens a conversation from an invite; `group` is its random identifier, not in use. */
    method AddContact(name: string, invite: Invite, group: Ident) returns (r: Outcome<Ident>)
      requires Wired() && Filed() && group !in provider.state.groups
      modifies this`conversations, store, provider, relay`posts, journal
      ensures Wired() && OnlyNewConversations()
      ensures var p := AddContactProgram(old(Device()), name, invite, group, old(relay.posts));
              Device() == Run(old(Device()), p) && journal.log == old(journal.log) + p
      ensures r.Done? <==> FirstReply(old(relay.posts)).Accepted? && FirstReply(RestReplies(old(relay.posts))).Accepted?
      ensures r.Done? ==> r.value == group
      ensures !r.Done? ==> r == RelayFailed(FirstFailure(old(relay.posts)))
    {
      ghost var d, posts := Device(), relay.posts;
      AddContactRuns(d, name, invite, group, posts);
      var posted, error := OpenContact(name, invite, group);
      if !posted {
        return RelayFailed(error);
      }
      ghost var opened' := Device();
      var introduced := SendPayload(group, Hello(identity.inbox, identity.displayName));
      Regroup(old(journal.log), OpenProgram(d.mls.me, name, invite, group, FirstReply(posts)),
              PayloadProgram(opened', group, Hello(identity.inbox, identity.displayName),
                             FirstReply(RestReplies(posts))));
      return if introduced.Done? then Done(group) else introduced;
    }

    /** The new conversation, filed, and live once its Welcome has been accepted. */
    method OpenContact(name: string, invite: Invite, group: Ident) returns (posted: bool, error: string)
      requires Wired() && Filed() && group !in provider.state.groups
      modifies this`conversations, store, provider, relay`posts, journal
      ensures Wired() && Filed() && OnlyNewConversations()
      ensures posted == FirstReply(old(relay.posts)).Accepted? && relay.posts == RestReplies(old(relay.posts))
      ensures !posted ==> error == FirstReply(old(relay.posts)).error
      ensures Device() == OpenedContact(old(Device()), name, invite, group, posted)
      ensures journal.log == old(journal.log)
              + OpenProgram(old(provider.state).me, name, invite, group, FirstReply(old(relay.posts)))
    {
      ghost var d, reply := Device(), FirstReply(relay.posts);
      var conversation, offered, reason := OfferGroup(name, invite, group);
      if !offered {
        return false, reason;
      }
      GoLiveAndSave(conversation);
      Regroup(old(journal.log), OfferProgram(d.mls.me, name, invite, group, reply),
              [SetPeer(group, Peer(invite.inbox, invite.publicKey)), Persist]);
      return true, "";
    }

    /** Creates the group, files the contact and posts the Welcome like any other blob. */
    method OfferGroup(name: string, invite: Invite, group: Ident)
      returns (conversation: LiveConversation, posted: bool, error: string)
      requires Wired() && Filed() && group !in provider.state.groups
      modifies store, provider, relay`posts, journal
      ensures Wired() && Filed() && Live() == old(Live())
      ensures fresh(conversation) && conversation.group == group && conversation.provider == provider
      ensures conversation.journal == journal
      ensures conversation.peer == Peer(invite.inbox, invite.publicKey) && group in store.conversations
      ensures posted == FirstReply(old(relay.posts)).Accepted? && relay.posts == RestReplies(old(relay.posts))
      ensures !posted ==> error == FirstReply(old(relay.posts)).error
      ensures provider.state == Created(old(provider.state), group, invite.credential)
      ensures store.Tables() == WithContact(old(store.Tables()), group,
                                            Contact(name, invite.inbox, invite.publicKey, false))
      ensures journal.log == old(journal.log)
              + OfferProgram(old(provider.state).me, name, invite, group, FirstReply(old(relay.posts)))
    {
      var welcome;
      conversation, welcome := LiveConversation.CreateGroup(invite, group, provider, journal);
      FileContact(group, Contact(name, invite.inbox, invite.publicKey, false));
      var id;
      id, error := relay.Send(invite.inbox, welcome);
      posted := id.Some?;
    }

    method FileContact(group: Ident, contact: Contact)
      requires store.journal == journal
      modifies store, journal
      ensures store.Tables() == WithContact(old(store.Tables()), group, contact)
      ensures journal.log == old(journal.log) + [Sql(InsertContact(Hex(contact.publicKey), contact)),
                                                 Sql(PutConversation(group, Hex(contact.publicKey)))]
    {
      store.PutContact(Hex(contact.publicKey), contact);
      var filed := store.PutConversation(group, Hex(contact.publicKey));
      assert filed;
      WithContactIs(old(store.Tables()), group, contact);
    }

    method VerifyContact(id: Ident, verified: bool)
      requires Wired()
      modifies store, journal
      ensures Wired()
      ensures Device() == Run(old(Device()), [Sql(SetVerified(id, verified))])
      ensures store.contacts == if id in old(store.contacts)
                                then old(store.contacts)[id := old(store.contacts)[id].(verified := verified)]
                                else old(store.contacts)
      ensures journal.log == old(journal.log) + [Sql(SetVerified(id, verified))]
    {
      RunSnoc(Device(), [], Sql(SetVerified(id, verified)));
      store.SetVerified(id, verified);
    }

    method AcknowledgeIdentityChange(id: Ident)
      requires Wired()
      modifies store, journal
      ensures Wired()
      ensures Device() == Run(old(Device()), [Sql(AcknowledgeChange(id))])
      ensures journal.log == old(journal.log) + [Sql(AcknowledgeChange(id))]
    {
      RunSnoc(Device(), [], Sql(AcknowledgeChange(id)));
      store.AcknowledgeIdentityChange(id);
    }

    // ---- What the user controls -------------------------------------------

    /** A new policy takes effect at once; the count is of rows deleted from both tables. */
    method SetRetentionPolicy(policy: RetentionPolicy, now: u64) returns (deleted: nat)
      requires Wired()
      modifies store, journal
      ensures Wired() && Policy(store.Tables()) == policy
      ensures var p := SettingProgram(old(store.Tables()), PutSetting(RETENTION, policy.AsStr()), now);
              Device() == Run(old(Device()), p) && journal.log == old(journal.log) + p
      ensures deleted == |old(store.messages).Keys - store.messages.Keys| + |old(store.outbox).Keys - store.outbox.Keys|
    {
      ghost var setting := PutSetting(RETENTION, policy.AsStr());
      SettingRuns(Device(), setting, now);
      store.SetRetentionPolicy(policy);
      ghost var mid := store.Tables();
      assert store.messages == old(store.messages) && store.outbox == old(store.outbox);
      assert Device() == Apply(old(Device()), Sql(setting));
      deleted := PurgeExpired(now);
      PurgeRuns(mid, now);
      RunSqls(Apply(old(Device()), Sql(setting)), PurgeProgram(mid, now));
      PurgingKeepsPolicy(mid, now);
      Regroup(old(journal.log), [Sql(setting)], Sqls(PurgeProgram(mid, now)));
    }

    method SetDisappearingMessages(c: Ident, seconds: Option<u64>, now: u64) returns (deleted: Option<nat>)
      requires Wired()
      modifies store, journal
      ensures Wired()
      ensures deleted.Some? <==> c in old(store.conversations)
      ensures deleted.None? ==> Device() == old(Device()) && journal.log == old(journal.log)
      ensures deleted.Some? ==>
                var p := SettingProgram(old(store.Tables()), SetDisappearAfter(c, Stored(seconds)), now);
                && Device() == Run(old(Device()), p) && journal.log == old(journal.log) + p
                && deleted.value == |old(store.messages).Keys - store.messages.Keys|
                   + |old(store.outbox).Keys - store.outbox.Keys|
    {
      var contact := store.ConversationContact(c);
      if contact.None? {
        return None;
      }
      ghost var setting := SetDisappearAfter(c, Stored(seconds));
      SettingRuns(Device(), setting, now);
      store.SetDisappearAfter(c, seconds);
      ghost var mid := store.Tables();
      assert store.messages == old(store.messages) && store.outbox == old(store.outbox);
      assert Device() == Apply(old(Device()), Sql(setting));
      var count := PurgeExpired(now);
      Regroup(old(journal.log), [Sql(setting)], Sqls(PurgeProgram(mid, now)));
      return Some(count);
    }

    method PurgeExpired(now: u64) returns (deleted: nat)
      requires Wired()
      modifies store, journal
      ensures Wired()
      ensures var p := Sqls(PurgeProgram(old(store.Tables()), now));
              Device() == Run(old(Device()), p) && journal.log == old(journal.log) + p
      ensures deleted == |old(store.messages).Keys - store.messages.Keys| + |old(store.outbox).Keys - store.outbox.Keys|
    {
      RunSqls(Device(), PurgeProgram(store.Tables(), now));
      PurgeRuns(store.Tables(), now);
      deleted := store.PurgeExpired(now);
    }

    /** Destroys everything on the device; nothing is live afterwards. */
    method WipeAll()
      requires Wired()
      modifies this`conversations, store, journal
      ensures Wired() && conversations == map[] && store.Tables() == EMPTY
      ensures journal.log == old(journal.log) + ([ClearLive] + Sqls(WipeProgram()))
    {
      conversations := map[];
      journal.Note(ClearLive);
      store.Wipe();
      Regroup(old(journal.log), [ClearLive], Sqls(WipeProgram()));
    }

    // ---- Opening ---------------------------------------------------------

    /** First run: an identity row, the snapshot that holds its key, and nothing else. */
    static method Create(identity: Identity, mls: State, store: LocalStore, relay: RelayLink,
        ghost journal: Journal) returns (pouch: Pouch)
      requires store.journal == journal && relay.journal == journal && store.Tables() == EMPTY
      requires identity.signerPublic == mls.me && mls.groups == map[]
      modifies store, journal
      ensures fresh(pouch) && pouch.Wired() && pouch.Filed() && pouch.store == store && pouch.relay == relay
      ensures pouch.journal == journal
      ensures pouch.Device() == Client.Device(identity, EMPTY.(identity := Some(identity), mls := Some(mls)), mls,
                                              map[])
      ensures Generations.New(pouch.Device())
      ensures journal.log == old(journal.log) + CreateProgram(identity)
    {
      store.PutIdentity(identity);
      store.PutMlsState(mls);
      var provider := new Provider(journal, mls);
      pouch := new Pouch(identity, store, provider, relay, journal);
    }

    /** Opens what is on disk: the snapshot into memory, every conversation that has its group, then retention. */
    static method Open(store: LocalStore, relay: RelayLink, ghost journal: Journal, now: u64) returns (r: Option<Pouch>)
      requires store.journal == journal && relay.journal == journal
      modifies store, journal
      ensures r.Some? <==> CanOpen(old(store.Tables()))
      ensures r.None? ==> store.Tables() == old(store.Tables()) && journal.log == old(journal.log)
      ensures r.Some? ==>
                && fresh(r.value) && r.value.store == store && r.value.relay == relay && r.value.journal == journal
                && r.value.Wired()
                && r.value.Device() == Opened(old(store.Tables()), now)
                && journal.log == old(journal.log) + Sqls(PurgeProgram(old(store.Tables()), now))
    {
      if store.identity.None? || store.mls.None? || store.identity.value.signerPublic != store.mls.value.me {
        return None;
      }
      var provider := new Provider(journal, store.mls.value);
      var pouch := new Pouch(store.identity.value, store, provider, relay, journal);
      pouch.ReloadConversations();
      ghost var live := pouch.Live();
      var deleted := store.PurgeExpired(now);
      assert pouch.Live() == live;
      return Some(pouch);
    }

    /** Rebuilds the live conversations from the tables and the groups the provider holds. */
    method ReloadConversations()
      requires Wired() && conversations == map[]
      modifies this`conversations
      ensures Wired() && OnlyNewConversations()
      ensures Live() == Reloaded(store.Tables(), provider.state)
    {
      var contacts := store.Contacts();
      ghost var done: set<Ident> := {};
      for i := 0 to |contacts|
        invariant Wired() && OnlyNewConversations() && Loaded(done, {})
        invariant forall k :: 0 <= k < i ==> contacts[k].id in done
      {
        LoadContact(contacts[i], done);
        done := done + {contacts[i].id};
      }
      AllLoaded(done);
    }

    lemma {:induction false} AllLoaded(done: set<Ident>)
      requires Loaded(done, {}) && forall id :: id in store.contacts ==> id in done
      ensures Live() == Reloaded(store.Tables(), provider.state)
    {
    }

    /** A conversation whose contact has a row and whose group the provider holds. */
    ghost predicate Loadable(c: Ident)
      reads store, provider
    {
      c in store.conversations && store.conversations[c].contact in store.contacts && c in provider.state.groups
    }

    /** Live are the loadable conversations of these contacts, and these; each with its contact's address and key. */
    ghost predicate Loaded(contacts: set<Ident>, more: set<Ident>)
      reads this, store, provider, conversations.Values
    {
      && (forall c :: c in conversations <==> Loadable(c) && (store.conversations[c].contact in contacts || c in more))
      && (forall c :: c in conversations ==>
            var contact := store.contacts[store.conversations[c].contact];
            conversations[c].peer == Peer(contact.inbox, contact.publicKey))
    }

    /** The conversations of one contact. */
    method LoadContact(row: StoredContact, ghost done: set<Ident>)
      requires Wired() && Loaded(done, {}) && row.id in store.contacts && row.contact == store.contacts[row.id]
      modifies this`conversations
      ensures Wired() && OnlyNewConversations() && Loaded(done + {row.id}, {})
    {
      var ids := store.ConversationsOf(row.id);
      ConversationsForExactly(store.Tables(), row.id);
      ghost var more: set<Ident> := {};
      for j := 0 to |ids|
        invariant Wired() && OnlyNewConversations() && Loaded(done, more)
        invariant forall c :: c in more <==> c in ids[..j]
      {
        LoadConversation(ids[j], row, done, more);
        more := more + {ids[j]};
      }
      assert ids[..|ids|] == ids;
    }

    method LoadConversation(c: Ident, row: StoredContact, ghost done: set<Ident>, ghost more: set<Ident>)
      requires Wired() && Loaded(done, more) && row.id in store.contacts && row.contact == store.contacts[row.id]
      requires c in store.conversations && store.conversations[c].contact == row.id
      modifies this`conversations
      ensures Wired() && OnlyNewConversations() && Loaded(done, more + {c})
    {
      if c in provider.state.groups {
        var conversation := new LiveConversation(c, Peer(row.contact.inbox, row.contact.publicKey), provider, journal);
        conversations := conversations[c := conversation];
      }
    }

    // ---- What the user is shown -------------------------------------------

    /** Every conversation once, with its contact, the identity state shown for it, and its latest message. */
    method Conversations() returns (out: seq<Summary>)
      requires Integrity(store.Tables())
      ensures forall i :: 0 <= i < |out| ==> Describes(store.Tables(), out[i])
      ensures forall i, j :: 0 <= i < j < |out| ==> out[i].id != out[j].id
      ensures forall c :: c in store.conversations ==> Mentions(out, c)
      ensures forall i :: 0 <= i < |out| ==> IsLatest(store.Tables(), out[i].id, out[i].lastMessage)
    {
      out := [];
      var contacts := store.Contacts();
      ghost var done: set<Ident> := {};
      for i := 0 to |contacts|
        invariant Faithful(store.Tables(), out, done)
        invariant forall c :: c in store.conversations && store.conversations[c].contact in done ==> Mentions(out, c)
        invariant forall k :: 0 <= k < |contacts| ==> (contacts[k].id in done <==> k < i)
      {
        var more := Summaries(contacts[i]);
        MentionsGrow(out, more);
        FaithfulGrow(store.Tables(), out, done, more, contacts[i].id);
        out := out + more;
        done := done + {contacts[i].id};
      }
      assert forall id :: id in store.contacts ==> id in done;
      forall i | 0 <= i < |out| ensures IsLatest(store.Tables(), out[i].id, out[i].lastMessage) {
        LastBodyIsLatest(store.Tables(), out[i].id);
      }
    }

    /** One contact's conversations. */
    method Summaries(row: StoredContact) returns (out: seq<Summary>)
      requires row.id in store.contacts && row.contact == store.contacts[row.id]
      ensures Faithful(store.Tables(), out, {row.id})
      ensures forall c :: c in store.conversations && store.conversations[c].contact == row.id ==> Mentions(out, c)
    {
      out := [];
      var ids := store.ConversationsOf(row.id);
      ConversationsForExactly(store.Tables(), row.id);
      for j := 0 to |ids|
        invariant |out| == j
        invariant forall k :: 0 <= k < j ==>
                    Describes(store.Tables(), out[k]) && out[k].contactId == row.id && out[k].id == ids[k]
      {
        var identity := IdentityShown(row);
        var last := LatestBody(ids[j]);
        out := out + [Summary(ids[j], row.contact.displayName, row.id, identity, last)];
      }
      ListedOnce(store.Tables(), out, ids, row.id);
    }

    method LatestBody(c: Ident) returns (body: Option<string>)
      ensures body == LastBody(store.Tables(), c)
    {
      var rows := store.Messages(c);
      body := if rows == [] then None else Some(rows[|rows| - 1].message.body);
    }

    /** An unanswered key change outranks both other states. */
    method IdentityShown(row: StoredContact) returns (r: IdentityState)
      requires row.id in store.contacts && row.contact == store.contacts[row.id]
      ensures r == IdentityStateOf(store.Tables(), row.id)
    {
      if row.id in store.changes && !store.changes[row.id].acknowledged {
        return KeyChanged;
      }
      return if row.contact.verified then Verified else Unverified;
    }
  }
}
