/**
 Crashing anywhere inside the two passes of a poll, reopening, and polling the same batch again: it comes to
 one uninterrupted poll, up to the times rows were stored.
*/
module Repoll {
  import opened Basics
  import opened Mls
  import opened Tables
  import opened RelayStore
  import opened Client
  import opened Calls
  import opened OutboxRules
  import opened Reading
  import opened Restarts
  import Polls

  /** The snapshot on disk is the ratchet in memory, and every conversation the tables know is live. */
  ghost predicate Current(d: Device) {
    Steady(d) && d.db.mls == Some(d.mls) && d.live.Keys == Reloaded(d.db, d.mls).Keys
  }

  /** Equal but for what a live conversation was last told about its peer. */
  ghost predicate Same(x: Device, y: Device) {
    x.identity == y.identity && x.db == y.db && x.mls == y.mls && x.live.Keys == y.live.Keys
  }

  /** The device with retention applied. */
  function Retained(d: Device, now: u64): Device {
    d.(db := Purged(d.db, now))
  }

  // ---- Crashing in the first pass ------------------------------------------------

  /** The tables after a Welcome's contact and conversation are written. */
  function Registered(db: Db, group: Ident, key: Bytes): Db {
    var id := Hex(key);
    db.(contacts := db.contacts[id := if id in db.contacts then db.contacts[id].(displayName := "",
          inbox := []) else Contact("", [], key, false)],
        conversations := db.conversations[group := Conversation(id,
              if group in db.conversations then db.conversations[group].disappearAfter else None)])
  }

  lemma {:induction false} RegisteredIs(db: Db, group: Ident, key: Bytes)
    ensures Exec(Exec(db, InsertContact(Hex(key), Contact("", [], key, false))), PutConversation(group, Hex(key)))
            == Registered(db, group, key)
  {
  }

  /** One join, effect by effect. */
  lemma {:induction false} JoinSteps(d: Device, blob: Blob)
    requires CanJoin(d.mls, blob)
    ensures var key := PeerCredential(d.mls, blob);
            var p := JoinProgram(d.mls, blob);
            var insert := InsertContact(Hex(key), Contact("", [], key, false));
            && |p| == 5
            && Run(d, p[..0]).db == d.db && Run(d, p[..1]).db == d.db
            && Run(d, p[..2]).db == Exec(d.db, insert)
            && Run(d, p[..3]).db == Registered(d.db, blob.group, key)
            && Run(d, p[..4]).db == Registered(d.db, blob.group, key)
  {
    var p := JoinProgram(d.mls, blob);
    RegisteredIs(d.db, blob.group, PeerCredential(d.mls, blob));
    assert p[..0] == [];
    PrefixStep(d, p, 0);
    PrefixStep(d, p, 1);
    PrefixStep(d, p, 2);
    PrefixStep(d, p, 3);
  }

  lemma {:induction false} PrefixStep(d: Device, p: seq<Effect>, k: nat)
    requires k < |p|
    ensures Run(d, p[..k + 1]) == Apply(Run(d, p[..k]), p[k])
  {
    assert p[..k + 1] == p[..k] + [p[k]];
    RunSnoc(d, p[..k], p[k]);
  }

  lemma {:induction false} ReloadedKeys(db: Db, mls: State)
    requires Integrity(db)
    ensures Reloaded(db, mls).Keys == db.conversations.Keys * mls.groups.Keys
  {
  }

  lemma {:induction false} JoinOutcome(d: Device, blob: Blob)
    requires CanJoin(d.mls, blob)
    ensures var key := PeerCredential(d.mls, blob);
            Run(d, JoinProgram(d.mls, blob))
            == d.(mls := Joined(d.mls, blob), live := d.live[blob.group := Peer([], key)],
                  db := Registered(d.db, blob.group, key).(mls := Some(Joined(d.mls, blob))))
  {
    var p := JoinProgram(d.mls, blob);
    var registered := d.(mls := Joined(d.mls, blob), db := Registered(d.db, blob.group, PeerCredential(d.mls, blob)));
    RegisteredIs(d.db, blob.group, PeerCredential(d.mls, blob));
    ThreeSteps(d, p[0], p[1], p[2]);
    assert p == [p[0], p[1], p[2]] + [p[3], p[4]];
    RunConcat(d, [p[0], p[1], p[2]], [p[3], p[4]]);
    TwoSteps(registered, p[3], p[4]);
  }

  lemma {:induction false} JoinKeepsCurrent(d: Device, blob: Blob)
    requires Current(d)
    ensures Current(Run(d, JoinProgram(d.mls, blob))) == true
  {
    JoinSteady(d, blob);
    if CanJoin(d.mls, blob) {
      var after := Run(d, JoinProgram(d.mls, blob));
      JoinReaches(d, blob, after);
      JoinedIsCurrent(d, after, blob.group);
    }
  }

  lemma {:induction false} JoinReaches(d: Device, blob: Blob, after: Device)
    requires CanJoin(d.mls, blob) && after == Run(d, JoinProgram(d.mls, blob))
    ensures after.db.mls == Some(after.mls) && after.live.Keys == d.live.Keys + {blob.group}
    ensures after.db.conversations.Keys == d.db.conversations.Keys + {blob.group}
    ensures after.mls.groups.Keys == d.mls.groups.Keys + {blob.group}
  {
    JoinOutcome(d, blob);
  }

  lemma {:induction false} JoinedIsCurrent(d: Device, after: Device, group: Ident)
    requires Current(d) && Steady(after) && after.db.mls == Some(after.mls) && after.live.Keys == d.live.Keys + {group}
    requires after.db.conversations.Keys == d.db.conversations.Keys + {group}
    requires after.mls.groups.Keys == d.mls.groups.Keys + {group}
    requires group !in d.mls.groups
    ensures Current(after)
  {
    ReloadedKeys(d.db, d.mls);
    ReloadedKeys(after.db, after.mls);
  }

  /** Registering a conversation touches nothing that retention looks at. */
  lemma {:induction false} RegisteringCommutesWithPurge(db: Db, group: Ident, key: Bytes, now: u64, mls: Option<State>)
    requires Integrity(db)
    ensures Purged(Registered(db, group, key).(mls := mls), now) == Registered(Purged(db, now), group, key).(mls := mls)
  {
    var r := Registered(db, group, key).(mls := mls);
    SameRetention(db, r, now);
  }

  /** Two databases with the same rows and the same intervals keep the same rows. */
  lemma {:induction false} SameRetention(a: Db, b: Db, now: u64)
    requires Integrity(a) && a.messages == b.messages && a.outbox == b.outbox && a.settings == b.settings
    requires forall c :: c in a.conversations ==>
               c in b.conversations && b.conversations[c].disappearAfter == a.conversations[c].disappearAfter
    ensures Purged(b, now) == b.(messages := Purged(a, now).messages, outbox := Purged(a, now).outbox)
  {
    var everywhere := Policy(a).Seconds();
    assert Policy(b) == Policy(a);
    PurgedIs(a, now);
    PurgedIs(b, now);
    SameMessagesKept(a, b, AsI64(now), everywhere);
    SameOutboxKept(a, b, AsI64(now), everywhere);
  }

  lemma {:induction false} SameMessagesKept(a: Db, b: Db, now: int, everywhere: Option<int>)
    requires Integrity(a)
    requires forall c :: c in a.conversations ==>
               c in b.conversations && b.conversations[c].disappearAfter == a.conversations[c].disappearAfter
    ensures KeptMessages(a.messages, b.conversations, now, everywhere)
            == KeptMessages(a.messages, a.conversations, now, everywhere)
  {
  }

  lemma {:induction false} SameOutboxKept(a: Db, b: Db, now: int, everywhere: Option<int>)
    requires Integrity(a)
    requires forall c :: c in a.conversations ==>
               c in b.conversations && b.conversations[c].disappearAfter == a.conversations[c].disappearAfter
    ensures KeptOutbox(a.outbox, b.conversations, now, everywhere)
            == KeptOutbox(a.outbox, a.conversations, now, everywhere)
  {
  }

  lemma {:induction false} JoinRespectsSame(x: Device, y: Device, blob: Blob)
    requires Same(x, y)
    ensures Same(Run(x, JoinProgram(x.mls, blob)), Run(y, JoinProgram(y.mls, blob)))
  {
    if CanJoin(x.mls, blob) {
      JoinOutcome(x, blob);
      JoinOutcome(y, blob);
    }
  }

  lemma {:induction false} JoinsRespectSame(x: Device, y: Device, batch: seq<Mail>)
    requires Same(x, y)
    ensures Same(Polls.Joined(x, batch), Polls.Joined(y, batch))
    decreases |batch|
  {
    if batch != [] {
      JoinRespectsSame(x, y, batch[0].blob);
      JoinsUnfold(x, batch);
      JoinsUnfold(y, batch);
      JoinsRespectSame(Run(x, JoinProgram(x.mls, batch[0].blob)), Run(y, JoinProgram(y.mls, batch[0].blob)),
                       batch[1..]);
    }
  }

  lemma {:induction false} JoinsUnfold(d: Device, batch: seq<Mail>)
    requires batch != []
    ensures var first := Run(d, JoinProgram(d.mls, batch[0].blob));
            first.mls == MlsAfter(d.mls, batch[0].blob) && Polls.Joined(d, batch) == Polls.Joined(first, batch[1..])
  {
    Polls.JoinOpens(d, batch[0].blob);
    RunConcat(d, JoinProgram(d.mls, batch[0].blob), JoinAllProgram(MlsAfter(d.mls, batch[0].blob), batch[1..]));
  }

  lemma {:induction false} JoinCommutesWithRetention(d: Device, blob: Blob, now: u64)
    requires Integrity(d.db)
    ensures Run(Retained(d, now), JoinProgram(d.mls, blob)) == Retained(Run(d, JoinProgram(d.mls, blob)), now)
  {
    if CanJoin(d.mls, blob) {
      JoinOutcome(d, blob);
      JoinOutcome(Retained(d, now), blob);
      RegisteringCommutesWithPurge(d.db, blob.group, PeerCredential(d.mls, blob), now, Some(Joined(d.mls, blob)));
    }
  }

  lemma {:induction false} JoinsCommuteWithRetention(d: Device, batch: seq<Mail>, now: u64)
    requires Steady(d)
    ensures Polls.Joined(Retained(d, now), batch) == Retained(Polls.Joined(d, batch), now)
    decreases |batch|
  {
    if batch != [] {
      var first := Run(d, JoinProgram(d.mls, batch[0].blob));
      JoinsUnfold(d, batch);
      JoinsUnfold(Retained(d, now), batch);
      JoinCommutesWithRetention(d, batch[0].blob, now);
      JoinSteady(d, batch[0].blob);
      JoinsCommuteWithRetention(first, batch[1..], now);
    }
  }

  /** Key packages are only spent and groups only gained. */
  ghost predicate Spent(s: State, t: State) {
    t.keyPackages <= s.keyPackages && s.groups.Keys <= t.groups.Keys
  }

  /** The part of a registration a crash can leave behind. */
  ghost predicate Partial(db: Db, group: Ident, key: Bytes, partial: Db) {
    || partial == db
    || partial == Exec(db, InsertContact(Hex(key), Contact("", [], key, false)))
    || partial == Registered(db, group, key)
  }

  lemma {:induction false} CrashedJoinDisk(d: Device, blob: Blob, k: nat)
    requires k < |JoinProgram(d.mls, blob)|
    ensures Partial(d.db, blob.group, PeerCredential(d.mls, blob), Run(d, JoinProgram(d.mls, blob)[..k]).db)
    ensures Run(d, JoinProgram(d.mls, blob)[..k]).identity == d.identity
  {
    JoinSteps(d, blob);
    SameIdentity(d, JoinProgram(d.mls, blob)[..k]);
  }

  lemma {:induction false} SameIdentity(d: Device, p: seq<Effect>)
    ensures Run(d, p).identity == d.identity && Run(d, p).mls.me == d.mls.me
    decreases |p|
  {
    if p != [] {
      SameIdentity(Apply(d, p[0]), p[1..]);
    }
  }

  /** Reopening on a partly registered conversation: nothing of it is live yet. */
  lemma {:induction false} ReopenPartial(d: Device, group: Ident, key: Bytes, partial: Db, now: u64)
    requires Current(d) && group !in d.mls.groups && Partial(d.db, group, key, partial)
    ensures CanOpen(partial)
    ensures var r := Opened(partial, now);
            && r.identity == d.identity && r.mls == d.mls && r.live.Keys == d.live.Keys && r.db == Purged(partial, now)
  {
    PartlyRegistered(d.db, group, key, partial);
    PurgedKeeps(partial, now);
    ReloadedKeys(d.db, d.mls);
    ReloadedKeys(partial, d.mls);
  }

  /** What a crash inside one join leaves on disk joins again to the same tables. */
  lemma {:induction false} CrashInsideJoin(d: Device, blob: Blob, k: nat, now: u64)
    requires Current(d) && k < |JoinProgram(d.mls, blob)|
    ensures var r := Reopen(Run(d, JoinProgram(d.mls, blob)[..k]), now);
            r.mls == d.mls && Same(Run(r, JoinProgram(r.mls, blob)), Retained(Run(d, JoinProgram(d.mls, blob)), now))
  {
    var key := PeerCredential(d.mls, blob);
    var partial := Run(d, JoinProgram(d.mls, blob)[..k]).db;
    CrashedJoinDisk(d, blob, k);
    ReopenPartial(d, blob.group, key, partial, now);
    PartlyRegistered(d.db, blob.group, key, partial);
    JoinsToTheSame(d, Opened(partial, now), blob, partial, now);
  }

  lemma {:induction false} JoinsToTheSame(d: Device, r: Device, blob: Blob, partial: Db, now: u64)
    requires CanJoin(d.mls, blob) && r.identity == d.identity && r.mls == d.mls && r.live.Keys == d.live.Keys
    requires r.db == Purged(partial, now) && Integrity(partial)
    requires var key := PeerCredential(d.mls, blob);
             Registered(partial, blob.group, key) == Registered(d.db, blob.group, key)
    ensures Same(Run(r, JoinProgram(r.mls, blob)), Retained(Run(d, JoinProgram(d.mls, blob)), now))
  {
    JoinOutcome(d, blob);
    JoinOutcome(r, blob);
    RegisteringCommutesWithPurge(partial, blob.group, PeerCredential(d.mls, blob), now, Some(Joined(d.mls, blob)));
  }

  /** Any prefix of a registration, registered again, is the registration. */
  lemma {:induction false} PartlyRegistered(db: Db, group: Ident, key: Bytes, partial: Db)
    requires Integrity(db)
    requires Partial(db, group, key, partial)
    ensures Registered(partial, group, key) == Registered(db, group, key)
    ensures Integrity(partial) && partial.identity == db.identity && partial.mls == db.mls
    ensures partial.conversations.Keys <= db.conversations.Keys + {group}
    ensures db.conversations.Keys <= partial.conversations.Keys
  {
    PartialKeeps(db, group, key, partial);
    SameContactsAgain(db, group, key, partial);
    SameConversationsAgain(db, group, key, partial);
  }

  lemma {:induction false} SameContactsAgain(db: Db, group: Ident, key: Bytes, partial: Db)
    requires Partial(db, group, key, partial)
    ensures Registered(partial, group, key).contacts == Registered(db, group, key).contacts
  {
  }

  lemma {:induction false} SameConversationsAgain(db: Db, group: Ident, key: Bytes, partial: Db)
    requires Partial(db, group, key, partial)
    ensures Registered(partial, group, key).conversations == Registered(db, group, key).conversations
  {
  }

  lemma {:induction false} PartialKeeps(db: Db, group: Ident, key: Bytes, partial: Db)
    requires Integrity(db) && Partial(db, group, key, partial)
    ensures Integrity(partial) && partial == db.(contacts := partial.contacts, conversations := partial.conversations)
    ensures partial.conversations.Keys <= db.conversations.Keys + {group}
    ensures db.conversations.Keys <= partial.conversations.Keys
  {
    var insert := InsertContact(Hex(key), Contact("", [], key, false));
    StoreRules.IntegrityStep(db, insert);
    if partial == Registered(db, group, key) {
      RegisteredIs(db, group, key);
      StoreRules.IntegrityStep(Exec(db, insert), PutConversation(group, Hex(key)));
    }
  }

  lemma {:induction false} Spending(mls: State, blob: Blob)
    ensures Spent(mls, MlsAfter(mls, blob)) && !CanJoin(MlsAfter(mls, blob), blob)
  {
  }

  lemma {:induction false} SpendingAll(mls: State, batch: seq<Mail>)
    ensures Spent(mls, MlsAfterAll(mls, batch))
    ensures forall m :: m in batch ==> !CanJoin(MlsAfterAll(mls, batch), m.blob)
    decreases |batch|
  {
    if batch != [] {
      Spending(mls, batch[0].blob);
      SpendingAll(MlsAfter(mls, batch[0].blob), batch[1..]);
      assert batch == [batch[0]] + batch[1..];
    }
  }

  lemma {:induction false} NothingLeftToJoin(mls: State, batch: seq<Mail>)
    requires forall m :: m in batch ==> !CanJoin(mls, m.blob)
    ensures JoinAllProgram(mls, batch) == []
    decreases |batch|
  {
    if batch != [] {
      assert batch[0] in batch;
      NothingLeftToJoin(mls, batch[1..]);
    }
  }

  /** A device just reopened is where it was, with retention applied. */
  lemma {:induction false} ReopenCurrent(d: Device, now: u64)
    requires Current(d)
    ensures Reopen(d, now).mls == d.mls && Same(Reopen(d, now), Retained(d, now))
  {
    PurgedKeeps(d.db, now);
  }

  /** Joining the batch again, `r` ends where `d` would have ended, with retention applied. */
  ghost predicate JoinsAgain(d: Device, r: Device, batch: seq<Mail>, now: u64) {
    Spent(d.mls, r.mls) && Same(Polls.Joined(r, batch), Retained(Polls.Joined(d, batch), now))
  }

  lemma {:induction false} CrashInFirstJoin(d: Device, batch: seq<Mail>, k: nat, now: u64)
    requires Current(d) && batch != [] && k < |JoinProgram(d.mls, batch[0].blob)|
    ensures JoinsAgain(d, Reopen(Run(d, JoinProgram(d.mls, batch[0].blob)[..k]), now), batch, now)
  {
    var blob := batch[0].blob;
    var first := Run(d, JoinProgram(d.mls, blob));
    var r := Reopen(Run(d, JoinProgram(d.mls, blob)[..k]), now);
    CrashInsideJoin(d, blob, k, now);
    JoinKeepsCurrent(d, blob);
    JoinsUnfold(d, batch);
    JoinsUnfold(r, batch);
    JoinsRespectSame(Run(r, JoinProgram(r.mls, blob)), Retained(first, now), batch[1..]);
    JoinsCommuteWithRetention(first, batch[1..], now);
  }

  /** The first Welcome was joined and saved before the crash: it cannot be joined a second time. */
  lemma {:induction false} CrashAfterFirstJoin(d: Device, r: Device, batch: seq<Mail>, now: u64)
    requires batch != [] && JoinsAgain(Run(d, JoinProgram(d.mls, batch[0].blob)), r, batch[1..], now)
    ensures JoinsAgain(d, r, batch, now)
  {
    JoinsUnfold(d, batch);
    Spending(d.mls, batch[0].blob);
    assert JoinProgram(r.mls, batch[0].blob) == [];
    JoinsUnfold(r, batch);
  }

  /** Where a crash in the first pass falls: inside the first join, or in the passes over the rest. */
  lemma {:induction false} JoinsPrefix(d: Device, batch: seq<Mail>, k: nat)
    requires batch != [] && k <= |JoinAllProgram(d.mls, batch)|
    ensures var p := JoinProgram(d.mls, batch[0].blob);
            var first := Run(d, p);
            var rest := JoinAllProgram(first.mls, batch[1..]);
            && (k < |p| ==> Run(d, JoinAllProgram(d.mls, batch)[..k]) == Run(d, p[..k]))
            && (k >= |p| ==>
                  k - |p| <= |rest| && Run(d, JoinAllProgram(d.mls, batch)[..k]) == Run(first, rest[..k - |p|]))
  {
    var p := JoinProgram(d.mls, batch[0].blob);
    JoinsUnfold(d, batch);
    PrefixOfTwo(d, p, JoinAllProgram(Run(d, p).mls, batch[1..]), k);
  }

  /** A crash anywhere in the first pass: joining again ends where the uninterrupted pass ends. */
  lemma {:induction false} CrashInJoins(d: Device, batch: seq<Mail>, k: nat, now: u64, crashed: Device)
    requires Current(d) && k <= |JoinAllProgram(d.mls, batch)| && crashed == Run(d, JoinAllProgram(d.mls, batch)[..k])
    ensures JoinsAgain(d, Reopen(crashed, now), batch, now)
    decreases |batch|
  {
    if batch == [] {
      assert JoinAllProgram(d.mls, batch)[..k] == [];
      ReopenCurrent(d, now);
    } else {
      var p := JoinProgram(d.mls, batch[0].blob);
      JoinsPrefix(d, batch, k);
      if k < |p| {
        CrashInFirstJoin(d, batch, k, now);
      } else {
        JoinKeepsCurrent(d, batch[0].blob);
        CrashInJoins(Run(d, p), batch[1..], k - |p|, now, crashed);
        CrashAfterFirstJoin(d, Reopen(crashed, now), batch, now);
      }
    }
  }

  // ---- Crashing in the second pass -------------------------------------------------

  predicate OpensAt(mls: State, live: set<Ident>, b: Blob) {
    b.Application? && b.group in live && CanDecrypt(mls, b.group, b)
  }

  function MlsNext(mls: State, live: set<Ident>, b: Blob): State {
    if OpensAt(mls, live, b) then Decrypted(mls, b.group, b.generation) else mls
  }

  /** What an opened envelope says, and under which identifier it came. */
  datatype Letter = Letter(id: Ident, group: Ident, sender: Bytes, payload: Payload)

  predicate Good(b: Blob) {
    b.Application? && b.plaintext.Readable?
  }

  function LetterOf(m: Mail): Letter
    requires Good(m.blob)
  {
    Letter(m.id, m.blob.group, m.blob.sender, m.blob.plaintext.payload)
  }

  /** The envelopes the second pass handles; only the ratchets decide. */
  function Handled(mls: State, live: set<Ident>, todo: seq<Mail>): set<Letter>
    decreases |todo|
  {
    if todo == [] then {}
    else
      var rest := Handled(MlsNext(mls, live, todo[0].blob), live, todo[1..]);
      if OpensAt(mls, live, todo[0].blob) && Good(todo[0].blob) then {LetterOf(todo[0])} + rest else rest
  }

  /** Those that concern one contact. */
  function About(conversations: map<Ident, Conversation>, t: set<Letter>, id: Ident): set<Letter>
  {
    set m | m in t && m.group in conversations && conversations[m.group].contact == id
  }

  predicate AllFrom(t: set<Letter>, key: Bytes)
  {
    forall m :: m in t ==> m.sender == key
  }

  predicate Introduces(t: set<Letter>)
  {
    exists m :: m in t && m.payload.Hello?
  }

  /** Two versions of a contact that reading `t` will make equal. */
  ghost predicate Converges(a: Contact, b: Contact, t: set<Letter>)
  {
    && (t == {} ==> a == b)
    && (!Introduces(t) ==> a.displayName == b.displayName && a.inbox == b.inbox)
    && ((a.verified && AllFrom(t, a.publicKey)) <==> (b.verified && AllFrom(t, b.publicKey)))
  }

  /** Reading one more of `t` keeps converging, and leaves the rest to converge. */
  lemma {:induction false} TouchingConverges(a: Contact, b: Contact, m: Letter, rest: set<Letter>)
    requires Converges(a, b, {m} + rest)
    ensures Converges(Touched(a, m.sender, m.payload), Touched(b, m.sender, m.payload), rest)
  {
    var t := {m} + rest;
    assert m in t;
    assert Introduces(t) <==> m.payload.Hello? || Introduces(rest);
    forall k ensures AllFrom(t, k) <==> m.sender == k && AllFrom(rest, k) {
    }
  }

  ghost predicate ContactsConverge(y: Db, x: Db, t: set<Letter>)
  {
    && x.conversations == y.conversations && x.contacts.Keys == y.contacts.Keys
    && forall id :: id in y.contacts ==> Converges(y.contacts[id], x.contacts[id], About(y.conversations, t, id))
  }

  /** The identifiers under which reading `t` stores a row. */
  predicate Writes(t: set<Letter>, id: Ident)
  {
    exists m :: m in t && m.id == id && m.payload.Text?
  }

  /** The same row but for the time it was stored. */
  predicate SameRow(p: map<Ident, Message>, q: map<Ident, Message>, id: Ident) {
    && (id in p <==> id in q)
    && (id in p ==> p[id].(at := 0) == q[id].(at := 0))
  }

  ghost predicate RowsConverge(y: Db, x: Db, t: set<Letter>)
  {
    forall id :: !Writes(t, id) ==> SameRow(y.messages, x.messages, id)
  }

  lemma {:induction false} ReadMoves(d: Device, m: Mail, clock: Clock)
    requires Sound(d)
    ensures var after := ReadOne(d, m, clock);
            && Sound(after) && after.live.Keys == d.live.Keys && after.mls == MlsNext(d.mls, d.live.Keys, m.blob)
            && after.db.conversations == d.db.conversations
  {
    ReadOneIs(d, m, clock);
    ReadOneSound(d, m, clock);
  }

  lemma {:induction false} AboutFirstOrRest(conversations: map<Ident, Conversation>, m: Letter, rest: set<Letter>,
      id: Ident)
    ensures About(conversations, {m} + rest, id)
            == if m.group in conversations && conversations[m.group].contact == id
               then {m} + About(conversations, rest, id) else About(conversations, rest, id)
  {
  }

  lemma {:induction false} HandledStepConverges(y: Db, x: Db, m: Mail, rest: set<Letter>, cy: Clock, cx: Clock)
    requires Good(m.blob) && Integrity(y) && Integrity(x) && m.blob.group in y.conversations
    requires ContactsConverge(y, x, {LetterOf(m)} + rest) && RowsConverge(y, x, {LetterOf(m)} + rest)
    ensures ContactsConverge(DbAfter(y, m, cy), DbAfter(x, m, cx), rest)
  {
    var y', x' := DbAfter(y, m, cy), DbAfter(x, m, cx);
    var cid := ContactOf(y, m.blob.group);
    forall id | id in y'.contacts
      ensures Converges(y'.contacts[id], x'.contacts[id], About(y'.conversations, rest, id))
    {
      AboutFirstOrRest(y.conversations, LetterOf(m), rest, id);
      if id == cid {
        TouchingConverges(y.contacts[id], x.contacts[id], LetterOf(m), About(y.conversations, rest, id));
      }
    }
  }

  lemma {:induction false} HandledStepRows(y: Db, x: Db, m: Mail, rest: set<Letter>, cy: Clock, cx: Clock)
    requires Good(m.blob) && Integrity(y) && Integrity(x) && m.blob.group in y.conversations
    requires m.blob.group in x.conversations
    requires RowsConverge(y, x, {LetterOf(m)} + rest)
    ensures RowsConverge(DbAfter(y, m, cy), DbAfter(x, m, cx), rest)
  {
    var y', x' := DbAfter(y, m, cy), DbAfter(x, m, cx);
    forall id | !Writes(rest, id)
      ensures SameRow(y'.messages, x'.messages, id)
    {
      if !(m.id == id && m.blob.plaintext.payload.Text?) {
        assert !Writes({LetterOf(m)} + rest, id);
      }
    }
  }

  /** The tables and ratchets of two devices that reading `t` will make equal. */
  ghost predicate DevicesConverge(y: Device, x: Device, t: set<Letter>) {
    && Sound(y) && Sound(x) && x.mls == y.mls && x.live.Keys == y.live.Keys
    && ContactsConverge(y.db, x.db, t) && RowsConverge(y.db, x.db, t)
  }

  lemma {:induction false} ReadStepConverges(y: Device, x: Device, todo: seq<Mail>, cy: Clock, cx: Clock)
    requires todo != [] && DevicesConverge(y, x, Handled(y.mls, y.live.Keys, todo))
    ensures var y', x' := ReadOne(y, todo[0], cy), ReadOne(x, todo[0], cx);
            DevicesConverge(y', x', Handled(y'.mls, y'.live.Keys, todo[1..]))
  {
    var m := todo[0];
    ReadMoves(y, m, cy);
    ReadMoves(x, m, cx);
    TablesAfter(y, m, cy);
    TablesAfter(x, m, cx);
    if OpensAt(y.mls, y.live.Keys, m.blob) && Good(m.blob) {
      var rest := Handled(MlsNext(y.mls, y.live.Keys, m.blob), y.live.Keys, todo[1..]);
      assert Handled(y.mls, y.live.Keys, todo) == {LetterOf(m)} + rest;
      HandledStepConverges(y.db, x.db, m, rest, cy, cx);
      HandledStepRows(y.db, x.db, m, rest, cy, cx);
    }
  }

  lemma {:induction false} TablesAfter(d: Device, m: Mail, clock: Clock)
    requires Sound(d)
    ensures ReadOne(d, m, clock).db == if OpensAt(d.mls, d.live.Keys, m.blob) && Good(m.blob)
            then DbAfter(d.db, m, clock) else d.db
  {
    ReadOneIs(d, m, clock);
  }

  /** Two devices with the same ratchets whose tables converge end up with the same tables. */
  lemma {:induction false} ReadsConverge(y: Device, x: Device, todo: seq<Mail>, cy: Clock, cx: Clock)
    requires DevicesConverge(y, x, Handled(y.mls, y.live.Keys, todo))
    ensures DevicesConverge(ReadAll(y, todo, cy), ReadAll(x, todo, cx), {})
    decreases |todo|
  {
    if todo != [] {
      ReadStepConverges(y, x, todo, cy, cx);
      ReadsConverge(ReadOne(y, todo[0], cy), ReadOne(x, todo[0], cx), todo[1..], cy, cx);
    }
  }

  // ---- What a crash in the second pass leaves ------------------------------------------

  /** Outside what `t` writes, the same rows exactly. */
  ghost predicate RowsUntouched(y: Db, x: Db, t: set<Letter>) {
    forall id :: !Writes(t, id) ==>
      (id in x.messages <==> id in y.messages) && (id in y.messages ==> x.messages[id] == y.messages[id])
  }

  /** The tables part of the way through reading `t`. */
  ghost predicate Partway(y: Db, x: Db, t: set<Letter>) {
    && Integrity(x) && ContactsConverge(y, x, t) && RowsUntouched(y, x, t)
    && x.mls == y.mls && x.identity == y.identity && x.settings == y.settings && x.outbox == y.outbox
  }

  /** A statement that reading one of `t` may issue when the tables are `x`. */
  predicate Due(x: Db, t: set<Letter>, s: Stmt) {
    match s
    case SwapKey(id, key) => id in x.contacts && x.contacts[id].publicKey != key && exists m ::
      m in About(x.conversations, t, id) && m.sender == key
    case NoteChange(id, _, _) => true
    case InsertContact(id, _) => id in x.contacts && exists m :: m in About(x.conversations, t, id) && m.payload.Hello?
    case PutConversation(c, id) => c in x.conversations && x.conversations[c].contact == id
    case PutMessage(id, row) => Writes(t, id)
    case _ => false
  }

  lemma {:induction false} DueKeepsPartway(y: Db, x: Db, t: set<Letter>, s: Stmt)
    requires Partway(y, x, t) && Due(x, t, s)
    ensures Partway(y, Exec(x, s), t)
  {
    StoreRules.IntegrityStep(x, s);
    if s.SwapKey? || s.InsertContact? {
      ContactStepConverges(y, x, t, s);
    } else if s.PutConversation? {
      assert x.conversations[s.id := x.conversations[s.id].(contact := s.contactId)] == x.conversations;
    }
  }

  lemma {:induction false} ContactStepConverges(y: Db, x: Db, t: set<Letter>, s: Stmt)
    requires Partway(y, x, t) && Due(x, t, s) && (s.SwapKey? || s.InsertContact?)
    ensures Partway(y, Exec(x, s), t)
  {
    StoreRules.IntegrityStep(x, s);
    var x' := Exec(x, s);
    forall i | i in y.contacts
      ensures Converges(y.contacts[i], x'.contacts[i], About(y.conversations, t, i))
    {
      if i == s.id {
        var u := About(y.conversations, t, i);
        if s.SwapKey? {
          var m :| m in u && m.sender == s.key;
          SwappedConverges(y.contacts[i], x.contacts[i], u, m);
        } else {
          var m :| m in u && m.payload.Hello?;
          RenamedConverges(y.contacts[i], x.contacts[i], u, m, s.contact);
        }
      }
    }
  }

  /** Swapping to a different key of `t` drops a verification that would not have survived it. */
  lemma {:induction false} SwappedConverges(a: Contact, b: Contact, t: set<Letter>, m: Letter)
    requires Converges(a, b, t) && m in t && b.publicKey != m.sender
    ensures Converges(a, b.(publicKey := m.sender, verified := false), t)
  {
  }

  lemma {:induction false} RenamedConverges(a: Contact, b: Contact, t: set<Letter>, m: Letter, row: Contact)
    requires Converges(a, b, t) && m in t && m.payload.Hello?
    ensures Converges(a, b.(displayName := row.displayName, inbox := row.inbox), t)
  {
  }

  /** Each effect of reading one of `t` is due when its turn comes. */
  lemma {:induction false} EffectsAreDue(d: Device, m: Mail, clock: Clock, t: set<Letter>, j: nat)
    requires Sound(d) && j < |ReadProgram(d, m, clock)|
    requires Good(m.blob) ==> LetterOf(m) in t
    ensures var p := ReadProgram(d, m, clock);
            var x := Run(d, p[..j]).db;
            && !p[j].Persist?
            && (x.conversations == d.db.conversations && x.contacts.Keys == d.db.contacts.Keys && p[j].Sql? ==>
                  Due(x, t, p[j].stmt))
  {
    var p := ReadProgram(d, m, clock);
    var x := Run(d, p[..j]).db;
    if p[j].Sql? && x.conversations == d.db.conversations && x.contacts.Keys == d.db.contacts.Keys {
      var c := m.blob.group;
      var id := d.db.conversations[c].contact;
      assert LetterOf(m) in About(x.conversations, t, id);
      if p[j].stmt.SwapKey? {
        assert j == 1;
        assert p[..0] == [];
        PrefixStep(d, p, 0);
        assert x == d.db;
      }
    }
  }

  /** The effect may be carried out now without straying from reading `t`. */
  predicate Ready(x: Device, e: Effect, t: set<Letter>) {
    !e.Persist? && (e.Sql? ==> Due(x.db, t, e.stmt))
  }

  lemma {:induction false} ReadyPrefixPartway(y: Db, d: Device, p: seq<Effect>, t: set<Letter>, j: nat)
    requires j <= |p| && Partway(y, d.db, t)
    requires forall i :: 0 <= i < j && Partway(y, Run(d, p[..i]).db, t) ==> Ready(Run(d, p[..i]), p[i], t)
    ensures Partway(y, Run(d, p[..j]).db, t)
    decreases j
  {
    if j == 0 {
      assert p[..0] == [];
    } else {
      ReadyPrefixPartway(y, d, p, t, j - 1);
      EffectPartway(y, Run(d, p[..j - 1]), p[j - 1], t);
      PrefixStep(d, p, j - 1);
    }
  }

  lemma {:induction false} PrefixPartway(y: Db, d: Device, m: Mail, clock: Clock, t: set<Letter>, j: nat)
    requires Sound(d) && j <= |ReadProgram(d, m, clock)| && Partway(y, d.db, t)
    requires Good(m.blob) ==> LetterOf(m) in t
    ensures Partway(y, Run(d, ReadProgram(d, m, clock)[..j]).db, t)
  {
    var p := ReadProgram(d, m, clock);
    forall i | 0 <= i < j && Partway(y, Run(d, p[..i]).db, t)
      ensures Ready(Run(d, p[..i]), p[i], t)
    {
      SameFrames(y, d.db, Run(d, p[..i]).db, t);
      EffectsAreDue(d, m, clock, t, i);
    }
    ReadyPrefixPartway(y, d, p, t, j);
  }

  lemma {:induction false} SameFrames(y: Db, x: Db, z: Db, t: set<Letter>)
    requires Partway(y, x, t) && Partway(y, z, t)
    ensures z.conversations == x.conversations && z.contacts.Keys == x.contacts.Keys
  {
  }

  lemma {:induction false} EffectPartway(y: Db, x: Device, e: Effect, t: set<Letter>)
    requires Partway(y, x.db, t) && Ready(x, e, t)
    ensures Partway(y, Apply(x, e).db, t)
  {
    if e.Sql? {
      DueKeepsPartway(y, x.db, t, e.stmt);
    }
  }

  /** A prefix of two programs in a row. */
  lemma {:induction false} PrefixOfTwo(d: Device, p: seq<Effect>, rest: seq<Effect>, k: nat)
    requires k <= |p| + |rest|
    ensures k < |p| ==> (p + rest)[..k] == p[..k]
    ensures k >= |p| ==> Run(d, (p + rest)[..k]) == Run(Run(d, p), rest[..k - |p|])
  {
    if k >= |p| {
      assert (p + rest)[..k] == p + rest[..k - |p|];
      RunConcat(d, p, rest[..k - |p|]);
    }
  }

  /** A crash anywhere in the second pass leaves tables that reading the batch again completes. */
  lemma {:induction false} CrashInReads(y: Db, d: Device, todo: seq<Mail>, clock: Clock, t: set<Letter>, k: nat)
    requires Sound(d) && Partway(y, d.db, t) && k <= |ReadAllProgram(d, todo, clock)|
    requires Handled(d.mls, d.live.Keys, todo) <= t
    ensures Partway(y, Run(d, ReadAllProgram(d, todo, clock)[..k]).db, t)
    decreases |todo|
  {
    var all := ReadAllProgram(d, todo, clock);
    if todo == [] {
      assert all[..k] == [];
    } else {
      var p := ReadProgram(d, todo[0], clock);
      var next := ReadOne(d, todo[0], clock);
      var rest := ReadAllProgram(next, todo[1..], clock);
      PrefixOfTwo(d, p, rest, k);
      if k < |p| {
        FirstPartway(y, d, todo, clock, t, k);
      } else {
        ReadOnePartway(y, d, todo, clock, t);
        CrashInReads(y, next, todo[1..], clock, t, k - |p|);
      }
    }
  }

  /** The first envelope read to the end. */
  lemma {:induction false} ReadOnePartway(y: Db, d: Device, todo: seq<Mail>, clock: Clock, t: set<Letter>)
    requires Sound(d) && Partway(y, d.db, t) && todo != []
    requires Handled(d.mls, d.live.Keys, todo) <= t
    ensures var next := ReadOne(d, todo[0], clock);
            Sound(next) && Partway(y, next.db, t) && Handled(next.mls, next.live.Keys, todo[1..]) <= t
  {
    var p := ReadProgram(d, todo[0], clock);
    assert p[..|p|] == p;
    FirstPartway(y, d, todo, clock, t, |p|);
    ReadMoves(d, todo[0], clock);
  }

  lemma {:induction false} FirstPartway(y: Db, d: Device, todo: seq<Mail>, clock: Clock, t: set<Letter>, j: nat)
    requires Sound(d) && Partway(y, d.db, t) && todo != [] && j <= |ReadProgram(d, todo[0], clock)|
    requires Handled(d.mls, d.live.Keys, todo) <= t
    ensures Partway(y, Run(d, ReadProgram(d, todo[0], clock)[..j]).db, t)
    ensures Handled(MlsNext(d.mls, d.live.Keys, todo[0].blob), d.live.Keys, todo[1..]) <= t
  {
    var m := todo[0];
    if Opens(d, m.blob) && Good(m.blob) {
      assert LetterOf(m) in Handled(d.mls, d.live.Keys, todo);
      PrefixPartway(y, d, m, clock, t, j);
    } else {
      UnhandledIsQuiet(y, d, m, clock, t, j);
    }
  }

  /** An envelope that is not handled touches no table. */
  lemma {:induction false} UnhandledIsQuiet(y: Db, d: Device, m: Mail, clock: Clock, t: set<Letter>, j: nat)
    requires Partway(y, d.db, t) && j <= |ReadProgram(d, m, clock)| && (!Opens(d, m.blob) || !Good(m.blob))
    ensures Partway(y, Run(d, ReadProgram(d, m, clock)[..j]).db, t)
  {
    var p := ReadProgram(d, m, clock);
    assert p[..0] == [];
    if j == 1 {
      PrefixStep(d, p, 0);
    }
  }

  // ---- Crash, reopen, poll again ---------------------------------------------------------

  lemma {:induction false} PartwayRetained(y: Db, x: Db, t: set<Letter>, now: u64)
    requires Integrity(y) && Partway(y, x, t)
    ensures Partway(Purged(y, now), Purged(x, now), t)
  {
    PurgedIs(y, now);
    PurgedIs(x, now);
    PurgedKeeps(x, now);
    assert Policy(x) == Policy(y);
  }

  lemma {:induction false} PartwayConverges(y: Device, x: Device, t: set<Letter>)
    requires Sound(y) && Sound(x) && x.mls == y.mls && x.live.Keys == y.live.Keys && Partway(y.db, x.db, t)
    ensures DevicesConverge(y, x, t)
  {
  }

  lemma {:induction false} SameConverges(y: Device, x: Device, t: set<Letter>)
    requires Sound(y) && Same(x, y)
    ensures DevicesConverge(y, x, t)
  {
  }

  /** The tables of two devices agree, but for when received rows were stored and what key changes were noted. */
  ghost predicate SameTables(x: Device, y: Device) {
    && x.mls == y.mls && x.live.Keys == y.live.Keys
    && x.db.contacts == y.db.contacts && x.db.conversations == y.db.conversations
    && forall id :: SameRow(y.db.messages, x.db.messages, id)
  }

  lemma {:induction false} ConvergedIsSame(y: Device, x: Device)
    requires DevicesConverge(y, x, {})
    ensures SameTables(x, y)
  {
    forall id | id in y.db.contacts ensures x.db.contacts[id] == y.db.contacts[id] {
      assert Converges(y.db.contacts[id], x.db.contacts[id], About(y.db.conversations, {}, id));
      assert About(y.db.conversations, {}, id) == {};
    }
    forall id ensures SameRow(y.db.messages, x.db.messages, id) {
      assert !Writes({}, id);
    }
  }

  lemma {:induction false} JoinsKeepCurrent(d: Device, batch: seq<Mail>)
    requires Current(d)
    ensures Current(Polls.Joined(d, batch))
    decreases |batch|
  {
    if batch != [] {
      JoinKeepsCurrent(d, batch[0].blob);
      JoinsUnfold(d, batch);
      JoinsKeepCurrent(Run(d, JoinProgram(d.mls, batch[0].blob)), batch[1..]);
    }
  }

  /**
   Crash a poll after any effect of its two passes, reopen (which applies retention), and poll the same batch again:
   contacts, conversations, ratchets and message rows are those of one uninterrupted poll of the device
   with retention applied, but for the times at which rows were stored.
  */
  lemma {:induction false} CrashThenPollAgain(d: Device, batch: seq<Mail>, clock: Clock, again: Clock, k: nat, now: u64)
    requires Current(d) && k <= |TakeInProgram(d, batch, clock)|
    ensures var reopened := Reopen(Run(d, TakeInProgram(d, batch, clock)[..k]), now);
            SameTables(TakeIn(reopened, batch, again), TakeIn(Retained(d, now), batch, clock))
  {
    CrashRecovers(d, batch, clock, again, k, now, Run(d, TakeInProgram(d, batch, clock)[..k]));
  }

  lemma {:induction false} CrashRecovers(d: Device, batch: seq<Mail>, clock: Clock, again: Clock, k: nat, now: u64,
      crashed: Device)
    requires Current(d) && k <= |TakeInProgram(d, batch, clock)|
    requires crashed == Run(d, TakeInProgram(d, batch, clock)[..k])
    ensures Recovers(d, batch, clock, again, crashed, now) == true
  {
    var joins := |JoinAllProgram(d.mls, batch)|;
    CrashPoint(d, batch, clock, k);
    if k <= joins {
      CrashedInJoins(d, batch, clock, again, k, now, crashed);
    } else {
      CrashedInReads(d, batch, clock, again, k - joins, now, crashed);
    }
  }

  /**
   Reopened after such a crash and polled again, the device ends where the uninterrupted poll does. The lemmas
   below state it as an equation, which keeps the definition folded while they are proved.
  */
  ghost predicate Recovers(d: Device, batch: seq<Mail>, clock: Clock, again: Clock, crashed: Device, now: u64) {
    SameTables(TakeIn(Reopen(crashed, now), batch, again), TakeIn(Retained(d, now), batch, clock))
  }

  lemma {:induction false} CrashPoint(d: Device, batch: seq<Mail>, clock: Clock, k: nat)
    requires k <= |TakeInProgram(d, batch, clock)|
    ensures var joins := JoinAllProgram(d.mls, batch);
            var second := ReadAllProgram(Polls.Joined(d, batch), Unjoined(d.mls, batch), clock);
            Run(d, TakeInProgram(d, batch, clock)[..k])
            == if k <= |joins| then Run(d, joins[..k]) else Run(Polls.Joined(d, batch), second[..k - |joins|])
    ensures k > |JoinAllProgram(d.mls, batch)| ==>
              k - |JoinAllProgram(d.mls, batch)|
              <= |ReadAllProgram(Polls.Joined(d, batch), Unjoined(d.mls, batch), clock)|
  {
    var joins := JoinAllProgram(d.mls, batch);
    PrefixOfTwo(d, joins, ReadAllProgram(Polls.Joined(d, batch), Unjoined(d.mls, batch), clock), k);
    if k == |joins| {
      assert TakeInProgram(d, batch, clock)[..k] == joins[..k];
    }
  }

  lemma {:induction false} CrashedInJoins(d: Device, batch: seq<Mail>, clock: Clock, again: Clock, k: nat, now: u64,
      crashed: Device)
    requires Current(d) && k <= |JoinAllProgram(d.mls, batch)| && crashed == Run(d, JoinAllProgram(d.mls, batch)[..k])
    ensures Recovers(d, batch, clock, again, crashed, now) == true
  {
    var r := Reopen(crashed, now);
    var y := Polls.Joined(Retained(d, now), batch);
    var x := Polls.Joined(r, batch);
    CrashInJoins(d, batch, k, now, crashed);
    JoinsCommuteWithRetention(d, batch, now);
    RetainedSteady(d, now);
    JoinsSteady(Retained(d, now), batch);
    SameConverges(y, x, Handled(y.mls, y.live.Keys, batch));
    ReadsConverge(y, x, batch, clock, again);
    ConvergedIsSame(ReadAll(y, batch, clock), ReadAll(x, batch, again));
    Polls.TakeInIs(r, batch, again);
    Polls.TakeInIs(Retained(d, now), batch, clock);
  }

  lemma {:induction false} RetainedSteady(d: Device, now: u64)
    requires Steady(d)
    ensures Steady(Retained(d, now))
  {
    PurgedKeeps(d.db, now);
  }

  lemma {:induction false} CrashedInReads(d: Device, batch: seq<Mail>, clock: Clock, again: Clock, k: nat, now: u64,
      crashed: Device)
    requires Current(d) && k <= |ReadAllProgram(Polls.Joined(d, batch), Unjoined(d.mls, batch), clock)|
    requires crashed == Run(Polls.Joined(d, batch),
                            ReadAllProgram(Polls.Joined(d, batch), Unjoined(d.mls, batch), clock)[..k])
    ensures Recovers(d, batch, clock, again, crashed, now) == true
  {
    var mid := Polls.Joined(d, batch);
    var todo := Unjoined(d.mls, batch);
    var t := Handled(mid.mls, mid.live.Keys, todo);
    var p := ReadAllProgram(mid, todo, clock)[..k];
    var r := Reopen(crashed, now);
    JoinsKeepCurrent(d, batch);
    StartPartway(mid.db, t);
    CrashInReads(mid.db, mid, todo, clock, t, k);
    SameIdentity(mid, p);
    ReopenedMidway(mid, crashed, t, now);
    var y := Retained(mid, now);
    ReadsConverge(y, r, todo, clock, again);
    ConvergedIsSame(ReadAll(y, todo, clock), ReadAll(r, todo, again));
    JoinsCommuteWithRetention(d, batch, now);
    Polls.TakeInIs(Retained(d, now), batch, clock);
    Polls.TakeInIs(r, batch, again);
    Polls.WelcomesAreSkipped(y, d.mls, batch, clock);
    Polls.WelcomesAreSkipped(r, d.mls, batch, again);
    Polls.JoinsOpen(d, batch);
    SpendingAll(d.mls, batch);
    NothingLeftToJoin(r.mls, batch);
  }

  lemma {:induction false} StartPartway(db: Db, t: set<Letter>)
    requires Integrity(db)
    ensures Partway(db, db, t)
  {
  }

  /** Reopening after such a crash: the ratchets are those before the second pass, the tables converge. */
  lemma {:induction false} ReopenedMidway(mid: Device, crashed: Device, t: set<Letter>, now: u64)
    requires Current(mid) && Partway(mid.db, crashed.db, t) && crashed.identity == mid.identity
    ensures var r := Reopen(crashed, now); r.mls == mid.mls && DevicesConverge(Retained(mid, now), r, t)
  {
    PurgedKeeps(crashed.db, now);
    PurgedKeeps(mid.db, now);
    PartwayRetained(mid.db, crashed.db, t, now);
    ReloadedKeys(mid.db, mid.mls);
    ReloadedKeys(crashed.db, mid.mls);
    PartwayConverges(Retained(mid, now), Reopen(crashed, now), t);
  }
}
