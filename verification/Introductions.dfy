/** Two devices meet. */
module Introductions {
  // From an invite to a conversation in both directions: what each side files, where each side then posts, and
  // that what one side sends the other side opens. Stated over two devices and the envelopes between them.

  import opened Basics
  import opened Ratchet
  import opened Mls
  import opened Tables
  import opened RelayStore
  import opened Client
  import opened Calls
  import opened OutboxRules
  import opened Reading
  import opened Restarts
  import opened ProgramRuns
  import opened StoreRules
  import opened Outcomes
  import Repoll
  import Polls

  // ---- Joining ---------------------------------------------------------------------

  /** A Welcome's creator is who the conversation is filed with, under the key that made it and no other. */
  lemma {:induction false} JoinFilesTheCreator(d: Device, blob: Blob)
    requires CanJoin(d.mls, blob) && blob.creator != d.mls.me
    ensures var id := Hex(blob.creator);
            var after := Run(d, JoinProgram(d.mls, blob));
            && blob.group in after.db.conversations && after.db.conversations[blob.group].contact == id
            && id in after.db.contacts
            && (id !in d.db.contacts ==> after.db.contacts[id] == Contact("", [], blob.creator, false))
            && (id in d.db.contacts ==> after.db.contacts[id] == d.db.contacts[id].(displayName := "", inbox := []))
            && (forall other :: other != id ==> (other in after.db.contacts <==> other in d.db.contacts))
            && (forall other :: other in d.db.contacts && other != id ==>
                  after.db.contacts[other] == d.db.contacts[other])
            && after.db.changes == d.db.changes && after.db.messages == d.db.messages
            && after.live == d.live[blob.group := Peer([], blob.creator)]
            && after.mls.me == d.mls.me && blob.group in after.mls.groups
            && after.mls.groups[blob.group] == Group(blob.creator, 0, {})
            && after.mls.keyPackages == d.mls.keyPackages - {blob.keyPackage}
            && after.db.mls == Some(after.mls)
  {
    Repoll.JoinOutcome(d, blob);
  }

  /** A message of that creator, at a generation a new group accepts. */
  predicate FromTheCreator(blob: Blob, m: Mail) {
    && blob.Welcome? && m.blob.Application? && m.blob.group == blob.group && m.blob.sender == blob.creator
    && m.blob.generation <= 2000 && m.blob.plaintext.Readable?
  }

  /** The first message from someone new changes no key and raises no warning. */
  lemma {:induction false} FirstMessageRaisesNothing(d: Device, blob: Blob, m: Mail, clock: Clock)
    requires Steady(d) && CanJoin(d.mls, blob) && blob.creator != d.mls.me
    requires Hex(blob.creator) !in d.db.contacts && FromTheCreator(blob, m)
    ensures var id := Hex(blob.creator);
            var joined := Run(d, JoinProgram(d.mls, blob));
            var after := ReadOne(joined, m, clock).db;
            && Handles(joined, m.blob)
            && id in after.contacts && after.contacts[id].publicKey == blob.creator && !after.contacts[id].verified
            && after.changes == d.db.changes && IdentityStateOf(after, id) == Unverified
  {
    var joined := Run(d, JoinProgram(d.mls, blob));
    JoinFilesTheCreator(d, blob);
    JoinSteady(d, blob);
    ReadOneIs(joined, m, clock);
  }

  // ---- Introducing oneself -----------------------------------------------------------

  /** An introduction that is read says where to reply, at once and after a restart. */
  lemma {:induction false} IntroductionTellsWhereToReply(d: Device, m: Mail, clock: Clock, now: u64)
    requires Steady(d) && Handles(d, m.blob) && m.blob.plaintext.payload.Hello?
    ensures var g := m.blob.group;
            var hello := m.blob.plaintext.payload;
            var after := ReadOne(d, m, clock);
            && g in after.live && after.live[g] == Peer(hello.inbox, m.blob.sender)
            && g in Reopen(after, now).live && Reopen(after, now).live[g] == Peer(hello.inbox, m.blob.sender)
            && var id := d.db.conversations[g].contact;
               id in after.db.contacts && after.db.contacts[id].displayName == hello.displayName
  {
    var after := ReadOne(d, m, clock);
    ReadOneIs(d, m, clock);
    ReadsSteady(d, [m], clock);
    assert [m][1..] == [];
    assert ReadAll(after, [m][1..], clock) == after && ReadAll(d, [m], clock) == after;
    ReopenSteady(after, now);
    PurgedKeeps(after.db, now);
  }

  // ---- Talking ---------------------------------------------------------------------

  /** `b` has received, in this conversation, exactly what `a` has sent, and knows who it is from. */
  ghost predicate InSync(a: Device, b: Device, g: Ident) {
    && g in a.mls.groups && g in b.mls.groups && g in b.live
    && b.mls.groups[g].peer == a.mls.me && a.mls.me != b.mls.me
    && forall n: nat :: n in b.mls.groups[g].used <==> n < a.mls.groups[g].next
  }

  lemma {:induction false} NextIsAccepted(used: set<nat>, next: nat)
    requires forall n: nat :: n in used <==> n < next
    ensures Accepts(used, next)
  {
    if next > 0 {
      assert next - 1 in used;
    }
  }

  /** What is sent next arrives as it was said, and the two stay in step. */
  lemma {:induction false} NextMessageArrives(a: Device, b: Device, call: Call, id: Ident, clock: Clock)
    requires call.SendMessage? && InSync(a, b, call.c) && CanSend(a, call.c) && call.c in a.db.conversations && Sound(b)
    ensures var m := Envelope(id, OwnBlob(a, call));
            var b' := ReadOne(b, m, clock);
            && Post(a.live[call.c].inbox, m.blob, OwnReply(a, call)) in Program(a, call)
            && Handles(b, m.blob)
            && b'.db.messages == b.db.messages[id := Message(call.c, Received, call.body, AsI64(clock.stored(id)))]
            && InSync(Run(a, Program(a, call)), b', call.c)
  {
    SendOutcome(a, call);
    NextIsRead(a, b, call.c, Envelope(id, OwnBlob(a, call)), clock);
    StillInSync(a, b, Run(a, Program(a, call)), ReadOne(b, Envelope(id, OwnBlob(a, call)), clock), call.c);
  }

  lemma {:induction false} NextIsRead(a: Device, b: Device, g: Ident, m: Mail, clock: Clock)
    requires InSync(a, b, g) && Sound(b) && Polls.IsText(m.blob)
    requires m.blob.group == g && m.blob.sender == a.mls.me && m.blob.generation == a.mls.groups[g].next
    ensures var b' := ReadOne(b, m, clock);
            && Handles(b, m.blob) && b'.live.Keys == b.live.Keys
            && b'.db.messages
               == b.db.messages[m.id := Message(g, Received, m.blob.plaintext.payload.body, AsI64(clock.stored(m.id)))]
            && b'.mls == Decrypted(b.mls, g, m.blob.generation)
  {
    NextIsAccepted(b.mls.groups[g].used, a.mls.groups[g].next);
    ReadOneIs(b, m, clock);
  }

  lemma {:induction false} StillInSync(a: Device, b: Device, a': Device, b': Device, g: Ident)
    requires InSync(a, b, g) && a'.mls.me == a.mls.me && b'.live.Keys == b.live.Keys
    requires g in a'.mls.groups && a'.mls.groups[g].next == a.mls.groups[g].next + 1
    requires b'.mls == Decrypted(b.mls, g, a.mls.groups[g].next)
    ensures InSync(a', b', g)
  {
  }

  // ---- From an invite to a conversation -------------------------------------------------

  /** An invite code, as it is decoded: where its maker receives, its key, and a key package of its own. */
  function InviteOf(b: Device, keyPackage: nat): Invite {
    Invite(b.identity.inbox, b.mls.me, b.mls.me, keyPackage)
  }

  /** Its maker can join with that key package, after a restart too. */
  lemma {:induction false} InviteOutlivesARestart(b: Device, keyPackage: nat, now: u64)
    requires Steady(b)
    ensures var r := Reopen(Run(b, Program(b, InviteCode(keyPackage))), now);
            && Steady(r) && r.identity == b.identity && keyPackage in r.mls.keyPackages
            && r.mls == b.mls.(keyPackages := b.mls.keyPackages + {keyPackage})
            && r.db.contacts == b.db.contacts && r.db.changes == b.db.changes
  {
    var made := Run(b, Program(b, InviteCode(keyPackage)));
    TwoSteps(b, AddKeyPackage(keyPackage), Persist);
    CallSteady(b, InviteCode(keyPackage));
    ReopenSteady(made, now);
    PurgedIs(made.db, now);
  }

  function WelcomeOf(a: Device, invite: Invite, group: Ident): Blob {
    Welcome(group, a.mls.me, invite.keyPackage)
  }

  /** The first ciphertext of the new conversation says where its creator receives. */
  function IntroductionOf(a: Device, group: Ident): Blob {
    Application(group, a.mls.me, 0, Readable(Hello(a.identity.inbox, a.identity.displayName)))
  }

  /** Taking up an invite with both posts accepted: what is posted and where, and what is filed. */
  lemma {:induction false} TakingUpAnInvite(a: Device, name: string, invite: Invite, group: Ident, w: Ident, h: Ident)
    requires group !in a.mls.groups && group !in a.db.conversations
    ensures var p := Program(a, AddContact(name, invite, group, [Accepted(w), Accepted(h)]));
            var after := Run(a, p);
            var id := Hex(invite.publicKey);
            && Post(invite.inbox, WelcomeOf(a, invite, group), Accepted(w)) in p
            && Post(invite.inbox, IntroductionOf(a, group), Accepted(h)) in p
            && after.identity == a.identity
            && after.live == a.live[group := Peer(invite.inbox, invite.publicKey)]
            && after.mls == a.mls.(groups := a.mls.groups[group := Group(invite.credential, 1, {})])
            && after.db.mls == Some(after.mls)
            && after.db.conversations == a.db.conversations[group := Conversation(id, None)]
            && id in after.db.contacts
            && after.db.contacts[id] == (if id in a.db.contacts
                                         then a.db.contacts[id].(displayName := name, inbox := invite.inbox)
                                         else Contact(name, invite.inbox, invite.publicKey, false))
  {
    var posts := [Accepted(w), Accepted(h)];
    var mid := OpenedContact(a, name, invite, group, true);
    var hello := Hello(a.identity.inbox, a.identity.displayName);
    assert RestReplies(posts) == [Accepted(h)];
    AddContactRuns(a, name, invite, group, posts);
    PayloadRuns(mid, group, hello, Accepted(h));
    BothPosts(a, mid, name, invite, group, w, h);
  }

  lemma {:induction false} BothPosts(a: Device, mid: Device, name: string, invite: Invite, group: Ident, w: Ident,
      h: Ident)
    requires group !in a.mls.groups && mid == OpenedContact(a, name, invite, group, true)
    ensures var p := OpenProgram(a.mls.me, name, invite, group, Accepted(w))
                     + PayloadProgram(mid, group, Hello(a.identity.inbox, a.identity.displayName), Accepted(h));
            && Post(invite.inbox, WelcomeOf(a, invite, group), Accepted(w)) in p
            && Post(invite.inbox, IntroductionOf(a, group), Accepted(h)) in p
  {
    var first := OpenProgram(a.mls.me, name, invite, group, Accepted(w));
    var second := PayloadProgram(mid, group, Hello(a.identity.inbox, a.identity.displayName), Accepted(h));
    assert first[3] in first + second && second[1] in first + second;
  }

  /** The two blobs, in whatever order the relay's identifiers put them. */
  predicate BothOf(batch: seq<Mail>, x: Mail, y: Mail) {
    batch == [x, y] || batch == [y, x]
  }

  /** Taking in a Welcome and the first ciphertext of its conversation comes to joining and then reading. */
  lemma {:induction false} JoinedThenRead(b: Device, batch: seq<Mail>, x: Mail, y: Mail, clock: Clock)
    requires BothOf(batch, x, y) && CanJoin(b.mls, x.blob) && y.blob.Application?
    requires Handles(Run(b, JoinProgram(b.mls, x.blob)), y.blob)
    ensures TakeIn(b, batch, clock) == ReadOne(Run(b, JoinProgram(b.mls, x.blob)), y, clock)
    ensures x.id in HandledIds(b, batch, clock) && y.id in HandledIds(b, batch, clock)
  {
    var joined := Run(b, JoinProgram(b.mls, x.blob));
    OnlyTheWelcomeJoins(b.mls, batch, x, y);
    Polls.TakeInIs(b, batch, clock);
    assert batch[1..] == [batch[1]] && batch[1..][1..] == [];
    assert ReadOne(joined, x, clock) == joined;
    var read := ReadOne(joined, y, clock);
    assert ReadOne(read, x, clock) == read;
    if batch == [x, y] {
      assert ReadAll(joined, batch, clock) == ReadAll(joined, [y], clock);
      assert ReadAll(joined, [y], clock) == read && ReadIds(joined, [y], clock) == [y.id];
    } else {
      assert ReadAll(joined, batch, clock) == ReadAll(read, [x], clock) == read;
    }
  }

  lemma {:induction false} OnlyTheWelcomeJoins(mls: State, batch: seq<Mail>, x: Mail, y: Mail)
    requires BothOf(batch, x, y) && CanJoin(mls, x.blob) && y.blob.Application?
    ensures JoinAllProgram(mls, batch) == JoinProgram(mls, x.blob) && x.id in JoinedIds(mls, batch)
  {
    assert batch[1..] == [batch[1]] && batch[1..][1..] == [];
    if batch == [x, y] {
      assert JoinAllProgram(MlsAfter(mls, x.blob), [y]) == [];
      assert JoinProgram(mls, x.blob) + [] == JoinProgram(mls, x.blob);
    } else {
      assert JoinAllProgram(mls, [x]) == JoinProgram(mls, x.blob) + [];
      assert JoinProgram(mls, x.blob) + [] == JoinProgram(mls, x.blob);
      assert [] + JoinAllProgram(mls, [x]) == JoinAllProgram(mls, [x]);
    }
  }

  /** What `d` makes of someone new: under the name and address they gave and the key they sign with, unverified. */
  ghost predicate Meets(d: Device, other: Device, group: Ident) {
    var id := Hex(other.mls.me);
    && group in d.db.conversations && d.db.conversations[group].contact == id && id in d.db.contacts
    && d.db.contacts[id] == Contact(other.identity.displayName, other.identity.inbox, other.mls.me, false)
    && IdentityStateOf(d.db, id) == Unverified
  }

  /** Each can send to the other, at the other's address, and what either sends next the other opens. */
  ghost predicate Connected(a: Device, b: Device, group: Ident) {
    && CanSend(a, group) && a.live[group] == Peer(b.identity.inbox, b.mls.me)
    && CanSend(b, group) && b.live[group] == Peer(a.identity.inbox, a.mls.me)
    && InSync(a, b, group) && InSync(b, a, group)
  }

  /** The side of the one who made the invite. */
  lemma {:induction false} TheInviterMeets(b: Device, a: Device, invite: Invite, group: Ident, x: Mail, y: Mail,
      batch: seq<Mail>, clock: Clock)
    requires Steady(b) && a.mls.me != b.mls.me && invite.keyPackage in b.mls.keyPackages && group !in b.mls.groups
    requires x.blob == WelcomeOf(a, invite, group) && y.blob == IntroductionOf(a, group) && BothOf(batch, x, y)
    requires Hex(a.mls.me) !in b.db.contacts
    ensures var b' := TakeIn(b, batch, clock);
            && x.id in HandledIds(b, batch, clock) && y.id in HandledIds(b, batch, clock)
            && Meets(b', a, group) && b'.mls.me == b.mls.me && b'.identity == b.identity
            && group in b'.live && b'.live[group] == Peer(a.identity.inbox, a.mls.me)
            && group in b'.mls.groups && b'.mls.groups[group] == Group(a.mls.me, 0, {0})
  {
    var joined := Run(b, JoinProgram(b.mls, x.blob));
    JoinFilesTheCreator(b, x.blob);
    JoinSteady(b, x.blob);
    FirstMessageRaisesNothing(b, x.blob, y, clock);
    JoinedThenRead(b, batch, x, y, clock);
    ReadOneIs(joined, y, clock);
    Repoll.SameIdentity(b, JoinProgram(b.mls, x.blob));
  }

  lemma {:induction false} BothSides(a: Device, b: Device, group: Ident)
    requires a.mls.me != b.mls.me
    requires group in a.live && a.live[group] == Peer(b.identity.inbox, b.mls.me)
    requires group in b.live && b.live[group] == Peer(a.identity.inbox, a.mls.me)
    requires group in a.mls.groups && a.mls.groups[group] == Group(b.mls.me, 1, {})
    requires group in b.mls.groups && b.mls.groups[group] == Group(a.mls.me, 0, {0})
    ensures Connected(a, b, group)
  {
  }

  /**
   From an invite to a conversation. `b` makes an invite and may be restarted; `a` takes it up and both its posts are
   accepted; `b` polls the two blobs in whatever order. Both are then acknowledged, `b` knows `a` by the name `a`
   gave, under the key that `a` signs with and no other, unverified and without a warning; each posts to where the
   other receives; and what either sends next, the other opens.
  */
  lemma {:induction false} AnInviteConnects(a: Device, b: Device, name: string, keyPackage: nat, group: Ident, w: Ident,
      h: Ident, now: u64, batch: seq<Mail>, clock: Clock)
    requires Steady(a) && Steady(b) && a.mls.me != b.mls.me
    requires group !in a.mls.groups && group !in a.db.conversations && group !in b.mls.groups
    requires Hex(a.mls.me) !in b.db.contacts
    requires var invite := InviteOf(b, keyPackage);
             BothOf(batch, Envelope(w, WelcomeOf(a, invite, group)), Envelope(h, IntroductionOf(a, group)))
    ensures var waiting := Reopen(Run(b, Program(b, InviteCode(keyPackage))), now);
            var a' := Run(a, Program(a, AddContact(name, InviteOf(b, keyPackage), group, [Accepted(w), Accepted(h)])));
            var b' := TakeIn(waiting, batch, clock);
            && w in HandledIds(waiting, batch, clock) && h in HandledIds(waiting, batch, clock)
            && Meets(b', a, group) && Connected(a', b', group)
  {
    var waiting := Reopen(Run(b, Program(b, InviteCode(keyPackage))), now);
    InviteOutlivesARestart(b, keyPackage, now);
    Connects(a, b, waiting, name, keyPackage, group, w, h, batch, clock);
  }

  lemma {:induction false} Connects(a: Device, b: Device, waiting: Device, name: string, keyPackage: nat, group: Ident,
      w: Ident, h: Ident, batch: seq<Mail>, clock: Clock)
    requires Steady(waiting) && a.mls.me != b.mls.me && group !in a.mls.groups && group !in a.db.conversations
    requires waiting.identity == b.identity && waiting.mls == b.mls.(keyPackages := waiting.mls.keyPackages)
    requires keyPackage in waiting.mls.keyPackages && group !in b.mls.groups && Hex(a.mls.me) !in waiting.db.contacts
    requires var invite := InviteOf(b, keyPackage);
             BothOf(batch, Envelope(w, WelcomeOf(a, invite, group)), Envelope(h, IntroductionOf(a, group)))
    ensures w in HandledIds(waiting, batch, clock) && h in HandledIds(waiting, batch, clock)
    ensures Meets(TakeIn(waiting, batch, clock), a, group) == true
    ensures Connected(Run(a, Program(a, AddContact(name, InviteOf(b, keyPackage), group, [Accepted(w), Accepted(h)]))),
                      TakeIn(waiting, batch, clock), group) == true
  {
    var invite := InviteOf(b, keyPackage);
    TakingUpAnInvite(a, name, invite, group, w, h);
    TheInviterMeets(waiting, a, invite, group, Envelope(w, WelcomeOf(a, invite, group)),
                    Envelope(h, IntroductionOf(a, group)), batch, clock);
    BothSides(Run(a, Program(a, AddContact(name, invite, group, [Accepted(w), Accepted(h)]))),
              TakeIn(waiting, batch, clock), group);
  }
}
