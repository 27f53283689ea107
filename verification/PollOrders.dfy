/** When order matters to a poll. */
module PollOrders {
  // `Polls` shows what no order changes for a batch in the window. Here are the converses: outside the window
  // some order loses a message, and some order changes a contact's row exactly when its messages disagree.

  import opened Basics
  import opened Ratchet
  import opened Mls
  import opened Tables
  import opened RelayStore
  import opened Client
  import opened Calls
  import opened OutboxRules
  import opened Reading
  import opened Polls
  import Acknowledging
  import ProgramRuns
  import Repoll
  import Restarts

  // ---- Moving one envelope ---------------------------------------------------------

  function Without(batch: seq<Mail>, m: Mail): seq<Mail>
    decreases |batch|
  {
    if batch == [] then [] else (if batch[0] == m then [] else [batch[0]]) + Without(batch[1..], m)
  }

  lemma {:induction false} WithoutIs(batch: seq<Mail>, m: Mail)
    requires DistinctIds(batch)
    ensures DistinctIds(Without(batch, m))
    ensures forall n :: n in Without(batch, m) <==> n in batch && n != m
    decreases |batch|
  {
    if batch != [] {
      WithoutIs(batch[1..], m);
      assert batch == [batch[0]] + batch[1..];
      assert forall n :: n in batch[1..] ==> n.id != batch[0].id;
    }
  }

  lemma {:induction false} WithoutJoins(mls: State, batch: seq<Mail>, m: Mail)
    requires !m.blob.Welcome?
    ensures JoinAllProgram(mls, Without(batch, m)) == JoinAllProgram(mls, batch)
    decreases |batch|
  {
    if batch != [] {
      var next := MlsAfter(mls, batch[0].blob);
      WithoutJoins(next, batch[1..], m);
      if batch[0] == m {
        assert Without(batch, m) == Without(batch[1..], m);
      } else {
        assert Without(batch, m)[0] == batch[0] && Without(batch, m)[1..] == Without(batch[1..], m);
      }
    }
  }

  /** The same envelopes, this one read first. */
  function First(batch: seq<Mail>, m: Mail): seq<Mail> {
    [m] + Without(batch, m)
  }

  /** The same envelopes, this one read last. */
  function Last(batch: seq<Mail>, m: Mail): seq<Mail> {
    Without(batch, m) + [m]
  }

  lemma {:induction false} FirstIs(d: Device, batch: seq<Mail>, m: Mail)
    requires DistinctIds(batch) && m in batch && !m.blob.Welcome?
    ensures Reordered(batch, First(batch, m)) && Polls.Joined(d, First(batch, m)) == Polls.Joined(d, batch)
  {
    WithoutIs(batch, m);
    WithoutJoins(d.mls, batch, m);
    OthersDiffer(batch, m);
    assert First(batch, m)[1..] == Without(batch, m);
    assert JoinAllProgram(d.mls, First(batch, m)) == JoinAllProgram(d.mls, Without(batch, m));
  }

  lemma {:induction false} LastIs(d: Device, batch: seq<Mail>, m: Mail)
    requires DistinctIds(batch) && m in batch && !m.blob.Welcome?
    ensures Reordered(batch, Last(batch, m)) && Polls.Joined(d, Last(batch, m)) == Polls.Joined(d, batch)
  {
    WithoutIs(batch, m);
    WithoutJoins(d.mls, batch, m);
    OthersDiffer(batch, m);
    ProgramRuns.FirstPassConcat(d.mls, Without(batch, m), m);
    assert JoinAllProgram(d.mls, Last(batch, m)) == JoinAllProgram(d.mls, Without(batch, m));
  }

  lemma {:induction false} OthersDiffer(batch: seq<Mail>, m: Mail)
    requires DistinctIds(batch) && m in batch
    ensures forall n :: n in Without(batch, m) ==> n.id != m.id
  {
    WithoutIs(batch, m);
    forall n | n in Without(batch, m) ensures n.id != m.id {
      var i :| 0 <= i < |batch| && batch[i] == m;
      var j :| 0 <= j < |batch| && batch[j] == n;
      assert i < j || j < i;
    }
  }

  // ---- Every order handles everything: the window -----------------------------------

  /** Every envelope addressed to a conversation is handled, and so acknowledged, when read in this order. */
  ghost predicate HandlesAll(d: Device, batch: seq<Mail>, order: seq<Mail>, clock: Clock) {
    forall m :: m in batch && Addressed(Polls.Joined(d, batch), m.blob) ==> m.id in HandledIds(d, order, clock)
  }

  /** Told apart by identifier, Welcome and generation, and nothing addressed in it is unreadable. */
  ghost predicate Legible(d: Device, batch: seq<Mail>) {
    && DistinctIds(batch) && DistinctWelcomes(d.mls, batch) && Distinct(Polls.Joined(d, batch), batch)
    && forall m :: m in batch && Addressed(Polls.Joined(d, batch), m.blob) ==> m.blob.plaintext.Readable?
  }

  lemma {:induction false} UnopenedIsNotRead(x: Device, todo: seq<Mail>, clock: Clock)
    requires todo != [] && DistinctIds(todo) && !Opens(x, todo[0].blob)
    ensures todo[0].id !in ReadIds(x, todo, clock)
  {
    Acknowledging.IdsComeFromMail(ReadOne(x, todo[0], clock), todo[1..], clock);
    assert forall n :: n in todo[1..] ==> n.id != todo[0].id;
  }

  lemma {:induction false} NotReadFirst(d: Device, order: seq<Mail>, clock: Clock)
    requires order != [] && DistinctIds(order) && !order[0].blob.Welcome?
    requires !Opens(Polls.Joined(d, order), order[0].blob)
    ensures order[0].id !in HandledIds(d, order, clock)
  {
    var mid := Polls.Joined(d, order);
    TakeInIs(d, order, clock);
    UnopenedIsNotRead(mid, order, clock);
    Acknowledging.NeverJoined(d.mls, order, order[0]);
  }

  /** Read second, an envelope 64 or more generations behind the first one is lost, if the first one was not. */
  lemma {:induction false} NotReadSecond(d: Device, order: seq<Mail>, clock: Clock)
    requires Sound(Polls.Joined(d, order)) && |order| >= 2 && DistinctIds(order)
    requires var x, h, g := Polls.Joined(d, order), order[0].blob, order[1].blob;
             Addressed(x, h) && Addressed(x, g) && h.group == g.group
             && h.generation >= g.generation + OUT_OF_ORDER_TOLERANCE
    ensures order[0].id !in HandledIds(d, order, clock) || order[1].id !in HandledIds(d, order, clock)
  {
    var mid := Polls.Joined(d, order);
    if !Opens(mid, order[0].blob) {
      NotReadFirst(d, order, clock);
    } else {
      var next := ReadOne(mid, order[0], clock);
      Acknowledging.ReadUsesUp(mid, order[0], clock);
      ReadOneSound(mid, order[0], clock);
      assert !Opens(next, order[1].blob);
      TakeInIs(d, order, clock);
      Acknowledging.NeverJoined(d.mls, order, order[1]);
      UnopenedIsNotRead(next, order[1..], clock);
      assert order[0].id != order[1].id;
    }
  }

  /** Outside the window some order of the batch leaves an addressed envelope unhandled. */
  lemma {:induction false} SomeOrderLoses(d: Device, batch: seq<Mail>, clock: Clock) returns (order: seq<Mail>)
    requires Restarts.Steady(d) && Legible(d, batch) && !Window(Polls.Joined(d, batch), batch)
    ensures Reordered(batch, order) && !HandlesAll(d, batch, order, clock)
  {
    var x := Polls.Joined(d, batch);
    var c :| c in x.mls.groups && !InWindow(x.mls.groups[c].used, Waiting(x, batch, c));
    var mg, mh := OutOfWindow(x, batch, c);
    if Accepts(x.mls.groups[c].used, mg.blob.generation) {
      order := LosingOrder(d, batch, mg, mh, clock);
    } else {
      order := First(batch, mg);
      FirstIs(d, batch, mg);
      NotReadFirst(d, order, clock);
    }
  }

  /** A waiting envelope that cannot be read now, or another one 64 or more generations ahead of it. */
  lemma {:induction false} OutOfWindow(x: Device, batch: seq<Mail>, c: Ident) returns (mg: Mail, mh: Mail)
    requires c in x.mls.groups && !InWindow(x.mls.groups[c].used, Waiting(x, batch, c))
    ensures mg in batch && mh in batch && Addressed(x, mg.blob) && Addressed(x, mh.blob)
    ensures mg.blob.group == c && mh.blob.group == c
    ensures Accepts(x.mls.groups[c].used, mg.blob.generation) ==>
              mh.blob.generation >= mg.blob.generation + OUT_OF_ORDER_TOLERANCE
  {
    var used, waiting := x.mls.groups[c].used, Waiting(x, batch, c);
    var g :| g in waiting && !(Accepts(used, g) && InReach(waiting, g));
    mg :| mg in batch && Addressed(x, mg.blob) && mg.blob.group == c && mg.blob.generation == g;
    mh := mg;
    if Accepts(used, g) {
      var h :| h in waiting && !(h < g + OUT_OF_ORDER_TOLERANCE);
      mh :| mh in batch && Addressed(x, mh.blob) && mh.blob.group == c && mh.blob.generation == h;
    }
  }

  lemma {:induction false} LosingOrder(d: Device, batch: seq<Mail>, mg: Mail, mh: Mail,
      clock: Clock) returns (order: seq<Mail>)
    requires Restarts.Steady(d) && DistinctIds(batch) && mg in batch && mh in batch
    requires var x := Polls.Joined(d, batch);
             Addressed(x, mg.blob) && Addressed(x, mh.blob) && mh.blob.group == mg.blob.group
             && mh.blob.generation >= mg.blob.generation + OUT_OF_ORDER_TOLERANCE
    ensures Reordered(batch, order) && !HandlesAll(d, batch, order, clock)
  {
    var once := First(batch, mg);
    order := First(once, mh);
    FirstIs(d, batch, mg);
    FirstIs(d, once, mh);
    assert mg != mh && order[0] == mh && order[1] == mg;
    Restarts.JoinsSteady(d, batch);
    NotReadSecond(d, order, clock);
  }

  /**
   Every order of a batch handles, and so stores and acknowledges, every envelope addressed to a conversation of
   the device or to one a Welcome of the batch opens, if and only if the batch is in the reorder window.
  */
  lemma {:induction false} EveryOrderHandlesAllExactlyInTheWindow(d: Device, batch: seq<Mail>, clock: Clock)
    requires Restarts.Steady(d) && Legible(d, batch)
    ensures (forall order :: Reordered(batch, order) ==> HandlesAll(d, batch, order, clock))
            <==> Window(Polls.Joined(d, batch), batch)
  {
    if Window(Polls.Joined(d, batch), batch) {
      forall order | Reordered(batch, order) ensures HandlesAll(d, batch, order, clock) {
        HandledInOrder(d, batch, order, clock);
      }
    } else {
      var order := SomeOrderLoses(d, batch, clock);
      assert Reordered(batch, order) && !HandlesAll(d, batch, order, clock);
    }
  }

  lemma {:induction false} HandledInOrder(d: Device, batch: seq<Mail>, order: seq<Mail>, clock: Clock)
    requires Restarts.Steady(d) && Legible(d, batch) && Window(Polls.Joined(d, batch), batch) && Reordered(batch, order)
    ensures HandlesAll(d, batch, order, clock)
  {
    var x := Polls.Joined(d, batch);
    Restarts.JoinsSteady(d, batch);
    TakeInIs(d, batch, clock);
    ReadIdsAre(x, batch, clock);
    SameHandled(d, batch, order, clock);
    forall m | m in batch && Addressed(x, m.blob) ensures m.id in HandledIds(d, order, clock) {
      assert Polls.Readable(x, m);
      assert Reads(x, batch, m.id);
    }
  }

  // ---- Contact rows: the messages of each contact agree --------------------------------

  /** A handled message of this contact. */
  predicate Speaks(x: Device, batch: seq<Mail>, id: Ident, m: Mail) {
    m in batch && Polls.Readable(x, m) && m.blob.group in x.db.conversations && ContactOf(x.db, m.blob.group) == id
  }

  predicate Introduction(m: Mail) {
    Repoll.Good(m.blob) && m.blob.plaintext.payload.Hello?
  }

  /** The messages of each contact come under one key, and its introductions, if several, say the same. */
  ghost predicate OneVoice(x: Device, batch: seq<Mail>) {
    forall id, m, n :: Speaks(x, batch, id, m) && Speaks(x, batch, id, n) ==> Agrees(m, n)
  }

  predicate Agrees(m: Mail, n: Mail) {
    && m.blob.Application? && n.blob.Application? && m.blob.sender == n.blob.sender
    && (Introduction(m) && Introduction(n) ==> m.blob.plaintext == n.blob.plaintext)
  }

  /** What a contact's row becomes once all its messages are read, whatever their order. */
  ghost predicate Heard(x: Device, batch: seq<Mail>, id: Ident, row: Contact, after: Contact) {
    && ((forall m :: !Speaks(x, batch, id, m)) ==> after == row)
    && (forall m :: Speaks(x, batch, id, m) ==> after.publicKey == m.blob.sender)
    && (after.verified <==> row.verified && forall m :: Speaks(x, batch, id, m) ==> m.blob.sender == row.publicKey)
    && (forall m :: Speaks(x, batch, id, m) && Introduction(m) ==>
          after.displayName == m.blob.plaintext.payload.displayName && after.inbox == m.blob.plaintext.payload.inbox)
    && ((forall m :: Speaks(x, batch, id, m) ==> !Introduction(m)) ==>
         after.displayName == row.displayName && after.inbox == row.inbox)
  }

  /** No two rows fit. */
  lemma {:induction false} HeardOnce(x: Device, y: Device, a: seq<Mail>, b: seq<Mail>, id: Ident, row: Contact,
      after: Contact, other: Contact)
    requires Heard(x, a, id, row, after) && Heard(y, b, id, row, other)
    requires forall m :: Speaks(x, a, id, m) <==> Speaks(y, b, id, m)
    ensures after == other
  {
    if m :| Speaks(x, a, id, m) {
      assert Speaks(y, b, id, m);
    }
    if m :| Speaks(x, a, id, m) && Introduction(m) {
      assert Speaks(y, b, id, m);
    }
  }

  lemma {:induction false} ReadContact(x: Device, m: Mail, clock: Clock, id: Ident)
    requires Sound(x) && id in x.db.contacts && (Opens(x, m.blob) <==> Addressed(x, m.blob))
    ensures var y := ReadOne(x, m, clock);
            && y.db.conversations == x.db.conversations && id in y.db.contacts
            && y.db.contacts[id] == if Speaks(x, [m], id, m)
                                    then Touched(x.db.contacts[id], m.blob.sender, m.blob.plaintext.payload)
                                         else x.db.contacts[id]
  {
    ReadOneIs(x, m, clock);
  }

  lemma {:induction false} SpeaksFirstOrRest(x: Device, y: Device, batch: seq<Mail>, id: Ident)
    requires SameAddresses(x, y) && y.db.conversations == x.db.conversations && batch != []
    ensures forall m ::
              Speaks(x, batch, id, m) <==> (m == batch[0] && Speaks(x, [m], id, m)) || Speaks(y, batch[1..], id, m)
  {
    assert batch == [batch[0]] + batch[1..];
    assert forall m :: Polls.Readable(x, m) <==> Polls.Readable(y, m);
  }

  lemma {:induction false} HeardFirst(x: Device, y: Device, batch: seq<Mail>, id: Ident, row: Contact, after: Contact)
    requires batch != [] && OneVoice(x, batch)
    requires forall m ::
               Speaks(x, batch, id, m) <==> (m == batch[0] && Speaks(x, [m], id, m)) || Speaks(y, batch[1..], id, m)
    requires Speaks(x, [batch[0]], id, batch[0])
    requires Heard(y, batch[1..], id, Touched(row, batch[0].blob.sender, batch[0].blob.plaintext.payload), after)
    ensures Heard(x, batch, id, row, after)
  {
    var m := batch[0];
    assert Speaks(x, batch, id, m);
    forall n | Speaks(x, batch, id, n) ensures Agrees(m, n) {
    }
    if n :| Speaks(y, batch[1..], id, n) {
      assert Speaks(x, batch, id, n);
    }
  }

  lemma {:induction false} HeardRest(x: Device, y: Device, batch: seq<Mail>, id: Ident, row: Contact, after: Contact)
    requires batch != []
    requires forall m ::
               Speaks(x, batch, id, m) <==> (m == batch[0] && Speaks(x, [m], id, m)) || Speaks(y, batch[1..], id, m)
    requires !Speaks(x, [batch[0]], id, batch[0]) && Heard(y, batch[1..], id, row, after)
    ensures Heard(x, batch, id, row, after)
  {
    assert forall m :: Speaks(x, batch, id, m) <==> Speaks(y, batch[1..], id, m);
  }

  lemma {:induction false} ContactsHeard(x: Device, batch: seq<Mail>, clock: Clock, id: Ident)
    requires Sound(x) && Window(x, batch) && Distinct(x, batch) && OneVoice(x, batch) && id in x.db.contacts
    ensures var after := ReadAll(x, batch, clock).db.contacts;
            id in after && Heard(x, batch, id, x.db.contacts[id], after[id])
    decreases |batch|
  {
    if batch != [] {
      var y := ReadOne(x, batch[0], clock);
      FirstIsRead(x, batch, clock);
      WindowMoves(x, batch, clock);
      AddressedInWindowOpens(x, batch);
      ReadContact(x, batch[0], clock, id);
      OneVoiceMoves(x, y, batch);
      SpeaksFirstOrRest(x, y, batch, id);
      ContactsHeard(y, batch[1..], clock, id);
      var after := ReadAll(x, batch, clock).db.contacts[id];
      if Speaks(x, [batch[0]], id, batch[0]) {
        HeardFirst(x, y, batch, id, x.db.contacts[id], after);
      } else {
        HeardRest(x, y, batch, id, x.db.contacts[id], after);
      }
    }
  }

  lemma {:induction false} OneVoiceMoves(x: Device, y: Device, batch: seq<Mail>)
    requires SameAddresses(x, y) && y.db.conversations == x.db.conversations && batch != [] && OneVoice(x, batch)
    ensures OneVoice(y, batch[1..])
  {
    forall id, m, n | Speaks(y, batch[1..], id, m) && Speaks(y, batch[1..], id, n) ensures Agrees(m, n) {
      SpeaksFirstOrRest(x, y, batch, id);
    }
  }

  // ---- What the first pass files, whatever its order -----------------------------------

  /** The same entry in both tables, or in neither. */
  predicate SameAt<V(==)>(before: map<Ident, V>, after: map<Ident, V>, id: Ident) {
    (id in before <==> id in after) && (id in before ==> before[id] == after[id])
  }

  /** A Welcome of the batch registers this contact. */
  ghost predicate Registers(mls: State, batch: seq<Mail>, id: Ident) {
    exists m :: m in batch && CanJoin(mls, m.blob) && Hex(PeerCredential(mls, m.blob)) == id
  }

  ghost predicate Begins(mls: State, batch: seq<Mail>, g: Ident) {
    exists m :: m in batch && CanJoin(mls, m.blob) && m.blob.group == g
  }

  /** A row that is new, or was there and has lost its name and address. */
  predicate RegisteredRow(before: map<Ident, Contact>, after: map<Ident, Contact>, id: Ident) {
    && id in after
    && if id in before then after[id] == before[id].(displayName := "", inbox := [])
       else after[id] == Contact("", [], after[id].publicKey, false) && Hex(after[id].publicKey) == id
  }

  ghost predicate ContactsFiled(mls: State, batch: seq<Mail>, before: map<Ident, Contact>, after: map<Ident, Contact>) {
    forall id: Ident :: if Registers(mls, batch, id) then RegisteredRow(before, after, id)
    else SameAt(before, after, id)
  }

  function IntervalAt(table: map<Ident, Conversation>, g: Ident): Option<int> {
    if g in table then table[g].disappearAfter else None
  }

  ghost predicate ConversationsFiled(mls: State, batch: seq<Mail>, before: map<Ident, Conversation>,
      after: map<Ident, Conversation>)
  {
    && (forall m :: m in batch && CanJoin(mls, m.blob) ==>
          && m.blob.group in after
          && after[m.blob.group] == Conversation(Hex(PeerCredential(mls, m.blob)), IntervalAt(before, m.blob.group)))
    && (forall g: Ident :: !Begins(mls, batch, g) ==> SameAt(before, after, g))
  }

  lemma {:induction false} FilingFirstOrRest(mls: State, batch: seq<Mail>)
    requires DistinctWelcomes(mls, batch) && DistinctIds(batch) && batch != []
    ensures var next := MlsAfter(mls, batch[0].blob);
            && (forall m :: m in batch[1..] ==> (CanJoin(next, m.blob) <==> CanJoin(mls, m.blob)))
            && (forall id :: Registers(mls, batch, id)
                  <==> (CanJoin(mls, batch[0].blob) && Hex(PeerCredential(mls, batch[0].blob)) == id)
                       || Registers(next, batch[1..], id))
            && (forall g :: Begins(mls, batch, g)
                  <==> (CanJoin(mls, batch[0].blob) && batch[0].blob.group == g) || Begins(next, batch[1..], g))
  {
    forall m | m in batch[1..] ensures CanJoin(MlsAfter(mls, batch[0].blob), m.blob) <==> CanJoin(mls, m.blob) {
      SameJoins(mls, batch, m);
    }
    assert batch == [batch[0]] + batch[1..];
    assert batch[0] in batch;
  }

  lemma {:induction false} FirstFiled(d: Device, blob: Blob)
    ensures var after := Run(d, JoinProgram(d.mls, blob)).db;
            if CanJoin(d.mls, blob) then
              after.contacts == Repoll.Registered(d.db, blob.group, PeerCredential(d.mls, blob)).contacts
              && after.conversations == Repoll.Registered(d.db, blob.group, PeerCredential(d.mls, blob)).conversations
            else after == d.db
  {
    if CanJoin(d.mls, blob) {
      Repoll.JoinOutcome(d, blob);
    }
  }

  lemma {:induction false} JoinsFile(d: Device, batch: seq<Mail>)
    requires DistinctWelcomes(d.mls, batch) && DistinctIds(batch)
    ensures ContactsFiled(d.mls, batch, d.db.contacts, Polls.Joined(d, batch).db.contacts)
    ensures ConversationsFiled(d.mls, batch, d.db.conversations, Polls.Joined(d, batch).db.conversations)
    decreases |batch|
  {
    if batch != [] {
      var next := Run(d, JoinProgram(d.mls, batch[0].blob));
      Repoll.JoinsUnfold(d, batch);
      JoinsFirstOrRest(d.mls, batch);
      JoinsFile(next, batch[1..]);
      FirstFiled(d, batch[0].blob);
      FilingFirstOrRest(d.mls, batch);
      ContactsFiledOn(d, next, batch, Polls.Joined(d, batch).db.contacts);
      ConversationsFiledOn(d, next, batch, Polls.Joined(d, batch).db.conversations);
    }
  }

  /** The first Welcome is joined, or the first envelope passed over. */
  ghost predicate JoinedFirst(d: Device, next: Device, batch: seq<Mail>) {
    && batch != [] && next.mls == MlsAfter(d.mls, batch[0].blob)
    && (forall m :: m in batch[1..] ==> (CanJoin(next.mls, m.blob) <==> CanJoin(d.mls, m.blob)))
    && if CanJoin(d.mls, batch[0].blob) then
         var filed := Repoll.Registered(d.db, batch[0].blob.group, PeerCredential(d.mls, batch[0].blob));
         next.db.contacts == filed.contacts && next.db.conversations == filed.conversations
       else next.db == d.db
  }

  lemma {:induction false} ContactsFiledOn(d: Device, next: Device, batch: seq<Mail>, after: map<Ident, Contact>)
    requires JoinedFirst(d, next, batch) && ContactsFiled(next.mls, batch[1..], next.db.contacts, after)
    requires forall id :: Registers(d.mls, batch, id)
               <==> (CanJoin(d.mls, batch[0].blob) && Hex(PeerCredential(d.mls, batch[0].blob)) == id)
                    || Registers(next.mls, batch[1..], id)
    ensures ContactsFiled(d.mls, batch, d.db.contacts, after)
  {
    forall id: Ident
      ensures if Registers(d.mls, batch, id) then RegisteredRow(d.db.contacts, after, id)
              else SameAt(d.db.contacts, after, id)
    {
      assert if Registers(next.mls, batch[1..], id) then RegisteredRow(next.db.contacts, after, id)
             else SameAt(next.db.contacts, after, id);
    }
  }

  lemma {:induction false} ConversationsFiledOn(d: Device, next: Device, batch: seq<Mail>,
      after: map<Ident, Conversation>)
    requires JoinedFirst(d, next, batch) && ConversationsFiled(next.mls, batch[1..], next.db.conversations, after)
    requires forall g :: Begins(d.mls, batch, g)
               <==> (CanJoin(d.mls, batch[0].blob) && batch[0].blob.group == g) || Begins(next.mls, batch[1..], g)
    requires DistinctWelcomes(d.mls, batch) && DistinctIds(batch)
    ensures ConversationsFiled(d.mls, batch, d.db.conversations, after)
  {
    assert batch == [batch[0]] + batch[1..];
    assert forall n :: n in batch[1..] ==> n.id != batch[0].id;
    forall m | m in batch && CanJoin(d.mls, m.blob)
      ensures m.blob.group in after
      ensures after[m.blob.group] == Conversation(Hex(PeerCredential(d.mls, m.blob)),
                                                  IntervalAt(d.db.conversations, m.blob.group))
    {
      if m == batch[0] {
        assert !Begins(next.mls, batch[1..], m.blob.group);
      } else {
        assert !CanJoin(d.mls, batch[0].blob) || m.blob.group != batch[0].blob.group;
      }
    }
    forall g: Ident | !Begins(d.mls, batch, g) ensures SameAt(d.db.conversations, after, g) {
      assert SameAt(next.db.conversations, after, g);
    }
  }

  /** Joined in any order, the Welcomes file the same contacts and conversations. */
  lemma {:induction false} SameFiled(d: Device, a: seq<Mail>, b: seq<Mail>)
    requires DistinctWelcomes(d.mls, a) && DistinctWelcomes(d.mls, b) && Reordered(a, b)
    ensures Polls.Joined(d, a).db.contacts == Polls.Joined(d, b).db.contacts
    ensures Polls.Joined(d, a).db.conversations == Polls.Joined(d, b).db.conversations
  {
    var x, y := Polls.Joined(d, a).db, Polls.Joined(d, b).db;
    JoinsFile(d, a);
    JoinsFile(d, b);
    forall id: Ident ensures SameAt(x.contacts, y.contacts, id) {
      assert Registers(d.mls, a, id) <==> Registers(d.mls, b, id);
      if Registers(d.mls, a, id) && id !in d.db.contacts {
        HexInjective(x.contacts[id].publicKey, y.contacts[id].publicKey);
      }
    }
    forall g: Ident ensures SameAt(x.conversations, y.conversations, g) {
      assert Begins(d.mls, a, g) <==> Begins(d.mls, b, g);
      if m :| m in a && CanJoin(d.mls, m.blob) && m.blob.group == g {
        assert m in b;
      }
    }
    SameTable(x.contacts, y.contacts);
    SameTable(x.conversations, y.conversations);
  }

  lemma {:induction false} SameTable<V>(a: map<Ident, V>, b: map<Ident, V>)
    requires forall id: Ident :: SameAt(a, b, id)
    ensures a == b
  {
    forall id: Ident ensures id in a <==> id in b {
      assert SameAt(a, b, id);
    }
    forall id | id in a ensures a[id] == b[id] {
      assert SameAt(a, b, id);
    }
  }

  // ---- Exactly when no order changes a contact's row --------------------------------------

  lemma {:induction false} SameContacts(d: Device, a: seq<Mail>, b: seq<Mail>, clock: Clock)
    requires Restarts.Steady(d) && Takeable(d, a) && Reordered(a, b) && OneVoice(Polls.Joined(d, a), a)
    ensures TakeIn(d, a, clock).db.contacts == TakeIn(d, b, clock).db.contacts
  {
    var x, y := Polls.Joined(d, a), Polls.Joined(d, b);
    ReorderedJoins(d, a, b);
    SameFiled(d, a, b);
    TakeInIs(d, a, clock);
    TakeInIs(d, b, clock);
    Restarts.JoinsSteady(d, a);
    Restarts.JoinsSteady(d, b);
    SameVoice(x, y, a, b);
    ContactsKept(x, a, clock);
    ContactsKept(y, b, clock);
    var p, q := ReadAll(x, a, clock).db.contacts, ReadAll(y, b, clock).db.contacts;
    forall id: Ident ensures SameAt(p, q, id) {
      if id in x.db.contacts {
        ContactsHeard(x, a, clock, id);
        ContactsHeard(y, b, clock, id);
        HeardOnce(x, y, a, b, id, x.db.contacts[id], p[id], q[id]);
      }
    }
    SameTable(p, q);
  }

  lemma {:induction false} SameVoice(x: Device, y: Device, a: seq<Mail>, b: seq<Mail>)
    requires x.mls == y.mls && x.live.Keys == y.live.Keys && x.db.conversations == y.db.conversations
    requires (forall m :: m in a <==> m in b) && OneVoice(x, a)
    ensures OneVoice(y, b) && forall id, m :: Speaks(x, a, id, m) <==> Speaks(y, b, id, m)
  {
    forall id, m ensures Speaks(x, a, id, m) <==> Speaks(y, b, id, m) {
    }
  }

  lemma {:induction false} ContactsKept(x: Device, todo: seq<Mail>, clock: Clock)
    requires Sound(x)
    ensures ReadAll(x, todo, clock).db.contacts.Keys == x.db.contacts.Keys
    decreases |todo|
  {
    if todo != [] {
      ReadOneIs(x, todo[0], clock);
      ReadOneSound(x, todo[0], clock);
      ContactsKept(ReadOne(x, todo[0], clock), todo[1..], clock);
    }
  }

  /** Everything but the last envelope read, the last one is still in the window. */
  lemma {:induction false} LastStillInWindow(x: Device, front: seq<Mail>, m: Mail, clock: Clock)
    requires Sound(x) && Window(x, front + [m]) && Distinct(x, front + [m])
    ensures var y := ReadAll(x, front, clock); Sound(y) && SameAddresses(x, y) && Window(y, [m])
    decreases |front|
  {
    if front == [] {
      assert front + [m] == [m];
    } else {
      var next := ReadOne(x, front[0], clock);
      FirstIsRead(x, front + [m], clock);
      WindowMoves(x, front + [m], clock);
      assert (front + [m])[1..] == front[1..] + [m];
      LastStillInWindow(next, front[1..], m, clock);
    }
  }

  /** The message read last decides its contact's key and, if it introduces, its name and address. */
  lemma {:induction false} LastDecides(d: Device, batch: seq<Mail>, m: Mail, clock: Clock, id: Ident)
    requires Restarts.Steady(d) && Takeable(d, batch) && Speaks(Polls.Joined(d, batch), batch, id, m)
    ensures Reordered(batch, Last(batch, m))
    ensures var after := TakeIn(d, Last(batch, m), clock).db.contacts;
            && id in after && after[id].publicKey == m.blob.sender
            && (Introduction(m) ==>
                  after[id].displayName == m.blob.plaintext.payload.displayName
                  && after[id].inbox == m.blob.plaintext.payload.inbox)
  {
    var x := Polls.Joined(d, batch);
    var front := Without(batch, m);
    LastIs(d, batch, m);
    ReorderedJoins(d, batch, Last(batch, m));
    Restarts.JoinsSteady(d, batch);
    TakeInIs(d, Last(batch, m), clock);
    LastStillInWindow(x, front, m, clock);
    ReadLast(x, ReadAll(x, front, clock), front, m, clock, id);
  }

  lemma {:induction false} ReadLast(x: Device, y: Device, front: seq<Mail>, m: Mail, clock: Clock, id: Ident)
    requires Sound(x) && y == ReadAll(x, front, clock) && Sound(y) && SameAddresses(x, y) && Window(y, [m])
    requires Speaks(x, [m], id, m)
    ensures var after := ReadAll(x, front + [m], clock).db.contacts;
            && id in after && after[id].publicKey == m.blob.sender
            && (Introduction(m) ==>
                  after[id].displayName == m.blob.plaintext.payload.displayName
                  && after[id].inbox == m.blob.plaintext.payload.inbox)
  {
    ProgramRuns.SecondPassConcat(x, front, m, clock);
    Acknowledging.ReadsKeepLive(x, front, clock);
    AddressedInWindowOpens(y, [m]);
    ReadContact(y, m, clock, id);
  }

  /**
   For a batch in the window, every order leaves the same contact rows if and only if the messages of each contact
   come under one key and its introductions say the same.
  */
  lemma {:induction false} ContactRowsAgreeExactly(d: Device, batch: seq<Mail>, clock: Clock)
    requires Restarts.Steady(d) && Takeable(d, batch)
    ensures (forall order :: Reordered(batch, order) ==>
              TakeIn(d, order, clock).db.contacts == TakeIn(d, batch, clock).db.contacts)
            <==> OneVoice(Polls.Joined(d, batch), batch)
  {
    var x := Polls.Joined(d, batch);
    if OneVoice(x, batch) {
      forall order | Reordered(batch, order)
        ensures TakeIn(d, order, clock).db.contacts == TakeIn(d, batch, clock).db.contacts
      {
        SameContacts(d, batch, order, clock);
      }
    } else {
      var id, m, n :| Speaks(x, batch, id, m) && Speaks(x, batch, id, n) && !Agrees(m, n);
      LastDecides(d, batch, m, clock, id);
      LastDecides(d, batch, n, clock, id);
      assert Reordered(batch, Last(batch, m)) && Reordered(batch, Last(batch, n));
    }
  }
}
