/** A poll does not depend on the order of its batch. */
module Polls {
  // The relay lists a batch by random identifiers.

  import opened Basics
  import opened Ratchet
  import opened Mls
  import opened Tables
  import opened RelayStore
  import opened Client
  import opened Calls
  import opened OutboxRules
  import opened Reading
  import Restarts

  // ---- The second pass ---------------------------------------------------------

  /** The blob is for a live conversation, from its peer; only its generation decides the rest. */
  predicate Addressed(d: Device, b: Blob) {
    b.Application? && b.group in d.live && b.group in d.mls.groups && b.sender == d.mls.groups[b.group].peer
    && b.sender != d.mls.me
  }

  /** The generations waiting for one conversation. */
  ghost function Waiting(d: Device, batch: seq<Mail>, c: Ident): set<nat> {
    set m | m in batch && Addressed(d, m.blob) && m.blob.group == c :: m.blob.generation
  }

  /** Every envelope has its own identifier, and every message its own generation. */
  ghost predicate Distinct(d: Device, batch: seq<Mail>) {
    && (forall i, j :: 0 <= i < j < |batch| ==> batch[i].id != batch[j].id)
    && (forall m, n :: m in batch && n in batch && m != n ==> !Clash(d, m.blob, n.blob))
  }

  /** Two ciphertexts of one conversation and generation. */
  predicate Clash(d: Device, a: Blob, b: Blob) {
    Addressed(d, a) && Addressed(d, b) && a.group == b.group && a.generation == b.generation
  }

  /** Each conversation's waiting generations are within reach of each other and of what was processed. */
  ghost predicate Window(d: Device, batch: seq<Mail>) {
    forall c :: c in d.mls.groups ==> InWindow(d.mls.groups[c].used, Waiting(d, batch, c))
  }

  /** Devices on which the same blobs are addressed to the same conversations. */
  ghost predicate SameAddresses(d: Device, e: Device) {
    && d.live.Keys == e.live.Keys && d.mls.me == e.mls.me && d.mls.groups.Keys == e.mls.groups.Keys
    && forall c :: c in d.mls.groups ==> e.mls.groups[c].peer == d.mls.groups[c].peer
  }

  lemma {:induction false} AddressedInWindowOpens(d: Device, batch: seq<Mail>)
    requires Sound(d) && Window(d, batch) && batch != []
    ensures Opens(d, batch[0].blob) <==> Addressed(d, batch[0].blob)
  {
    var b := batch[0].blob;
    if Addressed(d, b) {
      assert batch[0] in batch;
      assert b.generation in Waiting(d, batch, b.group);
    }
  }

  /** What reading the first envelope of a batch in the window does to the ratchets. */
  lemma {:induction false} FirstIsRead(d: Device, batch: seq<Mail>, clock: Clock)
    requires Sound(d) && Window(d, batch) && batch != []
    ensures var b := batch[0].blob;
            var after := ReadOne(d, batch[0], clock);
            && Sound(after) && SameAddresses(d, after) && after.mls.keyPackages == d.mls.keyPackages
            && forall c :: c in d.mls.groups ==>
                 after.mls.groups[c] == if Addressed(d, b) && b.group == c
                                        then d.mls.groups[c].(used := d.mls.groups[c].used + {b.generation})
                                             else d.mls.groups[c]
  {
    AddressedInWindowOpens(d, batch);
    ReadOneIs(d, batch[0], clock);
    ReadOneSound(d, batch[0], clock);
  }

  lemma {:induction false} DistinctMoves(d: Device, after: Device, batch: seq<Mail>)
    requires SameAddresses(d, after) && Distinct(d, batch) && batch != []
    ensures Distinct(after, batch[1..])
  {
    forall m, n | m in batch[1..] && n in batch[1..] && m != n
      ensures !Clash(after, m.blob, n.blob)
    {
      assert !Clash(d, m.blob, n.blob);
    }
  }

  lemma {:induction false} WindowMoves(d: Device, batch: seq<Mail>, clock: Clock)
    requires Sound(d) && Window(d, batch) && Distinct(d, batch) && batch != []
    ensures var after := ReadOne(d, batch[0], clock);
            && SameAddresses(d, after) && Window(after, batch[1..]) && Distinct(after, batch[1..])
            && forall c :: c in d.mls.groups ==>
                 after.mls.groups[c].used + Waiting(after, batch[1..], c) == d.mls.groups[c].used + Waiting(d, batch, c)
  {
    var b := batch[0].blob;
    var after := ReadOne(d, batch[0], clock);
    FirstIsRead(d, batch, clock);
    DistinctMoves(d, after, batch);
    forall c | c in d.mls.groups
      ensures InWindow(after.mls.groups[c].used, Waiting(after, batch[1..], c))
      ensures after.mls.groups[c].used + Waiting(after, batch[1..], c) == d.mls.groups[c].used + Waiting(d, batch, c)
    {
      WaitingFirstOrRest(d, after, batch, c);
      if Addressed(d, b) && b.group == c {
        InWindowStep(d.mls.groups[c].used, Waiting(d, batch, c), b.generation);
        assert Waiting(after, batch[1..], c) == Waiting(d, batch, c) - {b.generation};
      }
    }
  }

  /** The first envelope's generation, and the others. */
  lemma {:induction false} WaitingFirstOrRest(d: Device, after: Device, batch: seq<Mail>, c: Ident)
    requires SameAddresses(d, after) && Distinct(d, batch) && batch != []
    ensures var b := batch[0].blob;
            if Addressed(d, b) && b.group == c
            then b.generation !in Waiting(after, batch[1..], c)
                 && Waiting(d, batch, c) == Waiting(after, batch[1..], c) + {b.generation}
            else Waiting(d, batch, c) == Waiting(after, batch[1..], c)
  {
    assert batch == [batch[0]] + batch[1..];
    var b := batch[0].blob;
    if Addressed(d, b) && b.group == c {
      forall m | m in batch[1..] && Addressed(after, m.blob) && m.blob.group == c
        ensures m.blob.generation != b.generation
      {
        assert forall i :: 0 <= i < |batch[1..]| ==> batch[1..][i].id != batch[0].id;
        assert !Clash(d, batch[0].blob, m.blob);
      }
    }
  }

  /** The row a text message leaves. */
  function RowOf(m: Mail, clock: Clock): Message
    requires IsText(m.blob)
  {
    Message(m.blob.group, Received, m.blob.plaintext.payload.body, AsI64(clock.stored(m.id)))
  }

  predicate IsText(b: Blob) {
    b.Application? && b.plaintext.Readable? && b.plaintext.payload.Text?
  }

  /** A text message addressed here that is stored under this identifier. */
  predicate Stores(d: Device, m: Mail, id: Ident) {
    m.id == id && Addressed(d, m.blob) && IsText(m.blob)
  }

  ghost predicate Brings(d: Device, batch: seq<Mail>, id: Ident) {
    exists m :: m in batch && Stores(d, m, id)
  }

  ghost predicate BringsRow(d: Device, batch: seq<Mail>, clock: Clock, id: Ident, row: Message) {
    exists m :: m in batch && Stores(d, m, id) && row == RowOf(m, clock)
  }

  ghost predicate HasRow(db: Db, id: Ident, row: Message) {
    id in db.messages && db.messages[id] == row
  }

  /** The rows after reading the batch, whatever its order. */
  ghost predicate RowsAre(d: Device, batch: seq<Mail>, clock: Clock, after: Db) {
    forall id, row ::
      HasRow(after, id, row)
      <==> BringsRow(d, batch, clock, id, row) || (HasRow(d.db, id, row) && !Brings(d, batch, id))
  }

  lemma {:induction false} SameStores(d: Device, after: Device, m: Mail, id: Ident)
    requires SameAddresses(d, after)
    ensures Stores(d, m, id) <==> Stores(after, m, id)
  {
  }

  lemma {:induction false} BringsFirstOrRest(d: Device, after: Device, batch: seq<Mail>, id: Ident)
    requires SameAddresses(d, after) && batch != []
    ensures Brings(d, batch, id) <==> Stores(d, batch[0], id) || Brings(after, batch[1..], id)
  {
    assert batch == [batch[0]] + batch[1..];
    forall m ensures Stores(d, m, id) <==> Stores(after, m, id) {
      SameStores(d, after, m, id);
    }
    assert Stores(d, batch[0], id) ==> batch[0] in batch;
  }

  lemma {:induction false} BringsRowFirstOrRest(d: Device, after: Device, batch: seq<Mail>, clock: Clock, id: Ident,
      row: Message)
    requires SameAddresses(d, after) && batch != []
    ensures BringsRow(d, batch, clock, id, row)
            <==> (Stores(d, batch[0], id) && row == RowOf(batch[0], clock))
                 || BringsRow(after, batch[1..], clock, id, row)
  {
    assert batch == [batch[0]] + batch[1..];
    forall m ensures Stores(d, m, id) <==> Stores(after, m, id) {
      SameStores(d, after, m, id);
    }
    assert Stores(d, batch[0], id) ==> batch[0] in batch;
  }

  lemma {:induction false} FirstRow(d: Device, batch: seq<Mail>, clock: Clock)
    requires Sound(d) && Window(d, batch) && batch != []
    ensures var m := batch[0];
            ReadOne(d, m, clock).db.messages
            == if Addressed(d, m.blob) && IsText(m.blob) then d.db.messages[m.id := RowOf(m, clock)] else d.db.messages
  {
    AddressedInWindowOpens(d, batch);
    ReadOneIs(d, batch[0], clock);
  }

  lemma {:induction false} NotBroughtAgain(d: Device, after: Device, batch: seq<Mail>)
    requires SameAddresses(d, after) && Distinct(d, batch) && batch != []
    ensures !Brings(after, batch[1..], batch[0].id)
  {
    assert forall i :: 0 <= i < |batch[1..]| ==> batch[1..][i].id != batch[0].id;
  }

  /** Reading a batch in the window: the rows, the ratchets and the handled identifiers, in closed form. */
  lemma {:induction false} BatchRead(d: Device, batch: seq<Mail>, clock: Clock)
    requires Sound(d) && Window(d, batch) && Distinct(d, batch)
    ensures var after := ReadAll(d, batch, clock);
            && Sound(after) && SameAddresses(d, after) && after.mls.keyPackages == d.mls.keyPackages
            && RowsAre(d, batch, clock, after.db)
            && (forall c :: c in d.mls.groups ==>
                  after.mls.groups[c] == d.mls.groups[c].(used := d.mls.groups[c].used + Waiting(d, batch, c)))
    decreases |batch|
  {
    if batch == [] {
      assert forall c :: c in d.mls.groups ==> d.mls.groups[c].used + {} == d.mls.groups[c].used;
    } else {
      var mid := ReadOne(d, batch[0], clock);
      FirstIsRead(d, batch, clock);
      WindowMoves(d, batch, clock);
      BatchRead(mid, batch[1..], clock);
      RowsMove(d, mid, batch, clock, ReadAll(d, batch, clock).db);
    }
  }

  lemma {:induction false} RowsMove(d: Device, mid: Device, batch: seq<Mail>, clock: Clock, after: Db)
    requires Sound(d) && Window(d, batch) && Distinct(d, batch) && batch != []
    requires mid == ReadOne(d, batch[0], clock) && SameAddresses(d, mid)
    requires RowsAre(mid, batch[1..], clock, after)
    ensures RowsAre(d, batch, clock, after)
  {
    FirstRow(d, batch, clock);
    NotBroughtAgain(d, mid, batch);
    forall id, row
      ensures HasRow(after, id, row)
              <==> BringsRow(d, batch, clock, id, row) || (HasRow(d.db, id, row) && !Brings(d, batch, id))
    {
      BringsFirstOrRest(d, mid, batch, id);
      BringsRowFirstOrRest(d, mid, batch, clock, id, row);
      BroughtMeansBrings(mid, batch[1..], clock, id, row);
    }
  }

  lemma {:induction false} BroughtMeansBrings(d: Device, batch: seq<Mail>, clock: Clock, id: Ident, row: Message)
    ensures BringsRow(d, batch, clock, id, row) ==> Brings(d, batch, id)
  {
  }

  /** Which envelopes the second pass handles. */
  ghost predicate Reads(d: Device, batch: seq<Mail>, id: Ident) {
    exists m :: m in batch && m.id == id && Readable(d, m)
  }

  predicate Readable(d: Device, m: Mail) {
    Addressed(d, m.blob) && m.blob.plaintext.Readable?
  }

  lemma {:induction false} ReadsFirstOrRest(d: Device, after: Device, batch: seq<Mail>, id: Ident)
    requires SameAddresses(d, after) && batch != []
    ensures Reads(d, batch, id) <==> (Readable(d, batch[0]) && batch[0].id == id) || Reads(after, batch[1..], id)
  {
    assert batch == [batch[0]] + batch[1..];
    assert forall m :: Readable(d, m) <==> Readable(after, m);
    assert Readable(d, batch[0]) ==> batch[0] in batch;
  }

  lemma {:induction false} ReadIdsAre(d: Device, batch: seq<Mail>, clock: Clock)
    requires Sound(d) && Window(d, batch) && Distinct(d, batch)
    ensures forall id :: id in ReadIds(d, batch, clock) <==> Reads(d, batch, id)
    decreases |batch|
  {
    if batch != [] {
      var mid := ReadOne(d, batch[0], clock);
      FirstIsRead(d, batch, clock);
      WindowMoves(d, batch, clock);
      AddressedInWindowOpens(d, batch);
      ReadIdsAre(mid, batch[1..], clock);
      forall id ensures id in ReadIds(d, batch, clock) <==> Reads(d, batch, id) {
        ReadsFirstOrRest(d, mid, batch, id);
      }
    }
  }

  // ---- The first pass ------------------------------------------------------------

  /** No two Welcomes that could be joined open the same group or need the same key package. */
  ghost predicate DistinctWelcomes(mls: State, batch: seq<Mail>) {
    forall m, n :: m in batch && n in batch && m != n && CanJoin(mls, m.blob) && CanJoin(mls, n.blob) ==>
      m.blob.group != n.blob.group && m.blob.keyPackage != n.blob.keyPackage
  }

  ghost predicate DistinctIds(batch: seq<Mail>) {
    forall i, j :: 0 <= i < j < |batch| ==> batch[i].id != batch[j].id
  }

  /** A Welcome of the batch that opens group `g`. */
  ghost predicate OpensGroup(mls: State, batch: seq<Mail>, g: Ident, group: Group) {
    exists m :: m in batch && CanJoin(mls, m.blob) && m.blob.group == g && group == Group(m.blob.creator, 0, {})
  }

  ghost predicate Spends(mls: State, batch: seq<Mail>, k: nat) {
    exists m :: m in batch && CanJoin(mls, m.blob) && m.blob.keyPackage == k
  }

  ghost predicate HasGroup(s: State, g: Ident, group: Group) {
    g in s.groups && s.groups[g] == group
  }

  /** The state after the first pass, whatever the order of the batch. */
  ghost predicate JoinedAll(mls: State, batch: seq<Mail>, s: State) {
    && s.me == mls.me
    && (forall g, group :: HasGroup(s, g, group) <==> HasGroup(mls, g, group) || OpensGroup(mls, batch, g, group))
    && (forall k :: k in s.keyPackages <==> k in mls.keyPackages && !Spends(mls, batch, k))
  }

  lemma {:induction false} SameJoins(mls: State, batch: seq<Mail>, m: Mail)
    requires DistinctWelcomes(mls, batch) && DistinctIds(batch) && batch != [] && m in batch[1..]
    ensures CanJoin(MlsAfter(mls, batch[0].blob), m.blob) <==> CanJoin(mls, m.blob)
  {
    assert forall i :: 0 <= i < |batch[1..]| ==> batch[1..][i].id != batch[0].id;
    assert m in batch && m != batch[0];
  }

  lemma {:induction false} JoinsFirstOrRest(mls: State, batch: seq<Mail>)
    requires DistinctWelcomes(mls, batch) && DistinctIds(batch) && batch != []
    ensures var first := batch[0].blob;
            var mid := MlsAfter(mls, first);
            && DistinctWelcomes(mid, batch[1..]) && DistinctIds(batch[1..])
            && (forall g, group :: OpensGroup(mls, batch, g, group)
                  <==> (CanJoin(mls, first) && first.group == g && group == Group(first.creator, 0, {}))
                       || OpensGroup(mid, batch[1..], g, group))
            && (forall k :: Spends(mls, batch, k)
                  <==> (CanJoin(mls, first) && first.keyPackage == k) || Spends(mid, batch[1..], k))
  {
    forall m | m in batch[1..] ensures CanJoin(MlsAfter(mls, batch[0].blob), m.blob) <==> CanJoin(mls, m.blob) {
      SameJoins(mls, batch, m);
    }
    assert batch == [batch[0]] + batch[1..];
    assert batch[0] in batch;
  }

  lemma {:induction false} JoinsAre(mls: State, batch: seq<Mail>)
    requires DistinctWelcomes(mls, batch) && DistinctIds(batch)
    ensures JoinedAll(mls, batch, MlsAfterAll(mls, batch))
    ensures forall id :: id in JoinedIds(mls, batch) <==> exists m :: m in batch && m.id == id && CanJoin(mls, m.blob)
    decreases |batch|
  {
    if batch != [] {
      var mid := MlsAfter(mls, batch[0].blob);
      JoinsFirstOrRest(mls, batch);
      JoinsAre(mid, batch[1..]);
      JoinedIdsMove(mls, batch);
    }
  }

  lemma {:induction false} JoinedIdsMove(mls: State, batch: seq<Mail>)
    requires DistinctWelcomes(mls, batch) && DistinctIds(batch) && batch != []
    requires var mid := MlsAfter(mls, batch[0].blob);
             forall id ::
               id in JoinedIds(mid, batch[1..]) <==> exists m :: m in batch[1..] && m.id == id && CanJoin(mid, m.blob)
    ensures forall id :: id in JoinedIds(mls, batch) <==> exists m :: m in batch && m.id == id && CanJoin(mls, m.blob)
  {
    forall m | m in batch[1..] ensures CanJoin(MlsAfter(mls, batch[0].blob), m.blob) <==> CanJoin(mls, m.blob) {
      SameJoins(mls, batch, m);
    }
    assert batch == [batch[0]] + batch[1..];
  }

  lemma {:induction false} SameJoinedState(mls: State, a: seq<Mail>, b: seq<Mail>, s: State, t: State)
    requires JoinedAll(mls, a, s) && JoinedAll(mls, b, t)
    requires forall m :: m in a <==> m in b
    ensures s == t
  {
    forall g, group ensures HasGroup(s, g, group) <==> HasGroup(t, g, group) {
      assert OpensGroup(mls, a, g, group) <==> OpensGroup(mls, b, g, group);
    }
    forall g | g in s.groups ensures g in t.groups && s.groups[g] == t.groups[g] {
      assert HasGroup(s, g, s.groups[g]);
    }
    forall g | g in t.groups ensures g in s.groups {
      assert HasGroup(t, g, t.groups[g]);
    }
    forall k ensures k in s.keyPackages <==> k in t.keyPackages {
      assert Spends(mls, a, k) <==> Spends(mls, b, k);
    }
  }

  // ---- Both passes -------------------------------------------------------------------

  /** Reading the whole batch comes to the same as reading what the first pass left: a Welcome opens nothing. */
  lemma {:induction false} WelcomesAreSkipped(d: Device, mls: State, batch: seq<Mail>, clock: Clock)
    ensures ReadAll(d, Unjoined(mls, batch), clock) == ReadAll(d, batch, clock)
    ensures ReadIds(d, Unjoined(mls, batch), clock) == ReadIds(d, batch, clock)
    decreases |batch|
  {
    if batch != [] {
      var next := MlsAfter(mls, batch[0].blob);
      var rest := Unjoined(next, batch[1..]);
      if CanJoin(mls, batch[0].blob) {
        assert ReadOne(d, batch[0], clock) == d;
        assert Unjoined(mls, batch) == rest;
        WelcomesAreSkipped(d, next, batch[1..], clock);
      } else {
        assert Unjoined(mls, batch) == [batch[0]] + rest;
        assert Unjoined(mls, batch)[1..] == rest;
        WelcomesAreSkipped(ReadOne(d, batch[0], clock), next, batch[1..], clock);
      }
    }
  }

  /** The device between the two passes. */
  function Joined(d: Device, batch: seq<Mail>): Device {
    Run(d, JoinAllProgram(d.mls, batch))
  }

  lemma {:induction false} TakeInIs(d: Device, batch: seq<Mail>, clock: Clock)
    ensures TakeIn(d, batch, clock) == ReadAll(Joined(d, batch), batch, clock)
    ensures HandledIds(d, batch, clock) == JoinedIds(d.mls, batch) + ReadIds(Joined(d, batch), batch, clock)
  {
    var mid := Joined(d, batch);
    RunConcat(d, JoinAllProgram(d.mls, batch), ReadAllProgram(mid, Unjoined(d.mls, batch), clock));
    RunReadAll(mid, Unjoined(d.mls, batch), clock);
    WelcomesAreSkipped(mid, d.mls, batch, clock);
  }

  /** One join leaves the messages alone and makes its group live. */
  lemma {:induction false} JoinOpens(d: Device, blob: Blob)
    ensures var after := Run(d, JoinProgram(d.mls, blob));
            && after.mls == MlsAfter(d.mls, blob) && after.db.messages == d.db.messages
            && after.live.Keys == d.live.Keys + (after.mls.groups.Keys - d.mls.groups.Keys)
  {
    if CanJoin(d.mls, blob) {
      var p := JoinProgram(d.mls, blob);
      assert p == [p[0], p[1], p[2]] + [p[3], p[4]];
      RunConcat(d, [p[0], p[1], p[2]], [p[3], p[4]]);
      Restarts.ThreeSteps(d, p[0], p[1], p[2]);
      TwoSteps(Run(d, [p[0], p[1], p[2]]), p[3], p[4]);
    }
  }

  lemma {:induction false} JoinsOpen(d: Device, batch: seq<Mail>)
    ensures var after := Joined(d, batch);
            && after.mls == MlsAfterAll(d.mls, batch) && after.db.messages == d.db.messages
            && after.live.Keys == d.live.Keys + (after.mls.groups.Keys - d.mls.groups.Keys)
            && d.mls.groups.Keys <= after.mls.groups.Keys
    decreases |batch|
  {
    if batch != [] {
      var p := JoinProgram(d.mls, batch[0].blob);
      JoinOpens(d, batch[0].blob);
      JoinsOpen(Run(d, p), batch[1..]);
      RunConcat(d, p, JoinAllProgram(MlsAfter(d.mls, batch[0].blob), batch[1..]));
    }
  }

  /** A batch the poll can take in whole: told apart by identifier, Welcome and generation, and in the window. */
  ghost predicate Takeable(d: Device, batch: seq<Mail>) {
    && DistinctIds(batch) && DistinctWelcomes(d.mls, batch)
    && Distinct(Joined(d, batch), batch) && Window(Joined(d, batch), batch)
  }

  /** The same envelopes in another order. */
  ghost predicate Reordered(a: seq<Mail>, b: seq<Mail>) {
    DistinctIds(a) && DistinctIds(b) && forall m :: m in a <==> m in b
  }

  lemma {:induction false} ReorderedJoins(d: Device, a: seq<Mail>, b: seq<Mail>)
    requires Takeable(d, a) && Reordered(a, b)
    ensures Joined(d, a).mls == Joined(d, b).mls && Joined(d, a).live.Keys == Joined(d, b).live.Keys
    ensures Joined(d, a).db.messages == Joined(d, b).db.messages
    ensures Takeable(d, b)
  {
    JoinsAre(d.mls, a);
    JoinsAre(d.mls, b);
    SameJoinedState(d.mls, a, b, MlsAfterAll(d.mls, a), MlsAfterAll(d.mls, b));
    JoinsOpen(d, a);
    JoinsOpen(d, b);
    var x, y := Joined(d, a), Joined(d, b);
    forall c | c in y.mls.groups ensures InWindow(y.mls.groups[c].used, Waiting(y, b, c)) {
      assert Waiting(x, a, c) == Waiting(y, b, c);
    }
    forall m, n | m in b && n in b && m != n ensures !Clash(y, m.blob, n.blob) {
      assert !Clash(x, m.blob, n.blob);
    }
  }

  lemma {:induction false} SameRows(x: Device, y: Device, a: seq<Mail>, b: seq<Mail>, clock: Clock, p: Db, q: Db)
    requires SameAddresses(x, y) && x.db.messages == y.db.messages && forall m :: m in a <==> m in b
    requires RowsAre(x, a, clock, p) && RowsAre(y, b, clock, q)
    ensures p.messages == q.messages
  {
    forall id, row ensures HasRow(p, id, row) <==> HasRow(q, id, row) {
      assert forall m :: Stores(x, m, id) <==> Stores(y, m, id);
      assert BringsRow(x, a, clock, id, row) <==> BringsRow(y, b, clock, id, row);
      assert Brings(x, a, id) <==> Brings(y, b, id);
      assert HasRow(x.db, id, row) <==> HasRow(y.db, id, row);
    }
    forall id | id in p.messages ensures id in q.messages && p.messages[id] == q.messages[id] {
      assert HasRow(p, id, p.messages[id]);
    }
    forall id | id in q.messages ensures id in p.messages {
      assert HasRow(q, id, q.messages[id]);
    }
  }

  /**
   Whatever order the relay's random identifiers give the batch, Welcomes mixed in: the same message rows,
   the same ratchets and groups, the same identifiers acknowledged.
  */
  lemma {:induction false} OrderDoesNotMatter(d: Device, a: seq<Mail>, b: seq<Mail>, clock: Clock)
    requires Restarts.Steady(d) && Takeable(d, a) && Reordered(a, b)
    ensures TakeIn(d, a, clock).db.messages == TakeIn(d, b, clock).db.messages
    ensures TakeIn(d, a, clock).mls == TakeIn(d, b, clock).mls
    ensures forall id :: id in HandledIds(d, a, clock) <==> id in HandledIds(d, b, clock)
  {
    var x, y := Joined(d, a), Joined(d, b);
    ReorderedJoins(d, a, b);
    TakeInIs(d, a, clock);
    TakeInIs(d, b, clock);
    Restarts.JoinsSteady(d, a);
    Restarts.JoinsSteady(d, b);
    BatchRead(x, a, clock);
    BatchRead(y, b, clock);
    SameRows(x, y, a, b, clock, TakeIn(d, a, clock).db, TakeIn(d, b, clock).db);
    SameRatchets(x, y, a, b, TakeIn(d, a, clock).mls, TakeIn(d, b, clock).mls);
    SameHandled(d, a, b, clock);
  }

  lemma {:induction false} SameRatchets(x: Device, y: Device, a: seq<Mail>, b: seq<Mail>, s: State, t: State)
    requires x.mls == y.mls && x.live.Keys == y.live.Keys && forall m :: m in a <==> m in b
    requires s.me == x.mls.me == t.me && s.keyPackages == x.mls.keyPackages == t.keyPackages
    requires s.groups.Keys == x.mls.groups.Keys == t.groups.Keys
    requires forall c :: c in x.mls.groups ==>
               s.groups[c] == x.mls.groups[c].(used := x.mls.groups[c].used + Waiting(x, a, c))
    requires forall c :: c in x.mls.groups ==>
               t.groups[c] == y.mls.groups[c].(used := y.mls.groups[c].used + Waiting(y, b, c))
    ensures s == t
  {
    forall c | c in x.mls.groups ensures s.groups[c] == t.groups[c] {
      assert Waiting(x, a, c) == Waiting(y, b, c);
    }
  }

  lemma {:induction false} SameHandled(d: Device, a: seq<Mail>, b: seq<Mail>, clock: Clock)
    requires Restarts.Steady(d) && Takeable(d, a) && Reordered(a, b)
    ensures forall id :: id in HandledIds(d, a, clock) <==> id in HandledIds(d, b, clock)
  {
    var x, y := Joined(d, a), Joined(d, b);
    ReorderedJoins(d, a, b);
    TakeInIs(d, a, clock);
    TakeInIs(d, b, clock);
    Restarts.JoinsSteady(d, a);
    Restarts.JoinsSteady(d, b);
    ReadIdsAre(x, a, clock);
    ReadIdsAre(y, b, clock);
    JoinsAre(d.mls, a);
    JoinsAre(d.mls, b);
    forall id ensures id in HandledIds(d, a, clock) <==> id in HandledIds(d, b, clock) {
      assert Reads(x, a, id) <==> Reads(y, b, id) by {
        assert forall m :: Readable(x, m) <==> Readable(y, m);
      }
    }
  }

  /** Every text message of such a batch is stored, with the body that was sent, and acknowledged. */
  lemma {:induction false} EveryTextIsStored(d: Device, batch: seq<Mail>, clock: Clock, m: Mail)
    requires Restarts.Steady(d) && Takeable(d, batch)
    requires m in batch && Addressed(Joined(d, batch), m.blob) && IsText(m.blob)
    ensures HasRow(TakeIn(d, batch, clock).db, m.id,
                   Message(m.blob.group, Received, m.blob.plaintext.payload.body, AsI64(clock.stored(m.id))))
    ensures m.id in HandledIds(d, batch, clock)
  {
    var mid := Joined(d, batch);
    TakeInIs(d, batch, clock);
    Restarts.JoinsSteady(d, batch);
    BatchRead(mid, batch, clock);
    ReadIdsAre(mid, batch, clock);
    assert Stores(mid, m, m.id);
    assert BringsRow(mid, batch, clock, m.id, RowOf(m, clock));
    assert Readable(mid, m);
    assert Reads(mid, batch, m.id);
  }

  /** Two texts of one conversation, 64 or more generations apart, each of which this device could read first. */
  ghost predicate TooFarApart(d: Device, early: Mail, late: Mail) {
    && Sound(d) && IsText(early.blob) && IsText(late.blob) && Opens(d, early.blob) && Opens(d, late.blob)
    && early.blob.group == late.blob.group && early.id != late.id && early.id !in d.db.messages
    && late.blob.generation >= early.blob.generation + OUT_OF_ORDER_TOLERANCE
  }

  lemma {:induction false} NewestFirstLosesTheOlder(d: Device, early: Mail, late: Mail, clock: Clock)
    requires TooFarApart(d, early, late)
    ensures early.id !in ReadAll(d, [late, early], clock).db.messages && early.id !in ReadIds(d, [late, early], clock)
  {
    ReadTwo(d, late, early, clock);
    var x := ReadOne(d, late, clock);
    ReadOneIs(d, late, clock);
    ReadOneSound(d, late, clock);
    assert late.blob.generation in x.mls.groups[late.blob.group].used && !Opens(x, early.blob);
    ReadOneIs(x, early, clock);
  }

  lemma {:induction false} OldestFirstKeepsBoth(d: Device, early: Mail, late: Mail, clock: Clock)
    requires TooFarApart(d, early, late)
    ensures early.id in ReadAll(d, [early, late], clock).db.messages
    ensures late.id in ReadAll(d, [early, late], clock).db.messages
  {
    ReadTwo(d, early, late, clock);
    var y := ReadOne(d, early, clock);
    ReadOneIs(d, early, clock);
    ReadOneSound(d, early, clock);
    assert Opens(y, late.blob);
    ReadOneIs(y, late, clock);
  }

  /**
   One generation further apart than the window and the order decides: read newest first, the older message
   is neither stored nor acknowledged; read oldest first, both are.
  */
  lemma {:induction false} OutsideTheWindowOrderDecides(d: Device, early: Mail, late: Mail, clock: Clock)
    requires TooFarApart(d, early, late)
    ensures early.id !in ReadAll(d, [late, early], clock).db.messages && early.id !in ReadIds(d, [late, early], clock)
    ensures early.id in ReadAll(d, [early, late], clock).db.messages
    ensures late.id in ReadAll(d, [early, late], clock).db.messages
  {
    NewestFirstLosesTheOlder(d, early, late, clock);
    OldestFirstKeepsBoth(d, early, late, clock);
  }

  lemma {:induction false} ReadTwo(d: Device, first: Mail, second: Mail, clock: Clock)
    ensures var mid := ReadOne(d, first, clock);
            && ReadAll(d, [first, second], clock) == ReadOne(mid, second, clock)
            && ReadIds(d, [first, second], clock)
               == (if Handles(d, first.blob) then [first.id] else [])
                  + (if Handles(mid, second.blob) then [second.id] else [])
  {
    var mid := ReadOne(d, first, clock);
    var both := [first, second];
    assert both[1..] == [second] && both[1..][1..] == [];
    assert ReadAll(mid, both[1..], clock) == ReadOne(mid, second, clock);
    assert ReadIds(mid, both[1..], clock) == if Handles(mid, second.blob) then [second.id] else [];
  }
}
