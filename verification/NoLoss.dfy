/** No accepted message is lost. */
module NoLoss {
  // A receiving device, the relay and everyone else, interleaved one effect at a time.

  import opened Basics
  import opened Mls
  import opened Tables
  import opened RelayStore
  import opened Client
  import opened Calls
  import opened OutboxRules
  import Reading
  import Restarts
  import Polls
  import opened StoredRows

  type Mailbox = Queue<Blob>

  /**
   The relay's table and clock, the device, and the rest of the call it is in. `accepted` remembers every
   row the relay ever accepted, `deleted` every message row that retention deleted, `drawn` every identifier
   the device ever drew for a message of its own.
  */
  datatype World = World(relay: Mailbox, now: u64, device: Device, pending: seq<Effect>, accepted: Mailbox,
                         deleted: map<Ident, Deletion>, drawn: set<Ident>)

  datatype Event =
    | Tick(later: u64)
    | Submit(id: Ident, inbox: Ident, blob: Blob)
    | OthersAcknowledge(inbox: Ident, ids: seq<Ident>)
    | Sweep
    | Begin(call: Call)
    | Poll(clock: Clock, ack: AckReply, at: u64)
    | Work
    | Crash(at: u64)

  function TakenBy(d: Device, e: Effect): set<Ident> {
    DeletedBy(d, e).Keys
  }

  function Taken(w: World): set<Ident> {
    w.deleted.Keys
  }

  function Inbox(w: World): Ident {
    w.device.identity.inbox
  }

  /** What the relay does with a submitted blob: it may refuse, and random identifiers are never drawn twice. */
  predicate Takes(w: World, id: Ident, inbox: Ident) {
    id !in w.accepted && id !in w.drawn && IsValidInboxId(inbox) && BucketedExpiry(w.now, DEFAULT_TTL) <= I64_MAX
  }

  function Kept(w: World, id: Ident, inbox: Ident, blob: Blob): World {
    var row := Row(inbox, blob, BucketedExpiry(w.now, DEFAULT_TTL));
    w.(relay := w.relay[id := row], accepted := w.accepted[id := row])
  }

  predicate Enabled(w: World, e: Event) {
    match e
    case Tick(later) => w.now <= later <= I64_MAX
    case Submit(id, inbox, _) => Takes(w, id, inbox)
    case OthersAcknowledge(inbox, _) => inbox != Inbox(w)
    case Sweep => true
    case Begin(call) =>
      && w.pending == [] && !call.ReceiveMessages? && Fresh(w.device, call)
      && (call.SendMessage? ==> call.localId !in w.accepted)
    case Poll(_, _, _) => w.pending == [] && Collected(w.relay, Inbox(w), w.now).Ok?
    case Work =>
      && w.pending != []
      && (w.pending[0].Post? && !w.pending[0].reply.Refused? ==> Takes(w, w.pending[0].reply.id, w.pending[0].inbox))
    case Crash(_) => true
  }

  function Happen(w: World, e: Event): World
    requires Enabled(w, e)
  {
    match e
    case Tick(later) => w.(now := later)
    case Submit(id, inbox, blob) => Kept(w, id, inbox, blob)
    case OthersAcknowledge(inbox, ids) => w.(relay := Acknowledged(w.relay, inbox, ids))
    case Sweep => w.(relay := Swept(w.relay, w.now))
    case Begin(call) => w.(pending := Program(w.device, call), drawn := w.drawn + Draws(call))
    case Poll(clock, ack, at) =>
      w.(pending := BatchProgram(w.device, Collected(w.relay, Inbox(w), w.now).value, clock, ack, at))
    case Work =>
      var f := w.pending[0];
      var w' := Stepped(w);
      if f.Post? && !f.reply.Refused? then Kept(w', f.reply.id, f.inbox, f.blob)
      else if f.Ack? && !f.ackReply.AckRefused? then w'.(relay := Acknowledged(w.relay, Inbox(w), f.ids))
      else w'
    case Crash(at) => Reopened(w, at)
  }

  /** The identifier a call draws, if it draws one. */
  function Draws(call: Call): set<Ident> {
    if call.SendMessage? then {call.localId} else {}
  }

  /** The next effect is carried out on the device. */
  function Stepped(w: World): World
    requires w.pending != []
  {
    w.(device := Apply(w.device, w.pending[0]), pending := w.pending[1..],
       deleted := w.deleted + DeletedBy(w.device, w.pending[0]))
  }

  /** Memory is gone; the device is what was opened from disk, with retention applied. */
  function Reopened(w: World, at: u64): World {
    var d := w.device;
    w.(device := Reopen(d, at), pending := [],
       deleted := if CanOpen(d.db) then w.deleted + DeletedAt(d.db, AsI64(at), Policy(d.db).Seconds()) else w.deleted)
  }

  /** The identifiers of rows that are, or were until retention took them, in the receiver's messages. */
  function Seen(d: Device, taken: set<Ident>): set<Ident> {
    d.db.messages.Keys + taken
  }

  predicate TextFor(accepted: Mailbox, inbox: Ident, id: Ident) {
    id in accepted && accepted[id].inbox == inbox && Polls.IsText(accepted[id].blob)
  }

  /** A blob of this conversation and generation was accepted for this inbox and, if a text, stored. */
  ghost predicate Processed(accepted: Mailbox, inbox: Ident, seen: set<Ident>, c: Ident, g: nat) {
    exists id :: id in accepted && accepted[id].inbox == inbox && accepted[id].blob.Application?
                 && accepted[id].blob.group == c && accepted[id].blob.generation == g
                 && (TextFor(accepted, inbox, id) ==> id in seen)
  }

  /** Every generation these ratchets have used up belongs to a message that is safely stored. */
  ghost predicate Accounted(accepted: Mailbox, inbox: Ident, seen: set<Ident>, s: State) {
    forall c, g :: c in s.groups && g in s.groups[c].used ==> Processed(accepted, inbox, seen, c, g)
  }

  /** Only identifiers the relay gave out, and no text among them that is not stored. */
  ghost predicate AckIsSafe(accepted: Mailbox, inbox: Ident, seen: set<Ident>, ids: seq<Ident>) {
    forall id :: id in ids ==> id in accepted && (TextFor(accepted, inbox, id) ==> id in seen)
  }

  /** What must hold when an effect is carried out: no acknowledgement or snapshot ahead of the store. */
  ghost predicate MayDo(accepted: Mailbox, inbox: Ident, d: Device, taken: set<Ident>, e: Effect) {
    && Ordinary(e)
    && (e.Persist? ==> Accounted(accepted, inbox, Seen(d, taken), d.mls))
    && (e.Ack? ==> AckIsSafe(accepted, inbox, Seen(d, taken), e.ids))
  }

  /** Every effect of a program may be carried out when its turn comes. */
  ghost predicate MayRun(accepted: Mailbox, inbox: Ident, d: Device, taken: set<Ident>, p: seq<Effect>)
    decreases |p|
  {
    p == [] || (MayDo(accepted, inbox, d, taken, p[0])
                && MayRun(accepted, inbox, Apply(d, p[0]), taken + TakenBy(d, p[0]), p[1..]))
  }

  ghost function TakenAfter(d: Device, taken: set<Ident>, p: seq<Effect>): set<Ident>
    decreases |p|
  {
    if p == [] then taken else TakenAfter(Apply(d, p[0]), taken + TakenBy(d, p[0]), p[1..])
  }

  /** After a program, the ratchets in memory are accounted for again. */
  ghost predicate EndsAccounted(accepted: Mailbox, inbox: Ident, d: Device, taken: set<Ident>, p: seq<Effect>) {
    Accounted(accepted, inbox, Seen(Run(d, p), TakenAfter(d, taken, p)), Run(d, p).mls)
  }

  ghost predicate Safe(w: World) {
    && Restarts.DiskOk(w.device) && Restarts.Steady(Run(w.device, w.pending))
    && (forall id :: id in w.relay ==> id in w.accepted && w.accepted[id] == w.relay[id])
    // every accepted text is queued, expired, stored, or was stored and has outlived its retention
    && (forall id :: TextFor(w.accepted, Inbox(w), id) ==>
          id in w.relay || w.accepted[id].expires <= w.now || id in Seen(w.device, Taken(w)))
    // the snapshot on disk has used up nothing that is not stored
    && w.device.db.mls.Some?
    && Accounted(w.accepted, Inbox(w), Seen(w.device, Taken(w)), w.device.db.mls.value)
    // and the call in progress will keep it so
    && MayRun(w.accepted, Inbox(w), w.device, Taken(w), w.pending)
    && EndsAccounted(w.accepted, Inbox(w), w.device, Taken(w), w.pending)
  }

  // ---- What every effect keeps ---------------------------------------------------

  lemma {:induction false} SeenGrows(d: Device, taken: set<Ident>, e: Effect)
    requires Ordinary(e)
    ensures Seen(d, taken) <= Seen(Apply(d, e), taken + TakenBy(d, e))
  {
    if e.Sql? && e.stmt.PurgeMessages? {
      DeletedAreGone(d.db, e.stmt.now, e.stmt.everywhere);
    }
  }

  lemma {:induction false} AccountedGrows(accepted: Mailbox, more: Mailbox, inbox: Ident, seen: set<Ident>,
      further: set<Ident>, s: State)
    requires Accounted(accepted, inbox, seen, s) && seen <= further
    requires forall id :: id in accepted ==> id in more && more[id] == accepted[id]
    ensures Accounted(more, inbox, further, s)
  {
    forall c, g | c in s.groups && g in s.groups[c].used
      ensures Processed(more, inbox, further, c, g)
    {
      assert Processed(accepted, inbox, seen, c, g);
      var id :| id in accepted && accepted[id].inbox == inbox && accepted[id].blob.Application?
                && accepted[id].blob.group == c && accepted[id].blob.generation == g
                && (TextFor(accepted, inbox, id) ==> id in seen);
      assert id in more && more[id] == accepted[id];
    }
  }

  lemma {:induction false} MayRunGrows(accepted: Mailbox, more: Mailbox, inbox: Ident, d: Device, taken: set<Ident>,
      p: seq<Effect>)
    requires MayRun(accepted, inbox, d, taken, p)
    requires forall id :: id in accepted ==> id in more && more[id] == accepted[id]
    ensures MayRun(more, inbox, d, taken, p)
    decreases |p|
  {
    if p != [] {
      if p[0].Persist? {
        AccountedGrows(accepted, more, inbox, Seen(d, taken), Seen(d, taken), d.mls);
      }
      MayRunGrows(accepted, more, inbox, Apply(d, p[0]), taken + TakenBy(d, p[0]), p[1..]);
    }
  }

  lemma {:induction false} MayRunConcat(accepted: Mailbox, inbox: Ident, d: Device, taken: set<Ident>, a: seq<Effect>,
      b: seq<Effect>)
    requires MayRun(accepted, inbox, d, taken, a) && MayRun(accepted, inbox, Run(d, a), TakenAfter(d, taken, a), b)
    ensures MayRun(accepted, inbox, d, taken, a + b)
    ensures TakenAfter(d, taken, a + b) == TakenAfter(Run(d, a), TakenAfter(d, taken, a), b)
    ensures Run(d, a + b) == Run(Run(d, a), b)
    decreases |a|
  {
    RunConcat(d, a, b);
    if a == [] {
      assert a + b == b;
    } else {
      assert (a + b)[0] == a[0] && (a + b)[1..] == a[1..] + b;
      MayRunConcat(accepted, inbox, Apply(d, a[0]), taken + TakenBy(d, a[0]), a[1..], b);
    }
  }

  // ---- Programs that decrypt and acknowledge nothing -----------------------------

  predicate Harmless(e: Effect) {
    Ordinary(e) && !e.Decrypt? && !e.Ack?
  }

  predicate AllHarmless(p: seq<Effect>) {
    forall i :: 0 <= i < |p| ==> Harmless(p[i])
  }

  lemma {:induction false} HarmlessStep(accepted: Mailbox, inbox: Ident, d: Device, taken: set<Ident>, e: Effect)
    requires Accounted(accepted, inbox, Seen(d, taken), d.mls) && Harmless(e)
    ensures Accounted(accepted, inbox, Seen(Apply(d, e), taken + TakenBy(d, e)), Apply(d, e).mls)
  {
    SeenGrows(d, taken, e);
    AccountedGrows(accepted, accepted, inbox, Seen(d, taken), Seen(Apply(d, e), taken + TakenBy(d, e)), d.mls);
  }

  lemma {:induction false} HarmlessMayRun(accepted: Mailbox, inbox: Ident, d: Device, taken: set<Ident>, p: seq<Effect>)
    requires Accounted(accepted, inbox, Seen(d, taken), d.mls) && AllHarmless(p)
    ensures MayRun(accepted, inbox, d, taken, p) && EndsAccounted(accepted, inbox, d, taken, p)
    decreases |p|
  {
    if p != [] {
      assert Harmless(p[0]);
      HarmlessStep(accepted, inbox, d, taken, p[0]);
      HarmlessMayRun(accepted, inbox, Apply(d, p[0]), taken + TakenBy(d, p[0]), p[1..]);
    }
  }

  // ---- The second pass --------------------------------------------------------------

  /** Effects that save and acknowledge nothing and delete no message. */
  predicate AllQuietly(p: seq<Effect>) {
    forall i :: 0 <= i < |p| ==>
      Ordinary(p[i]) && !p[i].Persist? && !p[i].Ack? && !(p[i].Sql? && p[i].stmt.PurgeMessages?)
  }

  lemma {:induction false} QuietlyMayRun(accepted: Mailbox, inbox: Ident, d: Device, taken: set<Ident>, p: seq<Effect>)
    requires AllQuietly(p)
    ensures MayRun(accepted, inbox, d, taken, p) && TakenAfter(d, taken, p) == taken
    decreases |p|
  {
    if p != [] {
      assert Ordinary(p[0]);
      assert taken + {} == taken;
      QuietlyMayRun(accepted, inbox, Apply(d, p[0]), taken, p[1..]);
    }
  }

  lemma {:induction false} ReadQuietly(d: Device, mail: Mail, clock: Clock)
    ensures AllQuietly(ReadProgram(d, mail, clock)) && AllOrdinary(ReadProgram(d, mail, clock))
  {
    ReadTakes(d, mail, clock);
  }

  /** The envelope came from the relay, for this inbox. */
  predicate Genuine(accepted: Mailbox, inbox: Ident, mail: Mail) {
    mail.id in accepted && accepted[mail.id].inbox == inbox && accepted[mail.id].blob == mail.blob
  }

  lemma {:induction false} ReadStaysAccounted(accepted: Mailbox, inbox: Ident, d: Device, taken: set<Ident>, mail: Mail,
      clock: Clock)
    requires Sound(d) && Accounted(accepted, inbox, Seen(d, taken), d.mls) && Genuine(accepted, inbox, mail)
    ensures var after := ReadOne(d, mail, clock);
            && Accounted(accepted, inbox, Seen(after, taken), after.mls) && Seen(d, taken) <= Seen(after, taken)
            && (Handles(d, mail.blob) && Polls.IsText(mail.blob) ==> mail.id in Seen(after, taken))
  {
    var after := ReadOne(d, mail, clock);
    Reading.ReadOneIs(d, mail, clock);
    assert d.db.messages.Keys <= after.db.messages.Keys;
    AccountedGrows(accepted, accepted, inbox, Seen(d, taken), Seen(after, taken), d.mls);
    if Opens(d, mail.blob) {
      assert Processed(accepted, inbox, Seen(after, taken), mail.blob.group, mail.blob.generation);
    }
  }

  lemma {:induction false} ReadsStayAccounted(accepted: Mailbox, inbox: Ident, d: Device, taken: set<Ident>,
      todo: seq<Mail>, clock: Clock)
    requires Sound(d) && Accounted(accepted, inbox, Seen(d, taken), d.mls)
    requires forall m :: m in todo ==> Genuine(accepted, inbox, m)
    ensures var p := ReadAllProgram(d, todo, clock);
            var after := ReadAll(d, todo, clock);
            && AllQuietly(p) && AllOrdinary(p)
            && Accounted(accepted, inbox, Seen(after, taken), after.mls) && Seen(d, taken) <= Seen(after, taken)
            && AckIsSafe(accepted, inbox, Seen(after, taken), ReadIds(d, todo, clock))
    decreases |todo|
  {
    if todo != [] {
      var m := todo[0];
      assert m in todo;
      var next := ReadOne(d, m, clock);
      ReadQuietly(d, m, clock);
      ReadStaysAccounted(accepted, inbox, d, taken, m, clock);
      Reading.ReadOneSound(d, m, clock);
      ReadsStayAccounted(accepted, inbox, next, taken, todo[1..], clock);
    }
  }

  // ---- A whole poll -----------------------------------------------------------------

  lemma {:induction false} JoinedIdsAreWelcomes(accepted: Mailbox, inbox: Ident, seen: set<Ident>, mls: State,
      batch: seq<Mail>)
    requires forall m :: m in batch ==> Genuine(accepted, inbox, m)
    ensures AckIsSafe(accepted, inbox, seen, JoinedIds(mls, batch))
    decreases |batch|
  {
    if batch != [] {
      assert batch[0] in batch;
      JoinedIdsAreWelcomes(accepted, inbox, seen, MlsAfter(mls, batch[0].blob), batch[1..]);
    }
  }

  lemma {:induction false} UnjoinedIsGenuine(accepted: Mailbox, inbox: Ident, mls: State, batch: seq<Mail>)
    requires forall m :: m in batch ==> Genuine(accepted, inbox, m)
    ensures forall m :: m in Unjoined(mls, batch) ==> Genuine(accepted, inbox, m)
    decreases |batch|
  {
    if batch != [] {
      assert batch[0] in batch;
      UnjoinedIsGenuine(accepted, inbox, MlsAfter(mls, batch[0].blob), batch[1..]);
    }
  }

  lemma {:induction false} AckMayRun(accepted: Mailbox, inbox: Ident, d: Device, taken: set<Ident>, handled: seq<Ident>,
      ack: AckReply)
    requires AckIsSafe(accepted, inbox, Seen(d, taken), handled)
    ensures var p := [Ack(handled, ack)];
            MayRun(accepted, inbox, d, taken, p) && TakenAfter(d, taken, p) == taken && Run(d, p) == d
  {
    var p := [Ack(handled, ack)];
    assert p[1..] == [];
    assert TakenBy(d, p[0]) == {} && taken + {} == taken;
    assert Run(d, []) == d;
    assert TakenAfter(d, taken, []) == taken;
  }

  /** Acknowledge, then save, then apply retention: safe once everything handled is stored. */
  lemma {:induction false} SettleMayRun(accepted: Mailbox, inbox: Ident, d: Device, taken: set<Ident>,
      handled: seq<Ident>, ack: AckReply, now: u64)
    requires Accounted(accepted, inbox, Seen(d, taken), d.mls) && AckIsSafe(accepted, inbox, Seen(d, taken), handled)
    ensures var p := SettleProgram(d.db, handled, ack, now);
            MayRun(accepted, inbox, d, taken, p) && EndsAccounted(accepted, inbox, d, taken, p)
  {
    var finish := [Persist] + Sqls(PurgeProgram(d.db, now));
    assert AllHarmless(finish);
    HarmlessMayRun(accepted, inbox, d, taken, finish);
    if handled != [] {
      var first := [Ack(handled, ack)];
      AckMayRun(accepted, inbox, d, taken, handled, ack);
      if ack.Erased? {
        MayRunConcat(accepted, inbox, d, taken, first, finish);
      }
    }
  }

  lemma {:induction false} BatchMayRun(accepted: Mailbox, inbox: Ident, d: Device, taken: set<Ident>, batch: seq<Mail>,
      clock: Clock, ack: AckReply, now: u64)
    requires Restarts.Steady(d) && Accounted(accepted, inbox, Seen(d, taken), d.mls)
    requires forall m :: m in batch ==> Genuine(accepted, inbox, m)
    ensures var p := BatchProgram(d, batch, clock, ack, now);
            MayRun(accepted, inbox, d, taken, p) && EndsAccounted(accepted, inbox, d, taken, p)
  {
    var joins := JoinAllProgram(d.mls, batch);
    var mid := Run(d, joins);
    var taken1 := TakenAfter(d, taken, joins);
    JoinsJoin(d.mls, batch);
    HarmlessMayRun(accepted, inbox, d, taken, joins);
    Restarts.JoinsSteady(d, batch);
    var todo := Unjoined(d.mls, batch);
    var second := ReadAllProgram(mid, todo, clock);
    UnjoinedIsGenuine(accepted, inbox, d.mls, batch);
    ReadsStayAccounted(accepted, inbox, mid, taken1, todo, clock);
    QuietlyMayRun(accepted, inbox, mid, taken1, second);
    RunReadAll(mid, todo, clock);
    MayRunConcat(accepted, inbox, d, taken, joins, second);
    var after := TakeIn(d, batch, clock);
    JoinedIdsAreWelcomes(accepted, inbox, Seen(after, taken1), d.mls, batch);
    var handled := HandledIds(d, batch, clock);
    SettleMayRun(accepted, inbox, after, taken1, handled, ack, now);
    MayRunConcat(accepted, inbox, d, taken, joins + second, SettleProgram(after.db, handled, ack, now));
  }

  // ---- Other calls --------------------------------------------------------------------

  lemma {:induction false} CallHarmless(d: Device, call: Call)
    requires !call.ReceiveMessages?
    ensures AllHarmless(Program(d, call))
  {
    match call
    case SendMessage(c, body, posts, localId, at, queuedAt) => SendPosts(d, c, body, posts, localId, at, queuedAt);
    case AddContact(name, invite, group, posts) => AddContactIntroduces(d, name, invite, group, posts);
    case FlushOutbox(posts) => Calls.FlushPosts(d.db.outbox, QueuedOrder(d.db), posts);
    case _ => UpkeepUpkeeps(d, call);
  }

  // ---- Every event keeps every message ---------------------------------------------------

  lemma {:induction false} CollectedIsGenuine(w: World)
    requires Safe(w) && Collected(w.relay, Inbox(w), w.now).Ok?
    ensures forall m :: m in Collected(w.relay, Inbox(w), w.now).value ==> Genuine(w.accepted, Inbox(w), m)
  {
    var batch := Collected(w.relay, Inbox(w), w.now).value;
    CollectedExactly(w.relay, Inbox(w), w.now, batch);
    forall m | m in batch ensures Genuine(w.accepted, Inbox(w), m) {
      var i :| 0 <= i < |batch| && batch[i] == m;
      assert Returns(w.relay, Inbox(w), w.now, batch[i]);
    }
  }

  lemma {:induction false} BeginIsSafe(w: World, call: Call)
    requires Safe(w) && Enabled(w, Begin(call))
    ensures Safe(Happen(w, Begin(call)))
  {
    var p := Program(w.device, call);
    CallHarmless(w.device, call);
    RunNothing(w.device, Taken(w));
    HarmlessMayRun(w.accepted, Inbox(w), w.device, Taken(w), p);
    Restarts.CallSteady(w.device, call);
    StartingIsSafe(w, p, w.drawn + Draws(call));
  }

  lemma {:induction false} PollIsSafe(w: World, e: Event)
    requires Safe(w) && e.Poll? && Enabled(w, e)
    ensures Safe(Happen(w, e))
  {
    var batch := Collected(w.relay, Inbox(w), w.now).value;
    RunNothing(w.device, Taken(w));
    CollectedIsGenuine(w);
    BatchMayRun(w.accepted, Inbox(w), w.device, Taken(w), batch, e.clock, e.ack, e.at);
    Restarts.BatchSteady(w.device, batch, e.clock, e.ack, e.at);
    StartingIsSafe(w, BatchProgram(w.device, batch, e.clock, e.ack, e.at), w.drawn);
  }

  lemma {:induction false} StartingIsSafe(w: World, p: seq<Effect>, drawn: set<Ident>)
    requires Safe(w) && Restarts.Steady(Run(w.device, p))
    requires MayRun(w.accepted, Inbox(w), w.device, Taken(w), p)
    requires EndsAccounted(w.accepted, Inbox(w), w.device, Taken(w), p)
    ensures Safe(w.(pending := p, drawn := drawn))
  {
  }

  /** A newly accepted blob is queued, and changes nothing for the others. */
  lemma {:induction false} KeptIsSafe(w: World, id: Ident, inbox: Ident, blob: Blob)
    requires Safe(w) && Takes(w, id, inbox)
    ensures Safe(Kept(w, id, inbox, blob)) == true
  {
    TextsStaySafe(w, id, inbox, blob);
    MoreAcceptedIsSafe(w, Kept(w, id, inbox, blob));
  }

  lemma {:induction false} MoreAcceptedIsSafe(w: World, more: World)
    requires Safe(w) && more == w.(relay := more.relay, accepted := more.accepted)
    requires forall id :: id in w.accepted ==> id in more.accepted && more.accepted[id] == w.accepted[id]
    requires forall id :: id in more.relay ==> id in more.accepted && more.accepted[id] == more.relay[id]
    requires forall id :: TextFor(more.accepted, Inbox(w), id) ==>
               id in more.relay || more.accepted[id].expires <= w.now || id in Seen(w.device, Taken(w))
    ensures Safe(more)
  {
    CallStaysAccounted(w, more.accepted);
  }

  /** More being accepted takes nothing away from what is accounted for. */
  lemma {:induction false} CallStaysAccounted(w: World, more: Mailbox)
    requires Safe(w) && forall id :: id in w.accepted ==> id in more && more[id] == w.accepted[id]
    ensures Accounted(more, Inbox(w), Seen(w.device, Taken(w)), w.device.db.mls.value)
    ensures MayRun(more, Inbox(w), w.device, Taken(w), w.pending)
    ensures EndsAccounted(more, Inbox(w), w.device, Taken(w), w.pending)
  {
    var seen := Seen(w.device, Taken(w));
    var end := Seen(Run(w.device, w.pending), TakenAfter(w.device, Taken(w), w.pending));
    AccountedGrows(w.accepted, more, Inbox(w), seen, seen, w.device.db.mls.value);
    MayRunGrows(w.accepted, more, Inbox(w), w.device, Taken(w), w.pending);
    AccountedGrows(w.accepted, more, Inbox(w), end, end, Run(w.device, w.pending).mls);
  }

  lemma {:induction false} TextsStaySafe(w: World, id: Ident, inbox: Ident, blob: Blob)
    requires Safe(w) && Takes(w, id, inbox)
    ensures var w' := Kept(w, id, inbox, blob);
            forall t :: TextFor(w'.accepted, Inbox(w), t) ==>
              t in w'.relay || w'.accepted[t].expires <= w'.now || t in Seen(w.device, Taken(w))
  {
    var w' := Kept(w, id, inbox, blob);
    forall t | TextFor(w'.accepted, Inbox(w), t)
      ensures t in w'.relay || w'.accepted[t].expires <= w'.now || t in Seen(w.device, Taken(w))
    {
      if t != id {
        assert TextFor(w.accepted, Inbox(w), t);
      }
    }
  }

  /** Losing rows that are expired, foreign or stored loses no message. */
  lemma {:induction false} ShrinkingIsSafe(w: World, relay: Mailbox)
    requires Safe(w)
    requires forall id :: id in relay ==> id in w.relay && relay[id] == w.relay[id]
    requires forall id :: id in w.relay && id !in relay && TextFor(w.accepted, Inbox(w), id) ==>
               w.accepted[id].expires <= w.now || id in Seen(w.device, Taken(w))
    ensures Safe(w.(relay := relay))
  {
  }

  /** Carrying out the next effect, its dealings with the relay aside. */
  lemma {:induction false} EffectIsSafe(w: World)
    requires Safe(w) && w.pending != []
    ensures var w' := Stepped(w);
            Safe(w') && Inbox(w') == Inbox(w) && Seen(w.device, Taken(w)) <= Seen(w'.device, Taken(w'))
  {
    var f := w.pending[0];
    var d' := Apply(w.device, f);
    var taken' := Taken(w) + TakenBy(w.device, f);
    assert Taken(Stepped(w)) == taken';
    assert MayDo(w.accepted, Inbox(w), w.device, Taken(w), f);
    SeenGrows(w.device, Taken(w), f);
    Restarts.DiskStep(w.device, f);
    Restarts.MemoryKeepsGroups(w.device, f);
    if f.Persist? {
      AccountedGrows(w.accepted, w.accepted, Inbox(w), Seen(w.device, Taken(w)), Seen(d', taken'), w.device.mls);
    } else {
      Restarts.EffectKeepsSnapshot(w.device, f);
      AccountedGrows(w.accepted, w.accepted, Inbox(w), Seen(w.device, Taken(w)), Seen(d', taken'),
                     w.device.db.mls.value);
    }
  }

  lemma {:induction false} WorkIsSafe(w: World)
    requires Safe(w) && Enabled(w, Work)
    ensures Safe(Happen(w, Work))
  {
    var f := w.pending[0];
    var w' := Stepped(w);
    EffectIsSafe(w);
    if f.Post? && !f.reply.Refused? {
      KeptIsSafe(w', f.reply.id, f.inbox, f.blob);
    } else if f.Ack? && !f.ackReply.AckRefused? {
      assert MayDo(w.accepted, Inbox(w), w.device, Taken(w), f);
      ShrinkingIsSafe(w', Acknowledged(w'.relay, Inbox(w'), f.ids));
    }
  }

  lemma {:induction false} CrashIsSafe(w: World, at: u64)
    requires Safe(w)
    ensures Safe(Reopened(w, at))
  {
    ReopenKeepsSeen(w, at);
    IdleIsSafe(w, Reopened(w, at));
  }

  lemma {:induction false} ReopenKeepsSeen(w: World, at: u64)
    requires Restarts.DiskOk(w.device)
    ensures var r := Reopened(w, at).device;
            && Restarts.Steady(r) && r.identity == w.device.identity && r.db.mls == w.device.db.mls
            && r.db.mls == Some(r.mls)
            && Seen(w.device, Taken(w)) <= Seen(r, Taken(Reopened(w, at)))
  {
    Restarts.ReopenSteady(w.device, at);
    Restarts.PurgedKeeps(w.device.db, at);
    PurgedIs(w.device.db, at);
    DeletedAreGone(w.device.db, AsI64(at), Policy(w.device.db).Seconds());
  }

  /** Back between two calls, with nothing forgotten on disk, the world is safe again. */
  lemma {:induction false} IdleIsSafe(w: World, w': World)
    requires Safe(w) && w' == w.(device := w'.device, pending := [], deleted := w'.deleted)
    requires Restarts.Steady(w'.device) && w'.device.identity == w.device.identity
    requires w'.device.db.mls == w.device.db.mls && w'.device.db.mls == Some(w'.device.mls)
    requires Seen(w.device, Taken(w)) <= Seen(w'.device, Taken(w'))
    ensures Safe(w')
  {
    AccountedGrows(w.accepted, w.accepted, Inbox(w), Seen(w.device, Taken(w)), Seen(w'.device, Taken(w')),
                   w.device.db.mls.value);
    RunNothing(w'.device, Taken(w'));
  }

  lemma {:induction false} RunNothing(d: Device, taken: set<Ident>)
    ensures Run(d, []) == d && TakenAfter(d, taken, []) == taken
  {
  }

  lemma {:induction false} EventIsSafe(w: World, e: Event)
    requires Safe(w) && Enabled(w, e)
    ensures Safe(Happen(w, e))
  {
    match e
    case Tick(later) =>
    case Submit(id, inbox, blob) => KeptIsSafe(w, id, inbox, blob);
    case OthersAcknowledge(inbox, ids) => ShrinkingIsSafe(w, Acknowledged(w.relay, inbox, ids));
    case Sweep => ShrinkingIsSafe(w, Swept(w.relay, w.now));
    case Begin(call) => BeginIsSafe(w, call);
    case Poll(_, _, _) => PollIsSafe(w, e);
    case Work => WorkIsSafe(w);
    case Crash(at) => CrashIsSafe(w, at);
  }

  // ---- What the rows hold ---------------------------------------------------------------

  function Me(w: World): Bytes {
    w.device.identity.signerPublic
  }

  /** Every row, stored or deleted, is the text its identifier was given to, and every deleted one was due. */
  ghost predicate Truthful(w: World) {
    && (forall id :: id in w.device.db.messages ==> Rightful(Me(w), w.accepted, w.drawn, id, w.device.db.messages[id]))
    && (forall id :: id in w.deleted ==> Rightful(Me(w), w.accepted, w.drawn, id,
                                                  w.deleted[id].row) && Due(w.deleted[id]))
    && (forall id :: id in w.accepted ==> id !in w.drawn)
    && WritesRightfully(Me(w), w.accepted, w.drawn, w.pending)
  }

  lemma {:induction false} BeginIsTruthful(w: World, call: Call)
    requires Truthful(w) && Safe(w) && Enabled(w, Begin(call))
    ensures Truthful(Happen(w, Begin(call)))
  {
    CallWrites(Me(w), w.accepted, w.drawn + Draws(call), w.device, call);
  }

  lemma {:induction false} PollIsTruthful(w: World, e: Event)
    requires Truthful(w) && Safe(w) && e.Poll? && Enabled(w, e)
    ensures Truthful(Happen(w, e)) == true
  {
    var batch := Collected(w.relay, Inbox(w), w.now).value;
    CollectedIsGenuine(w);
    assert forall m :: m in batch ==> FromRelay(w.accepted, m);
    BatchWrites(w.accepted, w.drawn, w.device, batch, e.clock, e.ack, e.at);
    PendingIsTruthful(w, BatchProgram(w.device, batch, e.clock, e.ack, e.at));
  }

  lemma {:induction false} PendingIsTruthful(w: World, p: seq<Effect>)
    requires Truthful(w) && WritesRightfully(Me(w), w.accepted, w.drawn, p)
    ensures Truthful(w.(pending := p)) == true
  {
  }

  lemma {:induction false} KeptIsTruthful(w: World, id: Ident, inbox: Ident, blob: Blob)
    requires Truthful(w) && Takes(w, id, inbox)
    ensures Truthful(Kept(w, id, inbox, blob))
  {
    var w' := Kept(w, id, inbox, blob);
    forall i | 0 <= i < |w.pending| && Puts(w.pending[i])
      ensures var s := w.pending[i].stmt;
              || Rightful(Me(w), w'.accepted, w.drawn, s.id, s.message)
              || DeliveredBefore(Me(w), w.pending, i, s.id, s.message)
    {
      assert Rightful(Me(w), w.accepted, w.drawn, w.pending[i].stmt.id, w.pending[i].stmt.message)
          || DeliveredBefore(Me(w), w.pending, i, w.pending[i].stmt.id, w.pending[i].stmt.message);
    }
  }

  /** The message rows after a statement: those of before, less what a purge deletes, and the one it writes. */
  lemma {:induction false} RowsAfter(db: Db, s: Stmt, id: Ident)
    requires !s.Clear? && id in Exec(db, s).messages
    ensures (id in db.messages && Exec(db, s).messages[id] == db.messages[id])
            || (s.PutMessage? && s.id == id && Exec(db, s).messages[id] == s.message)
  {
  }

  /**
   What remains of a program still writes rightfully once its first effect is done and, if that was a post,
   accepted.
  */
  lemma {:induction false} RestWrites(me: Bytes, accepted: Mailbox, more: Mailbox, drawn: set<Ident>, p: seq<Effect>)
    requires p != [] && WritesRightfully(me, accepted, drawn, p)
    requires forall id :: id in accepted ==> id in more && more[id] == accepted[id]
    requires p[0].Post? && p[0].reply.Accepted? ==> p[0].reply.id in more && more[p[0].reply.id].blob == p[0].blob
    ensures WritesRightfully(me, more, drawn, p[1..])
  {
    var rest := p[1..];
    forall i | 0 <= i < |rest| && Puts(rest[i])
      ensures var s := rest[i].stmt;
              Rightful(me, more, drawn, s.id, s.message) || DeliveredBefore(me, rest, i, s.id, s.message)
    {
      var s := rest[i].stmt;
      assert p[i + 1] == rest[i];
      if !Rightful(me, accepted, drawn, s.id, s.message) {
        var j :| 0 <= j < i + 1 && Delivers(me, p[j], s.id, s.message);
        if j > 0 {
          assert Delivers(me, rest[j - 1], s.id, s.message);
        }
      }
    }
  }

  lemma {:induction false} WorkIsTruthful(w: World)
    requires Truthful(w) && Safe(w) && Enabled(w, Work)
    ensures Truthful(Happen(w, Work))
  {
    var f := w.pending[0];
    var w' := Stepped(w);
    var end := Happen(w, Work);
    assert MayDo(w.accepted, Inbox(w), w.device, Taken(w), f);
    Restarts.MemoryKeepsGroups(w.device, f);
    DeletionsAreDue(w);
    RestWrites(Me(w), w.accepted, end.accepted, w.drawn, w.pending);
    RowsStayRightful(w);
    assert forall id, row :: Rightful(Me(w), w.accepted, w.drawn, id, row) ==>
             Rightful(Me(w), end.accepted, w.drawn, id, row);
  }

  lemma {:induction false} RowsStayRightful(w: World)
    requires Truthful(w) && w.pending != [] && (w.pending[0].Sql? ==> !w.pending[0].stmt.Clear?)
    ensures var rows := Stepped(w).device.db.messages;
            forall id :: id in rows ==> Rightful(Me(w), w.accepted, w.drawn, id, rows[id])
  {
    var rows := Stepped(w).device.db.messages;
    forall id | id in rows ensures Rightful(Me(w), w.accepted, w.drawn, id, rows[id]) {
      if w.pending[0].Sql? {
        RowsAfter(w.device.db, w.pending[0].stmt, id);
        FirstIsRightful(w, id);
      }
    }
  }

  lemma {:induction false} FirstIsRightful(w: World, id: Ident)
    requires Truthful(w) && w.pending != []
    ensures Puts(w.pending[0]) ==> Rightful(Me(w), w.accepted, w.drawn, w.pending[0].stmt.id, w.pending[0].stmt.message)
  {
  }

  lemma {:induction false} DeletionsAreDue(w: World)
    requires Truthful(w) && w.pending != []
    ensures forall id :: id in Stepped(w).deleted ==>
              Rightful(Me(w), w.accepted, w.drawn, id, Stepped(w).deleted[id].row) && Due(Stepped(w).deleted[id])
  {
    var f := w.pending[0];
    if f.Sql? && f.stmt.PurgeMessages? {
      DeletedAreGone(w.device.db, f.stmt.now, f.stmt.everywhere);
    }
  }

  /** Reopening keeps some of the rows and records the others as deleted. */
  lemma {:induction false} ReopenedRows(w: World, at: u64)
    requires Restarts.DiskOk(w.device)
    ensures var w' := Reopened(w, at);
            && w'.device.identity == w.device.identity
            && (forall id :: id in w'.device.db.messages ==>
                 id in w.device.db.messages && w'.device.db.messages[id] == w.device.db.messages[id])
            && (forall id ::
                  id in w'.deleted && id !in DeletedAt(w.device.db, AsI64(at), Policy(w.device.db).Seconds()) ==>
                  id in w.deleted && w'.deleted[id] == w.deleted[id])
            && (forall id :: id in DeletedAt(w.device.db, AsI64(at), Policy(w.device.db).Seconds()) ==>
                  w'.deleted[id].row == w.device.db.messages[id] && Due(w'.deleted[id]))
  {
    Restarts.ReopenSteady(w.device, at);
    PurgedIs(w.device.db, at);
    DeletedAreGone(w.device.db, AsI64(at), Policy(w.device.db).Seconds());
  }

  lemma {:induction false} CrashIsTruthful(w: World, at: u64)
    requires Truthful(w) && Restarts.DiskOk(w.device)
    ensures Truthful(Reopened(w, at))
  {
    var w' := Reopened(w, at);
    ReopenedRows(w, at);
    forall id | id in w'.deleted
      ensures Rightful(Me(w), w.accepted, w.drawn, id, w'.deleted[id].row) && Due(w'.deleted[id])
    {
      if id in DeletedAt(w.device.db, AsI64(at), Policy(w.device.db).Seconds()) {
        assert Rightful(Me(w), w.accepted, w.drawn, id, w.device.db.messages[id]);
      }
    }
  }

  lemma {:induction false} EventIsTruthful(w: World, e: Event)
    requires Truthful(w) && Safe(w) && Enabled(w, e)
    ensures Truthful(Happen(w, e))
  {
    match e
    case Tick(later) =>
    case Submit(id, inbox, blob) => KeptIsTruthful(w, id, inbox, blob);
    case OthersAcknowledge(inbox, ids) =>
    case Sweep =>
    case Begin(call) => BeginIsTruthful(w, call);
    case Poll(_, _, _) => PollIsTruthful(w, e);
    case Work => WorkIsTruthful(w);
    case Crash(at) => CrashIsTruthful(w, at);
  }

  predicate Possible(w: World, run: seq<Event>)
    decreases |run|
  {
    run == [] || (Enabled(w, run[0]) && Possible(Happen(w, run[0]), run[1..]))
  }

  function After(w: World, run: seq<Event>): World
    requires Possible(w, run)
    decreases |run|
  {
    if run == [] then w else After(Happen(w, run[0]), run[1..])
  }

  lemma {:induction false} RunIsSafe(w: World, run: seq<Event>)
    requires Safe(w) && Truthful(w) && Possible(w, run)
    ensures Safe(After(w, run)) && Truthful(After(w, run)) && Me(After(w, run)) == Me(w)
    decreases |run|
  {
    if run != [] {
      EventIsSafe(w, run[0]);
      EventIsTruthful(w, run[0]);
      SameOwnerAfter(w, run[0]);
      RunIsSafe(Happen(w, run[0]), run[1..]);
    }
  }

  /** Nothing sent yet, and a device as first run leaves it. */
  predicate Initial(w: World) {
    && w.relay == map[] && w.accepted == map[] && w.pending == [] && w.deleted == map[] && w.drawn == {}
    && w.device.db == EMPTY.(identity := Some(w.device.identity), mls := Some(w.device.mls))
    && w.device.identity.signerPublic == w.device.mls.me && w.device.mls.groups == map[] && w.device.live == map[]
  }

  lemma {:induction false} SameOwnerAfter(w: World, e: Event)
    requires Safe(w) && Enabled(w, e)
    ensures Me(Happen(w, e)) == Me(w)
  {
    if e.Work? {
      Restarts.MemoryKeepsGroups(w.device, w.pending[0]);
    } else if e.Crash? {
      Restarts.ReopenSteady(w.device, e.at);
    }
  }

  /** Stored: the device holds a row that is this text. */
  predicate Stored(w: World, id: Ident)
    requires id in w.accepted
  {
    id in w.device.db.messages && Matches(Me(w), w.device.db.messages[id], w.accepted[id].blob)
  }

  /** Deleted: it held such a row, and a purge that found it older than its interval deleted it. */
  predicate OutlivedItsRetention(w: World, id: Ident)
    requires id in w.accepted
  {
    id in w.deleted && Matches(Me(w), w.deleted[id].row, w.accepted[id].blob) && Due(w.deleted[id])
  }

  /**
   In every interleaving of senders, polls, acknowledgements, sweeps and crashes: each text the relay
   accepted for the device is still queued, or past its expiry, or stored with its conversation, direction
   and body, or was stored so until retention deleted a row that had outlived its interval. And the ratchets
   saved on disk have used up only generations whose message was accepted and, if a text, stored.
  */
  lemma {:induction false} NoAcceptedMessageIsLost(w: World, run: seq<Event>)
    requires Initial(w) && Possible(w, run)
    ensures var end := After(w, run);
            && (forall id :: TextFor(end.accepted, Inbox(end), id) ==>
                  id in end.relay || end.accepted[id].expires <= end.now || Stored(end, id)
                  || OutlivedItsRetention(end, id))
            && end.device.db.mls.Some?
            && Accounted(end.accepted, Inbox(end), Seen(end.device, Taken(end)), end.device.db.mls.value)
  {
    assert Run(w.device, []) == w.device;
    RunIsSafe(w, run);
  }
}
