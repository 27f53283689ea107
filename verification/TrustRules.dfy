/** Verification and key-change warnings over sessions. */
module TrustRules {
  import opened Basics
  import opened Mls
  import opened Tables
  import opened StoreRules
  import opened Client
  import opened Calls
  import opened OutboxRules
  import Restarts

  /** The user's verify actions among the effects of a program. */
  function RememberRun(h: History, d: Device, p: seq<Effect>): History
    decreases |p|
  {
    if p == [] then h
    else RememberRun(if p[0].Sql? then Remember(h, d.db, p[0].stmt) else h, Apply(d, p[0]), p[1..])
  }

  lemma {:induction false} TrustRun(d: Device, h: History, p: seq<Effect>)
    requires Trusted(d.db, h) && AllOrdinary(p)
    ensures Trusted(Run(d, p).db, RememberRun(h, d, p))
    decreases |p|
  {
    if p != [] {
      assert Ordinary(p[0]);
      if p[0].Sql? {
        TrustStep(d.db, h, p[0].stmt);
        TrustRun(Apply(d, p[0]), Remember(h, d.db, p[0].stmt), p[1..]);
      } else {
        TrustRun(Apply(d, p[0]), h, p[1..]);
      }
    }
  }

  function RememberSession(h: History, d: Device, steps: seq<Step>): History
    decreases |steps|
  {
    if steps == [] then h
    else RememberSession(RememberRun(h, d, Effects(d, steps[0])), AfterStep(d, steps[0]), steps[1..])
  }

  lemma {:induction false} EffectsAreOrdinary(d: Device, s: Step)
    ensures AllOrdinary(Effects(d, s))
  {
    if !s.Restart? {
      ProgramsAreOrdinary(d, s.call);
    }
  }

  /**
   Whatever the calls, the peers and the crashes: a contact shows as verified only if the user's latest
   verify action on it was "verified", made while the key stored now was the stored one.
  */
  lemma {:induction false} VerifiedMeansTheUserVerifiedThisKey(d: Device, h: History, steps: seq<Step>)
    requires Trusted(d.db, h)
    ensures Trusted(AfterSteps(d, steps).db, RememberSession(h, d, steps))
    decreases |steps|
  {
    if steps != [] {
      var p := Effects(d, steps[0]);
      EffectsAreOrdinary(d, steps[0]);
      TrustRun(d, h, p);
      ReopenKeepsContacts(Run(d, p), if steps[0].Do? then 0 else steps[0].now);
      VerifiedMeansTheUserVerifiedThisKey(AfterStep(d, steps[0]), RememberRun(h, d, p), steps[1..]);
    }
  }

  // ---- Exactly when a contact is verified ---------------------------------------------

  /** Who is verified after a statement: a verdict counts until the next one or until the contact's key is replaced. */
  function Standing(verified: set<Ident>, db: Db, s: Stmt): set<Ident> {
    match s
    case SetVerified(id, v) =>
      if id !in db.contacts then verified else if v then verified + {id} else verified - {id}
    case SwapKey(id, _) => verified - {id}
    case _ => verified
  }

  function StandingRun(verified: set<Ident>, d: Device, p: seq<Effect>): set<Ident>
    decreases |p|
  {
    if p == [] then verified
    else StandingRun(if p[0].Sql? then Standing(verified, d.db, p[0].stmt) else verified, Apply(d, p[0]), p[1..])
  }

  function StandingSession(verified: set<Ident>, d: Device, steps: seq<Step>): set<Ident>
    decreases |steps|
  {
    if steps == [] then verified
    else StandingSession(StandingRun(verified, d, Effects(d, steps[0])), AfterStep(d, steps[0]), steps[1..])
  }

  /** The verified contacts are these. */
  ghost predicate Verifies(db: Db, verified: set<Ident>) {
    verified == set id | id in db.contacts && db.contacts[id].verified
  }

  lemma {:induction false} StandingStep(db: Db, verified: set<Ident>, s: Stmt)
    requires Verifies(db, verified) && Routine(s) && !s.Clear?
    ensures Verifies(Exec(db, s), Standing(verified, db, s))
  {
    if !s.InsertContact? && !s.SetVerified? && !s.SwapKey? {
      OtherStatementsLeaveContacts(db, s);
    }
  }

  lemma {:induction false} StandingRuns(d: Device, verified: set<Ident>, p: seq<Effect>)
    requires Verifies(d.db, verified) && AllOrdinary(p)
    ensures Verifies(Run(d, p).db, StandingRun(verified, d, p))
    decreases |p|
  {
    if p != [] {
      assert Ordinary(p[0]);
      if p[0].Sql? {
        StandingStep(d.db, verified, p[0].stmt);
        StandingRuns(Apply(d, p[0]), Standing(verified, d.db, p[0].stmt), p[1..]);
      } else {
        StandingRuns(Apply(d, p[0]), verified, p[1..]);
      }
    }
  }

  /**
   Over every session, restarts and crashes at any effect included: a contact is verified if and only if the latest
   of the verdicts on it and the replacements of its key was a verdict of "verified", or there was none and it was
   verified to begin with.
  */
  lemma {:induction false} VerifiedExactly(d: Device, verified: set<Ident>, steps: seq<Step>)
    requires Verifies(d.db, verified)
    ensures Verifies(AfterSteps(d, steps).db, StandingSession(verified, d, steps))
    decreases |steps|
  {
    if steps != [] {
      var p := Effects(d, steps[0]);
      EffectsAreOrdinary(d, steps[0]);
      StandingRuns(d, verified, p);
      ReopenKeepsContacts(Run(d, p), if steps[0].Do? then 0 else steps[0].now);
      VerifiedExactly(AfterStep(d, steps[0]), StandingRun(verified, d, p), steps[1..]);
    }
  }

  /** Nothing here takes back a verdict on the contact. */
  predicate Upholds(id: Ident, e: Effect) {
    e.Sql? ==> e.stmt != SetVerified(id, false) && !(e.stmt.SwapKey? && e.stmt.id == id)
  }

  predicate UpheldThroughout(id: Ident, d: Device, steps: seq<Step>)
    decreases |steps|
  {
    steps == []
    || ((forall i :: 0 <= i < |Effects(d, steps[0])| ==> Upholds(id, Effects(d, steps[0])[i]))
        && UpheldThroughout(id, AfterStep(d, steps[0]), steps[1..]))
  }

  lemma {:induction false} StandingUpheld(id: Ident, verified: set<Ident>, d: Device, p: seq<Effect>)
    requires id in verified && forall i :: 0 <= i < |p| ==> Upholds(id, p[i])
    ensures id in StandingRun(verified, d, p)
    decreases |p|
  {
    if p != [] {
      assert Upholds(id, p[0]);
      StandingUpheld(id, if p[0].Sql? then Standing(verified, d.db, p[0].stmt) else verified, Apply(d, p[0]), p[1..]);
    }
  }

  /** A contact marked as verified stays so, until a verdict to the contrary or a different key. */
  lemma {:induction false} StaysVerified(id: Ident, d: Device, steps: seq<Step>)
    requires id in d.db.contacts && d.db.contacts[id].verified && UpheldThroughout(id, d, steps)
    ensures var after := AfterSteps(d, steps).db; id in after.contacts && after.contacts[id].verified
    decreases |steps|
  {
    if steps != [] {
      var p := Effects(d, steps[0]);
      var verified := set x | x in d.db.contacts && d.db.contacts[x].verified;
      EffectsAreOrdinary(d, steps[0]);
      StandingRuns(d, verified, p);
      StandingUpheld(id, verified, d, p);
      ReopenKeepsContacts(Run(d, p), if steps[0].Do? then 0 else steps[0].now);
      StaysVerified(id, AfterStep(d, steps[0]), steps[1..]);
    }
  }

  lemma {:induction false} ReopenKeepsContacts(d: Device, now: u64)
    ensures Reopen(d, now).db.contacts == d.db.contacts && Reopen(d, now).db.changes == d.db.changes
  {
  }

  // ---- Key changes -----------------------------------------------------------------

  /** A message that is processed leaves its authenticated sender's key as the contact's key. */
  lemma {:induction false} ProcessedMessageSetsTheKey(d: Device, mail: Mail, clock: Clock)
    requires Sound(d) && Handles(d, mail.blob)
    ensures var id := d.db.conversations[mail.blob.group].contact;
            var after := ReadOne(d, mail, clock).db;
            && id in d.db.contacts && id in after.contacts && after.contacts[id].publicKey == mail.blob.sender
            && (d.db.contacts[id].publicKey != mail.blob.sender ==>
                  !after.contacts[id].verified && IdentityStateOf(after, id) == KeyChanged)
            && (d.db.contacts[id].publicKey == mail.blob.sender ==>
                  after.contacts[id].verified == d.db.contacts[id].verified
                  && IdentityStateOf(after, id) == IdentityStateOf(d.db, id))
  {
    var c := mail.blob.group;
    var id := d.db.conversations[c].contact;
    var key := mail.blob.sender;
    var decrypt := [Decrypt(c, mail.blob.generation)];
    var notice := NoticeKeyProgram(d.db, c, key, clock.noticed(mail.id));
    var store := StoreProgram(d.db, mail.id, c, key, mail.blob.plaintext.payload, clock.stored(mail.id));
    assert ReadProgram(d, mail, clock) == decrypt + (Sqls(notice) + store);
    RunConcat(d, decrypt, Sqls(notice) + store);
    var d1 := Run(d, decrypt);
    assert decrypt[1..] == [] && d1 == Apply(d, decrypt[0]) && d1.db == d.db;
    RunConcat(d1, Sqls(notice), store);
    RunSqls(d1, notice);
    ReplaceKeyEffect(d.db, id, key, clock.noticed(mail.id));
    StoringKeepsTrust(Run(d1, Sqls(notice)), mail.id, c, id, key, mail.blob.plaintext.payload, clock.stored(mail.id),
                      d.db);
  }

  /** Storing a message or an introduction changes neither key, nor verification, nor warnings. */
  lemma {:induction false} StoringKeepsTrust(d: Device, mid: Ident, c: Ident, id: Ident, key: Bytes, payload: Payload,
      now: u64, before: Db)
    requires id in d.db.contacts && c in before.conversations && before.conversations[c].contact == id
    ensures var after := Run(d, StoreProgram(before, mid, c, key, payload, now)).db;
            && id in after.contacts && after.contacts[id].publicKey == d.db.contacts[id].publicKey
            && after.contacts[id].verified == d.db.contacts[id].verified && after.changes == d.db.changes
  {
    var p := StoreProgram(before, mid, c, key, payload, now);
    match payload
    case Hello(inbox, name) => Restarts.ThreeSteps(d, p[0], p[1], p[2]);
    case Text(body) => assert p[1..] == [];
  }

  lemma {:induction false} WarningKeptByRun(d: Device, id: Ident, p: seq<Effect>)
    requires Unanswered(d.db, id) && AllOrdinary(p)
    requires forall i :: 0 <= i < |p| ==> p[i] != Sql(AcknowledgeChange(id))
    ensures Unanswered(Run(d, p).db, id)
    decreases |p|
  {
    if p != [] {
      assert Ordinary(p[0]) && p[0] != Sql(AcknowledgeChange(id));
      WarningKeptByStep(d, id, p[0]);
      WarningKeptByRun(Apply(d, p[0]), id, p[1..]);
    }
  }

  lemma {:induction false} WarningKeptByStep(d: Device, id: Ident, e: Effect)
    requires Unanswered(d.db, id) && Ordinary(e) && e != Sql(AcknowledgeChange(id))
    ensures Unanswered(Apply(d, e).db, id)
  {
    if e.Sql? && !e.stmt.NoteChange? && !e.stmt.AcknowledgeChange? {
      OtherStatementsLeaveChanges(d.db, e.stmt);
    }
  }

  lemma {:induction false} OtherStatementsLeaveChanges(db: Db, s: Stmt)
    requires !s.NoteChange? && !s.AcknowledgeChange? && !s.Clear?
    ensures Exec(db, s).changes == db.changes
  {
  }

  /** No call answers a warning except the one the user makes. */
  lemma {:induction false} AnswersNothing(d: Device, call: Call, id: Ident)
    requires call != AcknowledgeIdentityChange(id)
    ensures forall i :: 0 <= i < |Program(d, call)| ==> Program(d, call)[i] != Sql(AcknowledgeChange(id))
  {
    OnlyTheUserDecides(d, call);
  }

  /** Nothing here is a decision the user makes about a contact. */
  predicate Unattended(p: seq<Effect>) {
    forall i :: 0 <= i < |p| ==> !(p[i].Sql? && (p[i].stmt.AcknowledgeChange? || p[i].stmt.SetVerified?))
  }

  /** Verdicts and answers come from the two calls the user makes, and from no other. */
  lemma {:induction false} OnlyTheUserDecides(d: Device, call: Call)
    ensures call.VerifyContact? || call.AcknowledgeIdentityChange? || Unattended(Program(d, call))
    ensures call.VerifyContact? ==> Program(d, call) == [Sql(SetVerified(call.id, call.verified))]
    ensures call.AcknowledgeIdentityChange? ==> Program(d, call) == [Sql(AcknowledgeChange(call.id))]
  {
    KindsDecideNothing(Program(d, call));
    match call
    case SendMessage(c, body, posts, localId, at, queuedAt) => SendPosts(d, c, body, posts, localId, at, queuedAt);
    case AddContact(name, invite, group, posts) => AddContactIntroduces(d, name, invite, group, posts);
    case FlushOutbox(posts) => Calls.FlushPosts(d.db.outbox, QueuedOrder(d.db), posts);
    case ReceiveMessages(posts, batch, clock, ack, now) => ReceiveReceives(d, posts, batch, clock, ack, now);
    case _ => SettingsDecideNothing(d, call);
  }

  lemma {:induction false} KindsDecideNothing(p: seq<Effect>)
    ensures All(p, Introducing) || All(p, Posting) || All(p, Receives) ==> Unattended(p)
  {
  }

  lemma {:induction false} SettingsDecideNothing(d: Device, call: Call)
    requires call.InviteCode? || call.SetRetentionPolicy? || call.SetDisappearingMessages? || call.PurgeExpired?
             || call.VerifyContact? || call.AcknowledgeIdentityChange?
    ensures call.VerifyContact? || call.AcknowledgeIdentityChange? || Unattended(Program(d, call))
  {
  }

  /**
   A noted key change is reported by every later state until the user answers it: through sends, polls,
   re-adds, verifications, restarts, and crashes at any point.
  */
  lemma {:induction false} WarningStaysUntilAnswered(d: Device, id: Ident, steps: seq<Step>)
    requires Restarts.Steady(d) && FreshThroughout(d, steps)
    requires id in d.db.contacts && Unanswered(d.db, id)
    requires forall i :: 0 <= i < |steps| ==> steps[i].Restart? || steps[i].call != AcknowledgeIdentityChange(id)
    ensures var after := AfterSteps(d, steps).db; id in after.contacts && IdentityStateOf(after, id) == KeyChanged
    decreases |steps|
  {
    if steps != [] {
      var p := Effects(d, steps[0]);
      EffectsAreOrdinary(d, steps[0]);
      if !steps[0].Restart? {
        AnswersNothing(d, steps[0].call, id);
      }
      WarningKeptByRun(d, id, p);
      ReopenKeepsContacts(Run(d, p), if steps[0].Do? then 0 else steps[0].now);
      Restarts.StepSteady(d, steps[0]);
      assert id in AfterStep(d, steps[0]).db.contacts;
      WarningStaysUntilAnswered(AfterStep(d, steps[0]), id, steps[1..]);
    }
  }
}
