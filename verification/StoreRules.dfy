/** What every run of storage statements keeps. */
module StoreRules {
  import opened Basics
  import opened Tables

  // ---- References --------------------------------------------------------

  /** Deleting a table takes the rows that point into it along. */
  lemma {:induction false} CascadesKeepReferences(db: Db, t: Table)
    requires Integrity(db)
    ensures Integrity(Cleared(db, t))
  {
  }

  lemma {:induction false} WritesKeepReferences(db: Db, s: Stmt)
    requires Integrity(db) && !s.Clear? && !s.PurgeMessages? && !s.PurgeOutbox?
    ensures Integrity(Exec(db, s))
  {
  }

  lemma {:induction false} IntegrityStep(db: Db, s: Stmt)
    requires Integrity(db)
    ensures Integrity(Exec(db, s))
  {
    if s.Clear? {
      CascadesKeepReferences(db, s.table);
    } else if !s.PurgeMessages? && !s.PurgeOutbox? {
      WritesKeepReferences(db, s);
    }
  }

  lemma {:induction false} IntegrityKept(db: Db, stmts: seq<Stmt>)
    requires Integrity(db)
    ensures Integrity(ExecAll(db, stmts))
    decreases |stmts|
  {
    if stmts != [] {
      IntegrityStep(db, stmts[0]);
      IntegrityKept(Exec(db, stmts[0]), stmts[1..]);
    }
  }

  /** Everything a re-registration must leave alone. */
  ghost predicate NothingLost(before: Db, after: Db) {
    && (forall id :: id in before.contacts ==> SameTrust(before, after, id))
    && (forall c :: c in before.conversations ==> SameInterval(before, after, c))
    && after.messages == before.messages && after.outbox == before.outbox
    && after.changes == before.changes && after.settings == before.settings
  }

  ghost predicate SameTrust(before: Db, after: Db, id: Ident)
    requires id in before.contacts
  {
    && id in after.contacts
    && after.contacts[id].publicKey == before.contacts[id].publicKey
    && after.contacts[id].verified == before.contacts[id].verified
  }

  ghost predicate SameInterval(before: Db, after: Db, c: Ident)
    requires c in before.conversations
  {
    c in after.conversations && after.conversations[c].disappearAfter == before.conversations[c].disappearAfter
  }

  lemma {:induction false} RegisteringStep(db: Db, s: Stmt)
    requires s.InsertContact? || s.PutConversation?
    ensures NothingLost(db, Exec(db, s))
  {
  }

  /** Adding contacts and conversations again, in any number and order, erases no thread and no verification. */
  lemma {:induction false} RegisteringAgainLosesNothing(db: Db, stmts: seq<Stmt>)
    requires forall i :: 0 <= i < |stmts| ==> stmts[i].InsertContact? || stmts[i].PutConversation?
    ensures NothingLost(db, ExecAll(db, stmts))
    decreases |stmts|
  {
    if stmts != [] {
      var next := Exec(db, stmts[0]);
      RegisteringStep(db, stmts[0]);
      RegisteringAgainLosesNothing(next, stmts[1..]);
      assert NothingLost(next, ExecAll(next, stmts[1..]));
      forall id | id in db.contacts ensures SameTrust(db, ExecAll(db, stmts), id) {
        assert SameTrust(db, next, id) && SameTrust(next, ExecAll(next, stmts[1..]), id);
      }
      forall c | c in db.conversations ensures SameInterval(db, ExecAll(db, stmts), c) {
        assert SameInterval(db, next, c) && SameInterval(next, ExecAll(next, stmts[1..]), c);
      }
    }
  }

  // ---- Trust -------------------------------------------------------------

  /** The user's latest verify action on a contact, and the key that was stored when it was made. */
  datatype Verdict = Verdict(verified: bool, key: Bytes)
  type History = map<Ident, Verdict>

  function Remember(h: History, db: Db, s: Stmt): History {
    if s.SetVerified? && s.id in db.contacts then h[s.id := Verdict(s.verified, db.contacts[s.id].publicKey)] else h
  }

  /** A verified contact is one the user verified last, under the key stored now. */
  ghost predicate Trusted(db: Db, h: History) {
    forall id :: id in db.contacts && db.contacts[id].verified ==>
      id in h && h[id] == Verdict(true, db.contacts[id].publicKey)
  }

  /** Every statement of a running client: contacts are inserted unverified. */
  predicate Routine(s: Stmt) {
    s.InsertContact? ==> !s.contact.verified
  }

  lemma {:induction false} TrustStep(db: Db, h: History, s: Stmt)
    requires Trusted(db, h) && Routine(s)
    ensures Trusted(Exec(db, s), Remember(h, db, s))
  {
    if s.Clear? {
      ClearedContacts(db, s.table);
    } else if !s.InsertContact? && !s.SetVerified? && !s.SwapKey? {
      OtherStatementsLeaveContacts(db, s);
    }
  }

  /** Only three statements write contact rows. */
  lemma {:induction false} OtherStatementsLeaveContacts(db: Db, s: Stmt)
    requires !s.InsertContact? && !s.SetVerified? && !s.SwapKey? && !s.Clear?
    ensures Exec(db, s).contacts == db.contacts
  {
  }

  lemma {:induction false} ClearedContacts(db: Db, t: Table)
    ensures Cleared(db, t).contacts == db.contacts || Cleared(db, t).contacts == map[]
  {
  }

  // ---- Key changes -------------------------------------------------------

  /** The statements of `replace_identity_key`: none when the key is the stored one. */
  function ReplaceKeyProgram(db: Db, id: Ident, key: Bytes, now: u64): seq<Stmt> {
    if id !in db.contacts || db.contacts[id].publicKey == key then []
    else [SwapKey(id, key), NoteChange(id, db.contacts[id].publicKey, AsI64(now))]
  }

  datatype IdentityState = KeyChanged | Verified | Unverified

  predicate Unanswered(db: Db, id: Ident) {
    id in db.changes && !db.changes[id].acknowledged
  }

  /** What `conversations` reports for a contact. */
  function IdentityStateOf(db: Db, id: Ident): IdentityState
    requires id in db.contacts
  {
    if Unanswered(db, id) then KeyChanged
    else if db.contacts[id].verified then Verified
    else Unverified
  }

  lemma {:induction false} ReplaceKeyEffect(db: Db, id: Ident, key: Bytes, now: u64)
    requires id in db.contacts
    ensures var after := ExecAll(db, ReplaceKeyProgram(db, id, key, now));
            && id in after.contacts && after.contacts[id].publicKey == key
            && (key != db.contacts[id].publicKey ==>
                  && !after.contacts[id].verified && IdentityStateOf(after, id) == KeyChanged
                  && after.changes[id] == Change(db.contacts[id].publicKey, AsI64(now), false))
            && (key == db.contacts[id].publicKey ==> after == db)
  {
    var p := ReplaceKeyProgram(db, id, key, now);
    if p != [] {
      assert p[1..] == [p[1]] && p[1..][1..] == [];
      assert ExecAll(Exec(db, p[0]), p[1..]) == Exec(Exec(db, p[0]), p[1]);
    }
  }

  /** Once noted, a key change is reported until it is answered, whatever else happens to the tables. */
  lemma {:induction false} KeyChangeReportedUntilAnswered(db: Db, id: Ident, stmts: seq<Stmt>)
    requires Integrity(db) && id in db.contacts && Unanswered(db, id)
    requires forall i :: 0 <= i < |stmts| ==> stmts[i] != AcknowledgeChange(id) && !stmts[i].Clear?
    ensures var after := ExecAll(db, stmts); id in after.contacts && IdentityStateOf(after, id) == KeyChanged
    decreases |stmts|
  {
    if stmts != [] {
      IntegrityStep(db, stmts[0]);
      KeyChangeReportedUntilAnswered(Exec(db, stmts[0]), id, stmts[1..]);
    }
  }

  /** Answering stops the warning without verifying anyone; a further change brings it back. */
  lemma {:induction false} AnsweringIsNotVerifying(db: Db, id: Ident, key: Bytes, now: u64)
    requires id in db.contacts
    ensures var answered := Exec(db, AcknowledgeChange(id));
            && answered.contacts == db.contacts && !Unanswered(answered, id)
            && (key != db.contacts[id].publicKey ==>
                  var again := ExecAll(answered, ReplaceKeyProgram(answered, id, key, now));
                  id in again.contacts && IdentityStateOf(again, id) == KeyChanged)
  {
    ReplaceKeyEffect(Exec(db, AcknowledgeChange(id)), id, key, now);
  }

  /** The new key is in use and nothing tells the user so. */
  predicate ChangedSilently(db: Db, id: Ident, key: Bytes) {
    id in db.contacts && db.contacts[id].publicKey == key && !Unanswered(db, id)
  }

  /**
   The two statements of a key replacement commit separately. A crash loses the warning exactly when it falls
   between them and no earlier change of that contact is still waiting for an answer.
  */
  lemma {:induction false} CrashInsideKeyReplacementLosesTheWarning(db: Db, id: Ident, key: Bytes, now: u64, k: nat)
    requires id in db.contacts && db.contacts[id].publicKey != key && k <= |ReplaceKeyProgram(db, id, key, now)|
    ensures var crashed := ExecAll(db, ReplaceKeyProgram(db, id, key, now)[..k]);
            && (ChangedSilently(crashed, id, key) <==> k == 1 && !Unanswered(db, id))
            && (ChangedSilently(crashed, id, key) ==> IdentityStateOf(crashed, id) == Unverified)
  {
    var p := ReplaceKeyProgram(db, id, key, now);
    assert p[..0] == [] && p[..2] == p;
    if k == 1 {
      ExecPrefix(db, p, 0);
    } else if k == 2 {
      ReplaceKeyEffect(db, id, key, now);
    }
  }

  lemma {:induction false} SilentStep(db: Db, id: Ident, key: Bytes, s: Stmt)
    requires ChangedSilently(db, id, key) && !s.Clear?
    requires !(s.SwapKey? && s.id == id) && !(s.NoteChange? && s.id == id)
    ensures ChangedSilently(Exec(db, s), id, key)
  {
    if !s.InsertContact? && !s.SetVerified? && !s.SwapKey? {
      OtherStatementsLeaveContacts(db, s);
    }
  }

  // ---- Retention ---------------------------------------------------------

  /** The stored form of a policy reads back as that policy. */
  lemma {:induction false} PolicyRoundTrip(p: RetentionPolicy)
    ensures RetentionPolicy.Parse(p.AsStr()) == p
  {
  }

  /** How long rows of a conversation are kept: its own setting if it has one, else the device's. */
  function Interval(db: Db, c: Ident): Option<int>
    requires c in db.conversations
  {
    match db.conversations[c].disappearAfter
    case Some(d) => Some(d)
    case None => Policy(db).Seconds()
  }

  /** A row written at `at` has been kept longer than `interval`. */
  predicate OlderThan(interval: Option<int>, at: int, now: int) {
    interval.Some? && at + interval.value < now
  }

  /** A purge takes exactly the message and outbox rows older than their conversation's interval. */
  lemma {:induction false} PurgeIsExact(db: Db, now: u64)
    requires Integrity(db) && now < TWO_63
    ensures var after := Purged(db, now);
            && (forall m :: m in after.messages
                  <==> m in db.messages
                       && !OlderThan(Interval(db, db.messages[m].conversation), db.messages[m].at, now))
            && (forall m :: m in after.messages ==> after.messages[m] == db.messages[m])
            && (forall q :: q in after.outbox
                  <==> q in db.outbox && !OlderThan(Interval(db, db.outbox[q].conversation), db.outbox[q].at, now))
            && (forall q :: q in after.outbox ==> after.outbox[q] == db.outbox[q])
            && after == db.(messages := after.messages, outbox := after.outbox)
  {
  }

  /** Purging along the way changes nothing: only the last purge counts. */
  lemma {:induction false} PurgingTwiceIsPurgingLast(db: Db, n1: u64, n2: u64)
    requires Integrity(db) && n1 <= n2 < TWO_63
    ensures Purged(Purged(db, n1), n2) == Purged(db, n2)
  {
    var once := Purged(db, n1);
    PurgeIsExact(db, n1);
    assert Integrity(once);
    PurgeIsExact(once, n2);
    PurgeIsExact(db, n2);
    assert once.conversations == db.conversations && Policy(once) == Policy(db);
    forall m | m in db.messages
      ensures m in Purged(once, n2).messages <==> m in Purged(db, n2).messages
    {
      assert Interval(once, db.messages[m].conversation) == Interval(db, db.messages[m].conversation);
    }
    forall q | q in db.outbox
      ensures q in Purged(once, n2).outbox <==> q in Purged(db, n2).outbox
    {
      assert Interval(once, db.outbox[q].conversation) == Interval(db, db.outbox[q].conversation);
    }
    SameTable(Purged(once, n2).messages, Purged(db, n2).messages, db.messages);
    SameTable(Purged(once, n2).outbox, Purged(db, n2).outbox, db.outbox);
  }

  /** Two tables that keep the same rows of a third are equal. */
  lemma {:induction false} SameTable<V>(a: map<Ident, V>, b: map<Ident, V>, all: map<Ident, V>)
    requires forall k :: k in a ==> k in all && a[k] == all[k]
    requires forall k :: k in b ==> k in all && b[k] == all[k]
    requires forall k :: k in all ==> (k in a <==> k in b)
    ensures a == b
  {
    assert a.Keys == b.Keys;
  }

  function WithPolicy(db: Db, p: RetentionPolicy): Db {
    Exec(db, PutSetting(RETENTION, p.AsStr()))
  }

  /** A policy that keeps rows for less time. */
  predicate Shorter(p: RetentionPolicy, q: RetentionPolicy) {
    q.Seconds().None? || (p.Seconds().Some? && p.Seconds().value <= q.Seconds().value)
  }

  /** A shorter policy deletes everything a longer one does. */
  lemma {:induction false} ShorterPolicyDeletesMore(db: Db, p: RetentionPolicy, q: RetentionPolicy, now: u64)
    requires Shorter(p, q)
    ensures Purged(WithPolicy(db, p), now).messages.Keys <= Purged(WithPolicy(db, q), now).messages.Keys
    ensures Purged(WithPolicy(db, p), now).outbox.Keys <= Purged(WithPolicy(db, q), now).outbox.Keys
  {
    PurgedUnder(db, p, now);
    PurgedUnder(db, q, now);
  }

  /** A purge with a policy in force keeps what that policy keeps. */
  lemma {:induction false} PurgedUnder(db: Db, p: RetentionPolicy, now: u64)
    ensures Purged(WithPolicy(db, p), now).messages
            == KeptMessages(db.messages, db.conversations, AsI64(now), p.Seconds())
    ensures Purged(WithPolicy(db, p), now).outbox == KeptOutbox(db.outbox, db.conversations, AsI64(now), p.Seconds())
  {
    PolicyRoundTrip(p);
    PurgedIs(WithPolicy(db, p), now);
  }

  /** The tables once a conversation's interval has been set and applied. */
  function IntervalApplied(db: Db, c: Ident, seconds: u64, now: u64): Db {
    Purged(Exec(db, SetDisappearAfter(c, Some(AsI64(seconds)))), now)
  }

  /** A conversation set to disappear after `seconds` loses exactly its rows older than that, waiting ones too. */
  ghost predicate LosesWhatIsOlder(db: Db, c: Ident, seconds: u64, now: u64) {
    var after := IntervalApplied(db, c, seconds, now);
    && (forall m :: m in db.messages && db.messages[m].conversation == c ==>
          (m in after.messages <==> !OlderThan(Some(seconds), db.messages[m].at, now)))
    && (forall q :: q in db.outbox && db.outbox[q].conversation == c ==>
          (q in after.outbox <==> !OlderThan(Some(seconds), db.outbox[q].at, now)))
  }

  /** The rows of the conversation are dated between the epoch and now. */
  ghost predicate DatedBefore(db: Db, c: Ident, now: u64) {
    && (forall m :: m in db.messages && db.messages[m].conversation == c ==> 0 <= db.messages[m].at <= now)
    && (forall q :: q in db.outbox && db.outbox[q].conversation == c ==> 0 <= db.outbox[q].at <= now)
  }

  ghost predicate IntervalMeansWhatItSays(seconds: u64) {
    forall db: Db, c: Ident, now: u64 ::
      now < TWO_63 && c in db.conversations && DatedBefore(db, c, now) ==> LosesWhatIsOlder(db, c, seconds, now)
  }

  lemma {:induction false} IntervalAppliedIs(db: Db, c: Ident, seconds: u64, now: u64)
    requires c in db.conversations && now < TWO_63
    ensures var after := IntervalApplied(db, c, seconds, now);
            && (forall m :: m in db.messages && db.messages[m].conversation == c ==>
                  (m in after.messages <==> db.messages[m].at >= now - AsI64(seconds)))
            && (forall q :: q in db.outbox && db.outbox[q].conversation == c ==>
                  (q in after.outbox <==> db.outbox[q].at >= now - AsI64(seconds)))
  {
    PurgedIs(Exec(db, SetDisappearAfter(c, Some(AsI64(seconds)))), now);
  }

  /**
   The interval is stored as a signed 64-bit number. From 2^63 seconds on it is stored negative, and setting it
   deletes messages that were only just written: one written in the same second is enough.
  */
  lemma {:induction false} IntervalsBelowTwoTo63MeanWhatTheySay(seconds: u64)
    ensures IntervalMeansWhatItSays(seconds) <==> seconds < TWO_63
  {
    if seconds < TWO_63 {
      forall db: Db, c: Ident, now: u64 | now < TWO_63 && c in db.conversations && DatedBefore(db, c, now)
        ensures LosesWhatIsOlder(db, c, seconds, now)
      {
        IntervalAppliedIs(db, c, seconds, now);
      }
    } else {
      var c: Ident := [];
      var db := EMPTY.(contacts := map[c := Contact("", [], [], false)],
                       conversations := map[c := Conversation(c, None)],
                       messages := map[c := Message(c, Received, "", 0)]);
      IntervalAppliedIs(db, c, seconds, 0);
      assert c in db.messages && db.messages[c].conversation == c && !OlderThan(Some(seconds), 0, 0);
      assert !LosesWhatIsOlder(db, c, seconds, 0) && DatedBefore(db, c, 0);
    }
  }

  // ---- Wiping ------------------------------------------------------------

  lemma {:induction false} ExecPrefix(db: Db, stmts: seq<Stmt>, k: nat)
    requires k < |stmts|
    ensures ExecAll(db, stmts[..k + 1]) == Exec(ExecAll(db, stmts[..k]), stmts[k])
  {
    assert stmts[..k + 1] == stmts[..k] + [stmts[k]];
    ExecAllSnoc(db, stmts[..k], stmts[k]);
  }

  /** What is left once the first `k` deletions of a wipe are done. */
  function WipedUpTo(db: Db, k: nat): Db {
    Db(if k < 8 then db.identity else None,
       if k < 7 then db.mls else None,
       if k < 5 then db.contacts else map[],
       if k < 4 then db.conversations else map[],
       if k < 3 then db.messages else map[],
       if k < 1 then db.outbox else map[],
       if k < 2 then db.changes else map[],
       if k < 6 then db.settings else map[])
  }

  /** The table the `k`th deletion of a wipe empties. */
  lemma {:induction false} WipeTable(k: nat)
    requires k < 8
    ensures WipeProgram()[k] == Clear(match k
                                      case 0 => OutboxRows
                                      case 1 => ChangeRows
                                      case 2 => MessageRows
                                      case 3 => ConversationRows
                                      case 4 => ContactRows
                                      case 5 => SettingRows
                                      case 6 => MlsRow
                                      case _ => IdentityRow)
  {
  }

  lemma {:induction false} WipeStep(db: Db, k: nat)
    requires k < 8
    ensures Exec(WipedUpTo(db, k), WipeProgram()[k]) == WipedUpTo(db, k + 1)
  {
    WipeTable(k);
    if k < 4 {
      WipeStepRows(db, k);
    } else {
      WipeStepRest(db, k);
    }
  }

  lemma {:induction false} WipeStepRows(db: Db, k: nat)
    requires k < 4
    ensures Cleared(WipedUpTo(db, k), if k == 0 then OutboxRows else if k == 1 then ChangeRows
                                      else if k == 2 then MessageRows else ConversationRows) == WipedUpTo(db, k + 1)
  {
  }

  lemma {:induction false} WipeStepRest(db: Db, k: nat)
    requires 4 <= k < 8
    ensures Cleared(WipedUpTo(db, k), if k == 4 then ContactRows else if k == 5 then SettingRows
                                      else if k == 6 then MlsRow else IdentityRow) == WipedUpTo(db, k + 1)
  {
  }

  lemma {:induction false} WipePrefix(db: Db, k: nat)
    requires k <= 8
    ensures ExecAll(db, WipeProgram()[..k]) == WipedUpTo(db, k)
    decreases k
  {
    var p := WipeProgram();
    if k == 0 {
      assert p[..0] == [];
    } else {
      WipePrefix(db, k - 1);
      ExecPrefix(db, p, k - 1);
      WipeStep(db, k - 1);
    }
  }

  /** A wipe empties every table, and cut short after any of its deletions it leaves tables whose references hold. */
  lemma {:induction false} WipeLeavesNothing(db: Db, k: nat)
    requires Integrity(db) && k <= 8
    ensures ExecAll(db, WipeProgram()) == EMPTY
    ensures Integrity(ExecAll(db, WipeProgram()[..k]))
  {
    WipePrefix(db, 8);
    assert WipeProgram()[..8] == WipeProgram();
    IntegrityKept(db, WipeProgram()[..k]);
  }

  /**
   A device that opens still opens after the first six deletions, and is new after the eighth. In between,
   and only there, it holds an identity row with no MLS state: neither new nor able to open.
  */
  lemma {:induction false} WipeCutShort(db: Db, k: nat)
    requires CanOpen(db) && k <= 8
    ensures var cut := ExecAll(db, WipeProgram()[..k]);
            && (CanOpen(cut) <==> k <= 6)
            && (cut.identity.None? <==> k == 8)
            && (cut.identity.Some? && !CanOpen(cut) <==> k == 7)
            && (cut.identity.Some? && cut.mls.None? <==> k == 7)
  {
    WipePrefix(db, k);
  }
}
