/** What clients can observe of the relay over whole runs. */
module RelayRuns {
  import opened Basics
  import opened RelayStore

  /** One request to the relay, or the timer's sweep. */
  datatype Op<B> =
    | Submit(id: Ident, inbox: Ident, blob: B, size: nat)
    | Gather(inbox: Ident)
    | Confirm(inbox: Ident, ids: seq<Ident>)
    | Sweep

  datatype Event<B> = Event(at: u64, op: Op<B>)

  function Perform<B>(q: Queue<B>, limit: nat, e: Event<B>): Queue<B> {
    match e.op
    case Submit(id, inbox, blob, size) => Enqueued(q, id, inbox, blob, size, limit, e.at)
    case Gather(_) => q
    case Confirm(inbox, ids) => if IsValidInboxId(inbox) then Acknowledged(q, inbox, ids) else q
    case Sweep => if e.at > I64_MAX then q else Swept(q, e.at)
  }

  function After<B>(q: Queue<B>, limit: nat, run: seq<Event<B>>): Queue<B>
    decreases |run|
  {
    if run == [] then q else After(Perform(q, limit, run[0]), limit, run[1..])
  }

  /** The responses to the collect requests of a run, in order. */
  function Answers<B>(q: Queue<B>, limit: nat, run: seq<Event<B>>): seq<Result<seq<Envelope<B>>>>
    decreases |run|
  {
    if run == [] then []
    else
      var rest := Answers(Perform(q, limit, run[0]), limit, run[1..]);
      if run[0].op.Gather? then [Collected(q, run[0].op.inbox, run[0].at)] + rest else rest
  }

  function WithoutSweeps<B>(run: seq<Event<B>>): seq<Event<B>>
    decreases |run|
  {
    if run == [] then []
    else if run[0].op.Sweep? then WithoutSweeps(run[1..])
    else [run[0]] + WithoutSweeps(run[1..])
  }

  /** The clock never goes back, from `now` on. */
  ghost predicate ClockMoves<B>(now: u64, run: seq<Event<B>>)
    decreases |run|
  {
    run == [] || (now <= run[0].at && ClockMoves(run[0].at, run[1..]))
  }

  /** Random identifiers do not collide with each other or with `taken`. */
  ghost predicate FreshIds<B>(taken: set<Ident>, run: seq<Event<B>>)
    decreases |run|
  {
    run == [] ||
    if run[0].op.Submit? then run[0].op.id !in taken && FreshIds(taken + {run[0].op.id}, run[1..])
    else FreshIds(taken, run[1..])
  }

  /** `swept` is `full` with some expired rows missing. */
  ghost predicate OnlyExpiredMissing<B>(full: Queue<B>, swept: Queue<B>, now: u64) {
    && (forall id :: id in swept ==> id in full && full[id] == swept[id])
    && (forall id :: id in full && full[id].expires > now ==> id in swept)
  }

  lemma {:induction false} SameAnswer<B>(full: Queue<B>, swept: Queue<B>, before: u64, inbox: Ident, now: u64)
    requires OnlyExpiredMissing(full, swept, before) && before <= now
    ensures Collected(full, inbox, now) == Collected(swept, inbox, now)
  {
    assert Visible(full, inbox, now) == Visible(swept, inbox, now);
  }

  lemma {:induction false} PerformKeepsPace<B>(full: Queue<B>, swept: Queue<B>, now: u64, limit: nat, e: Event<B>)
    requires OnlyExpiredMissing(full, swept, now) && now <= e.at
    requires e.op.Submit? ==> e.op.id !in full
    ensures !e.op.Sweep? ==> OnlyExpiredMissing(Perform(full, limit, e), Perform(swept, limit, e), e.at)
    ensures e.op.Sweep? ==> OnlyExpiredMissing(full, Perform(swept, limit, e), e.at)
  {
  }

  lemma {:induction false} SweepsInvisibleFrom<B>(full: Queue<B>, swept: Queue<B>, now: u64, limit: nat,
      run: seq<Event<B>>, taken: set<Ident>)
    requires OnlyExpiredMissing(full, swept, now) && full.Keys <= taken
    requires ClockMoves(now, run) && FreshIds(taken, run)
    ensures Answers(swept, limit, run) == Answers(full, limit, WithoutSweeps(run))
    decreases |run|
  {
    if run != [] {
      var e := run[0];
      PerformKeepsPace(full, swept, now, limit, e);
      if e.op.Sweep? {
        SweepsInvisibleFrom(full, Perform(swept, limit, e), e.at, limit, run[1..], taken);
      } else {
        var taken' := if e.op.Submit? then taken + {e.op.id} else taken;
        SweepsInvisibleFrom(Perform(full, limit, e), Perform(swept, limit, e), e.at, limit, run[1..], taken');
        assert WithoutSweeps(run) == [e] + WithoutSweeps(run[1..]);
        assert WithoutSweeps(run)[1..] == WithoutSweeps(run[1..]);
        if e.op.Gather? {
          SameAnswer(full, swept, now, e.op.inbox, e.at);
        }
      }
    }
  }

  /** No collecting client can tell whether, or when, the sweeper ran. */
  lemma {:induction false} SweepIsUnobservable<B>(q: Queue<B>, now: u64, limit: nat, run: seq<Event<B>>)
    requires ClockMoves(now, run) && FreshIds(q.Keys, run)
    ensures Answers(q, limit, run) == Answers(q, limit, WithoutSweeps(run))
  {
    SweepsInvisibleFrom(q, q, now, limit, run, q.Keys);
  }

  /**
   An acknowledging client can. The count it is told after a sweep is the count it would have been told
   without one if and only if it names no expired blob of its inbox; otherwise it is smaller.
  */
  lemma {:induction false} SweepShowsInTheAcknowledgeCount<B>(q: Queue<B>, inbox: Ident, ids: seq<Ident>, now: u64)
    ensures |Erased(Swept(q, now), inbox, ids)| <= |Erased(q, inbox, ids)|
    ensures |Erased(Swept(q, now), inbox, ids)| == |Erased(q, inbox, ids)|
            <==> !exists id :: id in ids && id in q && q[id].inbox == inbox && q[id].expires <= now
  {
    var all, left := Erased(q, inbox, ids), Erased(Swept(q, now), inbox, ids);
    assert all == left + (all - left);
    assert |all| == |left| + |all - left|;
    if id :| id in ids && id in q && q[id].inbox == inbox && q[id].expires <= now {
      assert id in all - left;
    } else {
      assert all - left == {};
    }
  }

  /** Any accepted blob shows it: acknowledged after it has expired, it is counted unless a sweep came first. */
  lemma {:induction false} EveryAcceptedBlobCanShowASweep<B>(q: Queue<B>, id: Ident, inbox: Ident, blob: B, size: nat,
      limit: nat, now: u64, later: u64)
    requires Refusal(q, id, inbox, size, limit, now).None?
    ensures var q1 := Enqueued(q, id, inbox, blob, size, limit, now);
            && |Erased(q1, inbox, [id])| == 1
            && (|Erased(Swept(q1, later), inbox, [id])| == 0 <==> later >= BucketedExpiry(now, DEFAULT_TTL))
  {
    var q1 := Enqueued(q, id, inbox, blob, size, limit, now);
    assert Erased(q1, inbox, [id]) == {id};
    assert Erased(Swept(q1, later), inbox, [id]) == if later >= BucketedExpiry(now, DEFAULT_TTL) then {} else {id};
  }

  /** No request of the run acknowledges `id` for `inbox`. */
  ghost predicate Unacknowledged<B>(run: seq<Event<B>>, inbox: Ident, id: Ident) {
    forall i :: 0 <= i < |run| && run[i].op.Confirm? && run[i].op.inbox == inbox ==> id !in run[i].op.ids
  }

  lemma {:induction false} RowLivesUntilExpiry<B>(q: Queue<B>, limit: nat, run: seq<Event<B>>, id: Ident, now: u64,
      taken: set<Ident>)
    requires id in q && id in taken && FreshIds(taken, run)
    requires Unacknowledged(run, q[id].inbox, id)
    requires forall i :: 0 <= i < |run| ==> run[i].at <= now
    ensures q[id].expires > now ==> id in After(q, limit, run)
    ensures id in After(q, limit, run) ==> After(q, limit, run)[id] == q[id]
    decreases |run|
  {
    if run != [] {
      var q' := Perform(q, limit, run[0]);
      var taken' := if run[0].op.Submit? then taken + {run[0].op.id} else taken;
      if id in q' {
        assert q'[id] == q[id];
        RowLivesUntilExpiry(q', limit, run[1..], id, now, taken');
      } else {
        GoneStaysGone(q', limit, run[1..], id, taken');
      }
    }
  }

  lemma {:induction false} GoneStaysGone<B>(q: Queue<B>, limit: nat, run: seq<Event<B>>, id: Ident, taken: set<Ident>)
    requires id !in q && id in taken && FreshIds(taken, run)
    ensures id !in After(q, limit, run)
    decreases |run|
  {
    if run != [] {
      var taken' := if run[0].op.Submit? then taken + {run[0].op.id} else taken;
      GoneStaysGone(Perform(q, limit, run[0]), limit, run[1..], id, taken');
    }
  }

  /**
   A blob accepted at `now` and not acknowledged is returned by every collect up to `now + TTL`, and by
   none from one hour after that, whatever else the relay is asked and however often it sweeps.
  */
  lemma {:induction false} AcceptedBlobLifetime<B>(q: Queue<B>, limit: nat, id: Ident, inbox: Ident, blob: B, size: nat,
      now: u64,
                                run: seq<Event<B>>, later: u64)
    requires Refusal(q, id, inbox, size, limit, now).None?
    requires ClockMoves(now, run) && FreshIds(q.Keys + {id}, run) && Unacknowledged(run, inbox, id)
    requires now <= later <= I64_MAX && forall i :: 0 <= i < |run| ==> run[i].at <= later
    ensures var after := Collected(After(Enqueued(q, id, inbox, blob, size, limit, now), limit, run), inbox, later);
            && after.Ok?
            && (later <= now + DEFAULT_TTL ==> Envelope(id, blob) in after.value)
            && (later >= now + DEFAULT_TTL + EXPIRY_BUCKET ==> Envelope(id, blob) !in after.value)
  {
    var q1 := Enqueued(q, id, inbox, blob, size, limit, now);
    assert q1.Keys == q.Keys + {id};
    ExpiryBounds(now, DEFAULT_TTL);
    RowLivesUntilExpiry(q1, limit, run, id, later, q.Keys + {id});
    var end := After(q1, limit, run);
    var answer := Collected(end, inbox, later).value;
    CollectedExactly(end, inbox, later, answer);
    assert Returns(end, inbox, later, Envelope(id, blob)) <==> Envelope(id, blob) in answer;
  }

  // ---- Acknowledged blobs ---------------------------------------------------

  /** `less` is `full` without these rows. */
  ghost predicate Lacks<B>(full: Queue<B>, less: Queue<B>, gone: set<Ident>) {
    less == map id | id in full && id !in gone :: full[id]
  }

  lemma {:induction false} PerformKeepsLack<B>(full: Queue<B>, less: Queue<B>, gone: set<Ident>, limit: nat,
      e: Event<B>)
    requires Lacks(full, less, gone) && (e.op.Submit? ==> e.op.id !in full && e.op.id !in gone)
    ensures Lacks(Perform(full, limit, e), Perform(less, limit, e), gone)
  {
  }

  lemma {:induction false} RunKeepsLack<B>(full: Queue<B>, less: Queue<B>, gone: set<Ident>, limit: nat,
      run: seq<Event<B>>, taken: set<Ident>)
    requires Lacks(full, less, gone) && full.Keys <= taken && gone <= taken && FreshIds(taken, run)
    ensures Lacks(After(full, limit, run), After(less, limit, run), gone)
    decreases |run|
  {
    if run != [] {
      var taken' := if run[0].op.Submit? then taken + {run[0].op.id} else taken;
      PerformKeepsLack(full, less, gone, limit, run[0]);
      RunKeepsLack(Perform(full, limit, run[0]), Perform(less, limit, run[0]), gone, limit, run[1..], taken');
    }
  }

  /** A row under an identifier drawn before the run was there before the run. */
  lemma {:induction false} OldRowsAreOld<B>(q: Queue<B>, limit: nat, run: seq<Event<B>>, id: Ident, taken: set<Ident>)
    requires id in taken && FreshIds(taken, run) && id in After(q, limit, run)
    ensures id in q && After(q, limit, run)[id] == q[id]
    decreases |run|
  {
    if run != [] {
      var taken' := if run[0].op.Submit? then taken + {run[0].op.id} else taken;
      OldRowsAreOld(Perform(q, limit, run[0]), limit, run[1..], id, taken');
    }
  }

  /**
   After an acknowledgement, and whatever else the relay is then asked, a collect returns what it would have returned
   without the acknowledgement, except the blobs it named: those are in no later answer of that inbox, and every
   other blob and every other inbox is answered as before.
  */
  lemma {:induction false} AcknowledgedIsGone<B>(q: Queue<B>, limit: nat, inbox: Ident, ids: seq<Ident>, at: u64,
      run: seq<Event<B>>, asked: Ident, now: u64)
    requires IsValidInboxId(inbox) && FreshIds(q.Keys + (set id | id in ids), run)
    ensures var before := Collected(After(q, limit, run), asked, now);
            var after := Collected(After(Perform(q, limit, Event(at, Confirm(inbox, ids))), limit, run), asked, now);
            && (before.Err? ==> after == before)
            && (before.Ok? ==>
                  && after.Ok?
                  && forall e :: e in after.value <==> e in before.value && !(asked == inbox && e.id in ids))
  {
    var taken := q.Keys + set id | id in ids;
    var less := Perform(q, limit, Event(at, Confirm(inbox, ids)));
    var gone := Erased(q, inbox, ids);
    var full', less' := After(q, limit, run), After(less, limit, run);
    assert Lacks(q, less, gone);
    RunKeepsLack(q, less, gone, limit, run, taken);
    if Collected(full', asked, now).Ok? {
      var before, after := Collected(full', asked, now).value, Collected(less', asked, now).value;
      CollectedExactly(full', asked, now, before);
      CollectedExactly(less', asked, now, after);
      forall e ensures e in after <==> e in before && !(asked == inbox && e.id in ids) {
        assert e in after <==> Returns(less', asked, now, e);
        assert e in before <==> Returns(full', asked, now, e);
        if Returns(full', asked, now, e) && (e.id in gone || e.id in ids) {
          OldRowsAreOld(q, limit, run, e.id, taken);
        }
      }
    }
  }

  /** One arrival: the random identifier it is given, and when it arrives. */
  datatype Arrival<B> = Arrival(id: Ident, inbox: Ident, blob: B, size: nat, at: u64)

  function Receive<B>(q: Queue<B>, limit: nat, arrivals: seq<Arrival<B>>): Queue<B>
    decreases |arrivals|
  {
    if arrivals == [] then q
    else
      var a := arrivals[0];
      Receive(Enqueued(q, a.id, a.inbox, a.blob, a.size, limit, a.at), limit, arrivals[1..])
  }

  ghost predicate DistinctIds<B>(q: Queue<B>, arrivals: seq<Arrival<B>>) {
    && (forall i :: 0 <= i < |arrivals| ==> arrivals[i].id !in q)
    && (forall i, j :: 0 <= i < j < |arrivals| ==> arrivals[i].id != arrivals[j].id)
  }

  ghost predicate InHour<B>(arrivals: seq<Arrival<B>>, hour: nat) {
    forall i :: 0 <= i < |arrivals| ==> arrivals[i].at / EXPIRY_BUCKET == hour
  }

  /** The row an arrival leaves behind, if it is accepted. */
  ghost predicate Leaves<B>(a: Arrival<B>, limit: nat, id: Ident, row: Row<B>) {
    && a.id == id && IsValidInboxId(a.inbox) && a.size <= limit
    && BucketedExpiry(a.at, DEFAULT_TTL) <= I64_MAX
    && row == Row(a.inbox, a.blob, BucketedExpiry(a.at, DEFAULT_TTL))
  }

  ghost predicate LeftBy<B>(arrivals: seq<Arrival<B>>, limit: nat, id: Ident, row: Row<B>) {
    exists a :: a in arrivals && Leaves(a, limit, id, row)
  }

  ghost predicate Holds<B>(q: Queue<B>, id: Ident, row: Row<B>) {
    id in q && q[id] == row
  }

  lemma {:induction false} LeftByFirstOrRest<B>(arrivals: seq<Arrival<B>>, limit: nat, id: Ident, row: Row<B>)
    requires arrivals != []
    ensures LeftBy(arrivals, limit, id, row)
            <==> Leaves(arrivals[0], limit, id, row) || LeftBy(arrivals[1..], limit, id, row)
  {
    assert arrivals == [arrivals[0]] + arrivals[1..];
    if a :| a in arrivals[1..] && Leaves(a, limit, id, row) {
      assert a in arrivals;
    }
  }

  lemma {:induction false} ReceivedRows<B>(q: Queue<B>, limit: nat, arrivals: seq<Arrival<B>>)
    requires DistinctIds(q, arrivals)
    ensures forall id, row ::
              Holds(Receive(q, limit, arrivals), id, row) <==> Holds(q, id, row) || LeftBy(arrivals, limit, id, row)
    decreases |arrivals|
  {
    if arrivals != [] {
      var a := arrivals[0];
      var q' := Enqueued(q, a.id, a.inbox, a.blob, a.size, limit, a.at);
      assert DistinctIds(q', arrivals[1..]);
      ReceivedRows(q', limit, arrivals[1..]);
      forall id, row
        ensures Holds(Receive(q, limit, arrivals), id, row) <==> Holds(q, id, row) || LeftBy(arrivals, limit, id, row)
      {
        LeftByFirstOrRest(arrivals, limit, id, row);
        assert Holds(q', id, row) <==> Holds(q, id, row) || Leaves(a, limit, id, row);
      }
    }
  }

  /** The same arrivals as far as content goes, in any order and at any moments. */
  ghost predicate SameContent<B>(a: Arrival<B>, b: Arrival<B>) {
    a.id == b.id && a.inbox == b.inbox && a.blob == b.blob && a.size == b.size
  }

  ghost predicate Covers<B>(a: seq<Arrival<B>>, b: seq<Arrival<B>>) {
    forall x :: x in a ==> exists y :: y in b && SameContent(x, y)
  }

  ghost predicate Reordering<B>(a: seq<Arrival<B>>, b: seq<Arrival<B>>) {
    Covers(a, b) && Covers(b, a)
  }

  /**
   Two mailbags with the same blobs, arriving in any order and at any moments of one hour, leave
   identical tables, so nothing the relay ever answers or stores depends on which came first.
  */
  lemma {:induction false} ArrivalOrderLeavesNoTrace<B>(q: Queue<B>, limit: nat, a: seq<Arrival<B>>, b: seq<Arrival<B>>,
      hour: nat)
    requires DistinctIds(q, a) && DistinctIds(q, b) && Reordering(a, b)
    requires InHour(a, hour) && InHour(b, hour)
    ensures Receive(q, limit, a) == Receive(q, limit, b)
  {
    ReceivedRows(q, limit, a);
    ReceivedRows(q, limit, b);
    forall id, row
      ensures LeftBy(a, limit, id, row) <==> LeftBy(b, limit, id, row)
    {
      SameLeavings(a, b, limit, hour, id, row);
      SameLeavings(b, a, limit, hour, id, row);
    }
    SameRows(Receive(q, limit, a), Receive(q, limit, b));
  }

  lemma {:induction false} SameLeavings<B>(a: seq<Arrival<B>>, b: seq<Arrival<B>>, limit: nat, hour: nat, id: Ident,
      row: Row<B>)
    requires Covers(a, b) && InHour(a, hour) && InHour(b, hour)
    ensures LeftBy(a, limit, id, row) ==> LeftBy(b, limit, id, row)
  {
    if x :| x in a && Leaves(x, limit, id, row) {
      var y :| y in b && SameContent(x, y);
      SameExpiry(x, y, hour);
      assert Leaves(y, limit, id, row);
    }
  }

  lemma {:induction false} SameExpiry<B>(x: Arrival<B>, y: Arrival<B>, hour: nat)
    requires x.at / EXPIRY_BUCKET == hour && y.at / EXPIRY_BUCKET == hour
    ensures BucketedExpiry(x.at, DEFAULT_TTL) == BucketedExpiry(y.at, DEFAULT_TTL)
  {
  }

  lemma {:induction false} SameRows<B>(p: Queue<B>, q: Queue<B>)
    requires forall id, row :: Holds(p, id, row) <==> Holds(q, id, row)
    ensures p == q
  {
    forall id | id in p ensures id in q && p[id] == q[id] {
      assert Holds(p, id, p[id]);
    }
    forall id | id in q ensures id in p {
      assert Holds(q, id, q[id]);
    }
  }

  // ---- Drained inboxes -------------------------------------------------------

  /** The rows of every inbox but one. */
  function Others<B>(q: Queue<B>, inbox: Ident): Queue<B> {
    map id | id in q && q[id].inbox != inbox :: q[id]
  }

  predicate Concerns<B>(e: Event<B>, inbox: Ident) {
    match e.op
    case Submit(_, to, _, _) => to == inbox
    case Gather(to) => to == inbox
    case Confirm(to, _) => to == inbox
    case Sweep => false
  }

  /** The same run had nobody ever used this inbox. */
  function Without<B>(run: seq<Event<B>>, inbox: Ident): seq<Event<B>>
    decreases |run|
  {
    if run == [] then []
    else if Concerns(run[0], inbox) then Without(run[1..], inbox)
    else [run[0]] + Without(run[1..], inbox)
  }

  lemma {:induction false} OthersMove<B>(q: Queue<B>, limit: nat, e: Event<B>, inbox: Ident)
    requires e.op.Submit? ==> e.op.id !in q
    ensures Others(Perform(q, limit, e), inbox) == if Concerns(e, inbox) then Others(q, inbox)
            else Perform(Others(q, inbox), limit, e)
  {
  }

  lemma {:induction false} OthersRun<B>(q: Queue<B>, limit: nat, run: seq<Event<B>>, inbox: Ident, taken: set<Ident>)
    requires q.Keys <= taken && FreshIds(taken, run)
    ensures Others(After(q, limit, run), inbox) == After(Others(q, inbox), limit, Without(run, inbox))
    decreases |run|
  {
    if run != [] {
      var e := run[0];
      var taken' := if e.op.Submit? then taken + {e.op.id} else taken;
      OthersMove(q, limit, e, inbox);
      OthersRun(Perform(q, limit, e), limit, run[1..], inbox, taken');
      if !Concerns(e, inbox) {
        assert Without(run, inbox)[1..] == Without(run[1..], inbox);
      }
    }
  }

  /**
   Whatever happened to it in between, among whatever other requests and sweeps: an inbox that is empty
   again leaves the very table of a run in which it was never used, so every later answer is the same.
  */
  lemma {:induction false} DrainedIsNeverUsed<B>(q: Queue<B>, limit: nat, run: seq<Event<B>>, inbox: Ident)
    requires FreshIds(q.Keys, run)
    requires forall id :: id in q ==> q[id].inbox != inbox
    requires forall id :: id in After(q, limit, run) ==> After(q, limit, run)[id].inbox != inbox
    ensures After(q, limit, run) == After(q, limit, Without(run, inbox))
  {
    OthersRun(q, limit, run, inbox, q.Keys);
    assert Others(q, inbox) == q;
    assert Others(After(q, limit, run), inbox) == After(q, limit, run);
  }
}
