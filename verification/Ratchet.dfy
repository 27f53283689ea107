/** The receive ratchet of one MLS sender. */
module Ratchet {
  // `Accepts` says which generation a receiver can still decrypt, in terms of the set of generations it has
  // already processed. `ReceiveRatchet` is the structure an MLS library keeps (RFC 9420, sections 9 and
  // 15.3): a chain head and a bounded queue of keys derived but not yet used.

  /** How far behind the newest processed generation a message may arrive. */
  const OUT_OF_ORDER_TOLERANCE := 64
  /** How far ahead of the expected generation a message may be. */
  const MAXIMUM_FORWARD_DISTANCE := 2000

  /** No processed generation lies 64 or more above `g`. */
  predicate InReach(used: set<nat>, g: nat) {
    forall h :: h in used ==> h < g + OUT_OF_ORDER_TOLERANCE
  }

  /** `g` is at most 2000 above the next expected generation. */
  predicate NotTooFar(used: set<nat>, g: nat) {
    g <= MAXIMUM_FORWARD_DISTANCE || exists h :: h in used && g <= h + 1 + MAXIMUM_FORWARD_DISTANCE
  }

  /** A receiver that has processed `used` can decrypt generation `g`. */
  predicate Accepts(used: set<nat>, g: nat) {
    g !in used && InReach(used, g) && NotTooFar(used, g)
  }

  /** In numbers: behind the newest one processed by less than 64, or ahead of it by no more than 2001. */
  lemma {:induction false} WindowInNumbers(h: nat, g: nat)
    ensures Accepts({h}, g) <==> g != h && h < g + 64 && g <= h + 2001
    ensures Accepts({}, g) <==> g <= 2000
  {
    assert h in {h};
  }

  /** What an MLS library keeps for one sender. */
  class ReceiveRatchet {
    /** The generation the chain is at: one above the newest processed. */
    var head: nat
    /** Newest first: whether the key of generation `head - 1 - i` is still held. */
    var held: seq<bool>
    /** Every generation processed so far. */
    ghost var used: set<nat>

    ghost predicate Valid()
      reads this
    {
      Holds(head, held, used)
    }

    constructor ()
      ensures Valid() && used == {}
    {
      head, held, used := 0, [], {};
    }

    /** Takes the key of generation `g`; on refusal nothing changes. */
    method Take(g: nat) returns (taken: bool)
      requires Valid()
      modifies this
      ensures Valid()
      ensures taken == Accepts(old(used), g)
      ensures taken ==> used == old(used) + {g}
      ensures !taken ==> used == old(used) && head == old(head) && held == old(held)
    {
      if g > head + MAXIMUM_FORWARD_DISTANCE {
        return false;
      }
      if g < head && head - g > OUT_OF_ORDER_TOLERANCE {
        assert head - 1 in used;
        return false;
      }
      if g < head {
        var i := head - g - 1;
        if !held[i] {
          return false;
        }
        assert g !in used;
        assert NotTooFar(used, g) by { assert head - 1 in used && g <= head - 1 + 1 + MAXIMUM_FORWARD_DISTANCE; }
        held := held[i := false];
        used := used + {g};
        return true;
      }
      AheadIsAccepted(head, held, used, g);
      JumpTo(g);
      return true;
    }

    /** Derives the keys up to generation `g`, uses that one, and keeps the newest of the others. */
    method JumpTo(g: nat)
      requires Valid() && head <= g
      modifies this
      ensures Valid() && used == old(used) + {g}
    {
      var skipped := g - head;
      var keys := held;
      var derived := 0;
      while derived < skipped
        invariant derived <= skipped
        invariant keys == Unused(derived) + held
      {
        keys := [true] + keys;
        derived := derived + 1;
      }
      keys := [false] + keys;
      JumpValid(head, held, used, g);
      held := if |keys| > OUT_OF_ORDER_TOLERANCE then keys[..OUT_OF_ORDER_TOLERANCE] else keys;
      head := g + 1;
      used := used + {g};
    }
  }

  /** The keys of `n` generations derived but not used. */
  ghost function Unused(n: nat): (s: seq<bool>)
    ensures |s| == n && forall i :: 0 <= i < n ==> s[i]
    ensures n > 0 ==> s == [true] + Unused(n - 1)
  {
    if n == 0 then [] else [true] + Unused(n - 1)
  }

  ghost predicate Holds(head: nat, held: seq<bool>, used: set<nat>) {
    && |held| == (if head < OUT_OF_ORDER_TOLERANCE then head else OUT_OF_ORDER_TOLERANCE)
    && (forall i :: 0 <= i < |held| ==> (held[i] <==> head - 1 - i !in used))
    && (forall h :: h in used ==> h < head)
    && (head > 0 ==> head - 1 in used)
  }

  lemma {:induction false} AheadIsAccepted(head: nat, held: seq<bool>, used: set<nat>, g: nat)
    requires Holds(head, held, used) && head <= g <= head + MAXIMUM_FORWARD_DISTANCE
    ensures Accepts(used, g)
  {
    if head > 0 {
      assert head - 1 in used && g <= head - 1 + 1 + MAXIMUM_FORWARD_DISTANCE;
    }
  }

  /** Moving the chain to `g + 1` keeps the queue in step with the processed set. */
  lemma {:induction false} JumpValid(head: nat, held: seq<bool>, used: set<nat>, g: nat)
    requires Holds(head, held, used) && g >= head
    ensures
      var keys := [false] + (Unused(g - head) + held);
      Holds(g + 1, if |keys| > OUT_OF_ORDER_TOLERANCE then keys[..OUT_OF_ORDER_TOLERANCE] else keys, used + {g})
  {
    var keys := [false] + (Unused(g - head) + held);
    forall i | 0 <= i < |keys|
      ensures keys[i] <==> g - i !in used + {g}
    {
      if i > g - head {
        assert keys[i] == held[i - 1 - (g - head)];
      }
    }
  }

  /** Every generation of `s` decrypts when they are processed in this order. */
  ghost predicate AllAccepted(used: set<nat>, s: seq<nat>)
    decreases |s|
  {
    s == [] || (Accepts(used, s[0]) && AllAccepted(used + {s[0]}, s[1..]))
  }

  /** `s` is one order in which the generations `g` can be processed. */
  ghost predicate OrderOf(s: seq<nat>, g: set<nat>) {
    (forall x :: x in s <==> x in g) && |s| == |g|
  }

  /** Waiting generations that are unused, near enough, and within 64 of everything processed or waiting. */
  ghost predicate InWindow(used: set<nat>, waiting: set<nat>) {
    forall g :: g in waiting ==> Accepts(used, g) && InReach(waiting, g)
  }

  lemma {:induction false} InWindowStep(used: set<nat>, waiting: set<nat>, g: nat)
    requires InWindow(used, waiting) && g in waiting
    ensures Accepts(used, g)
    ensures InWindow(used + {g}, waiting - {g})
  {
    forall x | x in waiting - {g}
      ensures Accepts(used + {g}, x) && InReach(waiting - {g}, x)
    {
      assert Accepts(used, x) && InReach(waiting, x);
    }
  }

  ghost function Listed(g: set<nat>): (s: seq<nat>)
    ensures OrderOf(s, g)
    decreases |g|
  {
    if g == {} then [] else
      var x :| x in g;
      [x] + Listed(g - {x})
  }

  lemma {:induction false} OrderTail(s: seq<nat>, g: set<nat>)
    requires OrderOf(s, g) && s != []
    ensures s[0] in g && OrderOf(s[1..], g - {s[0]})
  {
    assert s == [s[0]] + s[1..];
    if s[0] in s[1..] {
      DuplicateTooLong(s[1..], g);
    }
  }

  /** A list that covers a set is at least as long as the set is large. */
  lemma {:induction false} DuplicateTooLong(s: seq<nat>, g: set<nat>)
    requires forall x :: x in g ==> x in s
    ensures |s| >= |g|
    decreases |s|
  {
    if s != [] {
      forall x | x in g - {s[0]} ensures x in s[1..] {
        assert s == [s[0]] + s[1..];
      }
      DuplicateTooLong(s[1..], g - {s[0]});
    } else {
      assert g == {};
    }
  }

  lemma {:induction false} WindowAcceptsOrder(used: set<nat>, waiting: set<nat>, s: seq<nat>)
    requires InWindow(used, waiting) && OrderOf(s, waiting)
    ensures AllAccepted(used, s)
    decreases |s|
  {
    if s != [] {
      OrderTail(s, waiting);
      InWindowStep(used, waiting, s[0]);
      WindowAcceptsOrder(used + {s[0]}, waiting - {s[0]}, s[1..]);
    }
  }

  /** An order that processes `h` and then `g` before anything else. */
  ghost function StartingWith(waiting: set<nat>, h: nat, g: nat): (s: seq<nat>)
    requires h in waiting && g in waiting && h != g
    ensures OrderOf(s, waiting) && |s| >= 2 && s[0] == h && s[1] == g
  {
    [h, g] + Listed(waiting - {h, g})
  }

  /**
   A set of waiting generations decrypts in full under every order exactly when it is in the window:
   the relay's random identifiers can produce any order, so this is when a batch is always stored whole.
  */
  lemma {:induction false} EveryOrderDecrypts(used: set<nat>, waiting: set<nat>)
    ensures (forall s :: OrderOf(s, waiting) ==> AllAccepted(used, s)) <==> InWindow(used, waiting)
  {
    if InWindow(used, waiting) {
      forall s | OrderOf(s, waiting) ensures AllAccepted(used, s) {
        WindowAcceptsOrder(used, waiting, s);
      }
    } else {
      var g :| g in waiting && !(Accepts(used, g) && InReach(waiting, g));
      if !Accepts(used, g) {
        var s := [g] + Listed(waiting - {g});
        assert OrderOf(s, waiting) && !AllAccepted(used, s);
      } else {
        var h :| h in waiting && !(h < g + OUT_OF_ORDER_TOLERANCE);
        var s := StartingWith(waiting, h, g);
        assert s[1..][0] == g && !Accepts(used + {h}, g);
        assert OrderOf(s, waiting) && !AllAccepted(used, s);
      }
    }
  }

  /** The generations `from`, `from + 1`, ..., `from + count - 1`. */
  ghost function Consecutive(from: nat, count: nat): (g: set<nat>)
    ensures forall x :: x in g <==> from <= x < from + count
  {
    if count == 0 then {} else Consecutive(from, count - 1) + {from + count - 1}
  }

  /**
   A run of consecutive generations, next after everything processed so far, decrypts under every order
   exactly when it is at most 64 long.
  */
  lemma {:induction false} ConsecutiveRun(used: set<nat>, from: nat, count: nat)
    requires forall h :: h in used ==> h < from
    requires from == 0 || from - 1 in used
    ensures (forall s :: OrderOf(s, Consecutive(from, count)) ==> AllAccepted(used, s)) <==> count <= 64
  {
    var waiting := Consecutive(from, count);
    EveryOrderDecrypts(used, waiting);
    if count <= OUT_OF_ORDER_TOLERANCE {
      forall g | g in waiting
        ensures Accepts(used, g) && InReach(waiting, g)
      {
        if from > 0 {
          assert from - 1 in used && g <= from - 1 + 1 + MAXIMUM_FORWARD_DISTANCE;
        }
      }
    } else {
      assert from in waiting && from + count - 1 in waiting;
      assert !InReach(waiting, from);
    }
  }
}
