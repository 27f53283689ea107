/** The order of a query's rows. */
module RowOrder {
  // `ORDER BY at, id`, and `ORDER BY id` with every key equal.

  import opened Basics

  /** Row `a` sorts no later than row `b`. */
  predicate Precedes(at: map<Ident, int>, a: Ident, b: Ident)
    requires a in at && b in at
  {
    at[a] < at[b] || (at[a] == at[b] && Leq(a, b))
  }

  ghost predicate Ordered(at: map<Ident, int>, s: seq<Ident>) {
    && (forall i :: 0 <= i < |s| ==> s[i] in at)
    && (forall i, j :: 0 <= i < j < |s| ==> s[i] != s[j] && Precedes(at, s[i], s[j]))
  }

  /** `s` lists every row exactly once, in order. */
  ghost predicate Enumerates(at: map<Ident, int>, s: seq<Ident>) {
    Ordered(at, s) && forall k :: k in at ==> k in s
  }

  lemma {:induction false} PrecedesTransitive(at: map<Ident, int>, a: Ident, b: Ident, c: Ident)
    requires a in at && b in at && c in at
    requires Precedes(at, a, b) && Precedes(at, b, c)
    ensures Precedes(at, a, c)
  {
    if at[a] == at[b] == at[c] {
      LeqTransitive(a, b, c);
    }
  }

  lemma {:induction false} PrecedesAntisymmetric(at: map<Ident, int>, a: Ident, b: Ident)
    requires a in at && b in at
    requires Precedes(at, a, b) && Precedes(at, b, a)
    ensures a == b
  {
    LeqAntisymmetric(a, b);
  }

  predicate First(at: map<Ident, int>, rows: set<Ident>, k: Ident)
    requires rows <= at.Keys
  {
    k in rows && forall x :: x in rows ==> Precedes(at, k, x)
  }

  lemma {:induction false} FirstExists(at: map<Ident, int>, rows: set<Ident>) returns (first: Ident)
    requires rows <= at.Keys && rows != {}
    ensures First(at, rows, first)
    decreases |rows|
  {
    first :| first in rows;
    LeqReflexive(first);
    if rows != {first} {
      var other := FirstExists(at, rows - {first});
      LeqTotal(first, other);
      if Precedes(at, other, first) {
        first := other;
      } else {
        forall x | x in rows && x != first
          ensures Precedes(at, first, x)
        {
          PrecedesTransitive(at, first, other, x);
        }
      }
    }
  }

  /** The rows of a table in query order. */
  function InOrder(at: map<Ident, int>): (s: seq<Ident>)
    ensures forall i :: 0 <= i < |s| ==> s[i] in at
  {
    ListingOrdered(at, at.Keys);
    Listing(at, at.Keys)
  }

  function Listing(at: map<Ident, int>, rows: set<Ident>): seq<Ident>
    requires rows <= at.Keys
    decreases |rows|
  {
    if rows == {} then [] else
      var k := FirstOf(at, rows);
      [k] + Listing(at, rows - {k})
  }

  lemma {:induction false} ListingOrdered(at: map<Ident, int>, rows: set<Ident>)
    requires rows <= at.Keys
    ensures Ordered(at, Listing(at, rows))
    ensures |Listing(at, rows)| == |rows| && forall k :: k in Listing(at, rows) <==> k in rows
    decreases |rows|
  {
    if rows != {} {
      var k := FirstOf(at, rows);
      var rest := Listing(at, rows - {k});
      ListingOrdered(at, rows - {k});
      assert forall j :: 0 <= j < |rest| ==> rest[j] in rest && rest[j] in rows - {k};
    }
  }

  /** The query lists every row once, in order. */
  lemma {:induction false} InOrderEnumerates(at: map<Ident, int>)
    ensures Enumerates(at, InOrder(at)) && |InOrder(at)| == |at|
  {
    ListingOrdered(at, at.Keys);
    assert |at| == |at.Keys|;
  }

  function FirstOf(at: map<Ident, int>, rows: set<Ident>): (k: Ident)
    requires rows <= at.Keys && rows != {}
    ensures First(at, rows, k)
  {
    assert exists k :: k in rows && First(at, rows, k) by { var k := FirstExists(at, rows); }
    assert forall a, b :: First(at, rows, a) && First(at, rows, b) ==> a == b by {
      forall a, b | First(at, rows, a) && First(at, rows, b) ensures a == b {
        PrecedesAntisymmetric(at, a, b);
      }
    }
    var k :| k in rows && First(at, rows, k);
    k
  }

  /** There is only one such listing, so a query's answer is a function of the table. */
  lemma {:induction false} EnumerationUnique(at: map<Ident, int>, s: seq<Ident>, t: seq<Ident>)
    requires Enumerates(at, s) && Enumerates(at, t)
    ensures s == t
    decreases |s|
  {
    if s == [] {
      assert forall x :: x in t ==> x in s;
    } else {
      assert s[0] in at;
      FirstOfListing(at, s, t);
      FirstOfListing(at, t, s);
      PrecedesAntisymmetric(at, s[0], t[0]);
      TailEnumerates(at, s);
      TailEnumerates(at, t);
      EnumerationUnique(at - {s[0]}, s[1..], t[1..]);
      assert s == [s[0]] + s[1..] && t == [t[0]] + t[1..];
    }
  }

  /** The first row of one listing sorts no later than the first of another. */
  lemma {:induction false} FirstOfListing(at: map<Ident, int>, s: seq<Ident>, t: seq<Ident>)
    requires Enumerates(at, s) && Enumerates(at, t) && at != map[]
    ensures s != [] && t != [] && s[0] in at && t[0] in at && Precedes(at, s[0], t[0])
  {
    var k :| k in at;
    assert k in s && k in t;
    assert t[0] in at && t[0] in s;
    LeqReflexive(s[0]);
  }

  lemma {:induction false} TailEnumerates(at: map<Ident, int>, s: seq<Ident>)
    requires Enumerates(at, s) && s != []
    ensures Enumerates(at - {s[0]}, s[1..])
  {
    var rest := at - {s[0]};
    forall k | k in rest
      ensures k in s[1..]
    {
      var i :| 0 <= i < |s| && s[i] == k;
      assert s[1..][i - 1] == k;
    }
  }
}
