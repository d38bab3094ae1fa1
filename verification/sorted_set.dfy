/**
 * The sorted array set the controller keeps its three queues in: a sequence
 * of requests strictly ascending under `CompareRequests`, so that no two
 * entries are equal under `EqualRequests`. Only the operations the controller
 * calls are modelled: `add`, `has`, `delete`, `shift`, `pop` and `length`.
 */
module SortedSet {
  import opened Requests

  /** Strictly ascending by the comparator, hence unique by destination. */
  predicate Ordered(q: seq<Request>)
  {
    forall i, j :: 0 <= i < j < |q| ==> CompareRequests(q[i], q[j]) < 0
  }

  /** The destinations a queue holds. */
  function Dests(q: seq<Request>): set<nat>
  {
    set x | x in q :: x.destination
  }

  /** `has`: some entry is equal to a probe request for floor `d`. */
  predicate Has(q: seq<Request>, d: nat)
  {
    exists x :: x in q && EqualRequests(x, CarCall(d))
  }

  lemma HasIsMembership(q: seq<Request>, d: nat)
    ensures Has(q, d) <==> d in Dests(q)
  {
    if d in Dests(q) {
      var x :| x in q && x.destination == d;
      assert EqualRequests(x, CarCall(d));
    }
  }

  lemma DestsCons(q: seq<Request>)
    requires |q| > 0
    ensures Dests(q) == {q[0].destination} + Dests(q[1..])
  {
    assert q == [q[0]] + q[1..];
    assert forall x :: x in q <==> x == q[0] || x in q[1..];
  }

  /** A head smaller than every entry of an ordered tail keeps the queue ordered. */
  lemma OrderedCons(h: Request, t: seq<Request>)
    requires Ordered(t)
    requires forall x :: x in t ==> h.destination < x.destination
    ensures Ordered([h] + t)
  {
    var q := [h] + t;
    forall i, j | 0 <= i < j < |q|
      ensures CompareRequests(q[i], q[j]) < 0
    {
      if i == 0 {
        assert q[j] == t[j - 1];
        assert q[j] in t;
      } else {
        assert q[i] == t[i - 1] && q[j] == t[j - 1];
      }
    }
  }

  /** Every later entry of an ordered queue lies above its head. */
  lemma HeadIsLeast(q: seq<Request>)
    requires Ordered(q) && |q| > 0
    ensures forall x :: x in q[1..] ==> q[0].destination < x.destination
  {
    forall x | x in q[1..]
      ensures q[0].destination < x.destination
    {
      var k :| 0 <= k < |q[1..]| && q[1..][k] == x;
      assert q[k + 1] == x;
    }
  }

  /** The insertion `add` performs, before anything is proved about it. */
  function Insert(q: seq<Request>, r: Request): seq<Request>
  {
    if |q| == 0 then [r]
    else if r.destination < q[0].destination then [r] + q
    else if r.destination == q[0].destination then q
    else [q[0]] + Insert(q[1..], r)
  }

  lemma {:induction false} InsertMembers(q: seq<Request>, r: Request)
    requires Ordered(q)
    ensures forall x :: x in Insert(q, r) <==> x in q || (x == r && r.destination !in Dests(q))
  {
    if |q| > 0 {
      DestsCons(q);
      HeadIsLeast(q);
      assert forall x :: x in q <==> x == q[0] || x in q[1..] by {
        assert q == [q[0]] + q[1..];
      }
      if r.destination < q[0].destination {
        assert r.destination !in Dests(q[1..]);
      } else if r.destination > q[0].destination {
        InsertMembers(q[1..], r);
      }
    }
  }

  lemma {:induction false} InsertOrdered(q: seq<Request>, r: Request)
    requires Ordered(q)
    ensures Ordered(Insert(q, r))
  {
    if |q| > 0 {
      HeadIsLeast(q);
      if r.destination < q[0].destination {
        OrderedCons(r, q);
      } else if r.destination > q[0].destination {
        InsertOrdered(q[1..], r);
        InsertMembers(q[1..], r);
        OrderedCons(q[0], Insert(q[1..], r));
      }
    }
  }

  lemma {:induction false} InsertLength(q: seq<Request>, r: Request)
    requires Ordered(q)
    ensures r.destination in Dests(q) ==> Insert(q, r) == q
    ensures r.destination !in Dests(q) ==> |Insert(q, r)| == |q| + 1
  {
    if |q| > 0 && r.destination != q[0].destination {
      assert r.destination in Dests(q) <==> r.destination in Dests(q[1..]) by {
        DestsCons(q);
      }
      if r.destination < q[0].destination {
        assert r.destination !in Dests(q[1..]) by {
          HeadIsLeast(q);
        }
      } else {
        InsertLength(q[1..], r);
        assert q == [q[0]] + q[1..];
      }
    }
  }

  /** Two queues with the same entries hold the same destinations. */
  lemma SameMembersSameDests(a: seq<Request>, b: seq<Request>, r: Request, extra: bool)
    requires forall x :: x in a <==> x in b || (x == r && extra)
    ensures Dests(a) == Dests(b) + (if extra then {r.destination} else {})
  {
    if extra {
      assert r in a;
    }
  }

  /**
   * `add`: inserts `r` at its sorted place unless an entry with the same
   * destination is already present, in which case the queue is unchanged.
   */
  function Add(q: seq<Request>, r: Request): (q': seq<Request>)
    requires Ordered(q)
    ensures Ordered(q')
    ensures Dests(q') == Dests(q) + {r.destination}
    ensures r.destination in Dests(q) ==> q' == q
    ensures r.destination !in Dests(q) ==> |q'| == |q| + 1
    ensures forall x :: x in q' <==> x in q || (x == r && r.destination !in Dests(q))
  {
    InsertMembers(q, r);
    InsertOrdered(q, r);
    InsertLength(q, r);
    SameMembersSameDests(Insert(q, r), q, r, r.destination !in Dests(q));
    Insert(q, r)
  }

  /** `delete`: removes the entry equal to a probe for floor `d`, if any. */
  function Delete(q: seq<Request>, d: nat): (q': seq<Request>)
    requires Ordered(q)
    ensures Ordered(q')
    ensures Dests(q') == Dests(q) - {d}
    ensures d in Dests(q) ==> |q'| == |q| - 1
    ensures d !in Dests(q) ==> q' == q
    ensures forall x :: x in q' <==> x in q && x.destination != d
  {
    if |q| == 0 then
      q
    else
      DestsCons(q);
      if q[0].destination == d then
        HeadIsLeast(q);
        assert d !in Dests(q[1..]);
        q[1..]
      else
        HeadIsLeast(q);
        var tail := Delete(q[1..], d);
        OrderedCons(q[0], tail);
        var q' := [q[0]] + tail;
        assert q'[1..] == tail;
        DestsCons(q');
        if d in Dests(q) then q' else assert tail == q[1..]; q
  }

  /** The entry a queue operation took off, and what is left. */
  datatype Taken = Taken(entry: Request, rest: seq<Request>)

  /** `shift`: removes the entry with the smallest destination. */
  function Shift(q: seq<Request>): (t: Taken)
    requires Ordered(q) && |q| > 0
    ensures t.entry in q
    ensures forall x :: x in q ==> t.entry.destination <= x.destination
    ensures Ordered(t.rest) && |t.rest| == |q| - 1
    ensures Dests(t.rest) == Dests(q) - {t.entry.destination}
    ensures forall x :: x in t.rest <==> x in q && x != t.entry
  {
    DestsCons(q);
    Taken(q[0], q[1..])
  }

  /** `pop`: removes the entry with the largest destination. */
  function Pop(q: seq<Request>): (t: Taken)
    requires Ordered(q) && |q| > 0
    ensures t.entry in q
    ensures forall x :: x in q ==> x.destination <= t.entry.destination
    ensures Ordered(t.rest) && |t.rest| == |q| - 1
    ensures Dests(t.rest) == Dests(q) - {t.entry.destination}
    ensures forall x :: x in t.rest <==> x in q && x != t.entry
  {
    var n := |q| - 1;
    assert q == q[..n] + [q[n]];
    assert forall x :: x in q <==> x in q[..n] || x == q[n];
    Taken(q[n], q[..n])
  }
}
