/** The process-wide admission list of runners: a list of tickets that a
    runner appends its own ticket to and waits on until that ticket is first.
    The list is modelled as a sequential queue; its locking is not modelled. */
module Admission {
  import opened Common

  /** A runner's admission ticket (a random UUID in the running system). */
  type Ticket = nat

  /** The position of the first occurrence of `t` in `s`, or -1 (`List.indexOf`). */
  function IndexOf<T(==)>(s: seq<T>, t: T): (r: int)
    ensures -1 <= r < |s|
    ensures r == -1 <==> t !in s
    ensures 0 <= r ==> s[r] == t && t !in s[..r]
  {
    if s == [] then -1
    else if s[0] == t then 0
    else
      var k := IndexOf(s[1..], t);
      assert s == [s[0]] + s[1..];
      if k == -1 then -1
      else
        assert s[..k + 1] == [s[0]] + s[1..][..k];
        k + 1
  }

  /** `s` with the first occurrence of `t` removed (`List.remove(Object)`). */
  function Without<T(==)>(s: seq<T>, t: T): (r: seq<T>)
    ensures t !in s ==> r == s
  {
    if s == [] then []
    else if s[0] == t then s[1..]
    else
      assert t !in s ==> t !in s[1..];
      [s[0]] + Without(s[1..], t)
  }

  /** Removal cuts out exactly the element at the first position of `t`. */
  lemma {:induction false} WithoutCutsFirst<T>(s: seq<T>, t: T)
    requires t in s
    ensures Without(s, t) == s[..IndexOf(s, t)] + s[IndexOf(s, t) + 1..]
  {
    if s[0] != t {
      assert s == [s[0]] + s[1..];
      var k := IndexOf(s[1..], t);
      WithoutCutsFirst(s[1..], t);
      assert s[..k + 1] == [s[0]] + s[1..][..k];
      assert s[k + 2..] == s[1..][k + 1..];
    }
  }

  /** Removing from a list of distinct tickets drops exactly that ticket:
      the rest stay distinct and nothing else disappears. */
  lemma WithoutDistinct<T>(s: seq<T>, t: T)
    requires Distinct(s)
    ensures Distinct(Without(s, t))
    ensures forall x :: x in Without(s, t) <==> x in s && x != t
  {
    if t in s {
      var i := IndexOf(s, t);
      var r := Without(s, t);
      WithoutCutsFirst(s, t);
      assert r == s[..i] + s[i + 1..];
      assert forall j :: 0 <= j < i ==> r[j] == s[j];
      assert forall j :: i <= j < |r| ==> r[j] == s[j + 1];
      forall x ensures x in r <==> x in s && x != t {
        if x in s && x != t {
          var j :| 0 <= j < |s| && s[j] == x;
          if j < i {
            assert r[j] == x;
          } else {
            assert j != i;
            assert r[j - 1] == x;
          }
        }
      }
    }
  }

  /** Removing from a concatenation whose left part holds the ticket removes it there. */
  lemma {:induction false} WithoutConcatLeft<T>(a: seq<T>, b: seq<T>, t: T)
    requires t in a
    ensures Without(a + b, t) == Without(a, t) + b
  {
    var ab := a + b;
    assert ab[0] == a[0];
    assert ab[1..] == a[1..] + b;
    if a[0] != t {
      assert a == [a[0]] + a[1..];
      assert t in a[1..];
      WithoutConcatLeft(a[1..], b, t);
      calc {
        Without(ab, t);
        [a[0]] + Without(a[1..] + b, t);
        [a[0]] + (Without(a[1..], t) + b);
        ([a[0]] + Without(a[1..], t)) + b;
        Without(a, t) + b;
      }
    }
  }

  /** Removing from a concatenation whose left part lacks the ticket removes it from the right part. */
  lemma {:induction false} WithoutConcatRight<T>(a: seq<T>, b: seq<T>, t: T)
    requires t !in a
    ensures Without(a + b, t) == a + Without(b, t)
  {
    if a == [] {
      assert a + b == b;
    } else {
      var ab := a + b;
      assert ab[0] == a[0];
      assert ab[1..] == a[1..] + b;
      assert a == [a[0]] + a[1..];
      WithoutConcatRight(a[1..], b, t);
      calc {
        Without(ab, t);
        [a[0]] + Without(a[1..] + b, t);
        [a[0]] + (a[1..] + Without(b, t));
        a + Without(b, t);
      }
    }
  }

  /** Removal never adds a ticket. */
  lemma {:induction false} WithoutShrinks<T>(s: seq<T>, t: T)
    ensures forall x :: x in Without(s, t) ==> x in s
  {
    if s != [] && s[0] != t {
      WithoutShrinks(s[1..], t);
      assert s == [s[0]] + s[1..];
    }
  }

  /** Another runner leaving a list split around `me` drops its ticket from
      the part that holds it; `me` keeps its place relative to both parts. */
  lemma LeaveKeepsSplit(ahead: seq<Ticket>, me: Ticket, behind: seq<Ticket>, t: Ticket)
    requires t != me
    ensures t in ahead ==> Without(ahead + [me] + behind, t) == Without(ahead, t) + [me] + behind
    ensures t !in ahead ==> Without(ahead + [me] + behind, t) == ahead + [me] + Without(behind, t)
  {
    assert t in ahead + [me] <==> t in ahead;
    if t in ahead {
      WithoutConcatLeft(ahead + [me], behind, t);
      WithoutConcatLeft(ahead, [me], t);
    } else {
      WithoutConcatRight(ahead + [me], behind, t);
    }
  }

  /** The shared list of waiting runners (`RUNNERS`). */
  class RunnerQueue {
    var tickets: seq<Ticket>

    /** Tickets are random UUIDs, so none is listed twice. */
    ghost predicate Valid()
      reads this
    {
      Distinct(tickets)
    }

    constructor ()
      ensures Valid() && tickets == []
    {
      tickets := [];
    }

    /** Appends a ticket at the tail. */
    method Add(t: Ticket)
      requires Valid() && t !in tickets
      modifies this
      ensures Valid() && tickets == old(tickets) + [t]
    {
      tickets := tickets + [t];
    }

    /** Removes a ticket if it is listed; the other tickets keep their order. */
    method Remove(t: Ticket) returns (removed: bool)
      requires Valid()
      modifies this
      ensures Valid() && t !in tickets
      ensures removed == (t in old(tickets))
      ensures tickets == Without(old(tickets), t)
    {
      removed := t in tickets;
      WithoutDistinct(tickets, t);
      tickets := Without(tickets, t);
    }
  }

  /** What other runners do to the list: append a fresh ticket, or drop their own. */
  datatype GateEvent = Arrive(ticket: Ticket) | Leave(ticket: Ticket)

  /** Arrivals bring tickets never seen before: not in `seen` and not `me`. */
  ghost predicate FreshArrivals(events: seq<GateEvent>, seen: set<Ticket>, me: Ticket) {
    forall j :: 0 <= j < |events| && events[j].Arrive? ==> events[j].ticket !in seen && events[j].ticket != me
  }

  /** The other runners acting on the list while runner `me` sleeps. The list
      is split as `ahead + [me] + behind`; everything ahead of `me` was listed
      before `me` arrived (in `earlier`), nothing behind it was. Other runners
      can only drop tickets ahead of `me` and append behind it, so `me` never
      moves back and no runner overtakes it. */
  method OthersAct(gate: RunnerQueue, me: Ticket, events: seq<GateEvent>,
                   ghost earlier: set<Ticket>, ghost ahead0: seq<Ticket>, ghost behind0: seq<Ticket>)
    returns (ghost ahead: seq<Ticket>, ghost behind: seq<Ticket>)
    requires gate.Valid() && gate.tickets == ahead0 + [me] + behind0
    requires forall x :: x in ahead0 ==> x in earlier
    requires forall x :: x in behind0 ==> x !in earlier
    requires me !in earlier
    requires FreshArrivals(events, earlier, me)
    modifies gate
    ensures gate.Valid() && gate.tickets == ahead + [me] + behind
    ensures forall x :: x in ahead ==> x in ahead0
    ensures forall x :: x in behind ==> x !in earlier
  {
    ahead, behind := ahead0, behind0;
    for j := 0 to |events|
      invariant gate.Valid() && gate.tickets == ahead + [me] + behind
      invariant forall x :: x in ahead ==> x in ahead0
      invariant forall x :: x in behind ==> x !in earlier
    {
      match events[j]
      case Arrive(t) =>
        if t !in gate.tickets {
          gate.Add(t);
          behind := behind + [t];
        }
      case Leave(t) =>
        if t != me {
          var _ := gate.Remove(t);
          LeaveKeepsSplit(ahead, me, behind, t);
          if t in ahead {
            WithoutShrinks(ahead, t);
            ahead := Without(ahead, t);
          } else {
            WithoutShrinks(behind, t);
            behind := Without(behind, t);
          }
        }
    }
  }
}
