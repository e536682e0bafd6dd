/** The pool of packet identifiers: `src/client/session/pkid.rs`. */
module PkidPool {
  import opened Wrappers
  import opened Packets

  /** Which identifiers are leased, and where the search for the next one starts. */
  datatype AnyPool = Pool(max: PacketId, cursor: PacketId, leased: set<PacketId>)

  type Pool = p: AnyPool | p.cursor <= p.max && forall x :: x in p.leased ==> x <= p.max witness Pool(1, 1, {})

  function Successor(max: PacketId, x: PacketId): PacketId
    requires x <= max
  {
    if x == max then 1 else x + 1
  }

  /** How many steps around the circle 1, 2, …, max, 1, … lead from one identifier to another. */
  function Distance(max: PacketId, from: PacketId, to: PacketId): (d: nat)
    requires from <= max && to <= max
    ensures d < max
    ensures d == 0 <==> from == to
  {
    if from <= to then to - from else to - from + max
  }

  /** The first identifier that is not leased among the next `tries` around the circle. */
  function Search(max: PacketId, leased: set<PacketId>, from: PacketId, tries: nat): (r: Option<PacketId>)
    requires from <= max
    decreases tries
  {
    if tries == 0 then None
    else if from !in leased then Some(from)
    else Search(max, leased, Successor(max, from), tries - 1)
  }

  function Lease(p: Pool): (Pool, Option<PacketId>) {
    match Search(p.max, p.leased, p.cursor, p.max)
    case None => (p, None)
    case Some(x) =>
      SearchIsFirst(p.max, p.leased, p.cursor, p.max);
      (Pool(p.max, Successor(p.max, x), p.leased + {x}), Some(x))
  }

  function Release(p: Pool, x: PacketId): Pool {
    p.(leased := p.leased - {x})
  }

  lemma {:induction false} SearchIsFirst(max: PacketId, leased: set<PacketId>, from: PacketId, tries: nat)
    requires from <= max && tries <= max
    ensures match Search(max, leased, from, tries)
      case None => forall y: PacketId :: y <= max && Distance(max, from, y) < tries ==> y in leased
      case Some(x) =>
        && x <= max && x !in leased && Distance(max, from, x) < tries
        && forall y: PacketId :: y <= max && Distance(max, from, y) < Distance(max, from, x) ==> y in leased
    decreases tries
  {
    if tries > 0 && from in leased {
      SearchIsFirst(max, leased, Successor(max, from), tries - 1);
      forall y: PacketId | y <= max && y != from
        ensures Distance(max, Successor(max, from), y) == Distance(max, from, y) - 1
      {
      }
    }
  }

  /**
   * An identifier is refused only when every one is leased; otherwise the first free one after the last lease, in
   * circular order, is leased, and nothing else changes.
   */
  lemma LeaseIsFirstFree(p: Pool)
    ensures Lease(p).0.max == p.max
    ensures match Lease(p)
      case (q, None) => q == p && forall y: PacketId :: y <= p.max ==> y in p.leased
      case (q, Some(x)) =>
        && x <= p.max && x !in p.leased && q.leased == p.leased + {x} && q.cursor == Successor(p.max, x)
        && forall y: PacketId :: y <= p.max && Distance(p.max, p.cursor, y) < Distance(p.max, p.cursor, x) ==> y in p.leased
  {
    SearchIsFirst(p.max, p.leased, p.cursor, p.max);
  }

  /** A set of identifiers up to `max` has `max` of them exactly if it has all of them. */
  lemma {:induction false} FullCount(leased: set<PacketId>, max: nat)
    requires forall x :: x in leased ==> x <= max
    requires max < 0x1_0000
    ensures |leased| <= max
    ensures |leased| == max <==> forall y: PacketId :: y <= max ==> y in leased
  {
    if max > 0 {
      var top: PacketId := max;
      var below := leased - {top};
      FullCount(below, max - 1);
      if top in leased {
        assert leased == below + {top};
        assert forall y: PacketId :: y <= max - 1 ==> (y in below <==> y in leased);
      } else {
        assert leased == below;
      }
    } else if x :| x in leased {
      assert false;
    }
  }

  /** All identifiers from the cursor up to the free one are leased. */
  ghost predicate LeasedUpTo(max: PacketId, leased: set<PacketId>, cursor: PacketId, free: PacketId)
    requires cursor <= max && free <= max
  {
    forall y: PacketId :: y <= max && Distance(max, cursor, y) < Distance(max, cursor, free) ==> y in leased
  }

  lemma LeasesFirst(p: Pool)
    requires Lease(p).1.Some?
    ensures Lease(p).1.value <= p.max && LeasedUpTo(p.max, p.leased, p.cursor, Lease(p).1.value)
  {
    LeaseIsFirstFree(p);
  }

  lemma OnlyFree(max: PacketId, leased: set<PacketId>, cursor: PacketId, free: PacketId)
    requires cursor <= max && free <= max && LeasedUpTo(max, leased, cursor, free) && cursor !in leased
    ensures cursor == free
  {
    assert Distance(max, cursor, cursor) == 0;
  }

  /** Passing over a leased identifier brings the search one step nearer to the free one. */
  lemma NextIsNearer(max: PacketId, leased: set<PacketId>, cursor: PacketId, free: PacketId)
    requires cursor <= max && free <= max && cursor != free && LeasedUpTo(max, leased, cursor, free)
    ensures Distance(max, Successor(max, cursor), free) == Distance(max, cursor, free) - 1
    ensures LeasedUpTo(max, leased, Successor(max, cursor), free)
  {
    var next := Successor(max, cursor);
    forall y: PacketId | y <= max && Distance(max, next, y) < Distance(max, next, free)
      ensures y in leased
    {
      if y != cursor {
        assert Distance(max, cursor, y) == Distance(max, next, y) + 1;
      }
    }
  }

  class PkidPool {
    const max: PacketId
    var leased: set<PacketId>
    // The range 1..=max, repeated for ever.
    var current: PacketId
    var finished: bool

    ghost predicate Valid()
      reads this
    {
      && current <= max
      && (finished ==> current == max)
      && forall x :: x in leased ==> x <= max
    }

    ghost function Value(): Pool
      reads this
      requires Valid()
    {
      Pool(max, if finished then 1 else current, leased)
    }

    constructor (max: PacketId)
      ensures Valid() && Value() == Pool(max, 1, {})
    {
      this.max := max;
      leased, current, finished := {}, 1, false;
    }

    /** The next identifier of the repeated range. */
    method Next() returns (x: PacketId)
      requires Valid()
      modifies this`current, this`finished
      ensures Valid() && x == old(Value()).cursor
      ensures Value() == old(Value()).(cursor := Successor(max, x))
    {
      if finished {
        current, finished := 1, false;
      }
      x := current;
      if current == max {
        finished := true;
      } else {
        current := current + 1;
      }
    }

    /** Looks at no more than `max` identifiers. */
    method LeaseNext() returns (r: Option<PacketId>, ghost steps: nat)
      requires Valid()
      modifies this
      ensures Valid() && steps <= max
      ensures (Value(), r) == Lease(old(Value()))
    {
      FullCount(leased, max);
      LeaseIsFirstFree(Value());
      steps := 0;
      if |leased| == max as int {
        return None, 0;
      }
      hide Lease, LeasedUpTo;
      ghost var free := Lease(Value()).1.value;
      assert LeasedUpTo(max, leased, Value().cursor, free) by {
        LeasesFirst(Value());
      }
      while true
        invariant Valid() && leased == old(leased)
        invariant Lease(old(Value())) == (Pool(max, Successor(max, free), leased + {free}), Some(free))
        invariant free !in leased && free <= max
        invariant LeasedUpTo(max, leased, Value().cursor, free)
        invariant steps + Distance(max, Value().cursor, free) < max
        decreases Distance(max, Value().cursor, free)
      {
        ghost var cursor := Value().cursor;
        var x := Next();
        steps := steps + 1;
        if x !in leased {
          OnlyFree(max, leased, cursor, free);
          leased := leased + {x};
          return Some(x), steps;
        }
        NextIsNearer(max, leased, cursor, free);
      }
    }

    /** Whether the identifier was leased. */
    method ReleaseId(x: PacketId) returns (was: bool)
      requires Valid()
      modifies this`leased
      ensures Valid() && Value() == Release(old(Value()), x) && was == (x in old(leased))
    {
      was := x in leased;
      leased := leased - {x};
    }
  }

  // --- Fairness ---

  datatype Use = Leasing | Releasing(id: PacketId)

  /** A pool through a sequence of uses. */
  ghost predicate PoolRun(ps: seq<Pool>, uses: seq<Use>) {
    && |ps| == |uses| + 1
    && forall i :: 0 <= i < |uses| ==>
      ps[i + 1] == if uses[i].Leasing? then Lease(ps[i]).0 else Release(ps[i], uses[i].id)
  }

  /** The use at `i` leases `x`. */
  ghost predicate Leases(ps: seq<Pool>, uses: seq<Use>, i: nat, x: PacketId)
    requires PoolRun(ps, uses) && i < |uses|
  {
    uses[i].Leasing? && Lease(ps[i]).1 == Some(x)
  }

  /** One use of the pool leaves the search short of `q` if it was, and `q` is free before and after. */
  lemma StaysShort(p: Pool, use: Use, next: Pool, x: PacketId, q: PacketId)
    requires x <= p.max && q <= p.max
    requires next == if use.Leasing? then Lease(p).0 else Release(p, use.id)
    requires q !in p.leased && q !in next.leased
    requires Distance(p.max, p.cursor, q) < Distance(p.max, p.cursor, x)
    ensures next.max == p.max
    ensures Distance(p.max, next.cursor, q) < Distance(p.max, next.cursor, x)
  {
    if use.Leasing? {
      LeaseIsFirstFree(p);
      if Lease(p).1.Some? {
        var y := Lease(p).1.value;
        assert Distance(p.max, p.cursor, y) < Distance(p.max, p.cursor, q) by {
          assert y != q;
        }
        StepPast(p.max, p.cursor, y, q);
        StepPast(p.max, p.cursor, y, x);
      }
    }
  }

  /** As long as `q` stays free after a lease of `x`, the search comes to `q` before it comes back to `x`. */
  lemma {:induction false} ReachesFreeFirst(ps: seq<Pool>, uses: seq<Use>, i: nat, k: nat, x: PacketId, q: PacketId)
    requires PoolRun(ps, uses) && i < k < |ps|
    requires Leases(ps, uses, i, x) && q != x && q <= ps[0].max
    requires forall m :: i < m <= k ==> q !in ps[m].leased
    ensures ps[k].max == ps[0].max && x <= ps[0].max
    ensures Distance(ps[0].max, ps[k].cursor, q) < Distance(ps[0].max, ps[k].cursor, x)
    decreases k
  {
    hide Lease;
    SameMax(ps, uses, i);
    LeaseIsFirstFree(ps[i]);
    if k > i + 1 {
      ReachesFreeFirst(ps, uses, i, k - 1, x, q);
      StaysShort(ps[k - 1], uses[k - 1], ps[k], x, q);
    }
  }

  lemma StepPast(max: PacketId, c: PacketId, y: PacketId, q: PacketId)
    requires c <= max && y <= max && q <= max
    requires Distance(max, c, y) < Distance(max, c, q)
    ensures Distance(max, Successor(max, y), q) == Distance(max, c, q) - Distance(max, c, y) - 1
  {
  }

  lemma {:induction false} SameMax(ps: seq<Pool>, uses: seq<Use>, k: nat)
    requires PoolRun(ps, uses) && k < |ps|
    ensures ps[k].max == ps[0].max
  {
    if k > 0 {
      SameMax(ps, uses, k - 1);
      LeaseIsFirstFree(ps[k - 1]);
    }
  }

  /** Between two leases of one identifier, no other identifier stays free throughout. */
  lemma NoIdentifierStarves(ps: seq<Pool>, uses: seq<Use>, i: nat, j: nat, x: PacketId, q: PacketId)
    requires PoolRun(ps, uses) && i < j < |uses|
    requires Leases(ps, uses, i, x) && Leases(ps, uses, j, x)
    requires q != x && q <= ps[0].max
    ensures exists m :: i < m <= j && q in ps[m].leased
  {
    if forall m :: i < m <= j ==> q !in ps[m].leased {
      ReachesFreeFirst(ps, uses, i, j, x, q);
      LeaseIsFirstFree(ps[j]);
    }
  }
}
