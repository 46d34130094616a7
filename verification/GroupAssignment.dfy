/** Partition assignment strategies of consumer groups (crates/server/src/consumer_group.rs,
    `rebalance` and `assign_sticky`) and what they guarantee. */
module GroupAssignment {
  import opened Common

  datatype Strategy = Range | RoundRobin | Sticky

  type Assignments = map<string, set<nat>>

  function CeilDiv(a: nat, b: nat): nat
    requires b > 0
  {
    (a + b - 1) / b
  }

  /** The first previous owner in name order. */
  function PreviousOwner(previous: Assignments, p: nat): Option<string> {
    var owners := set m | m in previous && p in previous[m];
    if owners == {} then None else Some(SortedNames(owners)[0])
  }

  /** The member with the fewest partitions, the smaller name on a tie. */
  function LeastLoaded(current: Assignments, ids: seq<string>): (best: string)
    requires ids != [] && forall m :: m in ids ==> m in current
    ensures best in ids && forall m :: m in ids ==> |current[best]| <= |current[m]|
  {
    if |ids| == 1 then ids[0]
    else
      var best := LeastLoaded(current, ids[..|ids| - 1]);
      var last := ids[|ids| - 1];
      assert forall m :: m in ids ==> m in ids[..|ids| - 1] || m == last;
      if |current[last]| < |current[best]| then last else best
  }

  /** The member index of the range strategy. */
  function RangeIndex(p: nat, members: nat, partitions: nat): (i: nat)
    requires p < partitions && members > 0
    ensures i < members
    ensures i * partitions <= p * members < (i + 1) * partitions
  {
    DivBounds(p * members, partitions);
    DivLess(p, members, partitions);
    p * members / partitions
  }

  /** The index as the broker computes it, with a clamp that never applies. */
  function ClampedIndex(p: nat, members: nat, partitions: nat): (i: nat)
    requires p < partitions && members > 0
    ensures i == RangeIndex(p, members, partitions)
  {
    DivLess(p, members, partitions);
    var index := p * members / partitions;
    if index < members - 1 then index else members - 1
  }

  lemma DivBounds(a: nat, b: nat)
    requires b > 0
    ensures (a / b) * b <= a < (a / b + 1) * b
  {
  }

  lemma MulMono(a: nat, b: nat, c: nat)
    requires a <= b
    ensures a * c <= b * c
  {
  }

  lemma DivLess(p: nat, members: nat, partitions: nat)
    requires p < partitions && members > 0
    ensures p * members / partitions < members
  {
    var i := p * members / partitions;
    DivBounds(p * members, partitions);
    MulMono(p + 1, partitions, members);
    if i >= members {
      MulMono(members, i, partitions);
      assert false;
    }
  }

  function StickyOwner(
    current: Assignments, previous: Assignments, ids: seq<string>, limit: nat, p: nat): (owner: string)
    requires ids != [] && current.Keys == ElementsOf(ids)
    ensures owner in ids
  {
    var holder := PreviousOwner(previous, p);
    if holder.Some? && holder.value in current && |current[holder.value]| < limit then holder.value
    else LeastLoaded(current, ids)
  }

  function Owner(
    strategy: Strategy, current: Assignments, previous: Assignments, ids: seq<string>, partitions: nat, p: nat
  ): (owner: string)
    requires ids != [] && p < partitions && current.Keys == ElementsOf(ids)
    ensures owner in ids
  {
    match strategy
    case Range => ids[RangeIndex(p, |ids|, partitions)]
    case RoundRobin => ids[p % |ids|]
    case Sticky => StickyOwner(current, previous, ids, CeilDiv(partitions, |ids|), p)
  }

  /** The assignment after the first `k` partitions have been placed. */
  function Assigned(
    strategy: Strategy, previous: Assignments, ids: seq<string>, partitions: nat, k: nat): (a: Assignments)
    requires ids != [] && k <= partitions
    ensures a.Keys == ElementsOf(ids)
  {
    if k == 0 then map m | m in ElementsOf(ids) :: {}
    else
      var a := Assigned(strategy, previous, ids, partitions, k - 1);
      var owner := Owner(strategy, a, previous, ids, partitions, k - 1);
      Place(a, owner, k - 1)
  }

  function Place(a: Assignments, owner: string, p: nat): Assignments
    requires owner in a
  {
    a[owner := a[owner] + {p}]
  }

  ghost predicate Owned(a: Assignments, p: nat) {
    exists m :: m in a && p in a[m]
  }

  /** `find_map` over the previous assignments in name order. */
  method FindPreviousOwner(previous: Assignments, p: nat) returns (owner: Option<string>)
    ensures owner == PreviousOwner(previous, p)
  {
    var ids := SortedNames(previous.Keys);
    ghost var owners := set m | m in previous && p in previous[m];
    for i := 0 to |ids|
      invariant forall j :: 0 <= j < i ==> ids[j] !in owners
    {
      if p in previous[ids[i]] {
        FirstOwner(owners, ids, i);
        return Some(ids[i]);
      }
    }
    assert forall m :: m in owners ==> m in ids;
    owner := None;
  }

  lemma FirstOwner(owners: set<string>, ids: seq<string>, i: nat)
    requires i < |ids| && ids[i] in owners && Ascending(ids, LexLe)
    requires forall m :: m in owners ==> m in ids
    requires forall j :: 0 <= j < i ==> ids[j] !in owners
    ensures SortedNames(owners)[0] == ids[i]
  {
    LexLeTotal();
    var first := SortedNames(owners)[0];
    assert first in owners && ids[i] in SortedNames(owners);
    assert LexLe(first, ids[i]);
    var j :| 0 <= j < |ids| && ids[j] == first;
    assert i <= j;
    assert LexLe(ids[i], first);
  }

  /** `min_by_key` on (load, name) over members in name order. */
  method FindLeastLoaded(current: Assignments, ids: seq<string>) returns (best: string)
    requires ids != [] && forall m :: m in ids ==> m in current
    ensures best == LeastLoaded(current, ids)
  {
    best := ids[0];
    for i := 1 to |ids|
      invariant best in ids && best == LeastLoaded(current, ids[..i])
    {
      assert ids[..i + 1][..i] == ids[..i];
      if |current[ids[i]]| < |current[best]| { best := ids[i]; }
    }
    assert ids[..|ids|] == ids;
  }

  method FindStickyOwner(
    current: Assignments, previous: Assignments, ids: seq<string>, limit: nat, p: nat) returns (owner: string)
    requires ids != [] && current.Keys == ElementsOf(ids)
    ensures owner == StickyOwner(current, previous, ids, limit, p)
  {
    hide PreviousOwner, LeastLoaded;
    var holder := FindPreviousOwner(previous, p);
    if holder.Some? && holder.value in current && |current[holder.value]| < limit {
      owner := holder.value;
    } else {
      owner := FindLeastLoaded(current, ids);
    }
  }

  method FindOwner(
    strategy: Strategy, current: Assignments, previous: Assignments, ids: seq<string>, partitions: nat, p: nat
  ) returns (owner: string)
    requires ids != [] && p < partitions && current.Keys == ElementsOf(ids)
    ensures owner == Owner(strategy, current, previous, ids, partitions, p)
  {
    hide StickyOwner, CeilDiv, RangeIndex, ClampedIndex;
    match strategy {
      case Range =>
        owner := ids[ClampedIndex(p, |ids|, partitions)];
      case RoundRobin =>
        owner := ids[p % |ids|];
      case Sticky =>
        owner := FindStickyOwner(current, previous, ids, CeilDiv(partitions, |ids|), p);
    }
  }

  /** The assignment loop of `rebalance`. */
  method AssignAll(
    strategy: Strategy, previous: Assignments, ids: seq<string>, partitions: nat) returns (a: Assignments)
    requires ids != []
    ensures a == Assigned(strategy, previous, ids, partitions, partitions)
  {
    hide Owner, ElementsOf;
    a := map m | m in ElementsOf(ids) :: {};
    for p := 0 to partitions
      invariant a == Assigned(strategy, previous, ids, partitions, p)
    {
      var owner := FindOwner(strategy, a, previous, ids, partitions, p);
      a := a[owner := a[owner] + {p}];
    }
  }

  /** Each of the first `k` partitions has exactly one owner, and nothing else is assigned. */
  ghost predicate Exact(a: Assignments, k: nat) {
    && (forall m, p :: m in a && p in a[m] ==> p < k)
    && (forall p :: 0 <= p < k ==> Owned(a, p))
    && (forall m, n, p :: m in a && n in a && p in a[m] && p in a[n] ==> m == n)
  }

  lemma PlacingIsExact(a: Assignments, owner: string, k: nat)
    requires Exact(a, k) && owner in a
    ensures Exact(Place(a, owner, k), k + 1)
  {
    var b := Place(a, owner, k);
    forall p | 0 <= p < k + 1 ensures Owned(b, p) {
      if p == k {
        assert owner in b && p in b[owner];
      } else {
        assert Owned(a, p);
        var m :| m in a && p in a[m];
        assert m in b && p in b[m];
      }
    }
  }

  lemma NothingIsExact(a: Assignments)
    requires forall m :: m in a ==> a[m] == {}
    ensures Exact(a, 0)
  {
  }

  lemma {:induction false} AssignedIsExact(
    strategy: Strategy, previous: Assignments, ids: seq<string>, partitions: nat, k: nat)
    requires ids != [] && k <= partitions
    ensures Exact(Assigned(strategy, previous, ids, partitions, k), k)
  {
    hide Owner, Exact, Place;
    if k == 0 {
      NothingIsExact(Assigned(strategy, previous, ids, partitions, 0));
    } else {
      AssignedIsExact(strategy, previous, ids, partitions, k - 1);
      var before := Assigned(strategy, previous, ids, partitions, k - 1);
      PlacingIsExact(before, Owner(strategy, before, previous, ids, partitions, k - 1), k - 1);
    }
  }

  // ----- loads -----

  predicate Distinct(ids: seq<string>) {
    forall i, j :: 0 <= i < j < |ids| ==> ids[i] != ids[j]
  }

  /** Sum of the members' loads. */
  function TotalLoad(a: Assignments, ids: seq<string>): nat
    requires forall m :: m in ids ==> m in a
  {
    if ids == [] then 0 else |a[ids[0]]| + TotalLoad(a, ids[1..])
  }

  lemma {:induction false} TotalLoadUpdate(a: Assignments, ids: seq<string>, owner: string, p: nat)
    requires Distinct(ids) && (forall m :: m in ids ==> m in a) && owner in a && p !in a[owner]
    ensures TotalLoad(Place(a, owner, p), ids) == TotalLoad(a, ids) + if owner in ids then 1 else 0
  {
    if ids != [] {
      assert ids == [ids[0]] + ids[1..];
      assert ids[0] !in ids[1..];
      TotalLoadUpdate(a, ids[1..], owner, p);
    }
  }

  lemma {:induction false} TotalLoadEmpty(a: Assignments, ids: seq<string>)
    requires forall m :: m in ids ==> m in a && a[m] == {}
    ensures TotalLoad(a, ids) == 0
  {
    if ids != [] { TotalLoadEmpty(a, ids[1..]); }
  }

  lemma NotYetPlaced(a: Assignments, k: nat, m: string)
    requires Exact(a, k) && m in a
    ensures k !in a[m]
  {
  }

  lemma {:induction false} AssignedTotal(
    strategy: Strategy, previous: Assignments, ids: seq<string>, partitions: nat, k: nat)
    requires ids != [] && k <= partitions && Distinct(ids)
    ensures TotalLoad(Assigned(strategy, previous, ids, partitions, k), ids) == k
  {
    hide Owner, Place, TotalLoad, Exact, Distinct, ElementsOf;
    var a := Assigned(strategy, previous, ids, partitions, k);
    if k == 0 {
      TotalLoadEmpty(a, ids);
    } else {
      AssignedTotal(strategy, previous, ids, partitions, k - 1);
      AssignedIsExact(strategy, previous, ids, partitions, k - 1);
      var before := Assigned(strategy, previous, ids, partitions, k - 1);
      var owner := Owner(strategy, before, previous, ids, partitions, k - 1);
      NotYetPlaced(before, k - 1, owner);
      TotalLoadUpdate(before, ids, owner, k - 1);
    }
  }

  /** Pigeonhole: loads that all reach `bound` add up to at least `|ids| * bound`. */
  lemma {:induction false} TotalLoadAtLeast(a: Assignments, ids: seq<string>, bound: nat)
    requires forall m :: m in ids ==> m in a && |a[m]| >= bound
    ensures TotalLoad(a, ids) >= |ids| * bound
  {
    if ids != [] {
      TotalLoadAtLeast(a, ids[1..], bound);
      assert |ids| * bound == bound + (|ids| - 1) * bound;
    }
  }

  lemma CeilDivCovers(a: nat, b: nat)
    requires b > 0
    ensures b * CeilDiv(a, b) >= a
  {
  }

  /** While partitions remain to be placed, the least loaded member has room. */
  lemma LeastLoadedHasRoom(a: Assignments, ids: seq<string>, partitions: nat)
    requires ids != [] && (forall m :: m in ids ==> m in a) && TotalLoad(a, ids) < partitions
    ensures |a[LeastLoaded(a, ids)]| < CeilDiv(partitions, |ids|)
  {
    var least, limit := LeastLoaded(a, ids), CeilDiv(partitions, |ids|);
    hide CeilDiv;
    if |a[least]| >= limit {
      TotalLoadAtLeast(a, ids, limit);
      CeilDivCovers(partitions, |ids|);
      assert false;
    }
  }

  /** One sticky placement stays within the bound. */
  lemma StickyPlacementBound(a: Assignments, previous: Assignments, ids: seq<string>, partitions: nat, p: nat)
    requires ids != [] && p < partitions && a.Keys == ElementsOf(ids) && TotalLoad(a, ids) < partitions
    ensures |a[Owner(Sticky, a, previous, ids, partitions, p)]| < CeilDiv(partitions, |ids|)
  {
    hide CeilDiv, PreviousOwner;
    LeastLoadedHasRoom(a, ids, partitions);
  }

  ghost predicate WithinLimit(a: Assignments, limit: nat) {
    forall m :: m in a ==> |a[m]| <= limit
  }

  lemma PlacingWithinLimit(a: Assignments, owner: string, p: nat, limit: nat)
    requires WithinLimit(a, limit) && owner in a && |a[owner]| < limit
    ensures WithinLimit(Place(a, owner, p), limit)
  {
  }

  lemma NothingWithinLimit(a: Assignments, limit: nat)
    requires forall m :: m in a ==> a[m] == {}
    ensures WithinLimit(a, limit)
  {
  }

  /** The load bound of the sticky strategy. */
  lemma {:induction false} StickyLoadBound(previous: Assignments, ids: seq<string>, partitions: nat, k: nat)
    requires ids != [] && k <= partitions && Distinct(ids)
    ensures WithinLimit(Assigned(Sticky, previous, ids, partitions, k), CeilDiv(partitions, |ids|))
  {
    hide CeilDiv, Owner, TotalLoad, Distinct, ElementsOf, WithinLimit, Place;
    var limit := CeilDiv(partitions, |ids|);
    if k == 0 {
      NothingWithinLimit(Assigned(Sticky, previous, ids, partitions, 0), limit);
    } else {
      var before := Assigned(Sticky, previous, ids, partitions, k - 1);
      StickyLoadBound(previous, ids, partitions, k - 1);
      AssignedTotal(Sticky, previous, ids, partitions, k - 1);
      StickyPlacementBound(before, previous, ids, partitions, k - 1);
      PlacingWithinLimit(before, Owner(Sticky, before, previous, ids, partitions, k - 1), k - 1, limit);
    }
  }

  // ----- stickiness -----

  function Below(s: set<nat>, k: nat): set<nat> { set p | p in s && p < k }

  lemma OwnerIsUnique(previous: Assignments, k: nat, m: string, p: nat)
    requires Exact(previous, k) && m in previous && p in previous[m]
    ensures PreviousOwner(previous, p) == Some(m)
  {
    var owners := set n | n in previous && p in previous[n];
    assert owners == {m};
    assert SortedNames(owners)[0] in owners;
  }

  lemma ProperSubsetSmaller(a: set<nat>, b: set<nat>, x: nat)
    requires a <= b && x in b && x !in a
    ensures |a| < |b|
  {
    assert b == a + (b - a) && x in b - a;
    assert |b| == |a| + |b - a|;
  }

  /** A previous owner with room left gets its partition back. */
  lemma StickyOwnerReturns(
    a: Assignments, previous: Assignments, ids: seq<string>, count: nat, partitions: nat, m: string, p: nat)
    requires ids != [] && p < count <= partitions && a.Keys == ElementsOf(ids)
    requires Exact(previous, count) && m in previous && p in previous[m] && m in ids
    requires a[m] == Below(previous[m], p) && |previous[m]| <= CeilDiv(partitions, |ids|)
    ensures Owner(Sticky, a, previous, ids, partitions, p) == m
  {
    hide CeilDiv, PreviousOwner, Exact;
    OwnerIsUnique(previous, count, m, p);
    ProperSubsetSmaller(Below(previous[m], p), previous[m], p);
  }

  lemma PlacingExtends(a: Assignments, previous: Assignments, count: nat, m: string, p: nat)
    requires Exact(previous, count) && a.Keys == previous.Keys && m in previous && p in previous[m]
    requires forall n :: n in a ==> a[n] == Below(previous[n], p)
    ensures forall n :: n in a ==> Place(a, m, p)[n] == Below(previous[n], p + 1)
  {
  }

  /** Sticky placement reproduces a previous assignment whose loads are within the
      bound, partition by partition. */
  lemma {:induction false} StickyReproduces(
    previous: Assignments, ids: seq<string>, count: nat, partitions: nat, k: nat)
    requires ids != [] && k <= count <= partitions
    requires previous.Keys == ElementsOf(ids) && Exact(previous, count)
    requires WithinLimit(previous, CeilDiv(partitions, |ids|))
    ensures forall m :: m in previous ==> Assigned(Sticky, previous, ids, partitions, k)[m] == Below(previous[m], k)
  {
    hide CeilDiv, Owner, Place;
    if k > 0 {
      StickyReproduces(previous, ids, count, partitions, k - 1);
      var before := Assigned(Sticky, previous, ids, partitions, k - 1);
      assert Owned(previous, k - 1);
      var m :| m in previous && k - 1 in previous[m];
      StickyOwnerReturns(before, previous, ids, count, partitions, m, k - 1);
      PlacingExtends(before, previous, count, m, k - 1);
    }
  }

  lemma {:induction false} AssignedGrows(
    strategy: Strategy, previous: Assignments, ids: seq<string>, partitions: nat, j: nat, k: nat)
    requires ids != [] && j <= k <= partitions
    ensures forall m :: m in ids ==>
              Assigned(strategy, previous, ids, partitions, j)[m] <= Assigned(strategy, previous, ids, partitions, k)[m]
  {
    hide Owner;
    if j < k { AssignedGrows(strategy, previous, ids, partitions, j, k - 1); }
  }

  /** With the members unchanged and the partition count equal or larger, no member
      loses a partition it had; with the same count nothing changes at all. */
  lemma StickyKeeps(previous: Assignments, ids: seq<string>, count: nat, partitions: nat)
    requires ids != [] && count <= partitions
    requires previous.Keys == ElementsOf(ids) && Exact(previous, count)
    requires WithinLimit(previous, CeilDiv(partitions, |ids|))
    ensures var a := Assigned(Sticky, previous, ids, partitions, partitions);
            && (forall m :: m in previous ==> previous[m] <= a[m])
            && (count == partitions ==> a == previous)
  {
    hide CeilDiv, Owner, Place;
    StickyReproduces(previous, ids, count, partitions, count);
    AssignedGrows(Sticky, previous, ids, partitions, count, partitions);
    assert forall m :: m in previous ==> Below(previous[m], count) == previous[m];
  }

  // ----- balance of the range and round-robin strategies -----

  function Index(strategy: Strategy, p: nat, members: nat, partitions: nat): (i: nat)
    requires p < partitions && members > 0
    ensures i < members
  {
    if strategy == Range then RangeIndex(p, members, partitions) else p % members
  }

  function Share(strategy: Strategy, i: nat, members: nat, partitions: nat, k: nat): set<nat>
    requires k <= partitions && members > 0
  {
    set p: nat | p < k && Index(strategy, p, members, partitions) == i
  }

  lemma ShareStep(strategy: Strategy, i: nat, members: nat, partitions: nat, k: nat)
    requires 0 < k <= partitions && members > 0
    ensures Share(strategy, i, members, partitions, k)
         == Share(strategy, i, members, partitions, k - 1)
            + if Index(strategy, k - 1, members, partitions) == i then {k - 1} else {}
  {
    hide Index;
  }

  lemma OwnerIsIndexed(
    strategy: Strategy, current: Assignments, previous: Assignments, ids: seq<string>, partitions: nat, p: nat)
    requires strategy != Sticky && ids != [] && p < partitions && current.Keys == ElementsOf(ids)
    ensures Owner(strategy, current, previous, ids, partitions, p) == ids[Index(strategy, p, |ids|, partitions)]
  {
    hide RangeIndex;
  }

  /** Under these strategies each member's set is given by arithmetic alone. */
  lemma {:induction false} AssignedIsShare(
    strategy: Strategy, previous: Assignments, ids: seq<string>, partitions: nat, k: nat, i: nat)
    requires strategy != Sticky && ids != [] && k <= partitions && Distinct(ids) && i < |ids|
    ensures Assigned(strategy, previous, ids, partitions, k)[ids[i]] == Share(strategy, i, |ids|, partitions, k)
  {
    hide Index, Owner, ElementsOf, Share, Distinct;
    if k == 0 {
      ShareOfNothing(strategy, i, |ids|, partitions);
    } else {
      AssignedIsShare(strategy, previous, ids, partitions, k - 1, i);
      ShareStep(strategy, i, |ids|, partitions, k);
      OwnerIsIndexed(strategy, Assigned(strategy, previous, ids, partitions, k - 1), previous, ids, partitions, k - 1);
      var j := Index(strategy, k - 1, |ids|, partitions);
      DistinctAt(ids, i, j);
    }
  }

  lemma ShareOfNothing(strategy: Strategy, i: nat, members: nat, partitions: nat)
    requires members > 0
    ensures Share(strategy, i, members, partitions, 0) == {}
  {
  }

  lemma DistinctAt(ids: seq<string>, i: nat, j: nat)
    requires Distinct(ids) && i < |ids| && j < |ids|
    ensures ids[i] == ids[j] <==> i == j
  {
  }

  lemma CeilDivIff(x: nat, m: nat, p: nat)
    requires m > 0
    ensures CeilDiv(x, m) <= p <==> x <= p * m
  {
    var c := CeilDiv(x, m);
    DivBounds(x + m - 1, m);
    if c <= p {
      MulMono(c, p, m);
    } else {
      MulMono(p + 1, c, m);
    }
  }

  lemma Distribute(a: nat, b: nat, m: nat)
    ensures (a + b) * m == a * m + b * m
  {
  }

  lemma CeilDivSumUpper(a: nat, p: nat, m: nat)
    requires m > 0
    ensures CeilDiv(a + p, m) <= CeilDiv(a, m) + CeilDiv(p, m)
  {
    var ca, cp := CeilDiv(a, m), CeilDiv(p, m);
    hide CeilDiv;
    CeilDivIff(a, m, ca);
    CeilDivIff(p, m, cp);
    Distribute(ca, cp, m);
    CeilDivIff(a + p, m, ca + cp);
  }

  lemma CeilDivSumLower(a: nat, p: nat, m: nat)
    requires m > 0
    ensures CeilDiv(a, m) + p / m <= CeilDiv(a + p, m)
  {
    var cs, q := CeilDiv(a + p, m), p / m;
    hide CeilDiv;
    CeilDivIff(a + p, m, cs);
    DivBounds(p, m);
    var below := if cs < q then 0 else cs - q;
    if cs < q { MulMono(cs + 1, q, m); } else { Distribute(cs - q, q, m); }
    CeilDivIff(a, m, below);
  }

  lemma RangeIndexIff(p: nat, members: nat, partitions: nat, i: nat)
    requires p < partitions && members > 0
    ensures RangeIndex(p, members, partitions) == i
       <==> RangeStart(i, members, partitions) <= p < RangeStart(i + 1, members, partitions)
  {
    hide CeilDiv;
    var j := RangeIndex(p, members, partitions);
    CeilDivIff(i * partitions, members, p);
    CeilDivIff((i + 1) * partitions, members, p);
    if j < i {
      MulMono(j + 1, i, partitions);
    } else if j > i {
      MulMono(i + 1, j, partitions);
    }
  }

  lemma {:induction false} IntervalSize(s: set<nat>, lo: nat, hi: nat)
    requires lo <= hi && forall p :: p in s <==> lo <= p < hi
    ensures |s| == hi - lo
    decreases hi
  {
    if lo == hi {
      assert s == {};
    } else {
      IntervalSize(s - {hi - 1}, lo, hi - 1);
      assert s == s - {hi - 1} + {hi - 1};
    }
  }

  function RangeStart(i: nat, members: nat, partitions: nat): nat
    requires members > 0
  {
    CeilDiv(i * partitions, members)
  }

  lemma RangeStep(i: nat, members: nat, partitions: nat)
    requires i < members
    ensures RangeStart(i, members, partitions) + partitions / members <= RangeStart(i + 1, members, partitions)
    ensures RangeStart(i + 1, members, partitions) <= RangeStart(i, members, partitions) + CeilDiv(partitions, members)
    ensures RangeStart(i + 1, members, partitions) <= partitions
  {
    hide CeilDiv;
    Distribute(i, 1, partitions);
    CeilDivSumUpper(i * partitions, partitions, members);
    CeilDivSumLower(i * partitions, partitions, members);
    MulMono(i + 1, members, partitions);
    CeilDivIff((i + 1) * partitions, members, partitions);
  }

  /** Range shares are intervals of balanced size. */
  lemma RangeShare(i: nat, members: nat, partitions: nat)
    requires i < members
    ensures var s := Share(Range, i, members, partitions, partitions);
            && (forall p: nat :: p in s
                  <==> RangeStart(i, members, partitions) <= p < RangeStart(i + 1, members, partitions))
            && partitions / members <= |s| <= CeilDiv(partitions, members)
  {
    hide CeilDiv, RangeIndex, RangeStart;
    var s := Share(Range, i, members, partitions, partitions);
    var lo, hi := RangeStart(i, members, partitions), RangeStart(i + 1, members, partitions);
    RangeStep(i, members, partitions);
    forall p: nat ensures p in s <==> lo <= p < hi {
      if p < partitions { RangeIndexIff(p, members, partitions, i); }
    }
    IntervalSize(s, lo, hi);
  }

  lemma DivModStep(k: nat, m: nat)
    requires m > 0
    ensures if k % m == m - 1 then (k + 1) / m == k / m + 1 && (k + 1) % m == 0
            else (k + 1) / m == k / m && (k + 1) % m == k % m + 1
  {
    var q, r := k / m, k % m;
    assert k == m * q + r;
    if r == m - 1 {
      assert k + 1 == m * (q + 1);
      DivModUnique(k + 1, m, q + 1, 0);
    } else {
      DivModUnique(k + 1, m, q, r + 1);
    }
  }

  lemma DivModUnique(a: nat, m: nat, q: nat, r: nat)
    requires m > 0 && r < m && a == m * q + r
    ensures a / m == q && a % m == r
  {
    DivBounds(a, m);
    var d := a / m;
    if d < q {
      MulMono(d + 1, q, m);
      assert false;
    } else if d > q {
      MulMono(q + 1, d, m);
      assert false;
    }
    assert a == m * d + a % m;
  }

  lemma {:induction false} RoundRobinCount(i: nat, members: nat, partitions: nat, k: nat)
    requires i < members && k <= partitions
    ensures |Share(RoundRobin, i, members, partitions, k)| == k / members + if i < k % members then 1 else 0
  {
    var s := Share(RoundRobin, i, members, partitions, k);
    if k == 0 {
      assert s == {};
      DivModUnique(0, members, 0, 0);
    } else {
      RoundRobinCount(i, members, partitions, k - 1);
      DivModStep(k - 1, members);
      ShareStep(RoundRobin, i, members, partitions, k);
      assert k - 1 !in Share(RoundRobin, i, members, partitions, k - 1);
    }
  }

  lemma CeilFromDiv(p: nat, m: nat)
    requires m > 0
    ensures CeilDiv(p, m) == p / m + if p % m == 0 then 0 else 1
  {
    var q, r := p / m, p % m;
    assert p == m * q + r;
    if r == 0 {
      DivModUnique(p + m - 1, m, q, m - 1);
    } else {
      assert p + m - 1 == m * (q + 1) + (r - 1);
      DivModUnique(p + m - 1, m, q + 1, r - 1);
    }
  }

  /** Range and round-robin loads are the floor or the ceiling of the average. */
  lemma BalancedLoads(strategy: Strategy, previous: Assignments, ids: seq<string>, partitions: nat, m: string)
    requires strategy != Sticky && ids != [] && Distinct(ids) && m in ids
    ensures var load := |Assigned(strategy, previous, ids, partitions, partitions)[m]|;
            partitions / |ids| <= load <= CeilDiv(partitions, |ids|) <= partitions / |ids| + 1
  {
    hide Distinct;
    var i :| 0 <= i < |ids| && ids[i] == m;
    AssignedIsShare(strategy, previous, ids, partitions, partitions, i);
    CeilFromDiv(partitions, |ids|);
    if strategy == Range { RangeShare(i, |ids|, partitions); }
    else { RoundRobinCount(i, |ids|, partitions, partitions); }
  }

  /** A range share has no holes. */
  lemma RangeIsContiguous(previous: Assignments, ids: seq<string>, partitions: nat, m: string, p: nat, q: nat, r: nat)
    requires ids != [] && Distinct(ids) && m in ids
    requires p <= q <= r
    requires p in Assigned(Range, previous, ids, partitions, partitions)[m]
    requires r in Assigned(Range, previous, ids, partitions, partitions)[m]
    ensures q in Assigned(Range, previous, ids, partitions, partitions)[m]
  {
    hide Distinct;
    var i :| 0 <= i < |ids| && ids[i] == m;
    AssignedIsShare(Range, previous, ids, partitions, partitions, i);
    RangeShare(i, |ids|, partitions);
  }
}
