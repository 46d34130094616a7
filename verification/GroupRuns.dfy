/** What consumer groups keep over whole runs (crates/server/src/consumer_group.rs). */
module GroupRuns {
  import opened Common
  import opened GroupAssignment
  import opened Groups

  /** Operations, process recovery, and replacement by a replicated copy. */
  datatype Event = Do(op: Op) | Recover | Replicate

  /** The parts of the invariant that rebalancing does not establish itself. */
  ghost predicate BaseInv(g: Group) {
    && ConfigError(g.config, g.partitions).None?
    && |g.members| <= g.config.maxMembers
    && forall m :: m in g.members ==> g.members[m].id == m
  }

  /** Loads as the strategy promises them. */
  ghost predicate Balanced(strategy: Strategy, a: Assignments, members: nat, partitions: nat)
    requires members > 0
  {
    && WithinLimit(a, CeilDiv(partitions, members))
    && (strategy != Sticky ==> forall m :: m in a ==> partitions / members <= |a[m]|)
    && (strategy == Range ==> forall m :: m in a ==> Contiguous(a[m]))
  }

  predicate Contiguous(s: set<nat>) {
    forall p, r :: p in s && r in s ==> forall q: nat :: p <= q <= r ==> q in s
  }

  ghost predicate Placed(g: Group) {
    && g.assignments.Keys == g.members.Keys
    && (g.members.Keys != {} ==>
          Exact(g.assignments, g.partitions)
            && Balanced(g.config.strategy, g.assignments, |g.members.Keys|, g.partitions))
  }

  ghost predicate Inv(g: Group) {
    && BaseInv(g)
    && Placed(g)
    && (g.rebalance.Some? ==> g.rebalance.value.generation == g.generation)
  }

  lemma AscendingDistinct(ids: seq<string>)
    requires Ascending(ids, LexLe)
    ensures Distinct(ids)
  {
  }

  lemma RangeHasNoHoles(previous: Assignments, ids: seq<string>, partitions: nat, m: string)
    requires ids != [] && Distinct(ids) && m in ids
    ensures Contiguous(Assigned(Range, previous, ids, partitions, partitions)[m])
  {
    var s := Assigned(Range, previous, ids, partitions, partitions)[m];
    hide Assigned, Distinct;
    forall p, r, q: nat | p in s && r in s && p <= q <= r ensures q in s {
      RangeIsContiguous(previous, ids, partitions, m, p, q, r);
    }
  }

  lemma AssignedIsBalanced(strategy: Strategy, previous: Assignments, ids: seq<string>, partitions: nat)
    requires ids != [] && Distinct(ids)
    ensures Balanced(strategy, Assigned(strategy, previous, ids, partitions, partitions), |ids|, partitions)
  {
    hide CeilDiv, Distinct, Assigned, Contiguous;
    var a := Assigned(strategy, previous, ids, partitions, partitions);
    if strategy == Sticky {
      StickyLoadBound(previous, ids, partitions, partitions);
    } else {
      forall m | m in a
        ensures partitions / |ids| <= |a[m]| <= CeilDiv(partitions, |ids|)
        ensures strategy == Range ==> Contiguous(a[m])
      {
        BalancedLoads(strategy, previous, ids, partitions, m);
        if strategy == Range { RangeHasNoHoles(previous, ids, partitions, m); }
      }
    }
  }

  lemma NewAssignmentsFit(g: Group)
    ensures NewAssignments(g).Keys == g.members.Keys
    ensures g.members.Keys != {} ==>
              && Exact(NewAssignments(g), g.partitions)
              && Balanced(g.config.strategy, NewAssignments(g), |g.members.Keys|, g.partitions)
  {
    hide Balanced, Exact;
    if g.members.Keys != {} {
      var ids := SortedNames(g.members.Keys);
      hide Assigned, Distinct;
      AscendingDistinct(ids);
      AssignedIsExact(g.config.strategy, g.assignments, ids, g.partitions, g.partitions);
      AssignedIsBalanced(g.config.strategy, g.assignments, ids, g.partitions);
      assert ElementsOf(ids) == g.members.Keys;
    }
  }

  lemma RebalanceIsGood(g: Group, now: nat)
    requires BaseInv(g)
    ensures Inv(Rebalanced(g, now))
  {
    hide Balanced, Exact, Moved, NewAssignments;
    NewAssignmentsFit(g);
  }

  // ----- snapshot round trip -----

  /** The part of a map on the listed names. */
  function Pick<V>(m: map<string, V>, ids: seq<string>): (r: map<string, V>)
    requires forall k :: k in ids ==> k in m
    ensures forall k :: k in r <==> k in ids
  {
    map k | k in m && k in ids :: m[k]
  }

  lemma PickStep<V>(m: map<string, V>, ids: seq<string>)
    requires ids != [] && forall k :: k in ids ==> k in m
    ensures var last := ids[|ids| - 1]; Pick(m, ids) == Pick(m, ids[..|ids| - 1])[last := m[last]]
  {
  }

  lemma PickAll<V>(m: map<string, V>, ids: seq<string>)
    requires forall k :: k in ids <==> k in m
    ensures Pick(m, ids) == m
  {
  }

  lemma SortedAsSet(s: set<nat>)
    ensures ElementsOf(SortedNats(s)) == s
  {
  }

  lemma {:induction false} EntriesRestore(a: Assignments, generation: nat, ids: seq<string>)
    requires forall m :: m in ids ==> m in a
    ensures AssignmentsFrom(EntriesOf(a, generation, ids)) == Pick(a, ids)
  {
    if ids != [] {
      hide Pick, ElementsOf;
      var front, last := ids[..|ids| - 1], ids[|ids| - 1];
      EntriesRestore(a, generation, front);
      var entries := EntriesOf(a, generation, ids);
      assert entries[..|entries| - 1] == EntriesOf(a, generation, front);
      SortedAsSet(a[last]);
      PickStep(a, ids);
    }
  }

  lemma {:induction false} MembersRestore(members: map<string, Member>, ids: seq<string>)
    requires forall m :: m in ids ==> m in members && members[m].id == m
    ensures MembersFrom(MembersOf(members, ids)) == Pick(members, ids)
  {
    if ids != [] {
      hide Pick;
      var front := ids[..|ids| - 1];
      MembersRestore(members, front);
      var listed := MembersOf(members, ids);
      assert listed[..|listed| - 1] == MembersOf(members, front);
      PickStep(members, ids);
    }
  }

  lemma AssignmentsRoundTrip(a: Assignments, generation: nat)
    ensures AssignmentsFrom(EntriesOf(a, generation, SortedNames(a.Keys))) == a
  {
    hide Pick, AssignmentsFrom, EntriesOf;
    EntriesRestore(a, generation, SortedNames(a.Keys));
    PickAll(a, SortedNames(a.Keys));
  }

  lemma MembersRoundTrip(members: map<string, Member>)
    requires forall m :: m in members ==> members[m].id == m
    ensures MembersFrom(MembersOf(members, SortedNames(members.Keys))) == members
  {
    hide Pick, MembersFrom, MembersOf;
    MembersRestore(members, SortedNames(members.Keys));
    PickAll(members, SortedNames(members.Keys));
  }

  lemma DefaultsAddNothing(a: Assignments, members: map<string, Member>)
    requires a.Keys == members.Keys
    ensures WithDefaults(a, members) == a
  {
  }

  /** Rebuilding without the fence restores everything except `previous`; with the fence
      it drops membership, bumps the generation and keeps the committed offsets. */
  lemma RebuildRoundTrip(g: Group)
    requires BaseInv(g) && g.assignments.Keys == g.members.Keys
    ensures FromRecord(RecordOf(g), false) == Ok(g.(previous := g.assignments))
    ensures FromRecord(RecordOf(g), true)
         == Ok(Group(g.config, g.partitions, SatInc(g.generation), map[], map[], g.assignments, g.committed, None))
  {
    hide AssignmentsFrom, MembersFrom, EntriesOf, MembersOf, WithDefaults;
    AssignmentsRoundTrip(g.assignments, g.generation);
    MembersRoundTrip(g.members);
    DefaultsAddNothing(g.assignments, g.members);
  }

  // ----- one event -----

  function Next(g: Group, ev: Event): Group {
    match ev
    case Do(op) => Apply(g, op).0
    case Recover => var r := FromRecord(RecordOf(g), true); if r.Ok? then r.value else g
    case Replicate => var r := FromRecord(RecordOf(g), false); if r.Ok? then r.value else g
  }

  /** Generations never go back; while the generation stands still (below saturation) so
      do the assignments; committed offsets never decrease. */
  predicate Progress(g: Group, h: Group) {
    && g.generation <= h.generation
    && (g.generation == h.generation < U64_MAX ==> g.assignments == h.assignments)
    && (forall p :: p in g.committed ==> p in h.committed && g.committed[p] <= h.committed[p])
  }

  ghost predicate Good(g: Group, h: Group) {
    Inv(h) && Progress(g, h)
  }

  lemma RebalanceStep(g: Group, h: Group, now: nat)
    requires Inv(g) && BaseInv(h) && h.generation == g.generation && h.committed == g.committed
    ensures Good(g, Rebalanced(h, now))
  {
    hide Placed, BaseInv;
    RebalanceIsGood(h, now);
  }

  lemma TouchStep(g: Group, member: string, now: nat, rebalance: Option<PendingRebalance>)
    requires Inv(g) && member in g.members && (rebalance.None? || rebalance == g.rebalance)
    ensures Good(g,
                 g.(members := g.members[member := g.members[member].(lastHeartbeat := now)], rebalance := rebalance))
  {
  }

  lemma AdmissionKeepsBase(g: Group, member: string, instanceId: Option<string>, now: nat)
    requires BaseInv(g) && (member in g.members || |g.members| < g.config.maxMembers)
    ensures BaseInv(g.(members := g.members[member := Member(member, instanceId, now)]))
  {
  }

  lemma JoinStepIsGood(g: Group, member: string, instanceId: Option<string>, now: nat)
    requires Inv(g)
    ensures Good(g, JoinStep(g, member, instanceId, now).0)
  {
    hide Placed, Rebalanced, Good;
    if member in g.members || |g.members| < g.config.maxMembers {
      var h := g.(members := g.members[member := Member(member, instanceId, now)]);
      AdmissionKeepsBase(g, member, instanceId, now);
      RebalanceStep(g, h, now);
    } else {
      SameIsGood(g);
    }
  }

  lemma RemovalIsGood(g: Group, gone: set<string>, now: nat)
    requires Inv(g)
    ensures Good(g, Rebalanced(g.(members := g.members - gone), now))
  {
    hide Placed, Rebalanced, Good;
    assert (g.members - gone).Keys == g.members.Keys - gone;
    assert g.members.Keys == (g.members.Keys - gone) + (g.members.Keys * gone);
    RebalanceStep(g, g.(members := g.members - gone), now);
  }

  lemma CommitIsGood(g: Group, member: string, generation: nat, partition: nat, offset: nat)
    requires Inv(g)
    ensures Good(g, CommitStep(g, member, generation, partition, offset).0)
  {
    hide Exact, Balanced;
  }

  lemma SameIsGood(g: Group)
    requires Inv(g)
    ensures Good(g, g)
  {
  }

  lemma ExpandIsGood(g: Group, partitions: nat, now: nat)
    requires Inv(g)
    ensures Good(g, ExpandStep(g, partitions, now).0)
  {
    hide Placed, Rebalanced, Good;
    SameIsGood(g);
    if g.partitions < partitions <= g.config.maxPartitions { RebalanceStep(g, g.(partitions := partitions), now); }
  }

  lemma ApplyIsGood(g: Group, op: Op)
    requires Inv(g)
    ensures Good(g, Apply(g, op).0)
  {
    hide Good, Inv, Rebalanced, TimedOut;
    SameIsGood(g);
    match op
    case Join(member, instanceId, now) => JoinStepIsGood(g, member, instanceId, now);
    case Expand(partitions, now) => ExpandIsGood(g, partitions, now);
    case Heartbeat(member, generation, now) =>
      if member in g.members { TouchStep(g, member, now, HeartbeatStep(g, member, g.generation, now).0.rebalance); }
    case Refresh(member, now) =>
      if member in g.members { TouchStep(g, member, now, g.rebalance); }
    case Leave(member, _, now) => RemovalIsGood(g, {member}, now);
    case Expire(now) => RemovalIsGood(g, ExpiredMembers(g, now), now);
    case Commit(member, generation, partition, offset) => CommitIsGood(g, member, generation, partition, offset);
  }

  lemma NextIsGood(g: Group, ev: Event)
    requires Inv(g)
    ensures Good(g, Next(g, ev))
  {
    hide Exact, Balanced, RecordOf, FromRecord, Apply;
    match ev
    case Do(op) => ApplyIsGood(g, op);
    case Recover => RebuildRoundTrip(g);
    case Replicate => RebuildRoundTrip(g);
  }

  // ----- runs -----

  function After(g: Group, run: seq<Event>): Group {
    if run == [] then g else Next(After(g, run[..|run| - 1]), run[|run| - 1])
  }

  lemma NewIsGood(partitions: nat, config: Config)
    requires ConfigError(config, partitions).None?
    ensures Inv(NewGroup(partitions, config))
  {
  }

  lemma {:induction false} RunKeepsInv(g: Group, run: seq<Event>)
    requires Inv(g)
    ensures Inv(After(g, run))
  {
    hide Inv;
    if run != [] {
      RunKeepsInv(g, run[..|run| - 1]);
      NextIsGood(After(g, run[..|run| - 1]), run[|run| - 1]);
    }
  }

  lemma {:induction false} RunProgress(g: Group, run: seq<Event>, i: nat, j: nat)
    requires Inv(g) && i <= j <= |run|
    ensures Progress(After(g, run[..i]), After(g, run[..j]))
  {
    hide Inv, Next;
    if i < j {
      RunProgress(g, run, i, j - 1);
      RunKeepsInv(g, run[..j - 1]);
      NextIsGood(After(g, run[..j - 1]), run[j - 1]);
      assert run[..j][..j - 1] == run[..j - 1];
    }
  }

  /** Main theorem on assignment. In every reachable state with a member present, each
      partition belongs to exactly one live member, nothing else is assigned, no load
      exceeds the ceiling of the average, and range and round-robin loads do not fall
      below its floor; range shares have no holes. */
  lemma AssignmentIsExactAndBalanced(config: Config, partitions: nat, run: seq<Event>)
    requires ConfigError(config, partitions).None?
    ensures var g := After(NewGroup(partitions, config), run);
            && g.assignments.Keys == g.members.Keys
            && (g.members.Keys != {} ==>
                  && (forall p :: 0 <= p < g.partitions ==> Owned(g.assignments, p))
                  && (forall m, n, p ::
                        m in g.assignments && n in g.assignments && p in g.assignments[m] && p in g.assignments[n] ==>
                          m == n)
                  && (forall m, p :: m in g.assignments && p in g.assignments[m] ==> p < g.partitions)
                  && (forall m :: m in g.assignments ==> |g.assignments[m]| <= CeilDiv(g.partitions, |g.members.Keys|))
                  && (g.config.strategy != Sticky ==>
                        forall m :: m in g.assignments ==> g.partitions / |g.members.Keys| <= |g.assignments[m]|)
                  && (g.config.strategy == Range ==> forall m :: m in g.assignments ==> Contiguous(g.assignments[m])))
  {
    hide CeilDiv, After;
    NewIsGood(partitions, config);
    RunKeepsInv(NewGroup(partitions, config), run);
  }

  /** Main theorem on commits. Two accepted commits of one partition in one generation
      (below saturation) come from the same member. */
  lemma OneCommitterPerGeneration(g: Group, run: seq<Event>, i: nat, j: nat)
    requires Inv(g) && i < j < |run|
    requires run[i].Do? && run[i].op.Commit? && Apply(After(g, run[..i]), run[i].op).1.Committed?
    requires run[j].Do? && run[j].op.Commit? && Apply(After(g, run[..j]), run[j].op).1.Committed?
    requires run[i].op.partition == run[j].op.partition && run[i].op.generation == run[j].op.generation < U64_MAX
    ensures run[i].op.member == run[j].op.member
  {
    hide Next, Balanced;
    RunProgress(g, run, i, j);
    RunKeepsInv(g, run[..i]);
  }

  /** Committed offsets survive rebalances, expansion, recovery and replication, and
      never decrease. */
  lemma CommittedNeverDecreases(g: Group, run: seq<Event>, i: nat, j: nat, p: nat)
    requires Inv(g) && i <= j <= |run| && p in After(g, run[..i]).committed
    ensures p in After(g, run[..j]).committed
    ensures After(g, run[..i]).committed[p] <= After(g, run[..j]).committed[p]
  {
    hide Next, Inv;
    RunProgress(g, run, i, j);
  }

  function Token(op: Op): Option<nat> {
    match op
    case Heartbeat(_, generation, _) => Some(generation)
    case Leave(_, generation, _) => Some(generation)
    case Commit(_, generation, _, _) => Some(generation)
    case _ => None
  }

  predicate Bumps(g: Group, ev: Event) {
    Next(g, ev).generation > g.generation
  }

  /** Fencing. After any event that changed the generation, every operation that still
      carries a generation from before is refused and changes nothing. */
  lemma StaleTokensAreRefused(g: Group, run: seq<Event>, i: nat, k: nat, j: nat, op: Op)
    requires Inv(g) && i <= k < j <= |run| && Bumps(After(g, run[..k]), run[k])
    requires Token(op) == Some(After(g, run[..i]).generation)
    ensures var h := After(g, run[..j]);
            Apply(h, op) == (h, Failed(StaleGeneration(h.generation, After(g, run[..i]).generation)))
  {
    hide Next, Inv;
    RunProgress(g, run, i, k);
    assert run[..k + 1][..k] == run[..k];
    RunProgress(g, run, k + 1, j);
  }

  /** Below saturation, exactly these events change the generation: an accepted join, an
      expansion to more partitions, an accepted leave, an expiry that removes someone,
      and recovery. */
  lemma BumpsIff(g: Group, ev: Event)
    requires Inv(g) && g.generation < U64_MAX
    ensures Bumps(g, ev) <==>
      match ev
      case Recover => true
      case Replicate => false
      case Do(Join(member, _, _)) => member in g.members || |g.members| < g.config.maxMembers
      case Do(Expand(partitions, _)) => g.partitions < partitions <= g.config.maxPartitions
      case Do(Leave(member, generation, _)) => generation == g.generation && member in g.members
      case Do(Expire(now)) => ExpiredMembers(g, now) != {}
      case Do(_) => false
  {
    hide NewAssignments;
    if ev.Recover? || ev.Replicate? { RebuildRoundTrip(g); }
  }

  /** Liveness of members: one that was last refreshed by an accepted operation is expired at `now` if and
      only if the heartbeat timeout has passed since. */
  lemma ExpiresIff(g: Group, op: Op, now: nat)
    requires Inv(g) && (op.Heartbeat? || op.Refresh? || op.Join?) && !Apply(g, op).1.Failed?
    ensures op.member in Apply(g, op).0.members
    ensures op.member in ExpiredMembers(Apply(g, op).0, now) <==> now >= op.now + g.config.heartbeatTimeout
  {
    hide NewAssignments, Placed;
  }

  // ----- stickiness -----

  lemma CeilDivMonotone(a: nat, b: nat, m: nat)
    requires m > 0 && a <= b
    ensures CeilDiv(a, m) <= CeilDiv(b, m)
  {
    CeilDivIff(b, m, CeilDiv(b, m));
    CeilDivIff(a, m, CeilDiv(b, m));
  }

  lemma NothingMoved(a: Assignments, b: Assignments)
    requires forall m :: m in a ==> m in b && a[m] <= b[m]
    ensures Moved(a, b) == {}
  {
  }

  /** The core of stickiness: the same members and at least as many partitions. */
  lemma StickyRebalance(g: Group, h: Group, now: nat)
    requires Inv(g) && g.config.strategy == Sticky && g.members.Keys != {}
    requires h.config == g.config && h.members.Keys == g.members.Keys && h.assignments == g.assignments
    requires g.partitions <= h.partitions
    ensures var r := Rebalanced(h, now);
            && r.rebalance == None
            && (forall m :: m in g.assignments ==> m in r.assignments && g.assignments[m] <= r.assignments[m])
            && (h.partitions == g.partitions ==> r.assignments == g.assignments)
  {
    hide CeilDiv, Exact;
    var ids := SortedNames(g.members.Keys);
    assert ElementsOf(ids) == g.members.Keys;
    CeilDivMonotone(g.partitions, h.partitions, |ids|);
    assert WithinLimit(g.assignments, CeilDiv(h.partitions, |ids|));
    StickyKeeps(g.assignments, ids, g.partitions, h.partitions);
    NothingMoved(g.assignments, NewAssignments(h));
  }

  /** Stickiness: a member that joins again leaves every partition where it was and no
      rebalance pending. */
  lemma RejoinMovesNothing(g: Group, member: string, instanceId: Option<string>, now: nat)
    requires Inv(g) && g.config.strategy == Sticky && member in g.members
    ensures var g' := JoinStep(g, member, instanceId, now).0;
            g'.assignments == g.assignments && g'.rebalance == None && g'.members.Keys == g.members.Keys
  {
    hide Inv, NewAssignments, Moved;
    var h := g.(members := g.members[member := Member(member, instanceId, now)]);
    assert h.members.Keys == g.members.Keys;
    StickyRebalance(g, h, now);
  }

  /** Stickiness: expansion only adds the new partitions to their owners. */
  lemma ExpansionMovesNothing(g: Group, partitions: nat, now: nat)
    requires Inv(g) && g.config.strategy == Sticky && g.members.Keys != {}
    requires g.partitions < partitions <= g.config.maxPartitions
    ensures var g' := ExpandStep(g, partitions, now).0;
            && g'.rebalance == None && g'.partitions == partitions
            && (forall m :: m in g.assignments ==> m in g'.assignments && g.assignments[m] <= g'.assignments[m])
  {
    hide Inv;
    StickyRebalance(g, g.(partitions := partitions), now);
  }

  // ----- bisimulation -----

  /** Equal in everything that operations and snapshots can see. */
  predicate SameButPrevious(g: Group, h: Group) {
    g.(previous := map[]) == h.(previous := map[])
  }

  lemma RebalanceIgnoresPrevious(g: Group, h: Group, now: nat)
    requires SameButPrevious(g, h)
    ensures Rebalanced(g, now) == Rebalanced(h, now)
  {
    hide Assigned, Moved;
  }

  lemma ApplyIgnoresPrevious(g: Group, h: Group, op: Op)
    requires SameButPrevious(g, h)
    ensures Apply(g, op).1 == Apply(h, op).1 && SameButPrevious(Apply(g, op).0, Apply(h, op).0)
  {
    hide Rebalanced;
    match op
    case Join(member, instanceId, now) =>
      var members := g.members[member := Member(member, instanceId, now)];
      RebalanceIgnoresPrevious(g.(members := members), h.(members := members), now);
    case Expand(partitions, now) =>
      RebalanceIgnoresPrevious(g.(partitions := partitions), h.(partitions := partitions), now);
    case Leave(member, _, now) =>
      RebalanceIgnoresPrevious(g.(members := g.members - {member}), h.(members := g.members - {member}), now);
    case Expire(now) =>
      var expired := ExpiredMembers(g, now);
      assert expired == ExpiredMembers(h, now);
      RebalanceIgnoresPrevious(g.(members := g.members - expired), h.(members := g.members - expired), now);
    case _ =>
  }

  function ApplyAll(g: Group, ops: seq<Op>): (Group, seq<Reply>) {
    if ops == [] then (g, [])
    else
      var (g', replies) := ApplyAll(g, ops[..|ops| - 1]);
      var (g'', reply) := Apply(g', ops[|ops| - 1]);
      (g'', replies + [reply])
  }

  lemma {:induction false} SameBehaviour(g: Group, h: Group, ops: seq<Op>)
    requires SameButPrevious(g, h)
    ensures ApplyAll(g, ops).1 == ApplyAll(h, ops).1 && SameButPrevious(ApplyAll(g, ops).0, ApplyAll(h, ops).0)
  {
    hide Apply;
    if ops != [] {
      SameBehaviour(g, h, ops[..|ops| - 1]);
      ApplyIgnoresPrevious(ApplyAll(g, ops[..|ops| - 1]).0, ApplyAll(h, ops[..|ops| - 1]).0, ops[|ops| - 1]);
    }
  }

  lemma SnapshotIgnoresPrevious(g: Group, h: Group)
    requires SameButPrevious(g, h)
    ensures SnapshotOf(g) == SnapshotOf(h)
  {
  }

  /** Bisimulation: a coordinator rebuilt from the replicated record answers every later
      sequence of operations as the original does and then has the same snapshot,
      although the record does not carry the previous assignments. */
  lemma RebuildIsBisimilar(g: Group, ops: seq<Op>)
    requires Inv(g)
    ensures var r := FromRecord(RecordOf(g), false);
            && r.Ok?
            && ApplyAll(r.value, ops).1 == ApplyAll(g, ops).1
            && SnapshotOf(ApplyAll(r.value, ops).0) == SnapshotOf(ApplyAll(g, ops).0)
  {
    hide Apply, SnapshotOf;
    RebuildRoundTrip(g);
    var h := g.(previous := g.assignments);
    SameBehaviour(h, g, ops);
    SnapshotIgnoresPrevious(ApplyAll(h, ops).0, ApplyAll(g, ops).0);
  }
}
