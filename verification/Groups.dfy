/** The consumer-group coordinator (crates/server/src/consumer_group.rs). The class
    GroupCoordinator updates its fields as the broker does and is proved, operation by
    operation, against functions on the datatype Group. */
module Groups {
  import opened Common
  import opened GroupAssignment

  datatype Config = Config(
    heartbeatTimeout: nat, rebalanceTimeout: nat, strategy: Strategy, maxMembers: nat, maxPartitions: nat)

  datatype Member = Member(id: string, instanceId: Option<string>, lastHeartbeat: nat)

  datatype PendingRebalance = PendingRebalance(generation: nat, moved: seq<nat>, deadline: nat)

  datatype Group = Group(
    config: Config,
    partitions: nat,
    generation: nat,
    members: map<string, Member>,
    assignments: Assignments,
    previous: Assignments,
    committed: map<nat, nat>,
    rebalance: Option<PendingRebalance>)

  datatype Error =
    | UnknownMember | StaleGeneration(expected: nat, actual: nat) | InvalidTimeout
    | PartitionCountCannotDecrease | QuotaExceeded

  /** The answers of all operations in one type, so that runs can be compared. */
  datatype Reply = Generation(n: nat) | Done | Expired(ids: seq<string>) | Committed(advanced: bool)
    | Failed(error: Error)

  datatype Op =
    | Join(member: string, instanceId: Option<string>, now: nat)
    | Expand(partitions: nat, now: nat)
    | Heartbeat(member: string, generation: nat, now: nat)
    | Refresh(member: string, now: nat)
    | Leave(member: string, generation: nat, now: nat)
    | Expire(now: nat)
    | Commit(member: string, generation: nat, partition: nat, offset: nat)

  function ConfigError(config: Config, partitions: nat): Option<Error> {
    if config.heartbeatTimeout == 0 || config.rebalanceTimeout == 0 then Some(InvalidTimeout)
    else if partitions == 0 || partitions > config.maxPartitions || config.maxMembers == 0 then Some(QuotaExceeded)
    else None
  }

  function NewGroup(partitions: nat, config: Config): Group {
    Group(config, partitions, 0, map[], map[], map[], map[], None)
  }

  // ----- rebalancing -----

  /** Partitions that some previous owner no longer owns. */
  function Moved(previous: Assignments, current: Assignments): set<nat> {
    set m, p | m in previous && p in previous[m] && !(m in current && p in current[m]) :: p
  }

  function NewAssignments(g: Group): Assignments {
    if g.members.Keys == {} then map[]
    else Assigned(g.config.strategy, g.assignments, SortedNames(g.members.Keys), g.partitions, g.partitions)
  }

  function Rebalanced(g: Group, now: nat): Group {
    var current := NewAssignments(g);
    var moved := Moved(g.assignments, current);
    var generation := SatInc(g.generation);
    g.(generation := generation,
       previous := g.assignments,
       assignments := current,
       rebalance := if moved == {} then None
                    else Some(PendingRebalance(generation, SortedNats(moved), SatAdd(now, g.config.rebalanceTimeout))))
  }

  // ----- operations -----

  function JoinStep(g: Group, member: string, instanceId: Option<string>, now: nat): (Group, Reply) {
    if member !in g.members && |g.members| >= g.config.maxMembers then (g, Failed(QuotaExceeded))
    else
      var g' := Rebalanced(g.(members := g.members[member := Member(member, instanceId, now)]), now);
      (g', Generation(g'.generation))
  }

  function ExpandStep(g: Group, partitions: nat, now: nat): (Group, Reply) {
    if partitions < g.partitions then (g, Failed(PartitionCountCannotDecrease))
    else if partitions > g.config.maxPartitions then (g, Failed(QuotaExceeded))
    else if partitions > g.partitions then (Rebalanced(g.(partitions := partitions), now), Done)
    else (g, Done)
  }

  function Stale(g: Group, generation: nat): Reply { Failed(StaleGeneration(g.generation, generation)) }

  function HeartbeatStep(g: Group, member: string, generation: nat, now: nat): (Group, Reply) {
    if generation != g.generation then (g, Stale(g, generation))
    else if member !in g.members then (g, Failed(UnknownMember))
    else
      (g.(members := g.members[member := g.members[member].(lastHeartbeat := now)],
          rebalance := if g.rebalance.Some? && g.rebalance.value.generation == generation then None else g.rebalance),
       Done)
  }

  function RefreshStep(g: Group, member: string, now: nat): (Group, Reply) {
    if member !in g.members then (g, Failed(UnknownMember))
    else (g.(members := g.members[member := g.members[member].(lastHeartbeat := now)]), Generation(g.generation))
  }

  function LeaveStep(g: Group, member: string, generation: nat, now: nat): (Group, Reply) {
    if generation != g.generation then (g, Stale(g, generation))
    else if member !in g.members then (g, Failed(UnknownMember))
    else (Rebalanced(g.(members := g.members - {member}), now), Done)
  }

  /** `saturating_sub` makes a heartbeat from the future count as just received. */
  predicate TimedOut(g: Group, m: Member, now: nat) {
    (if now > m.lastHeartbeat then now - m.lastHeartbeat else 0) >= g.config.heartbeatTimeout
  }

  function ExpiredMembers(g: Group, now: nat): set<string> {
    set m | m in g.members && TimedOut(g, g.members[m], now)
  }

  function ExpireStep(g: Group, now: nat): (Group, Reply) {
    var expired := ExpiredMembers(g, now);
    if expired == {} then (g, Expired([]))
    else (Rebalanced(g.(members := g.members - expired), now), Expired(SortedNames(expired)))
  }

  function CommittedAt(g: Group, partition: nat): nat {
    if partition in g.committed then g.committed[partition] else 0
  }

  function CommitStep(g: Group, member: string, generation: nat, partition: nat, offset: nat): (Group, Reply) {
    if generation != g.generation then (g, Stale(g, generation))
    else if member !in g.members || member !in g.assignments || partition !in g.assignments[member] then
      (g, Failed(UnknownMember))
    else
      var current := CommittedAt(g, partition);
      if offset <= current then (g.(committed := g.committed[partition := current]), Committed(false))
      else (g.(committed := g.committed[partition := offset]), Committed(true))
  }

  function Apply(g: Group, op: Op): (Group, Reply) {
    match op
    case Join(member, instanceId, now) => JoinStep(g, member, instanceId, now)
    case Expand(partitions, now) => ExpandStep(g, partitions, now)
    case Heartbeat(member, generation, now) => HeartbeatStep(g, member, generation, now)
    case Refresh(member, now) => RefreshStep(g, member, now)
    case Leave(member, generation, now) => LeaveStep(g, member, generation, now)
    case Expire(now) => ExpireStep(g, now)
    case Commit(member, generation, partition, offset) => CommitStep(g, member, generation, partition, offset)
  }

  // ----- snapshot and rebuild -----

  datatype Entry = Entry(generation: nat, member: string, partitions: seq<nat>)

  datatype Snapshot = Snapshot(
    generation: nat, members: seq<Member>, assignments: seq<Entry>, committed: map<nat, nat>,
    rebalance: Option<PendingRebalance>)

  datatype Record = Record(partitions: nat, config: Config, snapshot: Snapshot)

  function MembersOf(members: map<string, Member>, ids: seq<string>): (r: seq<Member>)
    requires forall m :: m in ids ==> m in members
    ensures |r| == |ids|
  {
    if ids == [] then [] else MembersOf(members, ids[..|ids| - 1]) + [members[ids[|ids| - 1]]]
  }

  function EntriesOf(assignments: Assignments, generation: nat, ids: seq<string>): (r: seq<Entry>)
    requires forall m :: m in ids ==> m in assignments
    ensures |r| == |ids|
  {
    if ids == [] then []
    else
      var last := ids[|ids| - 1];
      EntriesOf(assignments, generation, ids[..|ids| - 1]) + [Entry(generation, last, SortedNats(assignments[last]))]
  }

  function SnapshotOf(g: Group): Snapshot {
    Snapshot(
      g.generation,
      MembersOf(g.members, SortedNames(g.members.Keys)),
      EntriesOf(g.assignments, g.generation, SortedNames(g.assignments.Keys)),
      g.committed,
      g.rebalance)
  }

  function RecordOf(g: Group): Record { Record(g.partitions, g.config, SnapshotOf(g)) }

  /** Insertion of the snapshot entries in order, later entries replacing earlier ones. */
  function AssignmentsFrom(entries: seq<Entry>): Assignments {
    if entries == [] then map[]
    else
      var last := entries[|entries| - 1];
      AssignmentsFrom(entries[..|entries| - 1])[last.member := ElementsOf(last.partitions)]
  }

  function MembersFrom(members: seq<Member>): map<string, Member> {
    if members == [] then map[]
    else var last := members[|members| - 1]; MembersFrom(members[..|members| - 1])[last.id := last]
  }

  /** `entry(member).or_default()` for every member of the snapshot. */
  function WithDefaults(assignments: Assignments, members: map<string, Member>): Assignments {
    map m | m in assignments.Keys + members.Keys :: if m in assignments then assignments[m] else {}
  }

  /** `from_record_internal`: with the fence, membership is dropped and the generation
      bumped; without it, the group continues where the record was taken. */
  function FromRecord(r: Record, fence: bool): Result<Group, Error> {
    var failure := ConfigError(r.config, r.partitions);
    if failure.Some? then Err(failure.value)
    else
      var members := MembersFrom(r.snapshot.members);
      var assignments := WithDefaults(AssignmentsFrom(r.snapshot.assignments), members);
      Ok(Group(
           r.config, r.partitions,
           if fence then SatInc(r.snapshot.generation) else r.snapshot.generation,
           if fence then map[] else members,
           if fence then map[] else assignments,
           assignments,
           r.snapshot.committed,
           if fence then None else r.snapshot.rebalance))
  }

  method RestoreAssignments(entries: seq<Entry>) returns (a: Assignments)
    ensures a == AssignmentsFrom(entries)
  {
    a := map[];
    for i := 0 to |entries|
      invariant a == AssignmentsFrom(entries[..i])
    {
      assert entries[..i + 1][..i] == entries[..i];
      a := a[entries[i].member := ElementsOf(entries[i].partitions)];
    }
    assert entries[..|entries|] == entries;
  }

  method RestoreMembers(members: seq<Member>) returns (m: map<string, Member>)
    ensures m == MembersFrom(members)
  {
    m := map[];
    for i := 0 to |members|
      invariant m == MembersFrom(members[..i])
    {
      assert members[..i + 1][..i] == members[..i];
      m := m[members[i].id := members[i]];
    }
    assert members[..|members|] == members;
  }

  // ----- the coordinator object -----

  class GroupCoordinator {
    const config: Config
    var partitions: nat
    var generation: nat
    var members: map<string, Member>
    var assignments: Assignments
    var previous: Assignments
    var committed: map<nat, nat>
    var rebalance: Option<PendingRebalance>

    function View(): Group
      reads this
    {
      Group(config, partitions, generation, members, assignments, previous, committed, rebalance)
    }

    constructor (g: Group)
      ensures View() == g
    {
      config := g.config;
      partitions, generation, members, assignments := g.partitions, g.generation, g.members, g.assignments;
      previous, committed, rebalance := g.previous, g.committed, g.rebalance;
    }

    static method New(partitions: nat, config: Config) returns (failure: Option<Error>, c: GroupCoordinator?)
      ensures failure == ConfigError(config, partitions)
      ensures failure.None? ==> c != null && fresh(c) && c.View() == NewGroup(partitions, config)
    {
      c := null;
      failure := ConfigError(config, partitions);
      if failure.None? { c := new GroupCoordinator(NewGroup(partitions, config)); }
    }

    /** Rebuilding from a record, entry by entry. */
    static method Rebuild(r: Record, fence: bool) returns (failure: Option<Error>, c: GroupCoordinator?)
      ensures match FromRecord(r, fence)
              case Ok(g) => failure == None && c != null && fresh(c) && c.View() == g
              case Err(error) => failure == Some(error)
    {
      c := null;
      var assignments := RestoreAssignments(r.snapshot.assignments);
      var members := RestoreMembers(r.snapshot.members);
      assignments := WithDefaults(assignments, members);
      failure := ConfigError(r.config, r.partitions);
      if failure.Some? { return; }
      if fence {
        c := new GroupCoordinator(Group(
          r.config, r.partitions, SatInc(r.snapshot.generation), map[], map[], assignments, r.snapshot.committed,
          None));
      } else {
        c := new GroupCoordinator(Group(
          r.config, r.partitions, r.snapshot.generation, members, assignments, assignments, r.snapshot.committed,
          r.snapshot.rebalance));
      }
    }

    method Rebalance(now: nat)
      modifies this
      ensures View() == Rebalanced(old(View()), now)
    {
      generation := SatInc(generation);
      previous := assignments;
      assignments := map[];
      var ids := SortedNames(members.Keys);
      if members.Keys != {} {
        assignments := AssignAll(config.strategy, previous, ids, partitions);
      }
      var moved := Moved(previous, assignments);
      if moved == {} {
        rebalance := None;
      } else {
        rebalance := Some(PendingRebalance(generation, SortedNats(moved), SatAdd(now, config.rebalanceTimeout)));
      }
    }

    method Join(member: string, instanceId: Option<string>, now: nat) returns (r: Reply)
      modifies this
      ensures (View(), r) == JoinStep(old(View()), member, instanceId, now)
    {
      if member !in members && |members| >= config.maxMembers { return Failed(QuotaExceeded); }
      members := members - {member};
      members := members[member := Member(member, instanceId, now)];
      assert members == old(members)[member := Member(member, instanceId, now)];
      Rebalance(now);
      r := Generation(generation);
    }

    method ExpandPartitions(count: nat, now: nat) returns (r: Reply)
      modifies this
      ensures (View(), r) == ExpandStep(old(View()), count, now)
    {
      if count < partitions { return Failed(PartitionCountCannotDecrease); }
      if count > config.maxPartitions { return Failed(QuotaExceeded); }
      if count > partitions {
        partitions := count;
        Rebalance(now);
      }
      r := Done;
    }

    method Heartbeat(member: string, token: nat, now: nat) returns (r: Reply)
      modifies this
      ensures (View(), r) == HeartbeatStep(old(View()), member, token, now)
    {
      if token != generation { return Failed(StaleGeneration(generation, token)); }
      if member !in members { return Failed(UnknownMember); }
      members := members[member := members[member].(lastHeartbeat := now)];
      if rebalance.Some? && rebalance.value.generation == token { rebalance := None; }
      r := Done;
    }

    method RefreshMember(member: string, now: nat) returns (r: Reply)
      modifies this
      ensures (View(), r) == RefreshStep(old(View()), member, now)
    {
      if member !in members { return Failed(UnknownMember); }
      members := members[member := members[member].(lastHeartbeat := now)];
      r := Generation(generation);
    }

    method Leave(member: string, token: nat, now: nat) returns (r: Reply)
      modifies this
      ensures (View(), r) == LeaveStep(old(View()), member, token, now)
    {
      if token != generation { return Failed(StaleGeneration(generation, token)); }
      if member !in members { return Failed(UnknownMember); }
      members := members - {member};
      Rebalance(now);
      r := Done;
    }

    method Expire(now: nat) returns (r: Reply)
      modifies this
      ensures (View(), r) == ExpireStep(old(View()), now)
    {
      hide Rebalanced, TimedOut, ElementsOf;
      var expired := SortedNames(ExpiredMembers(View(), now));
      if expired == [] {
        assert ExpiredMembers(View(), now) == {};
        return Expired([]);
      }
      members := WithoutKeys(members, expired);
      assert ElementsOf(expired) == ExpiredMembers(old(View()), now);
      Rebalance(now);
      r := Expired(expired);
    }

    method CommitOffset(member: string, token: nat, partition: nat, offset: nat) returns (r: Reply)
      modifies this`committed
      ensures (View(), r) == CommitStep(old(View()), member, token, partition, offset)
    {
      if token != generation { return Failed(StaleGeneration(generation, token)); }
      if member !in members { return Failed(UnknownMember); }
      if member !in assignments || partition !in assignments[member] { return Failed(UnknownMember); }
      if partition !in committed { committed := committed[partition := 0]; }
      var current := committed[partition];
      assert committed == old(committed)[partition := current];
      if offset <= current { return Committed(false); }
      committed := committed[partition := offset];
      assert committed == old(committed)[partition := offset];
      r := Committed(true);
    }
  }
}
