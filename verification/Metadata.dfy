/** The replicated metadata state machine (crates/server/src/raft.rs, DurableState):
    partition assignments, reconfiguration and offset commits. The class DurableState
    applies commands in place and is proved against the function Apply. */
module Metadata {
  import opened Common

  datatype StreamDefinition = StreamDefinition(name: string, partitions: nat, partitioningEpoch: nat)

  datatype Phase =
    | Stable
    | Adding(candidate: nat)
    | CatchingUp(candidate: nat, committedOffset: nat, digest: nat)
    | Activating(candidate: nat)
    | Demoting(member: nat)
    | RolledBack(reason: string)

  datatype Assignment = Assignment(
    replicas: set<nat>, active: set<nat>, generation: nat, phase: Phase, leader: nat, leaderEpoch: nat)

  datatype Commit = Commit(generation: nat, highWatermark: nat, checksum: nat, leader: nat, leaderEpoch: nat)

  /** `partition_key`: stream name and partition number. */
  type Key = (string, nat)

  datatype Command =
    | MetadataBootstrap(streams: seq<StreamDefinition>, assignments: map<Key, Assignment>)
    | StreamPartitionsUpdate(stream: StreamDefinition, assignments: map<Key, Assignment>)
    | PartitionLeaderUpdate(key: Key, leader: nat, leaderEpoch: nat)
    | PartitionReconfiguration(
        key: Key, generation: nat, phase: Phase, replicas: set<nat>, active: set<nat>,
        leader: nat, leaderEpoch: nat, committedOffset: Option<nat>, committedChecksum: Option<nat>)
    | PartitionCommit(key: Key, offset: nat, checksum: nat, leader: nat, leaderEpoch: nat)

  datatype Response =
    | Bootstrapped
    | Expanded
    | LeaderUpdated(leader: nat, leaderEpoch: nat)
    | ReconfigurationApplied(generation: nat, phase: Phase)
    | CommitApplied(highWatermark: nat, leaderEpoch: nat)
    | Noop

  datatype State = State(
    streams: map<string, StreamDefinition>,
    assignments: map<Key, Assignment>,
    nextOffsets: map<Key, nat>,
    commits: map<Key, Commit>)

  const EMPTY := State(map[], map[], map[], map[])

  // ----- the specification -----

  function Normalize(a: Assignment): Assignment {
    a.(active := if a.active == {} then a.replicas else a.active,
       generation := if a.generation == 0 then 1 else a.generation)
  }

  function NormalizeAll(m: map<Key, Assignment>): map<Key, Assignment> {
    map k | k in m :: Normalize(m[k])
  }

  function ByName(streams: seq<StreamDefinition>): map<string, StreamDefinition> {
    if streams == [] then map[]
    else var last := streams[|streams| - 1]; ByName(streams[..|streams| - 1])[last.name := last]
  }

  /** The writer is the current leader, in the commit set, outside any reconfiguration. */
  predicate MayCommit(a: Assignment, leader: nat, epoch: nat) {
    && a.leader == leader && a.leaderEpoch == epoch
    && leader in (if a.active == {} then a.replicas else a.active)
    && a.phase == Stable
  }

  function NextOffset(s: State, key: Key): nat {
    if key in s.nextOffsets then s.nextOffsets[key] else 0
  }

  predicate IsRetry(s: State, c: Command)
    requires c.PartitionCommit?
  {
    c.key in s.commits &&
      var done := s.commits[c.key];
      done.highWatermark == c.offset && done.leader == c.leader && done.leaderEpoch == c.leaderEpoch
        && done.checksum == c.checksum
  }

  function ApplyCommit(s: State, c: Command): (State, Response)
    requires c.PartitionCommit?
  {
    if c.key !in s.assignments || !MayCommit(s.assignments[c.key], c.leader, c.leaderEpoch) then (s, Noop)
    else
      var s' := s.(nextOffsets := s.nextOffsets[c.key := NextOffset(s, c.key)]);
      if IsRetry(s, c) then (s', CommitApplied(c.offset, c.leaderEpoch))
      else if c.key in s.commits && c.leaderEpoch < s.commits[c.key].leaderEpoch then (s', Noop)
      else if NextOffset(s, c.key) != c.offset then (s', Noop)
      else
        (s.(nextOffsets := s.nextOffsets[c.key := SatInc(c.offset)],
            commits := s.commits[c.key :=
              Commit(s.assignments[c.key].generation, c.offset, c.checksum, c.leader, c.leaderEpoch)]),
         CommitApplied(c.offset, c.leaderEpoch))
  }

  /** The assignment after a leader update, and whether it was accepted. */
  function UpdatedLeader(a: Assignment, leader: nat, epoch: nat): (Assignment, bool) {
    if a.leader == leader && a.leaderEpoch == epoch then (a, true)
    else if epoch == SatInc(a.leaderEpoch) && leader in a.active && a.phase == Stable then
      (a.(leader := leader, leaderEpoch := epoch), true)
    else (a, false)
  }

  predicate ReconfigurationAllowed(s: State, a: Assignment, c: Command)
    requires c.PartitionReconfiguration?
  {
    && a.generation <= c.generation <= SatInc(a.generation)
    && c.active != {} && c.active <= c.replicas && c.leader in c.active
    && (c.phase == Stable ==> 2 * |c.active| > |c.replicas|)
    && (c.phase.Activating? ==>
          && c.committedOffset.Some? && c.committedChecksum.Some? && c.key in s.commits
          && s.commits[c.key].highWatermark == c.committedOffset.value
          && s.commits[c.key].checksum == c.committedChecksum.value)
    && a.leaderEpoch <= c.leaderEpoch
    && (a.leaderEpoch == c.leaderEpoch ==> a.leader == c.leader)
  }

  function Reconfigured(s: State, a: Assignment, c: Command): (Assignment, bool)
    requires c.PartitionReconfiguration?
  {
    if ReconfigurationAllowed(s, a, c) then
      (Assignment(c.replicas, c.active, c.generation, c.phase, c.leader, c.leaderEpoch), true)
    else (a, false)
  }

  predicate ExpansionAllowed(s: State, c: Command)
    requires c.StreamPartitionsUpdate?
  {
    && c.stream.name in s.streams
    && c.stream.partitions > s.streams[c.stream.name].partitions
    && c.stream.partitioningEpoch > s.streams[c.stream.name].partitioningEpoch
    && forall k :: k in c.assignments && k.0 == c.stream.name ==> k.1 < c.stream.partitions
  }

  function Apply(s: State, c: Command): (State, Response) {
    match c
    case MetadataBootstrap(streams, assignments) =>
      if s.streams == map[] then
        (s.(streams := ByName(streams), assignments := NormalizeAll(assignments)), Bootstrapped)
      else (s, Noop)
    case StreamPartitionsUpdate(stream, assignments) =>
      if ExpansionAllowed(s, c) then
        (s.(streams := s.streams[stream.name := stream], assignments := NormalizeAll(s.assignments + assignments)),
         Expanded)
      else (s, Noop)
    case PartitionLeaderUpdate(key, leader, epoch) =>
      if key !in s.assignments then (s, Noop)
      else
        var (a, ok) := UpdatedLeader(Normalize(s.assignments[key]), leader, epoch);
        (s.(assignments := s.assignments[key := a]), if ok then LeaderUpdated(leader, epoch) else Noop)
    case PartitionReconfiguration(key, _, _, _, _, _, _, _, _) =>
      if key !in s.assignments then (s, Noop)
      else
        var (a, ok) := Reconfigured(s, Normalize(s.assignments[key]), c);
        (s.(assignments := s.assignments[key := a]), if ok then ReconfigurationApplied(c.generation, c.phase) else Noop)
    case PartitionCommit(_, _, _, _, _) => ApplyCommit(s, c)
  }

  // ----- the state machine object -----

  class DurableState {
    var streams: map<string, StreamDefinition>
    var assignments: map<Key, Assignment>
    var nextOffsets: map<Key, nat>
    var commits: map<Key, Commit>

    function View(): State
      reads this
    {
      State(streams, assignments, nextOffsets, commits)
    }

    constructor ()
      ensures View() == EMPTY
    {
      streams, assignments, nextOffsets, commits := map[], map[], map[], map[];
    }

    method ApplyCommand(c: Command) returns (r: Response)
      modifies this
      ensures (View(), r) == Apply(old(View()), c)
    {
      match c {
        case MetadataBootstrap(_, _) => r := Bootstrap(c);
        case StreamPartitionsUpdate(_, _) => r := Expand(c);
        case PartitionLeaderUpdate(_, _, _) => r := UpdateLeader(c);
        case PartitionReconfiguration(_, _, _, _, _, _, _, _, _) => r := Reconfigure(c);
        case PartitionCommit(_, _, _, _, _) => r := CommitOffset(c);
      }
    }

    method Bootstrap(c: Command) returns (r: Response)
      requires c.MetadataBootstrap?
      modifies this
      ensures (View(), r) == Apply(old(View()), c)
    {
      if streams != map[] { return Noop; }
      var named: map<string, StreamDefinition> := map[];
      for i := 0 to |c.streams|
        invariant named == ByName(c.streams[..i])
      {
        named := named[c.streams[i].name := c.streams[i]];
        assert c.streams[..i + 1][..i] == c.streams[..i];
      }
      assert c.streams[..|c.streams|] == c.streams;
      streams := named;
      assignments := NormalizeAll(c.assignments);
      r := Bootstrapped;
    }

    method Expand(c: Command) returns (r: Response)
      requires c.StreamPartitionsUpdate?
      modifies this
      ensures (View(), r) == Apply(old(View()), c)
    {
      var name := c.stream.name;
      if name !in streams { return Noop; }
      var current := streams[name];
      if c.stream.partitions <= current.partitions || c.stream.partitioningEpoch <= current.partitioningEpoch {
        return Noop;
      }
      if exists k :: k in c.assignments && k.0 == name && k.1 >= c.stream.partitions { return Noop; }
      streams := streams[name := c.stream];
      assignments := NormalizeAll(assignments + c.assignments);
      r := Expanded;
    }

    method UpdateLeader(c: Command) returns (r: Response)
      requires c.PartitionLeaderUpdate?
      modifies this`assignments
      ensures (View(), r) == Apply(old(View()), c)
    {
      if c.key !in assignments { return Noop; }
      var a := Normalize(assignments[c.key]);
      assignments := assignments[c.key := a];
      if a.leader == c.leader && a.leaderEpoch == c.leaderEpoch { return LeaderUpdated(c.leader, c.leaderEpoch); }
      if c.leaderEpoch != SatInc(a.leaderEpoch) || c.leader !in a.active || a.phase != Stable { return Noop; }
      assignments := assignments[c.key := a.(leader := c.leader, leaderEpoch := c.leaderEpoch)];
      assert assignments == old(assignments)[c.key := assignments[c.key]];
      r := LeaderUpdated(c.leader, c.leaderEpoch);
    }

    method Reconfigure(c: Command) returns (r: Response)
      requires c.PartitionReconfiguration?
      modifies this`assignments
      ensures (View(), r) == Apply(old(View()), c)
    {
      if c.key !in assignments { return Noop; }
      var a := Normalize(assignments[c.key]);
      assignments := assignments[c.key := a];
      if c.generation < a.generation { return Noop; }
      if c.generation > SatInc(a.generation) { return Noop; }
      if c.active == {} || !(c.active <= c.replicas) || c.leader !in c.replicas || c.leader !in c.active
         || (c.phase == Stable && 2 * |c.active| <= |c.replicas|)
      {
        return Noop;
      }
      if c.phase.Activating? {
        if c.committedOffset.None? || c.committedChecksum.None? || c.key !in commits { return Noop; }
        if commits[c.key].highWatermark != c.committedOffset.value
          || commits[c.key].checksum != c.committedChecksum.value {
          return Noop;
        }
      }
      var target := Assignment(c.replicas, c.active, c.generation, c.phase, c.leader, c.leaderEpoch);
      if a == target { return ReconfigurationApplied(c.generation, c.phase); }
      if c.leaderEpoch < a.leaderEpoch || (c.leaderEpoch == a.leaderEpoch && c.leader != a.leader) { return Noop; }
      assignments := assignments[c.key := target];
      assert assignments == old(assignments)[c.key := target];
      r := ReconfigurationApplied(c.generation, c.phase);
    }

    method CommitOffset(c: Command) returns (r: Response)
      requires c.PartitionCommit?
      modifies this`nextOffsets, this`commits
      ensures (View(), r) == Apply(old(View()), c)
    {
      if c.key !in assignments { return Noop; }
      var a := assignments[c.key];
      var members := if a.active == {} then a.replicas else a.active;
      if a.leader != c.leader || a.leaderEpoch != c.leaderEpoch || c.leader !in members || a.phase != Stable {
        return Noop;
      }
      if c.key !in nextOffsets { nextOffsets := nextOffsets[c.key := 0]; }
      assert nextOffsets == old(nextOffsets)[c.key := NextOffset(old(View()), c.key)];
      if c.key in commits {
        var done := commits[c.key];
        if done.highWatermark == c.offset && done.leader == c.leader && done.leaderEpoch == c.leaderEpoch
          && done.checksum == c.checksum {
          return CommitApplied(c.offset, c.leaderEpoch);
        }
        if c.leaderEpoch < done.leaderEpoch { return Noop; }
      }
      if nextOffsets[c.key] != c.offset { return Noop; }
      nextOffsets := nextOffsets[c.key := SatInc(c.offset)];
      assert nextOffsets == old(nextOffsets)[c.key := SatInc(c.offset)];
      commits := commits[c.key := Commit(a.generation, c.offset, c.checksum, c.leader, c.leaderEpoch)];
      r := CommitApplied(c.offset, c.leaderEpoch);
    }
  }
}
