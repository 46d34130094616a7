/** Controller-directed leader/follower replication of partition logs
    (crates/server/src/partition_replication.rs). The class PartitionReplication
    keeps the broker's fields and updates them in place; each method is proved
    against a function on one partition's state. */
module Replication {
  import opened Common

  datatype Durability = Quorum | QuorumFsync

  /** A message envelope; `body` stands for every field the protocol only compares. */
  datatype Envelope = Envelope(stream: string, partition: nat, offset: nat, leaderEpoch: nat, body: seq<nat>)

  datatype Assignment = Assignment(stream: string, partition: nat, replicas: set<nat>, leader: nat, leaderEpoch: nat)

  datatype Replica = Replica(records: seq<Envelope>, flushed: Option<nat>)

  datatype PartitionState = PartitionState(
    assignment: Assignment,
    replicas: map<nat, Replica>,
    highWatermark: Option<nat>)

  datatype CommitResult = CommitResult(
    offset: nat, highWatermark: nat, leaderEpoch: nat, replicated: nat, flushed: nat)

  datatype Error =
    | EmptyReplicaSet | LeaderNotReplica | EpochNotPositive | StaleAssignment
    | UnknownPartition | NotLeader | FencedEpoch | LeaderUnavailable | EnvelopeEpochMismatch
    | ImmutableConflict | OffsetGap | CommittedConflict | CommittedDivergence
    | QuorumUnavailable | FsyncQuorumUnavailable
    | ReplicaUnavailable | NotReplica | CandidateUnavailable | CandidateUnsafe | NoSafeReplica

  type PartitionKey = (string, nat)

  const EMPTY_REPLICA := Replica([], None)

  predicate WellFormed(st: PartitionState) {
    st.replicas.Keys == st.assignment.replicas && st.assignment.leader in st.assignment.replicas
  }

  function Get(records: seq<Envelope>, at: nat): Option<Envelope> {
    if at < |records| then Some(records[at]) else None
  }

  /** The number of records at or below the high watermark. */
  function CommittedCount(hwm: Option<nat>): nat {
    match hwm case None => 0 case Some(offset) => offset + 1
  }

  function LeaderLog(st: PartitionState): seq<Envelope>
    requires WellFormed(st)
  {
    st.replicas[st.assignment.leader].records
  }

  // ----- reconcile helpers -----

  function AppendOrValidate(r: Replica, e: Envelope, hwm: Option<nat>): Result<Replica, Error> {
    if e.offset < |r.records| && r.records[e.offset] != e then Err(ImmutableConflict)
    else if e.offset > |r.records| then Err(OffsetGap)
    else
      var r' := if e.offset < |r.records| then r else r.(records := r.records + [e]);
      if hwm.Some? && e.offset <= hwm.value && r'.records[e.offset] != e then Err(CommittedConflict)
      else Ok(r')
  }

  function ReconcileAndAppend(r: Replica, e: Envelope, hwm: Option<nat>): Result<Replica, Error> {
    if e.offset < |r.records| && r.records[e.offset] != e then
      if hwm.Some? && e.offset <= hwm.value then Err(CommittedDivergence)
      else AppendOrValidate(r.(records := r.records[..e.offset]), e, hwm)
    else AppendOrValidate(r, e, hwm)
  }

  /** Two logs agree wherever both have a record. */
  predicate Agree(a: seq<Envelope>, b: seq<Envelope>) {
    forall i :: 0 <= i < |a| && i < |b| ==> a[i] == b[i]
  }

  function Min(a: nat, b: nat): nat { if a <= b then a else b }

  /** What `reconcile_committed` leaves in the replica log. */
  function CaughtUp(records: seq<Envelope>, leader: seq<Envelope>, count: nat): seq<Envelope> {
    var committed := leader[..Min(count, |leader|)];
    if |records| <= |committed| then committed else records[..Min(count, |records|)]
  }

  /** The loop that copies the leader's committed records and drops the rest.
      It succeeds exactly when the replica agrees with the leader below the
      watermark, and it changes nothing when it fails. */
  method ReconcileCommitted(r: Replica, leader: seq<Envelope>, hwm: Option<nat>) returns (out: Result<Replica, Error>)
    ensures out.Ok? <==> Agree(r.records, leader[..Min(CommittedCount(hwm), |leader|)])
    ensures out.Ok? ==> out.value == r.(records := CaughtUp(r.records, leader, CommittedCount(hwm)))
    ensures out.Err? ==> out.error == CommittedDivergence
  {
    var count := CommittedCount(hwm);
    var expected := leader[..Min(count, |leader|)];
    var records := r.records;
    for index := 0 to |expected|
      invariant forall i :: 0 <= i < index && i < |r.records| ==> r.records[i] == expected[i]
      invariant records == if index <= |r.records| then r.records else expected[..index]
    {
      if index < |records| {
        if records[index] != expected[index] {
          return Err(CommittedDivergence);
        }
      } else {
        records := records + [expected[index]];
        assert r.records <= expected[..index];
      }
    }
    return Ok(r.(records := records[..Min(count, |records|)]));
  }

  // ----- partition operations as functions of the state -----

  function AssignNew(a: Assignment): PartitionState {
    PartitionState(a, map n | n in a.replicas :: EMPTY_REPLICA, None)
  }

  function CheckAssignment(a: Assignment): Option<Error> {
    if a.replicas == {} then Some(EmptyReplicaSet)
    else if a.leader !in a.replicas then Some(LeaderNotReplica)
    else if a.leaderEpoch == 0 then Some(EpochNotPositive)
    else None
  }

  /** Reassignment of a known partition: surviving logs are kept, new ones start empty. */
  function AssignStep(st: PartitionState, a: Assignment): (PartitionState, Option<Error>) {
    if CheckAssignment(a).Some? then (st, CheckAssignment(a))
    else if a.leaderEpoch < st.assignment.leaderEpoch then (st, Some(StaleAssignment))
    else
      (PartitionState(
         a,
         map n | n in a.replicas :: if n in st.replicas then st.replicas[n] else EMPTY_REPLICA,
         st.highWatermark),
       None)
  }

  function Flush(r: Replica, e: Envelope, d: Durability): Replica {
    if d == QuorumFsync then r.(flushed := Some(e.offset)) else r
  }

  /** Followers are updated in ascending order; the first failure stops the loop
      and keeps what was already written. */
  function Replicate(
    replicas: map<nat, Replica>, ids: seq<nat>, e: Envelope, hwm: Option<nat>, d: Durability
  ): (out: (map<nat, Replica>, Option<Error>))
    requires forall n :: n in ids ==> n in replicas
    ensures out.0.Keys == replicas.Keys
    ensures forall n :: n in replicas && n !in ids ==> out.0[n] == replicas[n]
  {
    if ids == [] then (replicas, None)
    else
      var step := ReconcileAndAppend(replicas[ids[0]], e, hwm);
      if step.Err? then (replicas, Some(step.error))
      else Replicate(replicas[ids[0] := Flush(step.value, e, d)], ids[1..], e, hwm, d)
  }

  method ReplicateToFollowers(
    before: map<nat, Replica>, ids: seq<nat>, e: Envelope, hwm: Option<nat>, d: Durability
  ) returns (replicas: map<nat, Replica>, failure: Option<Error>)
    requires forall n :: n in ids ==> n in before
    ensures (replicas, failure) == Replicate(before, ids, e, hwm, d)
  {
    replicas := before;
    for i := 0 to |ids|
      invariant forall n :: n in ids ==> n in replicas
      invariant Replicate(replicas, ids[i..], e, hwm, d) == Replicate(before, ids, e, hwm, d)
    {
      assert ids[i..][0] == ids[i] && ids[i..][1..] == ids[i + 1..];
      var step := ReconcileAndAppend(replicas[ids[i]], e, hwm);
      if step.Err? { return replicas, Some(step.error); }
      replicas := replicas[ids[i] := Flush(step.value, e, d)];
    }
    failure := None;
  }

  function Followers(st: PartitionState, available: set<nat>): set<nat> {
    st.assignment.replicas * available - {st.assignment.leader}
  }

  function QuorumOf(st: PartitionState): nat { |st.assignment.replicas| / 2 + 1 }

  function Matching(st: PartitionState, offset: nat, available: set<nat>): set<nat>
    requires WellFormed(st)
  {
    set n | n in st.replicas && n in available
            && Get(st.replicas[n].records, offset) == Get(LeaderLog(st), offset)
  }

  function Flushed(st: PartitionState, offset: nat, available: set<nat>): set<nat> {
    set n | n in st.replicas && n in available
            && st.replicas[n].flushed.Some? && st.replicas[n].flushed.value >= offset
  }

  /** The checks before any log is touched. */
  function AppendGuard(st: PartitionState, available: set<nat>, node: nat, epoch: nat, e: Envelope): Option<Error> {
    if st.assignment.leader != node then Some(NotLeader)
    else if st.assignment.leaderEpoch != epoch then Some(FencedEpoch)
    else if node !in available then Some(LeaderUnavailable)
    else if e.leaderEpoch != epoch then Some(EnvelopeEpochMismatch)
    else None
  }

  function AppendStep(
    st: PartitionState, available: set<nat>, node: nat, epoch: nat, e: Envelope, d: Durability
  ): (out: (PartitionState, Result<CommitResult, Error>))
    requires WellFormed(st)
    ensures WellFormed(out.0)
  {
    var guard := AppendGuard(st, available, node, epoch, e);
    if guard.Some? then (st, Err(guard.value))
    else
      var led := AppendOrValidate(st.replicas[node], e, st.highWatermark);
      if led.Err? then (st, Err(led.error))
      else
        var (replicas, failure) := Replicate(
          st.replicas[node := Flush(led.value, e, d)], SortedNats(Followers(st, available)), e, st.highWatermark, d);
        var st' := st.(replicas := replicas);
        if failure.Some? then (st', Err(failure.value)) else CommitStep(st', available, epoch, e, d)
  }

  /** Counting the quorum and moving the watermark. */
  function CommitStep(
    st: PartitionState, available: set<nat>, epoch: nat, e: Envelope, d: Durability
  ): (out: (PartitionState, Result<CommitResult, Error>))
    requires WellFormed(st)
    ensures WellFormed(out.0)
  {
    var replicated := |Matching(st, e.offset, available)|;
    var flushed := |Flushed(st, e.offset, available)|;
    if replicated < QuorumOf(st) then (st, Err(QuorumUnavailable))
    else if d == QuorumFsync && flushed < QuorumOf(st) then (st, Err(FsyncQuorumUnavailable))
    else (st.(highWatermark := Some(e.offset)), Ok(CommitResult(e.offset, e.offset, epoch, replicated, flushed)))
  }

  method AppendToPartition(
    st: PartitionState, available: set<nat>, node: nat, epoch: nat, e: Envelope, d: Durability
  ) returns (st': PartitionState, r: Result<CommitResult, Error>)
    requires WellFormed(st)
    ensures (st', r) == AppendStep(st, available, node, epoch, e, d)
  {
    var guard := AppendGuard(st, available, node, epoch, e);
    if guard.Some? { return st, Err(guard.value); }
    var led := AppendOrValidate(st.replicas[node], e, st.highWatermark);
    if led.Err? { return st, Err(led.error); }
    var replicas, failure := ReplicateToFollowers(
      st.replicas[node := Flush(led.value, e, d)], SortedNats(Followers(st, available)), e, st.highWatermark, d);
    st' := st.(replicas := replicas);
    if failure.Some? { return st', Err(failure.value); }
    var counted := CommitStep(st', available, epoch, e, d);
    return counted.0, counted.1;
  }

  function CatchUpStep(st: PartitionState, available: set<nat>, node: nat): (PartitionState, Option<Error>)
    requires WellFormed(st)
  {
    if node !in available then (st, Some(ReplicaUnavailable))
    else if node !in st.assignment.replicas then (st, Some(NotReplica))
    else
      var leader := LeaderLog(st);
      var count := CommittedCount(st.highWatermark);
      if Agree(st.replicas[node].records, leader[..Min(count, |leader|)]) then
        var records := CaughtUp(st.replicas[node].records, leader, count);
        (st.(replicas := st.replicas[node := st.replicas[node].(records := records)]), None)
      else (st, Some(CommittedDivergence))
  }

  /** The candidate check: only the record at the watermark is compared. */
  predicate IsSafe(st: PartitionState, node: nat)
    requires WellFormed(st) && node in st.replicas
  {
    st.highWatermark.Some? ==>
      Get(st.replicas[node].records, st.highWatermark.value) == Get(LeaderLog(st), st.highWatermark.value)
  }

  function Promote(st: PartitionState, candidate: nat): PartitionState {
    st.(assignment := st.assignment.(leader := candidate, leaderEpoch := SatInc(st.assignment.leaderEpoch)))
  }

  function TransferStep(st: PartitionState, available: set<nat>, candidate: nat): (PartitionState, Result<nat, Error>)
    requires WellFormed(st)
  {
    if candidate !in available then (st, Err(CandidateUnavailable))
    else if candidate !in st.assignment.replicas then (st, Err(NotReplica))
    else if !IsSafe(st, candidate) then (st, Err(CandidateUnsafe))
    else (Promote(st, candidate), Ok(SatInc(st.assignment.leaderEpoch)))
  }

  function SafeCandidates(st: PartitionState, available: set<nat>): set<nat>
    requires WellFormed(st)
  {
    set n | n in st.replicas && n in available && IsSafe(st, n)
  }

  function ElectStep(st: PartitionState, available: set<nat>): (PartitionState, Result<(nat, nat), Error>)
    requires WellFormed(st)
  {
    var candidates := SafeCandidates(st, available);
    if candidates == {} then (st, Err(NoSafeReplica))
    else
      var candidate := SortedNats(candidates)[0];
      (Promote(st, candidate), Ok((candidate, SatInc(st.assignment.leaderEpoch))))
  }

  // ----- the coordinator object -----

  class PartitionReplication {
    var partitions: map<PartitionKey, PartitionState>
    var available: set<nat>

    ghost predicate Valid()
      reads this
    {
      forall key :: key in partitions ==> WellFormed(partitions[key])
    }

    constructor (nodes: set<nat>)
      ensures Valid() && partitions == map[] && available == nodes
    {
      partitions, available := map[], nodes;
    }

    method SetAvailable(nodes: set<nat>)
      modifies this`available
      ensures available == nodes
    {
      available := nodes;
    }

    method Assign(a: Assignment) returns (failure: Option<Error>)
      requires Valid()
      modifies this`partitions
      ensures Valid()
      ensures var key := (a.stream, a.partition);
              if CheckAssignment(a).Some? then failure == CheckAssignment(a) && partitions == old(partitions)
              else if key !in old(partitions) then failure == None && partitions == old(partitions)[key := AssignNew(a)]
              else
                && failure == AssignStep(old(partitions)[key], a).1
                && partitions == old(partitions)[key := AssignStep(old(partitions)[key], a).0]
    {
      failure := CheckAssignment(a);
      if failure.Some? { return; }
      var key := (a.stream, a.partition);
      if key in partitions {
        var st := partitions[key];
        if a.leaderEpoch < st.assignment.leaderEpoch {
          assert partitions == partitions[key := st];
          return Some(StaleAssignment);
        }
        var grown := map n | n in a.replicas - st.replicas.Keys :: EMPTY_REPLICA;
        var replicas := st.replicas + grown;
        replicas := map n | n in replicas && n in a.replicas :: replicas[n];
        assert replicas == AssignStep(st, a).0.replicas;
        partitions := partitions[key := PartitionState(a, replicas, st.highWatermark)];
      } else {
        partitions := partitions[key := AssignNew(a)];
      }
    }

    method Append(node: nat, epoch: nat, e: Envelope, d: Durability) returns (r: Result<CommitResult, Error>)
      requires Valid()
      modifies this`partitions
      ensures Valid()
      ensures var key := (e.stream, e.partition);
              if key !in old(partitions) then r == Err(UnknownPartition) && partitions == old(partitions)
              else
                var step := AppendStep(old(partitions)[key], available, node, epoch, e, d);
                r == step.1 && partitions == old(partitions)[key := step.0]
    {
      var key := (e.stream, e.partition);
      if key !in partitions { return Err(UnknownPartition); }
      var st;
      st, r := AppendToPartition(partitions[key], available, node, epoch, e, d);
      partitions := partitions[key := st];
    }

    method CatchUp(key: PartitionKey, node: nat) returns (failure: Option<Error>)
      requires Valid()
      modifies this`partitions
      ensures Valid()
      ensures if node !in available then failure == Some(ReplicaUnavailable) && partitions == old(partitions)
              else if key !in old(partitions) then failure == Some(UnknownPartition) && partitions == old(partitions)
              else
                var step := CatchUpStep(old(partitions)[key], available, node);
                failure == step.1 && partitions == old(partitions)[key := step.0]
    {
      if node !in available { return Some(ReplicaUnavailable); }
      if key !in partitions { return Some(UnknownPartition); }
      var st := partitions[key];
      if node !in st.assignment.replicas {
        assert partitions == partitions[key := st];
        return Some(NotReplica);
      }
      var out := ReconcileCommitted(st.replicas[node], LeaderLog(st), st.highWatermark);
      match out {
        case Ok(replica) =>
          partitions := partitions[key := st.(replicas := st.replicas[node := replica])];
          failure := None;
        case Err(error) =>
          assert partitions == partitions[key := st];
          failure := Some(error);
      }
    }

    method TransferLeadership(key: PartitionKey, candidate: nat) returns (r: Result<nat, Error>)
      requires Valid()
      modifies this`partitions
      ensures Valid()
      ensures if candidate !in available then r == Err(CandidateUnavailable) && partitions == old(partitions)
              else if key !in old(partitions) then r == Err(UnknownPartition) && partitions == old(partitions)
              else
                var step := TransferStep(old(partitions)[key], available, candidate);
                r == step.1 && partitions == old(partitions)[key := step.0]
    {
      if candidate !in available { return Err(CandidateUnavailable); }
      if key !in partitions { return Err(UnknownPartition); }
      var st := partitions[key];
      assert partitions == partitions[key := st];
      if candidate !in st.assignment.replicas { return Err(NotReplica); }
      if !IsSafe(st, candidate) { return Err(CandidateUnsafe); }
      partitions := partitions[key := Promote(st, candidate)];
      r := Ok(SatInc(st.assignment.leaderEpoch));
    }

    method ElectSafeLeader(key: PartitionKey) returns (r: Result<(nat, nat), Error>)
      requires Valid()
      modifies this`partitions
      ensures Valid()
      ensures if key !in old(partitions) then r == Err(UnknownPartition) && partitions == old(partitions)
              else
                var step := ElectStep(old(partitions)[key], available);
                r == step.1 && partitions == old(partitions)[key := step.0]
    {
      if key !in partitions { return Err(UnknownPartition); }
      var st := partitions[key];
      var candidate := FirstSafe(st, available);
      assert partitions == partitions[key := st];
      if candidate == None { return Err(NoSafeReplica); }
      partitions := partitions[key := Promote(st, candidate.value)];
      r := Ok((candidate.value, SatInc(st.assignment.leaderEpoch)));
    }
  }

  /** The first available replica, in ascending order, that passes the check. */
  method FirstSafe(st: PartitionState, available: set<nat>) returns (candidate: Option<nat>)
    requires WellFormed(st)
    ensures candidate == if SafeCandidates(st, available) == {} then None
                         else Some(SortedNats(SafeCandidates(st, available))[0])
  {
    hide IsSafe;
    var ids := SortedNats(st.assignment.replicas);
    ghost var hits := SafeCandidates(st, available);
    for i := 0 to |ids|
      invariant forall k :: 0 <= k < i ==> ids[k] !in hits
    {
      if ids[i] in available && IsSafe(st, ids[i]) {
        LeastIsFirst(hits, ids, i);
        return Some(ids[i]);
      }
    }
    assert forall n :: n in hits ==> n in ids;
    candidate := None;
  }

  /** The first hit of an ascending search is the least element of the hits. */
  lemma LeastIsFirst(hits: set<nat>, ids: seq<nat>, i: nat)
    requires i < |ids| && ids[i] in hits
    requires forall j, k :: 0 <= j < k < |ids| ==> ids[j] < ids[k]
    requires forall n :: n in hits ==> n in ids
    requires forall k :: 0 <= k < i ==> ids[k] !in hits
    ensures SortedNats(hits)[0] == ids[i]
  {
  }
}
