/** Elections of partition leaders (crates/server/src/partition_replication.rs): the
    record at the high watermark stays on a majority, so a majority can always elect. */
module ReplicationElections {
  import opened Common
  import opened Replication
  import opened ReplicationSafety

  function Holders(st: PartitionState): set<nat>
    requires WellFormed(st) && st.highWatermark.Some?
  {
    Matching(st, st.highWatermark.value, st.assignment.replicas)
  }

  predicate OnMajority(st: PartitionState)
    requires WellFormed(st)
  {
    st.highWatermark.Some? ==>
      Get(LeaderLog(st), st.highWatermark.value).Some? && |Holders(st)| >= QuorumOf(st)
  }

  /** A reassignment may move leadership by hand, but only to a replica that passes the
      candidate check; a refused one is free. */
  predicate KeepsMembership(s: System, ev: Event)
    requires WellFormed(s.st)
  {
    ev.Assigning? && AssignStep(s.st, ev.a).1.None? ==>
      && ev.a.replicas == s.st.assignment.replicas
      && (ev.a.leader in s.st.replicas ==> IsSafe(s.st, ev.a.leader))
  }

  /** No write touches a record at or below the watermark. */
  lemma ReconcileKeepsCommitted(r: Replica, e: Envelope, hwm: Option<nat>, i: nat)
    requires i < CommittedCount(hwm) && i < |r.records|
    ensures var out := ReconcileAndAppend(r, e, hwm); out.Ok? ==> Get(out.value.records, i) == Get(r.records, i)
  {
  }

  lemma {:induction false} ReplicateKeepsCommitted(
    replicas: map<nat, Replica>, ids: seq<nat>, e: Envelope, hwm: Option<nat>, d: Durability, n: nat, i: nat)
    requires forall k :: k in ids ==> k in replicas
    requires n in replicas && i < CommittedCount(hwm) && i < |replicas[n].records|
    ensures Get(Replicate(replicas, ids, e, hwm, d).0[n].records, i) == Get(replicas[n].records, i)
  {
    if ids != [] {
      var step := ReconcileAndAppend(replicas[ids[0]], e, hwm);
      if step.Ok? {
        if ids[0] == n { ReconcileKeepsCommitted(replicas[n], e, hwm, i); }
        ReplicateKeepsCommitted(replicas[ids[0] := Flush(step.value, e, d)], ids[1..], e, hwm, d, n, i);
      }
    }
  }

  /** A state change that keeps watermark records in place keeps the majority. */
  lemma MajorityKept(st: PartitionState, st': PartitionState)
    requires WellFormed(st) && WellFormed(st') && OnMajority(st)
    requires st'.assignment.replicas == st.assignment.replicas && st'.highWatermark == st.highWatermark
    requires st.highWatermark.Some? ==>
      && Get(LeaderLog(st'), st.highWatermark.value) == Get(LeaderLog(st), st.highWatermark.value)
      && forall n :: n in Holders(st) ==>
           Get(st'.replicas[n].records, st.highWatermark.value) == Get(st.replicas[n].records, st.highWatermark.value)
    ensures OnMajority(st')
  {
    if st.highWatermark.Some? {
      SubsetSize(Holders(st), Holders(st'));
    }
  }

  lemma WrittenKeepsCommitted(s: System, ev: Event, n: nat, i: nat)
    requires WellFormed(s.st) && ev.Appending? && n in s.st.replicas
    requires AppendGuard(s.st, s.available, ev.node, ev.epoch, ev.e).None?
    requires AppendOrValidate(s.st.replicas[ev.node], ev.e, s.st.highWatermark).Ok?
    requires i < CommittedCount(s.st.highWatermark) && i < |s.st.replicas[n].records|
    ensures Get(Written(s, ev).0.st.replicas[n].records, i) == Get(s.st.replicas[n].records, i)
  {
    LeaderWriteGrows(s.st.replicas[ev.node], ev.e, s.st.highWatermark);
    FollowerIds(s.st, s.available);
    hide Replicate, AppendOrValidate, Followers;
    var led := AppendOrValidate(s.st.replicas[ev.node], ev.e, s.st.highWatermark).value;
    var replicas := s.st.replicas[ev.node := Flush(led, ev.e, ev.d)];
    ReplicateKeepsCommitted(replicas, SortedNats(Followers(s.st, s.available)), ev.e, s.st.highWatermark, ev.d, n, i);
  }

  lemma WrittenKeepsMajority(s: System, ev: Event)
    requires WellFormed(s.st) && OnMajority(s.st) && ev.Appending?
    requires AppendGuard(s.st, s.available, ev.node, ev.epoch, ev.e).None?
    requires AppendOrValidate(s.st.replicas[ev.node], ev.e, s.st.highWatermark).Ok?
    ensures OnMajority(Written(s, ev).0.st)
    ensures Get(LeaderLog(Written(s, ev).0.st), ev.e.offset).Some?
  {
    LeaderWriteGrows(s.st.replicas[ev.node], ev.e, s.st.highWatermark);
    WrittenLeader(s, ev);
    hide Replicate, AppendOrValidate;
    if s.st.highWatermark.Some? {
      var at := s.st.highWatermark.value;
      forall n | n in Holders(s.st)
        ensures Get(Written(s, ev).0.st.replicas[n].records, at) == Get(s.st.replicas[n].records, at)
      {
        WrittenKeepsCommitted(s, ev, n, at);
      }
      WrittenKeepsCommitted(s, ev, ev.node, at);
    }
    MajorityKept(s.st, Written(s, ev).0.st);
  }

  lemma CommitMeansMajority(st: PartitionState, available: set<nat>, epoch: nat, e: Envelope, d: Durability)
    requires WellFormed(st) && OnMajority(st) && Get(LeaderLog(st), e.offset).Some?
    ensures OnMajority(CommitStep(st, available, epoch, e, d).0)
  {
    var counted := CommitStep(st, available, epoch, e, d);
    if counted.1.Ok? {
      SubsetSize(Matching(st, e.offset, available), Holders(counted.0));
    }
  }

  lemma AppendKeepsMajority(s: System, ev: Event)
    requires WellFormed(s.st) && OnMajority(s.st) && ev.Appending?
    ensures OnMajority(Next(s, ev).st)
    ensures Next(s, ev).st.assignment == s.st.assignment
  {
    hide Replicate, AppendOrValidate, Matching, Flushed;
    var Appending(node, epoch, e, d) := ev;
    if AppendGuard(s.st, s.available, node, epoch, e).None? {
      if AppendOrValidate(s.st.replicas[node], e, s.st.highWatermark).Ok? {
        WrittenKeepsMajority(s, ev);
        CommitMeansMajority(Written(s, ev).0.st, s.available, epoch, e, d);
      }
    }
  }

  lemma PromoteKeepsMajority(st: PartitionState, candidate: nat)
    requires WellFormed(st) && OnMajority(st) && candidate in st.replicas && IsSafe(st, candidate)
    ensures OnMajority(Promote(st, candidate))
  {
  }

  lemma CatchUpKeepsMajority(s: System, node: nat)
    requires WellFormed(s.st) && OnMajority(s.st)
    ensures OnMajority(Next(s, CatchingUp(node)).st)
  {
    MajorityKept(s.st, Next(s, CatchingUp(node)).st);
  }

  lemma StepKeepsMajority(s: System, ev: Event)
    requires WellFormed(s.st) && OnMajority(s.st) && KeepsMembership(s, ev)
    ensures OnMajority(Next(s, ev).st)
    ensures Next(s, ev).st.assignment.replicas == s.st.assignment.replicas
  {
    match ev
    case Assigning(a) =>
      if AssignStep(s.st, a).1.None? {
        assert s.st.replicas == map n | n in a.replicas :: s.st.replicas[n];
        MajorityKept(s.st, Next(s, ev).st);
      }
    case Appending(_, _, _, _) => AppendKeepsMajority(s, ev);
    case CatchingUp(node) => CatchUpKeepsMajority(s, node);
    case Transferring(c) =>
      if TransferStep(s.st, s.available, c).1.Ok? { PromoteKeepsMajority(s.st, c); }
    case Electing =>
      if SafeCandidates(s.st, s.available) != {} {
        var c := SortedNats(SafeCandidates(s.st, s.available))[0];
        assert c in SafeCandidates(s.st, s.available);
        PromoteKeepsMajority(s.st, c);
      }
    case AvailabilityChange(nodes) =>
  }

  predicate FixedMembershipRun(s: System, run: seq<Event>)
    requires WellFormed(s.st)
  {
    run == [] ||
      (var before := run[..|run| - 1];
       FixedMembershipRun(s, before) && KeepsMembership(After(s, before), run[|run| - 1]))
  }

  lemma {:induction false} RunKeepsMajority(s: System, run: seq<Event>)
    requires WellFormed(s.st) && Initial(s) && FixedMembershipRun(s, run)
    ensures OnMajority(After(s, run).st)
  {
    if run != [] {
      var before := run[..|run| - 1];
      RunKeepsMajority(s, before);
      StepKeepsMajority(After(s, before), run[|run| - 1]);
    }
  }

  lemma QuorumsIntersect(all: set<nat>, a: set<nat>, b: set<nat>)
    requires a <= all && b <= all && |a| + |b| > |all|
    ensures exists n :: n in a && n in b
  {
    SubsetSize(a + b, all);
    assert |a + b| + |a * b| == |a| + |b|;
    var n :| n in a * b;
  }

  /** Elections never get stuck: after any run with fixed membership, disciplined or
      not, whenever a majority of the replicas is available `elect_safe_leader`
      succeeds, and its choice is an available replica with the watermark record. */
  lemma MajorityAlwaysElects(s: System, run: seq<Event>)
    requires WellFormed(s.st) && Initial(s) && FixedMembershipRun(s, run)
    requires var s' := After(s, run); 2 * |s'.st.assignment.replicas * s'.available| > |s'.st.assignment.replicas|
    ensures var s' := After(s, run);
            var out := ElectStep(s'.st, s'.available).1;
            && out.Ok? && out.value.0 in s'.available && out.value.0 in s'.st.replicas
            && (s'.st.highWatermark.Some? ==> out.value.0 in Holders(s'.st))
  {
    RunKeepsMajority(s, run);
    var st := After(s, run).st;
    var reachable := st.assignment.replicas * After(s, run).available;
    if st.highWatermark.Some? {
      QuorumsIntersect(st.assignment.replicas, Holders(st), reachable);
      var n :| n in Holders(st) && n in reachable;
      assert n in SafeCandidates(st, After(s, run).available);
    } else {
      assert reachable != {};
      var n :| n in reachable;
      assert n in SafeCandidates(st, After(s, run).available);
    }
    var first := SortedNats(SafeCandidates(st, After(s, run).available))[0];
    assert first in SafeCandidates(st, After(s, run).available);
  }
}
