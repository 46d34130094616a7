/** Concrete runs of partition replication (crates/server/src/partition_replication.rs), each
    with a single undisciplined step, that lose an acknowledged record: a transfer to a
    replica that has not caught up, an election of one, and an append below the watermark.
    A fourth, disciplined run serves a record nobody acknowledged. */
module ReplicationWitnesses {
  import opened Common
  import opened Replication
  import opened ReplicationSafety

  function Record(offset: nat, epoch: nat, body: nat): Envelope {
    Envelope("orders", 0, offset, epoch, [body])
  }

  function Logs(one: seq<Envelope>, two: seq<Envelope>, three: seq<Envelope>): map<nat, Replica> {
    map[1 := Replica(one, None), 2 := Replica(two, None), 3 := Replica(three, None)]
  }

  /** Three replicas of one partition with the given logs. */
  function Trio(
    leader: nat, epoch: nat, one: seq<Envelope>, two: seq<Envelope>, three: seq<Envelope>,
    hwm: Option<nat>, available: set<nat>, pending: set<nat>
  ): (s: System)
    ensures leader in {1, 2, 3} ==> WellFormed(s.st)
  {
    System(
      PartitionState(Assignment("orders", 0, {1, 2, 3}, leader, epoch), Logs(one, two, three), hwm), available, pending)
  }

  lemma SortedOf(q: seq<nat>, s: set<nat>)
    requires forall x :: x in q <==> x in s
    requires forall i, j :: 0 <= i < j < |q| ==> q[i] < q[j]
    ensures SortedNats(s) == q
  {
    NatLeTotal();
    AscendingUnique(SortedNats(s), q, NatLe);
  }

  /** The watermark decision on three replicas. */
  lemma CommitOnTrio(s: System, e: Envelope, holders: set<nat>)
    requires s.st.assignment.replicas == {1, 2, 3} && WellFormed(s.st)
    requires holders == Matching(s.st, e.offset, s.available)
    ensures var step := CommitStep(s.st, s.available, s.st.assignment.leaderEpoch, e, Quorum);
            && step.1.Ok? == (|holders| >= 2)
            && step.0 == if |holders| >= 2 then s.st.(highWatermark := Some(e.offset)) else s.st
  {
  }

  lemma ReplicateToTwo(replicas: map<nat, Replica>, e: Envelope, hwm: Option<nat>, two: Replica, three: Replica)
    requires 2 in replicas && ReconcileAndAppend(replicas[2], e, hwm) == Ok(two)
    requires 3 in replicas && ReconcileAndAppend(replicas[3], e, hwm) == Ok(three)
    ensures Replicate(replicas, [2, 3], e, hwm, Quorum) == (replicas[2 := two][3 := three], None)
  {
    assert [2, 3][1..] == [3] && [3][1..] == [];
    var second := replicas[2 := two];
    assert Replicate(second, [3], e, hwm, Quorum) == (second[3 := three], None);
  }

  /** AppendStep with its writes already known. */
  lemma AppendVia(s: System, ev: Event, led: Replica, replicas: map<nat, Replica>)
    requires WellFormed(s.st) && ev.Appending? && AppendGuard(s.st, s.available, ev.node, ev.epoch, ev.e).None?
    requires AppendOrValidate(s.st.replicas[ev.node], ev.e, s.st.highWatermark) == Ok(led)
    requires Replicate(
      s.st.replicas[ev.node := Flush(led, ev.e, ev.d)], SortedNats(Followers(s.st, s.available)),
      ev.e, s.st.highWatermark, ev.d) == (replicas, None)
    ensures WellFormed(s.st.(replicas := replicas))
    ensures AppendStep(s.st, s.available, ev.node, ev.epoch, ev.e, ev.d)
         == CommitStep(s.st.(replicas := replicas), s.available, ev.epoch, ev.e, ev.d)
  {
  }

  lemma WriteHolds(r: Replica, e: Envelope, hwm: Option<nat>)
    ensures var out := ReconcileAndAppend(r, e, hwm); out.Ok? ==> Get(out.value.records, e.offset) == Some(e)
  {
  }

  lemma AllHold(
    epoch: nat, one: seq<Envelope>, two: seq<Envelope>, three: seq<Envelope>,
    hwm: Option<nat>, pending: set<nat>, e: Envelope)
    requires Get(one, e.offset) == Get(two, e.offset) == Get(three, e.offset)
    ensures Matching(Trio(1, epoch, one, two, three, hwm, {1, 2, 3}, pending).st, e.offset, {1, 2, 3}) == {1, 2, 3}
    ensures |{1, 2, 3}| == 3
  {
  }

  lemma FollowersOfOne(s: System)
    requires s.st.assignment.replicas == {1, 2, 3} && s.st.assignment.leader == 1
    ensures SortedNats(Followers(s.st, {1, 2, 3})) == [2, 3]
  {
    assert Followers(s.st, {1, 2, 3}) == {2, 3};
    SortedOf([2, 3], {2, 3});
  }

  /** The watermark moves once all three replicas hold the record. */
  lemma CommitWhenAllHold(
    epoch: nat, one: seq<Envelope>, two: seq<Envelope>, three: seq<Envelope>,
    hwm: Option<nat>, pending: set<nat>, e: Envelope)
    requires Get(one, e.offset) == Get(two, e.offset) == Get(three, e.offset)
    ensures var s := Trio(1, epoch, one, two, three, hwm, {1, 2, 3}, pending);
            var step := CommitStep(s.st, {1, 2, 3}, epoch, e, Quorum);
            step.1.Ok? && s.(st := step.0) == Trio(1, epoch, one, two, three, Some(e.offset), {1, 2, 3}, pending)
  {
    AllHold(epoch, one, two, three, hwm, pending, e);
    hide Matching, Flushed, CommitStep;
    CommitOnTrio(Trio(1, epoch, one, two, three, hwm, {1, 2, 3}, pending), e, {1, 2, 3});
  }

  lemma LogsReplaced(
    before: (seq<Envelope>, seq<Envelope>, seq<Envelope>), now: (seq<Envelope>, seq<Envelope>, seq<Envelope>))
    ensures var logs := Logs(before.0, before.1, before.2);
            && logs.Keys == {1, 2, 3}
            && logs[1] == Replica(before.0, None) && logs[2] == Replica(before.1, None)
            && logs[3] == Replica(before.2, None)
            && logs[1 := Replica(now.0, None)][2 := Replica(now.1, None)][3 := Replica(now.2, None)]
               == Logs(now.0, now.1, now.2)
  {
  }

  /** An append led by node 1 with every replica reachable. */
  lemma AppendOnTrio(
    epoch: nat, before: (seq<Envelope>, seq<Envelope>, seq<Envelope>), hwm: Option<nat>, pending: set<nat>,
    e: Envelope, now: (seq<Envelope>, seq<Envelope>, seq<Envelope>))
    requires e.leaderEpoch == epoch
    requires AppendOrValidate(Replica(before.0, None), e, hwm) == Ok(Replica(now.0, None))
    requires ReconcileAndAppend(Replica(before.1, None), e, hwm) == Ok(Replica(now.1, None))
    requires ReconcileAndAppend(Replica(before.2, None), e, hwm) == Ok(Replica(now.2, None))
    ensures var s := Trio(1, epoch, before.0, before.1, before.2, hwm, {1, 2, 3}, pending);
            && AppendStep(s.st, s.available, 1, epoch, e, Quorum).1.Ok?
            && s.(st := AppendStep(s.st, s.available, 1, epoch, e, Quorum).0)
               == Trio(1, epoch, now.0, now.1, now.2, Some(e.offset), {1, 2, 3}, pending)
  {
    assert Get(now.0, e.offset) == Some(e);
    LogsReplaced(before, now);
    hide ReconcileAndAppend, AppendOrValidate, Replicate, Matching, Flushed, CommitStep, AppendStep, Get, Followers,
         Logs;
    var s := Trio(1, epoch, before.0, before.1, before.2, hwm, {1, 2, 3}, pending);
    FollowersOfOne(s);
    var led := s.st.replicas[1 := Replica(now.0, None)];
    ReplicateToTwo(led, e, hwm, Replica(now.1, None), Replica(now.2, None));
    var written := Logs(now.0, now.1, now.2);
    AppendVia(s, Appending(1, epoch, e, Quorum), Replica(now.0, None), written);
    WriteHolds(Replica(before.1, None), e, hwm);
    WriteHolds(Replica(before.2, None), e, hwm);
    CommitWhenAllHold(epoch, now.0, now.1, now.2, hwm, pending, e);
  }

  // ----- a returned replica that skips catch-up -----

  const X := Record(0, 1, 10)   // written to node 3 only, never acknowledged
  const Y := Record(0, 2, 20)   // acknowledged at offset 0 while node 3 is away
  const Z := Record(1, 2, 30)   // acknowledged at offset 1 with node 3 back

  const S0 := Trio(3, 1, [], [], [], None, {3}, {})
  const S1 := Trio(3, 1, [], [], [X], None, {3}, {})
  const S2 := Trio(3, 1, [], [], [X], None, {1, 2}, {1, 2})
  const S3 := Trio(3, 1, [], [], [X], None, {1, 2}, {2})
  const S4 := Trio(3, 1, [], [], [X], None, {1, 2}, {})
  const S5 := Trio(1, 2, [], [], [X], None, {1, 2}, {})
  const S6 := Trio(1, 2, [Y], [Y], [X], Some(0), {1, 2}, {})
  const S7 := Trio(1, 2, [Y], [Y], [X], Some(0), {1, 2, 3}, {3})
  const S8 := Trio(1, 2, [Y, Z], [Y, Z], [X, Z], Some(1), {1, 2, 3}, {3})
  const S9 := Trio(3, 3, [Y, Z], [Y, Z], [X, Z], Some(1), {1, 2, 3}, {3})

  const E0 := Appending(3, 1, X, Quorum)
  const E1 := AvailabilityChange({1, 2})
  const E2 := CatchingUp(1)
  const E3 := CatchingUp(2)
  const E4 := Electing
  const E5 := Appending(1, 2, Y, Quorum)
  const E6 := AvailabilityChange({1, 2, 3})
  const E7 := Appending(1, 2, Z, Quorum)
  const E8 := Transferring(3)

  lemma OrphanWrite()
    ensures Next(S0, E0) == S1 && Disciplined(S0, E0)
  {
    assert Followers(S0.st, {3}) == {};
    SortedOf([], {});
    assert AppendOrValidate(S0.st.replicas[3], X, None) == Ok(Replica([X], None)) by { assert [] + [X] == [X]; }
    assert S0.st.replicas[3 := Replica([X], None)] == S1.st.replicas;
    CommitOnTrio(S1, X, {3});
  }

  lemma EmptyCatchUps()
    ensures Next(S1, E1) == S2 && Disciplined(S1, E1)
    ensures Next(S2, E2) == S3 && Disciplined(S2, E2)
    ensures Next(S3, E3) == S4 && Disciplined(S3, E3)
  {
  }

  lemma ElectedWithoutHistory()
    ensures Next(S4, E4) == S5 && Disciplined(S4, E4)
  {
    assert SafeCandidates(S4.st, {1, 2}) == {1, 2};
    SortedOf([1, 2], {1, 2});
  }

  lemma AcknowledgedWithoutThird()
    ensures Next(S5, E5) == S6 && Disciplined(S5, E5) && Acknowledged(S5, E5)
  {
    assert Followers(S5.st, {1, 2}) == {2};
    SortedOf([2], {2});
    var newcomer := Replica([Y], None);
    assert ReconcileAndAppend(Replica([], None), Y, None) == Ok(newcomer) by { assert [] + [Y] == [Y]; }
    var led := S5.st.replicas[1 := newcomer];
    var written := Trio(1, 2, [Y], [Y], [X], None, {1, 2}, {});
    assert led[2 := newcomer] == written.st.replicas;
    assert [2][1..] == [];
    assert Replicate(led, [2], Y, None, Quorum) == (written.st.replicas, None);
    CommitOnTrio(written, Y, {1, 2});
  }

  lemma ReturnOfThird()
    ensures WellFormed(S0.st) && Initial(S0)
    ensures Next(S6, E6) == S7 && Disciplined(S6, E6)
  {
  }

  /** Appending goes on while node 3 is still catching up. */
  lemma AppendedPastDivergence()
    ensures Next(S7, E7) == S8 && Disciplined(S7, E7)
  {
    assert [Y] + [Z] == [Y, Z] && [X] + [Z] == [X, Z];
    AppendOnTrio(2, ([Y], [Y], [X]), Some(0), {3}, Z, ([Y, Z], [Y, Z], [X, Z]));
  }

  lemma TransferredWithoutHistory()
    ensures TransferStep(S8.st, S8.available, 3).1.Ok? && Next(S8, E8) == S9 && !Disciplined(S8, E8)
    ensures Get(LeaderLog(S9.st), Y.offset) == Some(X)
  {
    assert LeaderLog(S8.st)[..2][0] == Y && S8.st.replicas[3].records[0] == X;
  }

  const ALONE := Trio(1, 2, [Y, Z], [Y, Z], [X, Z], Some(1), {3}, {3})

  lemma LeftAlone()
    ensures Next(S8, AvailabilityChange({3})) == ALONE && Disciplined(S8, AvailabilityChange({3}))
  {
  }

  lemma OnlyChoice()
    ensures SafeCandidates(ALONE.st, {3}) == {3} && SortedNats({3}) == [3]
    ensures CatchUpStep(ALONE.st, {3}, 3).1.Some?
  {
    SortedOf([3], {3});
    assert LeaderLog(ALONE.st)[..2][0] == Y && ALONE.st.replicas[3].records[0] == X;
  }

  lemma ElectedAlone()
    ensures !Disciplined(ALONE, Electing) && Get(LeaderLog(Next(ALONE, Electing).st), Y.offset) == Some(X)
  {
    OnlyChoice();
    hide SafeCandidates, CatchUpStep;
  }

  const UNTIL_Y := [E0] + [E1] + [E2] + [E3] + [E4]
  const UNTIL_TRANSFER := UNTIL_Y + [E5] + [E6] + [E7]

  lemma Extends(s0: System, run: seq<Event>, ev: Event, s: System, t: System)
    requires WellFormed(s0.st) && After(s0, run) == s && Next(s, ev) == t
    ensures After(s0, run + [ev]) == t
    ensures DisciplinedRun(s0, run) && Disciplined(s, ev) ==> DisciplinedRun(s0, run + [ev])
  {
    hide Next, Disciplined;
    assert (run + [ev])[..|run|] == run;
  }

  lemma NoEvents(s0: System)
    requires WellFormed(s0.st)
    ensures DisciplinedRun(s0, []) && After(s0, []) == s0
  {
  }

  lemma ReachesElection()
    ensures WellFormed(S0.st) && Initial(S0) && DisciplinedRun(S0, UNTIL_Y) && After(S0, UNTIL_Y) == S5
  {
    hide Trio, Logs, Record, Next, After, Disciplined, DisciplinedRun, Initial, WellFormed;
    OrphanWrite();
    EmptyCatchUps();
    ElectedWithoutHistory();
    ReturnOfThird();
    NoEvents(S0);
    assert [] + [E0] == [E0];
    Extends(S0, [], E0, S0, S1);
    Extends(S0, [E0], E1, S1, S2);
    Extends(S0, [E0] + [E1], E2, S2, S3);
    Extends(S0, [E0] + [E1] + [E2], E3, S3, S4);
    Extends(S0, [E0] + [E1] + [E2] + [E3], E4, S4, S5);
  }

  lemma ReachesTransfer()
    ensures WellFormed(S0.st) && DisciplinedRun(S0, UNTIL_TRANSFER) && After(S0, UNTIL_TRANSFER) == S8
  {
    hide Trio, Logs, Record, Next, After, Disciplined, DisciplinedRun, Acknowledged, Initial, WellFormed;
    ReachesElection();
    AcknowledgedWithoutThird();
    ReturnOfThird();
    AppendedPastDivergence();
    Extends(S0, UNTIL_Y, E5, S5, S6);
    Extends(S0, UNTIL_Y + [E5], E6, S6, S7);
    Extends(S0, UNTIL_Y + [E5] + [E6], E7, S7, S8);
  }

  /** Why a leader must have caught up: a disciplined run from an initial state acknowledges
      Y at offset 0 and appends on while node 3 has not caught up. The code then accepts a
      transfer to node 3, and the new leader has X where Y was acknowledged. */
  lemma SkippingCatchUpLosesARecord()
    ensures WellFormed(S0.st) && Initial(S0) && DisciplinedRun(S0, UNTIL_TRANSFER)
    ensures Acknowledged(After(S0, UNTIL_Y), E5) && E5.e == Y
    ensures !Disciplined(After(S0, UNTIL_TRANSFER), E8)
    ensures Get(LeaderLog(After(S0, UNTIL_TRANSFER + [E8]).st), Y.offset) == Some(X) && X != Y
  {
    assert X != Y;
    hide Trio, Logs, Record, Next, After, Disciplined, DisciplinedRun, Acknowledged, Initial, WellFormed, Get,
         LeaderLog, TransferStep;
    ReachesElection();
    ReachesTransfer();
    AcknowledgedWithoutThird();
    TransferredWithoutHistory();
    Extends(S0, UNTIL_TRANSFER, E8, S8, S9);
  }

  /** An election goes the same way once node 3 is the only one available. */
  lemma ElectingTooEarlyLosesARecord()
    ensures WellFormed(S0.st) && Initial(S0) && DisciplinedRun(S0, UNTIL_TRANSFER + [AvailabilityChange({3})])
    ensures Acknowledged(After(S0, UNTIL_Y), E5) && E5.e == Y
    ensures !Disciplined(After(S0, UNTIL_TRANSFER + [AvailabilityChange({3})]), Electing)
    ensures Get(LeaderLog(After(S0, UNTIL_TRANSFER + [AvailabilityChange({3})] + [Electing]).st), Y.offset) == Some(X)
  {
    hide Trio, Logs, Record, Next, After, Disciplined, DisciplinedRun, Acknowledged, Initial, WellFormed, Get,
         LeaderLog;
    ReachesElection();
    ReachesTransfer();
    AcknowledgedWithoutThird();
    LeftAlone();
    ElectedAlone();
    Extends(S0, UNTIL_TRANSFER, AvailabilityChange({3}), S8, ALONE);
    Extends(S0, UNTIL_TRANSFER + [AvailabilityChange({3})], Electing, ALONE, Next(ALONE, Electing));
  }

  // ----- an append below the watermark -----

  const A := Record(0, 1, 1)
  const B := Record(1, 1, 2)

  const W0 := Trio(1, 1, [], [], [], None, {1, 2, 3}, {})
  const W1 := Trio(1, 1, [A], [A], [A], Some(0), {1, 2, 3}, {})
  const W2 := Trio(1, 1, [A, B], [A, B], [A, B], Some(1), {1, 2, 3}, {})
  const W3 := Trio(1, 1, [A, B], [A, B], [A, B], Some(0), {1, 2, 3}, {})
  const W4 := Trio(1, 1, [A], [A, B], [A, B], Some(0), {1, 2, 3}, {})

  const APPEND_A := Appending(1, 1, A, Quorum)
  const APPEND_B := Appending(1, 1, B, Quorum)
  const UNTIL_RETRY := [APPEND_A] + [APPEND_B]

  lemma StartsEmpty()
    ensures WellFormed(W0.st) && Initial(W0)
  {
  }

  lemma FirstAcknowledged()
    ensures Next(W0, APPEND_A) == W1 && Disciplined(W0, APPEND_A)
  {
    assert [] + [A] == [A];
    AppendOnTrio(1, ([], [], []), None, {}, A, ([A], [A], [A]));
  }

  lemma SecondAcknowledged()
    ensures Next(W1, APPEND_B) == W2 && Disciplined(W1, APPEND_B) && Acknowledged(W1, APPEND_B)
  {
    assert [A] + [B] == [A, B];
    AppendOnTrio(1, ([A], [A], [A]), Some(0), {}, B, ([A, B], [A, B], [A, B]));
  }

  /** Retrying offset 0 after offset 1 was acknowledged is acknowledged too, and moves the
      watermark back. */
  lemma WatermarkMovesBack()
    ensures Next(W2, APPEND_A) == W3 && Acknowledged(W2, APPEND_A) && !Disciplined(W2, APPEND_A)
  {
    AppendOnTrio(1, ([A, B], [A, B], [A, B]), Some(1), {}, A, ([A, B], [A, B], [A, B]));
  }

  lemma LeaderCaughtUp()
    ensures Next(W3, CatchingUp(1)) == W4 && Disciplined(W3, CatchingUp(1))
    ensures Get(LeaderLog(W4.st), B.offset) == None
  {
    assert [A, B][..1] == [A];
    assert CaughtUp([A, B], [A, B], 1) == [A];
    assert W3.st.replicas[1 := Replica([A], None)] == W4.st.replicas;
  }

  lemma ReachesRetry()
    ensures WellFormed(W0.st) && Initial(W0) && DisciplinedRun(W0, UNTIL_RETRY)
    ensures After(W0, [APPEND_A]) == W1 && After(W0, UNTIL_RETRY) == W2
  {
    hide Trio, Logs, Record, Next, After, Disciplined, DisciplinedRun, Acknowledged, Initial, WellFormed;
    StartsEmpty();
    FirstAcknowledged();
    SecondAcknowledged();
    NoEvents(W0);
    assert [] + [APPEND_A] == [APPEND_A];
    Extends(W0, [], APPEND_A, W0, W1);
    Extends(W0, [APPEND_A], APPEND_B, W1, W2);
  }

  /** Why the offset must not fall below the watermark: a disciplined run from an initial
      state acknowledges B at offset 1; the code then acknowledges a retry of offset 0, and
      a catch-up of the leader removes B from its log. */
  lemma RetryBelowWatermarkLosesARecord()
    ensures WellFormed(W0.st) && Initial(W0) && DisciplinedRun(W0, UNTIL_RETRY)
    ensures Acknowledged(After(W0, [APPEND_A]), APPEND_B) && APPEND_B.e == B
    ensures !Disciplined(After(W0, UNTIL_RETRY), APPEND_A)
    ensures Get(LeaderLog(After(W0, UNTIL_RETRY + [APPEND_A] + [CatchingUp(1)]).st), B.offset) == None
  {
    hide Trio, Logs, Record, Next, After, Disciplined, DisciplinedRun, Acknowledged, Initial, WellFormed, Get,
         LeaderLog;
    SecondAcknowledged();
    ReachesRetry();
    WatermarkMovesBack();
    LeaderCaughtUp();
    Extends(W0, UNTIL_RETRY, APPEND_A, W2, W3);
    Extends(W0, UNTIL_RETRY + [APPEND_A], CatchingUp(1), W3, W4);
  }

  // ----- an append ahead of the watermark -----

  const P := Record(0, 2, 11)   // written to node 2 only
  const Q := Record(0, 3, 12)   // written to node 1 only
  const R := Record(1, 3, 13)   // acknowledged at offset 1

  const G2 := Trio(3, 1, [], [], [X], None, {2}, {2})
  const G3 := Trio(2, 2, [], [], [X], None, {2}, {2})
  const G4 := Trio(2, 2, [], [P], [X], None, {2}, {2})
  const G5 := Trio(2, 2, [], [P], [X], None, {1}, {1, 2})
  const G6 := Trio(1, 3, [], [P], [X], None, {1}, {1, 2})
  const G7 := Trio(1, 3, [Q], [P], [X], None, {1}, {1, 2})
  const G8 := Trio(1, 3, [Q], [P], [X], None, {1, 2, 3}, {1, 2, 3})
  const G9 := Trio(1, 3, [Q, R], [P, R], [X, R], Some(1), {1, 2, 3}, {1, 2, 3})

  const APPEND_P := Appending(2, 2, P, Quorum)
  const APPEND_Q := Appending(1, 3, Q, Quorum)
  const APPEND_R := Appending(1, 3, R, Quorum)
  const UNTIL_Q := [E0] + [AvailabilityChange({2})] + [Electing] + [APPEND_P] + [AvailabilityChange({1})] + [Electing]
  const UNTIL_R := UNTIL_Q + [APPEND_Q] + [AvailabilityChange({1, 2, 3})]

  /** Node 2 takes over without history, and then node 1 does. */
  lemma TakesOver()
    ensures Next(S1, AvailabilityChange({2})) == G2 && Disciplined(S1, AvailabilityChange({2}))
    ensures Next(G2, Electing) == G3 && Disciplined(G2, Electing)
  {
    assert SafeCandidates(G2.st, {2}) == {2};
    SortedOf([2], {2});
  }

  lemma TakesOverAgain()
    ensures Next(G4, AvailabilityChange({1})) == G5 && Disciplined(G4, AvailabilityChange({1}))
    ensures Next(G5, Electing) == G6 && Disciplined(G5, Electing)
  {
    assert SafeCandidates(G5.st, {1}) == {1};
    SortedOf([1], {1});
  }

  lemma SecondOrphan()
    ensures Next(G3, APPEND_P) == G4 && Disciplined(G3, APPEND_P)
  {
    assert Followers(G3.st, {2}) == {};
    SortedOf([], {});
    assert AppendOrValidate(G3.st.replicas[2], P, None) == Ok(Replica([P], None)) by { assert [] + [P] == [P]; }
    assert G3.st.replicas[2 := Replica([P], None)] == G4.st.replicas;
    CommitOnTrio(G4, P, {2});
  }

  lemma ThirdOrphan()
    ensures Next(G6, APPEND_Q) == G7 && Disciplined(G6, APPEND_Q)
    ensures Next(G7, AvailabilityChange({1, 2, 3})) == G8 && Disciplined(G7, AvailabilityChange({1, 2, 3}))
  {
    assert Followers(G6.st, {1}) == {};
    SortedOf([], {});
    assert AppendOrValidate(G6.st.replicas[1], Q, None) == Ok(Replica([Q], None)) by { assert [] + [Q] == [Q]; }
    assert G6.st.replicas[1 := Replica([Q], None)] == G7.st.replicas;
    CommitOnTrio(G7, Q, {1});
  }

  lemma AppendedAhead()
    ensures Next(G8, APPEND_R) == G9 && Disciplined(G8, APPEND_R) && Acknowledged(G8, APPEND_R)
    ensures !InOrder(G8, APPEND_R) && CommittedRecords(G9.st) == [Q, R]
  {
    assert [Q] + [R] == [Q, R] && [P] + [R] == [P, R] && [X] + [R] == [X, R];
    AppendOnTrio(3, ([Q], [P], [X]), None, {1, 2, 3}, R, ([Q, R], [P, R], [X, R]));
  }

  lemma ReachesOrphans()
    ensures WellFormed(S0.st) && Initial(S0) && DisciplinedRun(S0, UNTIL_Q) && After(S0, UNTIL_Q) == G6
  {
    hide Trio, Logs, Record, Next, After, Disciplined, DisciplinedRun, Initial, WellFormed;
    ReturnOfThird();
    OrphanWrite();
    TakesOver();
    SecondOrphan();
    TakesOverAgain();
    NoEvents(S0);
    assert [] + [E0] == [E0];
    Extends(S0, [], E0, S0, S1);
    var run := [E0];
    Extends(S0, run, AvailabilityChange({2}), S1, G2);
    run := run + [AvailabilityChange({2})];
    Extends(S0, run, Electing, G2, G3);
    run := run + [Electing];
    Extends(S0, run, APPEND_P, G3, G4);
    run := run + [APPEND_P];
    Extends(S0, run, AvailabilityChange({1}), G4, G5);
    Extends(S0, run + [AvailabilityChange({1})], Electing, G5, G6);
  }

  lemma ReachesAppendAhead()
    ensures WellFormed(S0.st) && Initial(S0) && DisciplinedRun(S0, UNTIL_R + [APPEND_R])
    ensures After(S0, UNTIL_R) == G8 && After(S0, UNTIL_R + [APPEND_R]) == G9
  {
    hide Trio, Logs, Record, Next, After, Disciplined, DisciplinedRun, Acknowledged, Initial, WellFormed, InOrder;
    ReachesOrphans();
    ThirdOrphan();
    AppendedAhead();
    Extends(S0, UNTIL_Q, APPEND_Q, G6, G7);
    Extends(S0, UNTIL_Q + [APPEND_Q], AvailabilityChange({1, 2, 3}), G7, G8);
    Extends(S0, UNTIL_R, APPEND_R, G8, G9);
  }

  lemma LastIsOutOfOrder(s0: System, run: seq<Event>, ev: Event)
    requires WellFormed(s0.st) && !InOrder(After(s0, run), ev)
    ensures !GaplessRun(s0, run + [ev])
    ensures Acknowledged(After(s0, run), ev) ==> ev.e.offset in Acks(s0, run + [ev])
  {
    hide InOrder, Acknowledged;
    assert (run + [ev])[..|run|] == run;
  }

  /** Why the exact condition is needed: after three takeovers without history a disciplined
      run acknowledges R at offset 1. The leader then serves Q at offset 0, which nobody
      acknowledged. */
  lemma AppendingAheadServesMore()
    ensures WellFormed(S0.st) && Initial(S0) && DisciplinedRun(S0, UNTIL_R + [APPEND_R])
    ensures Acknowledged(After(S0, UNTIL_R), APPEND_R) && 0 !in Acks(S0, UNTIL_R + [APPEND_R])
    ensures CommittedRecords(After(S0, UNTIL_R + [APPEND_R]).st) == [Q, R]
  {
    hide Trio, Logs, Next, After, Disciplined, DisciplinedRun, Acknowledged, Initial, WellFormed, InOrder,
         CommittedRecords;
    ReachesAppendAhead();
    AppendedAhead();
    LastIsOutOfOrder(S0, UNTIL_R, APPEND_R);
    LeaderServesExactlyIff(S0, UNTIL_R + [APPEND_R]);
  }
}
