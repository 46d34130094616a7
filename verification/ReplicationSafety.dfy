/** Safety of acknowledged records over whole runs of partition replication
    (crates/server/src/partition_replication.rs), and the exact condition under which
    each operation keeps them. */
module ReplicationSafety {
  import opened Common
  import opened Replication

  /** One partition in its environment. `pending` records which replicas came back
      after an outage and have not finished `catch_up` since. */
  datatype System = System(st: PartitionState, available: set<nat>, pending: set<nat>)

  datatype Event =
    | Assigning(a: Assignment)
    | Appending(node: nat, epoch: nat, e: Envelope, d: Durability)
    | CatchingUp(node: nat)
    | Transferring(candidate: nat)
    | Electing
    | AvailabilityChange(nodes: set<nat>)

  function Next(s: System, ev: Event): (s': System)
    requires WellFormed(s.st)
    ensures WellFormed(s'.st)
  {
    match ev
    case Assigning(a) => s.(st := AssignStep(s.st, a).0)
    case Appending(node, epoch, e, d) => s.(st := AppendStep(s.st, s.available, node, epoch, e, d).0)
    case CatchingUp(node) =>
      var step := CatchUpStep(s.st, s.available, node);
      s.(st := step.0, pending := if step.1.None? then s.pending - {node} else s.pending)
    case Transferring(candidate) => s.(st := TransferStep(s.st, s.available, candidate).0)
    case Electing => s.(st := ElectStep(s.st, s.available).0)
    case AvailabilityChange(nodes) =>
      s.(available := nodes, pending := s.pending + (nodes - s.available - {s.st.assignment.leader}))
  }

  predicate Initial(s: System) {
    CheckAssignment(s.st.assignment).None? && s.st == AssignNew(s.st.assignment) && s.pending == {}
  }

  function After(s: System, run: seq<Event>): (s': System)
    requires WellFormed(s.st)
    ensures WellFormed(s'.st)
  {
    if run == [] then s else Next(After(s, run[..|run| - 1]), run[|run| - 1])
  }

  /** A replica fit to lead: it did not return since its last `catch_up`, or `catch_up`
      would succeed now. */
  predicate MayLead(s: System, n: nat)
    requires WellFormed(s.st)
  {
    n !in s.pending || CatchUpStep(s.st, s.available, n).1.None?
  }

  /** The replica an election would choose. */
  function Choice(s: System): Option<nat>
    requires WellFormed(s.st)
  {
    var candidates := SafeCandidates(s.st, s.available);
    if candidates == {} then None else Some(SortedNats(candidates)[0])
  }

  /** The discipline the controller keeps: no append below the watermark is acknowledged, and
      leadership goes only to a replica fit to lead. Appends may go on while returned
      replicas are still catching up, at any offset the leader's log allows. Refused calls
      are free. */
  predicate Disciplined(s: System, ev: Event)
    requires WellFormed(s.st)
  {
    match ev
    case Assigning(a) =>
      || AssignStep(s.st, a).1.Some?
      || a.leader == s.st.assignment.leader
      || s.st.highWatermark.None?
      || (a.leader in s.st.replicas && a.leader in s.available && MayLead(s, a.leader) && IsSafe(s.st, a.leader))
    case Appending(node, epoch, e, d) =>
      Acknowledged(s, ev) ==> s.st.highWatermark.None? || e.offset >= s.st.highWatermark.value
    case CatchingUp(node) => true
    case Transferring(candidate) => TransferStep(s.st, s.available, candidate).1.Ok? ==> MayLead(s, candidate)
    case Electing => Choice(s).Some? ==> MayLead(s, Choice(s).value)
    case AvailabilityChange(nodes) => true
  }

  predicate DisciplinedRun(s: System, run: seq<Event>)
    requires WellFormed(s.st)
  {
    run == [] ||
      (var before := run[..|run| - 1]; DisciplinedRun(s, before) && Disciplined(After(s, before), run[|run| - 1]))
  }

  function Acknowledged(s: System, ev: Event): bool
    requires WellFormed(s.st)
  {
    ev.Appending? && AppendStep(s.st, s.available, ev.node, ev.epoch, ev.e, ev.d).1.Ok?
  }

  /** The acknowledged records by offset, read off the run's responses alone. */
  function Acks(s: System, run: seq<Event>): map<nat, Envelope>
    requires WellFormed(s.st)
  {
    if run == [] then map[]
    else
      var before := run[..|run| - 1];
      Extended(Acks(s, before), After(s, before), run[|run| - 1])
  }

  function Extended(acks: map<nat, Envelope>, s: System, ev: Event): map<nat, Envelope>
    requires WellFormed(s.st)
  {
    if Acknowledged(s, ev) then acks[ev.e.offset := ev.e] else acks
  }

  /** What `committed_records` serves from the leader. */
  function CommittedRecords(st: PartitionState): seq<Envelope>
    requires WellFormed(st)
  {
    LeaderLog(st)[..Min(CommittedCount(st.highWatermark), |LeaderLog(st)|)]
  }

  // ----- the invariant -----

  /** The log contradicts no acknowledged record. */
  predicate Consistent(records: seq<Envelope>, acks: map<nat, Envelope>) {
    forall o :: o in acks && o < |records| ==> records[o] == acks[o]
  }

  /** The log holds every acknowledged record. */
  predicate Holds(records: seq<Envelope>, acks: map<nat, Envelope>) {
    forall o :: o in acks ==> Get(records, o) == Some(acks[o])
  }

  /** Nothing is acknowledged above the watermark, and the watermark itself is. */
  predicate UpToWatermark(hwm: Option<nat>, acks: map<nat, Envelope>) {
    (hwm.Some? ==> hwm.value in acks) && forall o :: o in acks ==> o < CommittedCount(hwm)
  }

  /** Each record is at its own offset, and epochs never decrease. */
  predicate InEpochOrder(acks: map<nat, Envelope>, epoch: nat) {
    && (forall o :: o in acks ==> acks[o].offset == o && acks[o].leaderEpoch <= epoch)
    && (forall i, j :: i in acks && j in acks && i <= j ==> acks[i].leaderEpoch <= acks[j].leaderEpoch)
  }

  ghost predicate SafetyInv(s: System, acks: map<nat, Envelope>) {
    && WellFormed(s.st)
    && Holds(LeaderLog(s.st), acks)
    && UpToWatermark(s.st.highWatermark, acks)
    && InEpochOrder(acks, s.st.assignment.leaderEpoch)
    && (forall n :: n in s.st.replicas && n in s.available - s.pending ==> Consistent(s.st.replicas[n].records, acks))
  }

  /** A follower write contradicts nothing acknowledged and ends with the record in place. */
  lemma ReconcileConsistent(r: Replica, e: Envelope, hwm: Option<nat>, acks: map<nat, Envelope>)
    requires UpToWatermark(hwm, acks) && Consistent(r.records, acks) && (e.offset in acks ==> acks[e.offset] == e)
    ensures var out := ReconcileAndAppend(r, e, hwm);
            out.Ok? ==> Consistent(out.value.records, acks) && Get(out.value.records, e.offset) == Some(e)
  {
  }

  /** So does the follower loop, whatever the other followers hold. */
  lemma {:induction false} ReplicateConsistent(
    replicas: map<nat, Replica>, ids: seq<nat>, e: Envelope, hwm: Option<nat>, d: Durability, acks: map<nat, Envelope>,
    n: nat)
    requires forall k :: k in ids ==> k in replicas
    requires n in replicas && Consistent(replicas[n].records, acks)
    requires UpToWatermark(hwm, acks) && (e.offset in acks ==> acks[e.offset] == e)
    requires forall i, j :: 0 <= i < j < |ids| ==> ids[i] != ids[j]
    ensures var out := Replicate(replicas, ids, e, hwm, d);
            && Consistent(out.0[n].records, acks)
            && (out.1.None? && n in ids ==> Get(out.0[n].records, e.offset) == Some(e))
  {
    if ids != [] {
      var step := ReconcileAndAppend(replicas[ids[0]], e, hwm);
      if step.Ok? {
        hide ReconcileAndAppend, UpToWatermark;
        var next := replicas[ids[0] := Flush(step.value, e, d)];
        if ids[0] == n {
          ReconcileConsistent(replicas[n], e, hwm, acks);
          assert n !in ids[1..];
        } else {
          ReplicateConsistent(next, ids[1..], e, hwm, d, acks, n);
        }
      }
    }
  }

  /** The leader's own write. */
  lemma LeaderWrite(r: Replica, e: Envelope, hwm: Option<nat>, acks: map<nat, Envelope>)
    requires Holds(r.records, acks)
    ensures var led := AppendOrValidate(r, e, hwm);
            led.Ok? ==>
              && Holds(led.value.records, acks) && Get(led.value.records, e.offset) == Some(e)
              && (e.offset in acks ==> acks[e.offset] == e)
  {
  }

  /** The state once the leader and the reachable followers have been written. */
  function Written(s: System, ev: Event): (out: (System, Option<Error>))
    requires WellFormed(s.st) && ev.Appending?
    requires AppendGuard(s.st, s.available, ev.node, ev.epoch, ev.e).None?
    requires AppendOrValidate(s.st.replicas[ev.node], ev.e, s.st.highWatermark).Ok?
    ensures WellFormed(out.0.st)
  {
    var led := AppendOrValidate(s.st.replicas[ev.node], ev.e, s.st.highWatermark).value;
    var (replicas, failure) := Replicate(
      s.st.replicas[ev.node := Flush(led, ev.e, ev.d)], SortedNats(Followers(s.st, s.available)),
      ev.e, s.st.highWatermark, ev.d);
    (s.(st := s.st.(replicas := replicas)), failure)
  }

  lemma FollowerIds(st: PartitionState, available: set<nat>)
    requires WellFormed(st)
    ensures var ids := SortedNats(Followers(st, available));
            && (forall n :: n in ids ==> n in st.replicas && n != st.assignment.leader)
            && (forall n :: n in st.replicas && n in available && n != st.assignment.leader ==> n in ids)
  {
  }

  /** The follower loop does not touch the leader. */
  lemma WrittenLeader(s: System, ev: Event)
    requires WellFormed(s.st) && ev.Appending?
    requires AppendGuard(s.st, s.available, ev.node, ev.epoch, ev.e).None?
    requires AppendOrValidate(s.st.replicas[ev.node], ev.e, s.st.highWatermark).Ok?
    ensures LeaderLog(Written(s, ev).0.st)
         == AppendOrValidate(s.st.replicas[ev.node], ev.e, s.st.highWatermark).value.records
  {
    hide Replicate, AppendOrValidate, Followers;
    FollowerIds(s.st, s.available);
  }

  /** The logs after the writes, replica by replica: nothing acknowledged is lost, and
      unless a follower failed every replica that is not catching up holds the record. */
  lemma WrittenLogs(s: System, ev: Event, acks: map<nat, Envelope>)
    requires SafetyInv(s, acks) && ev.Appending?
    requires AppendGuard(s.st, s.available, ev.node, ev.epoch, ev.e).None?
    requires AppendOrValidate(s.st.replicas[ev.node], ev.e, s.st.highWatermark).Ok?
    ensures var (written, failure) := Written(s, ev);
            && Holds(LeaderLog(written.st), acks) && Get(LeaderLog(written.st), ev.e.offset) == Some(ev.e)
            && (ev.e.offset in acks ==> acks[ev.e.offset] == ev.e)
            && (forall n :: n in s.st.replicas && n in s.available - s.pending ==>
                  && Consistent(written.st.replicas[n].records, acks)
                  && (failure.None? ==> Get(written.st.replicas[n].records, ev.e.offset) == Some(ev.e)))
  {
    LeaderWrite(s.st.replicas[ev.node], ev.e, s.st.highWatermark, acks);
    FollowerIds(s.st, s.available);
    WrittenLeader(s, ev);
    var led := Flush(AppendOrValidate(s.st.replicas[ev.node], ev.e, s.st.highWatermark).value, ev.e, ev.d);
    var replicas := s.st.replicas[ev.node := led];
    assert forall n :: n in s.st.replicas && n in s.available - s.pending ==> Consistent(replicas[n].records, acks);
    hide Replicate, AppendOrValidate, SafetyInv, Consistent, Followers, LeaderLog, AppendGuard, UpToWatermark;
    UpTo(s, acks);
    var ids := SortedNats(Followers(s.st, s.available));
    forall n | n in s.st.replicas && n in s.available - s.pending
      ensures Consistent(Written(s, ev).0.st.replicas[n].records, acks)
      ensures Written(s, ev).1.None? ==> Get(Written(s, ev).0.st.replicas[n].records, ev.e.offset) == Some(ev.e)
    {
      ReplicateConsistent(replicas, ids, ev.e, s.st.highWatermark, ev.d, acks, n);
    }
  }

  lemma UpTo(s: System, acks: map<nat, Envelope>)
    requires SafetyInv(s, acks)
    ensures UpToWatermark(s.st.highWatermark, acks)
  {
  }

  /** Moving the watermark once every replica that counts holds the new record. */
  lemma CommitKeepsInv(s: System, epoch: nat, e: Envelope, d: Durability, acks: map<nat, Envelope>)
    requires SafetyInv(s, acks) && Get(LeaderLog(s.st), e.offset) == Some(e)
    requires e.leaderEpoch == s.st.assignment.leaderEpoch && (e.offset in acks ==> acks[e.offset] == e)
    requires CommitStep(s.st, s.available, epoch, e, d).1.Ok? ==>
      s.st.highWatermark.None? || e.offset >= s.st.highWatermark.value
    requires forall n :: n in s.st.replicas && n in s.available - s.pending ==>
      Get(s.st.replicas[n].records, e.offset) == Some(e)
    ensures var step := CommitStep(s.st, s.available, epoch, e, d);
            if step.1.Ok? then SafetyInv(s.(st := step.0), acks[e.offset := e]) else step.0 == s.st
  {
    hide Matching, Flushed;
    assert InEpochOrder(acks, s.st.assignment.leaderEpoch);
  }

  lemma AppendKeepsInv(s: System, ev: Event, acks: map<nat, Envelope>)
    requires SafetyInv(s, acks) && ev.Appending? && Disciplined(s, ev)
    ensures SafetyInv(Next(s, ev), Extended(acks, s, ev))
    ensures Acknowledged(s, ev) && ev.e.offset in acks ==> acks[ev.e.offset] == ev.e
  {
    hide Replicate, AppendOrValidate, Matching, Flushed, CommitStep;
    var Appending(node, epoch, e, d) := ev;
    if AppendGuard(s.st, s.available, node, epoch, e).None? {
      if AppendOrValidate(s.st.replicas[node], e, s.st.highWatermark).Ok? {
        WrittenLogs(s, ev, acks);
        var (written, failure) := Written(s, ev);
        assert SafetyInv(written, acks);
        if failure.None? { CommitKeepsInv(written, epoch, e, d, acks); }
      }
    }
  }

  lemma CatchUpKeepsInv(s: System, node: nat, acks: map<nat, Envelope>)
    requires SafetyInv(s, acks)
    ensures SafetyInv(Next(s, CatchingUp(node)), acks)
  {
    if CatchUpStep(s.st, s.available, node).1.None? { CatchUpSucceedsIff(s, node, acks); }
  }

  lemma MayLeadConsistent(s: System, n: nat, acks: map<nat, Envelope>)
    requires SafetyInv(s, acks) && n in s.st.replicas && n in s.available && MayLead(s, n)
    ensures Consistent(s.st.replicas[n].records, acks)
  {
    if n in s.pending { CatchUpSucceedsIff(s, n, acks); }
  }

  /** A consistent candidate with the watermark record has every acknowledged record. */
  lemma PromoteKeepsInv(s: System, candidate: nat, acks: map<nat, Envelope>)
    requires SafetyInv(s, acks) && candidate in s.st.replicas && IsSafe(s.st, candidate)
    requires Consistent(s.st.replicas[candidate].records, acks)
    ensures SafetyInv(s.(st := Promote(s.st, candidate)), acks)
  {
  }

  lemma AssignKeepsInv(s: System, a: Assignment, acks: map<nat, Envelope>)
    requires SafetyInv(s, acks) && Disciplined(s, Assigning(a))
    ensures SafetyInv(Next(s, Assigning(a)), acks)
  {
    if AssignStep(s.st, a).1.None? && a.leader != s.st.assignment.leader && s.st.highWatermark.Some? {
      MayLeadConsistent(s, a.leader, acks);
    }
  }

  lemma StepKeepsInv(s: System, ev: Event, acks: map<nat, Envelope>)
    requires SafetyInv(s, acks) && Disciplined(s, ev)
    ensures SafetyInv(Next(s, ev), Extended(acks, s, ev))
  {
    match ev
    case Assigning(a) => AssignKeepsInv(s, a, acks);
    case Appending(_, _, _, _) => AppendKeepsInv(s, ev, acks);
    case CatchingUp(node) => CatchUpKeepsInv(s, node, acks);
    case Transferring(c) =>
      if TransferStep(s.st, s.available, c).1.Ok? {
        MayLeadConsistent(s, c, acks);
        PromoteKeepsInv(s, c, acks);
      }
    case Electing =>
      if Choice(s).Some? {
        assert Choice(s).value in SafeCandidates(s.st, s.available);
        MayLeadConsistent(s, Choice(s).value, acks);
        PromoteKeepsInv(s, Choice(s).value, acks);
      }
    case AvailabilityChange(nodes) =>
  }

  lemma InitialInv(s: System)
    requires Initial(s)
    ensures SafetyInv(s, map[])
  {
  }

  lemma {:induction false} RunKeepsInv(s: System, run: seq<Event>)
    requires WellFormed(s.st) && Initial(s) && DisciplinedRun(s, run)
    ensures SafetyInv(After(s, run), Acks(s, run))
  {
    hide Next, Disciplined, SafetyInv, Extended;
    if run == [] {
      InitialInv(s);
    } else {
      var before := run[..|run| - 1];
      RunKeepsInv(s, before);
      StepKeepsInv(After(s, before), run[|run| - 1], Acks(s, before));
    }
  }

  lemma {:induction false} RunPrefixDisciplined(s: System, run: seq<Event>, k: nat)
    requires WellFormed(s.st) && DisciplinedRun(s, run) && k <= |run|
    ensures DisciplinedRun(s, run[..k])
  {
    if k < |run| {
      RunPrefixDisciplined(s, run[..|run| - 1], k);
      assert run[..|run| - 1][..k] == run[..k];
    } else {
      assert run[..k] == run;
    }
  }

  /** No later acknowledgement replaces an earlier one. */
  lemma {:induction false} AcksStay(s: System, run: seq<Event>, j: nat, o: nat)
    requires WellFormed(s.st) && Initial(s) && DisciplinedRun(s, run)
    requires j <= |run| && o in Acks(s, run[..j])
    ensures o in Acks(s, run) && Acks(s, run)[o] == Acks(s, run[..j])[o]
  {
    if j < |run| {
      hide Next, Disciplined, SafetyInv, Acknowledged;
      var before := run[..|run| - 1];
      assert before[..j] == run[..j];
      AcksStay(s, before, j, o);
      RunKeepsInv(s, before);
      if Acknowledged(After(s, before), run[|run| - 1]) {
        AppendKeepsInv(After(s, before), run[|run| - 1], Acks(s, before));
      }
    } else {
      assert run[..j] == run;
    }
  }

  /** Main theorem: an acknowledged record is at its offset in the log of whoever
      leads at any later point of a disciplined run, through failed appends, tail
      truncation, catch-up, transfers, elections and reassignments. */
  lemma AcknowledgedRecordsSurvive(s: System, run: seq<Event>, i: nat, j: nat)
    requires WellFormed(s.st) && Initial(s) && DisciplinedRun(s, run)
    requires i < j <= |run| && Acknowledged(After(s, run[..i]), run[i])
    ensures Get(LeaderLog(After(s, run[..j]).st), run[i].e.offset) == Some(run[i].e)
  {
    hide Next, Disciplined, AppendStep, DisciplinedRun;
    assert run[..i + 1][..i] == run[..i] && run[..j][..i + 1] == run[..i + 1];
    RunPrefixDisciplined(s, run, j);
    AcksStay(s, run[..j], i + 1, run[i].e.offset);
    RunKeepsInv(s, run[..j]);
  }

  // ----- what the leader serves -----

  predicate Covers(acks: map<nat, Envelope>, count: nat) {
    forall o :: 0 <= o < count ==> o in acks
  }

  /** Every served record was acknowledged. */
  predicate Full(st: PartitionState, acks: map<nat, Envelope>)
    requires WellFormed(st)
  {
    Covers(acks, |CommittedRecords(st)|)
  }

  /** No acknowledged append was more than one above the watermark of its time. */
  predicate GaplessRun(s: System, run: seq<Event>)
    requires WellFormed(s.st)
  {
    run == [] ||
      (var before := run[..|run| - 1];
       GaplessRun(s, before) && InOrder(After(s, before), run[|run| - 1]))
  }

  predicate InOrder(s: System, ev: Event)
    requires WellFormed(s.st)
  {
    Acknowledged(s, ev) ==> ev.e.offset <= CommittedCount(s.st.highWatermark)
  }

  /** Every acknowledged record is served, at its offset. */
  lemma AcknowledgedAreServed(s: System, acks: map<nat, Envelope>)
    requires SafetyInv(s, acks)
    ensures Holds(CommittedRecords(s.st), acks) && |CommittedRecords(s.st)| == CommittedCount(s.st.highWatermark)
  {
    if s.st.highWatermark.Some? { assert s.st.highWatermark.value in acks; }
  }

  lemma FilledIff(hwm: Option<nat>, acks: map<nat, Envelope>, e: Envelope)
    requires UpToWatermark(hwm, acks) && (hwm.None? || e.offset >= hwm.value)
    ensures Covers(acks[e.offset := e], e.offset + 1)
       <==> Covers(acks, CommittedCount(hwm)) && e.offset <= CommittedCount(hwm)
  {
    var count, acks' := CommittedCount(hwm), acks[e.offset := e];
    assert e.offset > count ==> count !in acks';
    if Covers(acks', e.offset + 1) {
      forall o | 0 <= o < count ensures o in acks { assert o in acks'; }
    }
  }

  /** An acknowledged append at or above the watermark goes on serving acknowledged records
      only if and only if it is at most one above the watermark. */
  lemma AppendServesExactlyIff(s: System, ev: Event, acks: map<nat, Envelope>)
    requires SafetyInv(s, acks) && Acknowledged(s, ev) && Disciplined(s, ev)
    ensures Full(Next(s, ev).st, Extended(acks, s, ev))
       <==> Full(s.st, acks) && ev.e.offset <= CommittedCount(s.st.highWatermark)
  {
    hide AppendStep;
    StepKeepsInv(s, ev, acks);
    AcknowledgedAreServed(s, acks);
    AcknowledgedAreServed(Next(s, ev), Extended(acks, s, ev));
    LeaderLogGrows(s, ev);
    UpTo(s, acks);
    FilledIff(s.st.highWatermark, acks, ev.e);
    hide Next, CommittedRecords, SafetyInv, UpToWatermark, Holds, LeaderLog;
  }

  lemma OthersServeTheSame(s: System, ev: Event, acks: map<nat, Envelope>)
    requires SafetyInv(s, acks) && Disciplined(s, ev) && !Acknowledged(s, ev)
    ensures Full(Next(s, ev).st, acks) <==> Full(s.st, acks)
  {
    StepKeepsInv(s, ev, acks);
    AcknowledgedAreServed(s, acks);
    AcknowledgedAreServed(Next(s, ev), acks);
    WatermarkStays(s, ev);
    hide Next, Acknowledged, Disciplined, CommittedRecords, SafetyInv;
  }

  lemma WatermarkStays(s: System, ev: Event)
    requires WellFormed(s.st) && !Acknowledged(s, ev)
    ensures Next(s, ev).st.highWatermark == s.st.highWatermark
  {
    hide Replicate, AppendOrValidate, Matching, Flushed;
  }

  /** Exactly when a reader of `committed_records` on the leader sees the acknowledged
      records and nothing else: every acknowledged append was at most one above the
      watermark. The acknowledged records are always among the served ones, each at its
      offset, with epochs that never decrease. */
  lemma {:induction false} LeaderServesExactlyIff(s: System, run: seq<Event>)
    requires WellFormed(s.st) && Initial(s) && DisciplinedRun(s, run)
    ensures var served, acks := CommittedRecords(After(s, run).st), Acks(s, run);
            && Holds(served, acks)
            && (forall o :: o in acks ==> acks[o].offset == o)
            && (forall i, j :: i in acks && j in acks && i <= j ==> acks[i].leaderEpoch <= acks[j].leaderEpoch)
            && (Full(After(s, run).st, acks) <==> GaplessRun(s, run))
  {
    RunKeepsInv(s, run);
    AcknowledgedAreServed(After(s, run), Acks(s, run));
    if run != [] {
      hide Next, Acknowledged, Disciplined, CommittedRecords, Extended, Full;
      var before, last := run[..|run| - 1], run[|run| - 1];
      RunKeepsInv(s, before);
      LeaderServesExactlyIff(s, before);
      hide SafetyInv;
      if Acknowledged(After(s, before), last) { AppendServesExactlyIff(After(s, before), last, Acks(s, before)); }
      else { OthersServeTheSame(After(s, before), last, Acks(s, before)); }
    }
  }

  lemma ServedInOrder(served: seq<Envelope>, acks: map<nat, Envelope>)
    requires Holds(served, acks) && (forall o :: o in acks ==> acks[o].offset == o)
    requires forall i, j :: i in acks && j in acks && i <= j ==> acks[i].leaderEpoch <= acks[j].leaderEpoch
    requires Covers(acks, |served|)
    ensures acks == (map o | 0 <= o < |served| :: served[o])
    ensures forall i :: 0 <= i < |served| ==> served[i].offset == i
    ensures forall i, j :: 0 <= i <= j < |served| ==> served[i].leaderEpoch <= served[j].leaderEpoch
  {
    forall i | 0 <= i < |served| ensures served[i] == acks[i] { assert Get(served, i) == Some(acks[i]); }
  }

  /** A reader of `committed_records` on the leader then sees exactly the acknowledged
      records, each once, in offset order, with epochs that never decrease. */
  lemma LeaderServesExactlyAcknowledged(s: System, run: seq<Event>)
    requires WellFormed(s.st) && Initial(s) && DisciplinedRun(s, run) && GaplessRun(s, run)
    ensures var served, acks := CommittedRecords(After(s, run).st), Acks(s, run);
            && acks == (map o | 0 <= o < |served| :: served[o])
            && (forall i :: 0 <= i < |served| ==> served[i].offset == i)
            && (forall i, j :: 0 <= i <= j < |served| ==> served[i].leaderEpoch <= served[j].leaderEpoch)
  {
    LeaderServesExactlyIff(s, run);
    hide Covers, Holds, CommittedRecords, DisciplinedRun, GaplessRun, After, Acks;
    ServedInOrder(CommittedRecords(After(s, run).st), Acks(s, run));
  }

  // ----- exact conditions -----

  /** `catch_up` succeeds if and only if the replica's log agrees with what the leader
      serves; then the replica holds that and nothing else, every acknowledged record
      included, and contradicted none before. */
  lemma CatchUpSucceedsIff(s: System, node: nat, acks: map<nat, Envelope>)
    requires SafetyInv(s, acks) && node in s.st.replicas && node in s.available
    ensures var (st, failure) := CatchUpStep(s.st, s.available, node);
            && (failure.None? <==> Agree(s.st.replicas[node].records, CommittedRecords(s.st)))
            && (failure.None? ==>
                  && st.replicas[node].records == CommittedRecords(s.st)
                  && Consistent(s.st.replicas[node].records, acks) && Holds(st.replicas[node].records, acks))
  {
    AcknowledgedAreServed(s, acks);
  }

  /** The candidate check alone is not enough: an accepted transfer hands over every record
      the leader serves if and only if `catch_up` of the candidate would have succeeded
      first. Where only acknowledged records are served, the same decides about them. */
  lemma TransferKeepsLogIffCatchUpSucceeds(s: System, candidate: nat, acks: map<nat, Envelope>)
    requires SafetyInv(s, acks) && TransferStep(s.st, s.available, candidate).1.Ok?
    ensures CommittedRecords(s.st) <= LeaderLog(TransferStep(s.st, s.available, candidate).0)
       <==> CatchUpStep(s.st, s.available, candidate).1.None?
    ensures Full(s.st, acks) ==>
              (Holds(LeaderLog(TransferStep(s.st, s.available, candidate).0), acks)
               <==> CatchUpStep(s.st, s.available, candidate).1.None?)
  {
    AcknowledgedAreServed(s, acks);
    var served, log := CommittedRecords(s.st), s.st.replicas[candidate].records;
    if Full(s.st, acks) { HoldsIffPrefix(served, acks, log); }
    if Agree(log, served) { assert served == log[..|served|]; }
  }

  lemma HoldsIffPrefix(served: seq<Envelope>, acks: map<nat, Envelope>, log: seq<Envelope>)
    requires Holds(served, acks) && Covers(acks, |served|)
    ensures Holds(log, acks) <==> served <= log
  {
    if Holds(log, acks) {
      assert forall o :: 0 <= o < |served| ==> Get(log, o) == Some(served[o]);
      if served != [] { assert Get(log, |served| - 1).Some?; }
    }
  }

  /** A reassignment keeps the served records exactly when the new leader was already a
      replica, passes the candidate check and agrees with them (what `catch_up` tests). */
  lemma AssignKeepsLogIff(s: System, a: Assignment, acks: map<nat, Envelope>)
    requires SafetyInv(s, acks) && AssignStep(s.st, a).1.None?
    ensures var fit := s.st.highWatermark.None?
                       || (a.leader in s.st.replicas && IsSafe(s.st, a.leader)
                           && Agree(s.st.replicas[a.leader].records, CommittedRecords(s.st)));
            && (CommittedRecords(s.st) <= LeaderLog(AssignStep(s.st, a).0) <==> fit)
            && (Full(s.st, acks) ==> (Holds(LeaderLog(AssignStep(s.st, a).0), acks) <==> fit))
  {
    AcknowledgedAreServed(s, acks);
    var served, log := CommittedRecords(s.st), LeaderLog(AssignStep(s.st, a).0);
    if Full(s.st, acks) { HoldsIffPrefix(served, acks, log); }
    if |served| <= |log| && Agree(log, served) { assert served == log[..|served|]; }
  }

  /** The code appends wherever the leader's log allows. An acknowledged append goes on
      serving every acknowledged record if and only if its offset is not below the
      watermark. */
  lemma AppendKeepsLogIff(s: System, ev: Event, acks: map<nat, Envelope>)
    requires SafetyInv(s, acks) && Acknowledged(s, ev)
    ensures Holds(CommittedRecords(Next(s, ev).st), acks)
       <==> s.st.highWatermark.None? || ev.e.offset >= s.st.highWatermark.value
  {
    LeaderLogGrows(s, ev);
    hide AppendStep, Matching;
    var before, after := LeaderLog(s.st), LeaderLog(Next(s, ev).st);
    if s.st.highWatermark.Some? { assert s.st.highWatermark.value in acks; }
    assert before == after[..|before|];
  }

  lemma LeaderLogGrows(s: System, ev: Event)
    requires WellFormed(s.st) && Acknowledged(s, ev)
    ensures var st := Next(s, ev).st;
            && LeaderLog(s.st) <= LeaderLog(st) && st.highWatermark == Some(ev.e.offset)
            && ev.e.offset < |LeaderLog(st)|
  {
    LeaderWriteGrows(s.st.replicas[ev.node], ev.e, s.st.highWatermark);
    WrittenLeader(s, ev);
    hide Replicate, Matching, Flushed, AppendOrValidate;
    assert Next(s, ev).st == CommitStep(Written(s, ev).0.st, s.available, ev.epoch, ev.e, ev.d).0;
  }

  lemma LeaderWriteGrows(r: Replica, e: Envelope, hwm: Option<nat>)
    ensures var led := AppendOrValidate(r, e, hwm);
            led.Ok? ==> r.records <= led.value.records && e.offset < |led.value.records|
  {
  }

  /** An election keeps the served records if and only if `catch_up` of the replica it
      chooses would have succeeded first. */
  lemma ElectKeepsLogIff(s: System, acks: map<nat, Envelope>)
    requires SafetyInv(s, acks) && Choice(s).Some?
    ensures ElectStep(s.st, s.available).1.Ok?
    ensures var fit := CatchUpStep(s.st, s.available, Choice(s).value).1.None?;
            && (CommittedRecords(s.st) <= LeaderLog(ElectStep(s.st, s.available).0) <==> fit)
            && (Full(s.st, acks) ==> (Holds(LeaderLog(ElectStep(s.st, s.available).0), acks) <==> fit))
  {
    hide CatchUpStep;
    assert Choice(s).value in SafeCandidates(s.st, s.available);
    TransferKeepsLogIffCatchUpSucceeds(s, Choice(s).value, acks);
  }
}
