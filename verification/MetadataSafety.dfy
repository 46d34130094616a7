/** What every command sequence keeps in the metadata state machine
    (crates/server/src/raft.rs): one leader per epoch and one commit per offset. */
module MetadataSafety {
  import opened Common
  import opened Metadata

  function After(run: seq<Command>): State {
    if run == [] then EMPTY else Apply(After(run[..|run| - 1]), run[|run| - 1]).0
  }

  function ResponseAt(run: seq<Command>, i: nat): Response
    requires i < |run|
  {
    Apply(After(run[..i]), run[i]).1
  }

  lemma AfterStep(run: seq<Command>, i: nat)
    requires i < |run|
    ensures After(run[..i + 1]) == Apply(After(run[..i]), run[i]).0
  {
    assert run[..i + 1][..i] == run[..i];
  }

  // ----- leadership -----

  /** How one assignment may change: epochs and generations only grow, and the leader of
      an epoch is fixed as long as the epoch counter has room to grow. */
  predicate Evolves(a: Assignment, b: Assignment) {
    && a.leaderEpoch <= b.leaderEpoch
    && a.generation <= b.generation
    && (a.leaderEpoch == b.leaderEpoch < U64_MAX ==> a.leader == b.leader)
  }

  ghost predicate Forward(s: State, s': State) {
    forall k :: k in s.assignments ==> k in s'.assignments && Evolves(s.assignments[k], s'.assignments[k])
  }

  /** What the proposers of commands guarantee: a bootstrap or an expansion that names an
      existing partition respects its history, and a bootstrap forgets none. */
  predicate KeepsHistory(s: State, c: Command) {
    match c
    case MetadataBootstrap(_, assignments) =>
      s.streams == map[] ==>
        forall k :: k in s.assignments ==> k in assignments && Evolves(s.assignments[k], Normalize(assignments[k]))
    case StreamPartitionsUpdate(_, assignments) =>
      ExpansionAllowed(s, c) ==>
        forall k :: k in s.assignments && k in assignments ==> Evolves(s.assignments[k], Normalize(assignments[k]))
    case _ => true
  }

  /** Leader updates, reconfigurations and commits always move assignments forward. A
      bootstrap or an expansion does so if and only if it respects their history. */
  lemma StepForwardIff(s: State, c: Command)
    ensures Forward(s, Apply(s, c).0) <==> KeepsHistory(s, c)
  {
    match c
    case StreamPartitionsUpdate(_, assignments) => ExpansionForwardIff(s, c);
    case _ =>
  }

  lemma ExpansionForwardIff(s: State, c: Command)
    requires c.StreamPartitionsUpdate?
    ensures Forward(s, Apply(s, c).0) <==> KeepsHistory(s, c)
  {
    if ExpansionAllowed(s, c) {
      var s' := Apply(s, c).0;
      forall k | k in s.assignments
        ensures k in s'.assignments
        ensures s'.assignments[k] == Normalize(if k in c.assignments then c.assignments[k] else s.assignments[k])
      {
      }
      hide ExpansionAllowed, Apply;
    }
  }

  predicate HistoryRun(run: seq<Command>) {
    run == [] ||
      (var before := run[..|run| - 1]; HistoryRun(before) && KeepsHistory(After(before), run[|run| - 1]))
  }

  lemma {:induction false} HistoryStep(run: seq<Command>, i: nat)
    requires HistoryRun(run) && i < |run|
    ensures KeepsHistory(After(run[..i]), run[i])
  {
    hide Apply, KeepsHistory;
    if i < |run| - 1 {
      HistoryStep(run[..|run| - 1], i);
      assert run[..|run| - 1][..i] == run[..i];
    }
  }

  lemma {:induction false} AssignmentsEvolve(run: seq<Command>, i: nat, j: nat, key: Key)
    requires HistoryRun(run) && i <= j <= |run| && key in After(run[..i]).assignments
    ensures key in After(run[..j]).assignments
    ensures Evolves(After(run[..i]).assignments[key], After(run[..j]).assignments[key])
  {
    hide Apply, KeepsHistory;
    if i < j {
      AssignmentsEvolve(run, i, j - 1, key);
      AfterStep(run, j - 1);
      HistoryStep(run, j - 1);
      StepForwardIff(After(run[..j - 1]), run[j - 1]);
    }
  }

  /** Main theorem on leadership. Through every leader update and reconfiguration of a
      partition, its epoch and replica-set generation never decrease, and two moments with
      the same epoch (below the saturation point) have the same leader. */
  lemma OneLeaderPerEpoch(run: seq<Command>, i: nat, j: nat, key: Key)
    requires HistoryRun(run) && i <= j <= |run| && key in After(run[..i]).assignments
    ensures key in After(run[..j]).assignments
    ensures var a, b := After(run[..i]).assignments[key], After(run[..j]).assignments[key];
            && a.leaderEpoch <= b.leaderEpoch && a.generation <= b.generation
            && (a.leaderEpoch == b.leaderEpoch < U64_MAX ==> a.leader == b.leader)
  {
    AssignmentsEvolve(run, i, j, key);
  }

  /** The leader is in a non-empty commit set inside the replica set. */
  predicate Usable(a: Assignment) {
    a.active != {} && a.active <= a.replicas && a.leader in a.active
  }

  /** The command names only assignments that are usable once the defaults are filled in. */
  predicate UsableCommand(c: Command) {
    c.MetadataBootstrap? || c.StreamPartitionsUpdate? ==>
      forall k :: k in c.assignments ==> Usable(Normalize(c.assignments[k]))
  }

  ghost predicate AllUsable(s: State) {
    forall k :: k in s.assignments ==> Usable(s.assignments[k])
  }

  lemma StepKeepsUsable(s: State, c: Command)
    requires AllUsable(s) && UsableCommand(c)
    ensures AllUsable(Apply(s, c).0)
  {
  }

  /** At every moment of any run whose commands name usable assignments, the leader is in a
      non-empty commit set inside the replica set. */
  lemma {:induction false} LeaderIsActive(run: seq<Command>)
    requires forall i :: 0 <= i < |run| ==> UsableCommand(run[i])
    ensures AllUsable(After(run))
  {
    hide Apply, UsableCommand, Usable;
    if run != [] {
      LeaderIsActive(run[..|run| - 1]);
      StepKeepsUsable(After(run[..|run| - 1]), run[|run| - 1]);
    }
  }

  /** Exactly where leadership stops being unique: an accepted leader update changes the
      leader without raising the epoch if and only if the epoch is saturated. */
  lemma LeaderUniqueIffEpochBelowMax(s: State, c: Command)
    requires c.PartitionLeaderUpdate? && c.key in s.assignments
    requires s.assignments[c.key].leader != c.leader && Apply(s, c).1.LeaderUpdated?
    ensures Apply(s, c).0.assignments[c.key].leaderEpoch == s.assignments[c.key].leaderEpoch
       <==> s.assignments[c.key].leaderEpoch >= U64_MAX
    ensures Apply(s, c).0.assignments[c.key].leader == c.leader
  {
  }

  /** Exactly where an expansion rewrites history. The code overwrites whatever assignments
      the command names: an accepted expansion keeps an existing partition's epoch,
      generation and leader in order if and only if the command's own entry for it does. */
  lemma ExpansionKeepsHistoryIff(s: State, c: Command, key: Key)
    requires c.StreamPartitionsUpdate? && ExpansionAllowed(s, c)
    requires key in s.assignments && key in c.assignments
    ensures Evolves(s.assignments[key], Apply(s, c).0.assignments[key])
       <==> var a, named := s.assignments[key], c.assignments[key];
            && a.leaderEpoch <= named.leaderEpoch
            && (a.generation <= named.generation || a.generation == 1)
            && (a.leaderEpoch == named.leaderEpoch < U64_MAX ==> a.leader == named.leader)
  {
  }

  /** And it can: growing "orders" to two partitions while renaming the leader of partition
      0 is applied, and epoch 1 then has had two leaders. */
  lemma ExpansionCanForkAnEpoch()
    ensures var key := ("orders", 0);
            var first := Assignment({1, 2}, {1, 2}, 1, Stable, 1, 1);
            var s := Apply(EMPTY, MetadataBootstrap([StreamDefinition("orders", 1, 1)], map[key := first])).0;
            var (t, r) := Apply(s,
              StreamPartitionsUpdate(StreamDefinition("orders", 2, 2), map[key := first.(leader := 2)]));
            && r == Expanded && key in s.assignments && key in t.assignments
            && s.assignments[key].leaderEpoch == t.assignments[key].leaderEpoch
            && s.assignments[key].leader != t.assignments[key].leader
  {
  }

  // ----- the commit log of one partition -----

  /** The bookkeeping of one partition: the next offset follows the watermark. */
  predicate Bookkept(s: State, k: Key) {
    if k !in s.commits then NextOffset(s, k) == 0
    else s.commits[k].highWatermark <= U64_MAX && NextOffset(s, k) == SatInc(s.commits[k].highWatermark)
  }

  /** The recorded commit is not from the future of the assignment. */
  predicate NotAhead(s: State, k: Key) {
    k in s.commits ==>
      && k in s.assignments
      && s.commits[k].leaderEpoch <= s.assignments[k].leaderEpoch
      && s.commits[k].generation <= s.assignments[k].generation
  }

  datatype Entry = Entry(checksum: nat, leader: nat, leaderEpoch: nat)

  predicate Acked(run: seq<Command>, i: nat, key: Key)
    requires i < |run|
  {
    run[i].PartitionCommit? && run[i].key == key && ResponseAt(run, i).CommitApplied?
  }

  function EntryOf(c: Command): Entry
    requires c.PartitionCommit?
  {
    Entry(c.checksum, c.leader, c.leaderEpoch)
  }

  predicate Accepts(s: State, c: Command, key: Key) {
    c.PartitionCommit? && c.key == key && Apply(s, c).1.CommitApplied?
  }

  /** One more acknowledged offset, if the command acknowledges the next one. */
  function Extend(log: seq<Entry>, s: State, c: Command, key: Key): seq<Entry> {
    if Accepts(s, c, key) && c.offset == |log| then log + [EntryOf(c)] else log
  }

  /** The acknowledged commits of a partition, read off the responses of the run. */
  function CommitLog(run: seq<Command>, key: Key): seq<Entry> {
    if run == [] then []
    else
      var before := run[..|run| - 1];
      Extend(CommitLog(before, key), After(before), run[|run| - 1], key)
  }

  ghost predicate LogInv(s: State, log: seq<Entry>, key: Key) {
    && (key !in s.commits ==> log == [])
    && (key in s.commits ==>
          && |log| == s.commits[key].highWatermark + 1
          && (s.commits[key].highWatermark < U64_MAX ==>
                var last := s.commits[key];
                log[|log| - 1] == Entry(last.checksum, last.leader, last.leaderEpoch)))
  }

  /** Any command against the commit log: an acknowledgement is of the watermark after
      the command, and below the saturation point it carries the logged entry. */
  lemma StepKeepsLog(s: State, c: Command, log: seq<Entry>, key: Key)
    requires Bookkept(s, key) && LogInv(s, log, key)
    ensures Bookkept(Apply(s, c).0, key)
    ensures var log' := Extend(log, s, c, key);
            && LogInv(Apply(s, c).0, log', key)
            && (Accepts(s, c, key) ==>
                  && |log'| == c.offset + 1
                  && (c.offset < U64_MAX ==> log'[c.offset] == EntryOf(c))
                  && NextOffset(Apply(s, c).0, key) == SatInc(c.offset)
                  && key in s.assignments && c.leaderEpoch == s.assignments[key].leaderEpoch)
  {
  }

  /** The recorded commit epoch never goes back, whatever happens to the assignment. */
  lemma StepKeepsCommitEpoch(s: State, c: Command, key: Key)
    ensures key in s.commits ==>
              key in Apply(s, c).0.commits && s.commits[key].leaderEpoch <= Apply(s, c).0.commits[key].leaderEpoch
    ensures Accepts(s, c, key) ==>
      key in Apply(s, c).0.commits && Apply(s, c).0.commits[key].leaderEpoch == c.leaderEpoch
  {
  }

  lemma {:induction false} RunKeepsLog(run: seq<Command>, key: Key)
    ensures Bookkept(After(run), key) && LogInv(After(run), CommitLog(run, key), key)
  {
    hide Apply;
    if run != [] {
      var before := run[..|run| - 1];
      RunKeepsLog(before, key);
      StepKeepsLog(After(before), run[|run| - 1], CommitLog(before, key), key);
    }
  }

  lemma {:induction false} CommitEpochGrows(run: seq<Command>, i: nat, j: nat, key: Key)
    requires i <= j <= |run| && key in After(run[..i]).commits
    ensures key in After(run[..j]).commits
    ensures After(run[..i]).commits[key].leaderEpoch <= After(run[..j]).commits[key].leaderEpoch
  {
    hide Apply;
    if i < j {
      CommitEpochGrows(run, i, j - 1, key);
      AfterStep(run, j - 1);
      StepKeepsCommitEpoch(After(run[..j - 1]), run[j - 1], key);
    }
  }

  lemma AckIsLogged(run: seq<Command>, i: nat, key: Key)
    requires i < |run| && Acked(run, i, key)
    ensures var log := CommitLog(run[..i + 1], key);
            && |log| == run[i].offset + 1
            && (run[i].offset < U64_MAX ==> log[run[i].offset] == EntryOf(run[i]))
            && NextOffset(After(run[..i + 1]), key) == SatInc(run[i].offset)
            && key in After(run[..i + 1]).commits
            && After(run[..i + 1]).commits[key].leaderEpoch == run[i].leaderEpoch
  {
    hide Apply;
    AfterStep(run, i);
    RunKeepsLog(run[..i], key);
    StepKeepsLog(After(run[..i]), run[i], CommitLog(run[..i], key), key);
    StepKeepsCommitEpoch(After(run[..i]), run[i], key);
    assert run[..i + 1][..i] == run[..i];
  }

  lemma {:induction false} CommitLogGrows(run: seq<Command>, i: nat, key: Key)
    requires i <= |run|
    ensures CommitLog(run[..i], key) <= CommitLog(run, key)
  {
    hide Apply;
    if i < |run| {
      CommitLogGrows(run[..|run| - 1], i, key);
      assert run[..|run| - 1][..i] == run[..i];
    } else {
      assert run[..i] == run;
    }
  }

  /** Main theorem on commits, for any two acknowledged commits of a partition in any
      sequence of commands, those that fork an epoch included: offsets and leader epochs
      never go back, the next offset is the watermark plus one, and the same offset is
      never acknowledged with two checksums, leaders or epochs. */
  lemma CommitsAgree(run: seq<Command>, i: nat, j: nat, key: Key)
    requires i <= j < |run| && Acked(run, i, key) && Acked(run, j, key)
    ensures run[i].offset <= run[j].offset
    ensures run[i].leaderEpoch <= run[j].leaderEpoch
    ensures run[i].offset == run[j].offset < U64_MAX ==> EntryOf(run[i]) == EntryOf(run[j])
    ensures NextOffset(After(run[..j + 1]), key) == SatInc(run[j].offset)
  {
    hide Apply;
    AckIsLogged(run, i, key);
    AckIsLogged(run, j, key);
    CommitLogGrows(run[..j + 1], i + 1, key);
    assert run[..j + 1][..i + 1] == run[..i + 1];
    CommitEpochGrows(run, i + 1, j + 1, key);
  }

  lemma {:induction false} LogComesFromAcks(run: seq<Command>, key: Key, o: nat)
    requires o < |CommitLog(run, key)|
    ensures exists h :: 0 <= h < |run| && Acked(run, h, key) && run[h].offset == o
  {
    hide Apply;
    if run != [] {
      var before := run[..|run| - 1];
      if o < |CommitLog(before, key)| {
        LogComesFromAcks(before, key, o);
        var h :| 0 <= h < |before| && Acked(before, h, key) && before[h].offset == o;
        assert before[..h] == run[..h];
        assert Acked(run, h, key);
      } else {
        assert Acked(run, |run| - 1, key);
      }
    }
  }

  /** No gap: before an offset is acknowledged every smaller offset was. */
  lemma CommitsHaveNoGap(run: seq<Command>, i: nat, key: Key, o: nat)
    requires i < |run| && Acked(run, i, key) && o < run[i].offset
    ensures exists h :: 0 <= h < i && Acked(run, h, key) && run[h].offset == o
  {
    hide Apply;
    AckIsLogged(run, i, key);
    var upto := run[..i + 1];
    LogComesFromAcks(upto, key, o);
    var h :| 0 <= h < |upto| && Acked(upto, h, key) && upto[h].offset == o;
    assert upto[..h] == run[..h];
    assert Acked(run, h, key);
  }

  /** Exactly where one checksum per offset stops: a well-placed commit at the current
      watermark that differs from the recorded one is acknowledged if and only if the
      watermark is the last u64 and its epoch is not older. */
  lemma OneChecksumIffOffsetBelowMax(s: State, c: Command)
    requires c.PartitionCommit? && c.key in s.assignments && c.key in s.commits && Bookkept(s, c.key)
    requires MayCommit(s.assignments[c.key], c.leader, c.leaderEpoch)
    requires c.offset == s.commits[c.key].highWatermark && c.checksum != s.commits[c.key].checksum
    ensures Apply(s, c).1.CommitApplied? <==> c.offset == U64_MAX && s.commits[c.key].leaderEpoch <= c.leaderEpoch
    ensures NotAhead(s, c.key) ==> (Apply(s, c).1.CommitApplied? <==> c.offset == U64_MAX)
  {
  }

  lemma StepKeepsBehind(s: State, c: Command, key: Key)
    requires NotAhead(s, key) && KeepsHistory(s, c)
    ensures NotAhead(Apply(s, c).0, key)
  {
    StepForwardIff(s, c);
    if c.PartitionCommit? {
    } else {
      SameCommits(s, c);
      hide Apply;
    }
  }

  lemma SameCommits(s: State, c: Command)
    requires !c.PartitionCommit?
    ensures Apply(s, c).0.commits == s.commits
  {
  }

  /** In every run that respects history no recorded commit is ahead of its assignment. */
  lemma {:induction false} CommitsStayBehind(run: seq<Command>, key: Key)
    requires HistoryRun(run)
    ensures NotAhead(After(run), key)
  {
    hide Apply, KeepsHistory, NotAhead;
    if run == [] {
      NothingAhead(key);
    } else {
      CommitsStayBehind(run[..|run| - 1], key);
      StepKeepsBehind(After(run[..|run| - 1]), run[|run| - 1], key);
    }
  }

  lemma NothingAhead(key: Key)
    ensures NotAhead(EMPTY, key)
  {
  }
}
