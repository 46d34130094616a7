/** What the transaction coordinator keeps over whole runs with crashes and reopening
    (crates/server/src/transaction.rs): the memory is the replay of the files, fencing and
    quotas hold, finished transactions keep their outcome, and a committed batch is exactly
    what was accepted. */
module TransactionRuns {
  import opened Common
  import opened Transactions
  import opened TransactionJournal
  import opened TransactionPhases

  // ----- crashes -----

  /** The files when a crash hits a journalling step and the first `kept` journal entries
      are on disk, the checkpoint not yet renamed; and the coordinator reopened on them. */
  function Crashed(p: Phase, kept: nat): Result<Coordinator, Error>
    requires kept <= |p.base.journal + p.deltas|
  {
    Reopen(p.base.limits, p.base.checkpoint, (p.base.journal + p.deltas)[..kept])
  }

  lemma PhaseJournal(p: Phase, l: Limits)
    requires PhaseOk(p, l) && p.base.durable
    ensures GoodJournal(p.base.checkpoint, p.base.journal + p.deltas, l)
    ensures Replay(p.base.checkpoint, p.base.journal + p.deltas) == Some(p.after)
  {
    hide Good, GoodJournal, Replay;
    JournalConcat(p.base.checkpoint, p.base.journal, p.deltas, l);
  }

  lemma CrashIsGood(p: Phase, kept: nat, l: Limits)
    requires PhaseOk(p, l) && p.base.durable && kept <= |p.base.journal + p.deltas|
    ensures Crashed(p, kept).Ok? && Inv(Crashed(p, kept).value)
    ensures Crashed(p, kept).value.limits == l && Crashed(p, kept).value.durable
  {
    hide Good, GoodJournal, Replay;
    PhaseJournal(p, l);
    JournalPrefix(p.base.checkpoint, p.base.journal + p.deltas, kept, l);
    GoodJournalReplays(p.base.checkpoint, (p.base.journal + p.deltas)[..kept], l);
  }

  /** A crash that loses nothing synced leaves the step done in part. */
  lemma SyncedCrash(p: Phase, kept: nat, l: Limits)
    requires PhaseOk(p, l) && p.base.durable && |p.base.journal| <= kept <= |p.base.journal + p.deltas|
    ensures var done := p.deltas[..kept - |p.base.journal|];
            && GoodJournal(p.base.state, done, l) && Crashed(p, kept).Ok?
            && Replay(p.base.state, done) == Some(Crashed(p, kept).value.state)
  {
    hide Good, GoodJournal, Replay;
    var done := p.deltas[..kept - |p.base.journal|];
    CrashIsGood(p, kept, l);
    JournalPrefix(p.base.state, p.deltas, |done|, l);
    JournalConcat(p.base.checkpoint, p.base.journal, done, l);
    assert (p.base.journal + p.deltas)[..kept] == p.base.journal + done;
  }

  // ----- what happens to each transaction -----

  /** What a transaction carries. */
  datatype Contents = Contents(writes: seq<Write>, offsets: seq<OffsetCommit>, views: seq<ViewMutation>)

  const NOTHING := Contents([], [], [])

  function ContentsOf(r: Record): Contents { Contents(r.writes, r.offsets, r.views) }

  /** What an operation that took effect adds to transaction `id`. */
  function Grow(k: Contents, took: Option<Op>, id: string): Contents {
    match took
    case Some(DoAppend(i, w, _)) => if i == id then k.(writes := k.writes + [w]) else k
    case Some(DoOffset(i, o, _)) => if i == id then k.(offsets := k.offsets + [o]) else k
    case Some(DoView(i, v, _)) => if i == id then k.(views := k.views + [v]) else k
    case _ => k
  }

  /** One stored transaction before and after. */
  predicate Tracks(r: Record, r': Record, took: Option<Op>) {
    && (!Live(r) ==> r' == r)
    && ContentsOf(r') == Grow(ContentsOf(r), took, r.id)
    && r'.producer == r.producer && r'.epoch == r.epoch && r'.id == r.id
  }

  predicate Begins(took: Option<Op>, id: string) { took.Some? && took.value.DoBegin? && took.value.id == id }

  /** Every transaction present afterwards was there before and is tracked, or was just
      begun and is empty. */
  ghost predicate Follows(s: State, s': State, took: Option<Op>) {
    forall id :: id in s'.transactions ==>
      if id in s.transactions then Tracks(s.transactions[id], s'.transactions[id], took)
      else Begins(took, id) && ContentsOf(s'.transactions[id]) == NOTHING
  }

  /** Dropping finished transactions afterwards changes nothing that is tracked. */
  lemma TrimmedFollows(s: State, t: State, s': State, took: Option<Op>)
    requires Follows(s, t, took) && Trimmed(s', t)
    ensures Follows(s, s', took)
  {
    hide Tracks, ContentsOf;
  }

  lemma QuietThenFollows(s: State, t: State, s': State, took: Option<Op>)
    requires Follows(s, t, None) && Follows(t, s', took)
    requires forall id :: Begins(took, id) ==> id !in s.transactions
    ensures Follows(s, s', took)
  {
    hide Tracks, ContentsOf;
    forall id | id in s'.transactions && id in t.transactions
      ensures id in s.transactions && Tracks(s.transactions[id], s'.transactions[id], took)
    {
      QuietTracks(s.transactions[id], t.transactions[id], s'.transactions[id], took);
    }
  }

  lemma QuietTracks(r: Record, t: Record, r': Record, took: Option<Op>)
    requires Tracks(r, t, None) && Tracks(t, r', took)
    ensures Tracks(r, r', took)
  {
  }

  /** A delta that neither begins a transaction nor adds to one. */
  predicate Quiet(d: Delta) { d.StatusDelta? || d.ProducerEpoch? }

  lemma QuietStep(s: State, d: Delta, l: Limits)
    requires Admissible(s, d, l) && Quiet(d) && ApplyDelta(s, d).Some?
    ensures Follows(s, ApplyDelta(s, d).value, None)
  {
  }

  lemma {:induction false} QuietFollows(s: State, ds: seq<Delta>, l: Limits)
    requires GoodJournal(s, ds, l) && forall d :: d in ds ==> Quiet(d)
    ensures Replay(s, ds).Some? && Follows(s, Replay(s, ds).value, None)
  {
    GoodJournalReplays(s, ds, l);
    if ds != [] {
      hide Admissible, ApplyDelta, Good, Follows;
      var front := ds[..|ds| - 1];
      QuietFollows(s, front, l);
      assert ds[|ds| - 1] in ds;
      QuietStep(Replay(s, front).value, ds[|ds| - 1], l);
      QuietThenFollows(s, Replay(s, front).value, Replay(s, ds).value, None);
    }
  }

  lemma {:induction false} StatusDeltasAreQuiet(s: State, ids: seq<string>)
    requires forall id :: id in ids ==> id in s.transactions
    ensures forall d :: d in StatusDeltas(s, ids) ==> Quiet(d)
  {
    if ids != [] { StatusDeltasAreQuiet(s, ids[..|ids| - 1]); }
  }

  /** The operation whose delta grows or begins a transaction, with that delta. */
  predicate Adds(op: Op, d: Delta, limits: Limits) {
    match op
    case DoBegin(id, tenant, producer, epoch, now) =>
      d == Begin(Record(id, tenant, producer, epoch, now, SatAdd(now, limits.maxDuration), Open, [], [], []))
    case DoAppend(id, w, _) => d == WriteDelta(id, w)
    case DoOffset(id, o, _) => d == OffsetDelta(id, o)
    case DoView(id, v, _) => d == ViewDelta(id, v)
    case _ => false
  }

  lemma AddingFollows(s: State, op: Op, d: Delta, l: Limits)
    requires Good(s, l) && Admissible(s, d, l) && Adds(op, d, l) && ApplyDelta(s, d).Some?
    ensures Follows(s, ApplyDelta(s, d).value, Some(op))
  {
    hide RecordOk, LiveIds;
    forall id | id in s.transactions ensures s.transactions[id].id == id { IdMatches(s, id, l); }
  }

  // ----- events -----

  /** An operation, or a crash and reopening: during a journalling step of an operation, or
      with none in progress. */
  datatype Event = Do(op: Op) | Crash(during: Option<Op>, phase: nat, kept: nat)

  /** The journalling steps a crash may hit. */
  function CrashSites(c: Coordinator, during: Option<Op>): seq<Phase> {
    if during.Some? then Phases(c, during.value) else [Phase(c, c.state, [])]
  }

  predicate Possible(c: Coordinator, ev: Event) {
    ev.Crash? ==>
      && c.durable && ev.phase < |CrashSites(c, ev.during)|
      && var p := CrashSites(c, ev.during)[ev.phase]; ev.kept <= |p.base.journal + p.deltas|
  }

  /** What earlier steps synced to disk survives the crash. */
  predicate Synced(c: Coordinator, ev: Event)
    requires Possible(c, ev)
  {
    ev.Crash? ==> |CrashSites(c, ev.during)[ev.phase].base.journal| <= ev.kept
  }

  function Next(c: Coordinator, ev: Event): Coordinator
    requires Possible(c, ev)
  {
    match ev
    case Do(op) => Apply(c, op).0
    case Crash(during, phase, kept) =>
      var r := Crashed(CrashSites(c, during)[phase], kept);
      if r.Ok? then r.value else c
  }

  /** The operation that added to a transaction or began one: accepted, or interrupted after
      its delta had reached the disk. */
  function Took(c: Coordinator, ev: Event): Option<Op>
    requires Possible(c, ev)
  {
    match ev
    case Do(op) =>
      if Apply(c, op).1 == Done && (op.DoBegin? || op.DoAppend? || op.DoOffset? || op.DoView?) then Some(op) else None
    case Crash(during, phase, kept) =>
      var p := CrashSites(c, during)[phase];
      if during.Some? && kept == |p.base.journal + p.deltas| then Effect(p, during.value) else None
  }

  /** Whether a whole journalling step adds to a transaction or begins one. */
  function Effect(p: Phase, op: Op): Option<Op> {
    if |p.deltas| == 1 && !Quiet(p.deltas[0]) then Some(op) else None
  }

  lemma SitesOk(c: Coordinator, during: Option<Op>)
    requires Inv(c)
    ensures forall p :: p in CrashSites(c, during) ==> PhaseOk(p, c.limits) && p.base.durable == c.durable
  {
    hide Phases, Good, GoodJournal;
    if during.Some? { PhasesOk(c, during.value); } else { NothingJournalled(c); }
  }

  lemma NothingJournalled(c: Coordinator)
    requires Inv(c)
    ensures PhaseOk(Phase(c, c.state, []), c.limits)
  {
  }

  lemma NextIsGood(c: Coordinator, ev: Event)
    requires Inv(c) && Possible(c, ev)
    ensures Inv(Next(c, ev)) && Next(c, ev).limits == c.limits && Next(c, ev).durable == c.durable
  {
    hide Inv, PhaseOk, Phases, Settle, Apply, Crashed;
    match ev
    case Do(op) =>
      PhasesOk(c, op);
      PhasesCompose(c, op);
      var ps := Phases(c, op);
      if ps != [] { SettleIsGood(ps[|ps| - 1], c.limits); }
    case Crash(during, phase, kept) =>
      SitesOk(c, during);
      CrashIsGood(CrashSites(c, during)[phase], kept, c.limits);
  }

  // ----- one event against the transactions -----

  lemma FenceDeltasAreQuiet(s: State, producer: string, epoch: nat)
    ensures forall d :: d in FenceDeltas(s, producer, epoch) ==> Quiet(d)
  {
    hide StatusDeltas;
    var ids := FencedIds(s, producer);
    StatusDeltasAreQuiet(AbortAll(s, ids, FENCED), SortedNames(ids));
  }

  lemma RecoverDeltasAreQuiet(s: State, now: nat)
    ensures forall d :: d in RecoverDeltas(s, now) ==> Quiet(d)
  {
    hide StatusDeltas;
    var t := RecoveredState(s, now);
    StatusDeltasAreQuiet(t, SortedNames(AbortedIds(t)));
  }

  /** What an operation reports is what its last journalling step did. */
  lemma TookIsEffect(c: Coordinator, op: Op)
    ensures var ps := Phases(c, op);
            if ps == [] then Took(c, Do(op)).None? || (op.DoBegin? && Took(c, Do(op)) == Some(op))
            else Took(c, Do(op)) == Effect(ps[|ps| - 1], op)
  {
    FenceDeltasQuietOnly(c, op);
    RecoverQuietOnly(c, op);
    hide AppendDeltas, Messages, TotalBytes, Touched, LiveIds, FencedState, FenceDeltas, RecoveredState, RecoverDeltas,
         Fence;
  }

  lemma FenceDeltasQuietOnly(c: Coordinator, op: Op)
    ensures op.DoBegin? ==> forall p :: p in FencePhases(c, op) ==> Effect(p, op).None?
  {
    hide FenceDeltas, FencedState;
    if op.DoBegin? { FenceDeltasAreQuiet(c.state, op.producer, op.epoch); }
  }

  lemma RecoverQuietOnly(c: Coordinator, op: Op)
    ensures op.DoRecover? ==>
      Effect(Phase(c, RecoveredState(c.state, op.now), RecoverDeltas(c.state, op.now)), op).None?
  {
    hide RecoverDeltas, RecoveredState;
    if op.DoRecover? { RecoverDeltasAreQuiet(c.state, op.now); }
  }

  /** A step that has got as far as its first `n` deltas. */
  function Partly(p: Phase, n: nat): State
    requires n <= |p.deltas|
  {
    var r := Replay(p.base.state, p.deltas[..n]);
    if r.Some? then r.value else p.base.state
  }

  function PartEffect(p: Phase, n: nat, op: Op): Option<Op> { if n == |p.deltas| then Effect(p, op) else None }

  lemma QuietPhaseFollows(p: Phase, n: nat, op: Op, l: Limits)
    requires PhaseOk(p, l) && n <= |p.deltas| && forall d :: d in p.deltas ==> Quiet(d)
    ensures Follows(p.base.state, Partly(p, n), PartEffect(p, n, op)) && Effect(p, op).None?
  {
    hide Good, GoodJournal, Replay, Follows;
    JournalPrefix(p.base.state, p.deltas, n, l);
    assert forall d :: d in p.deltas[..n] ==> d in p.deltas;
    QuietFollows(p.base.state, p.deltas[..n], l);
  }

  lemma AddingPhaseFollows(p: Phase, n: nat, op: Op, l: Limits)
    requires PhaseOk(p, l) && n <= |p.deltas| == 1 && Adds(op, p.deltas[0], l)
    ensures Follows(p.base.state, Partly(p, n), PartEffect(p, n, op))
  {
    SinglePart(p, l);
    hide Inv, PhaseOk, Partly, Good, Admissible, ApplyDelta, Adds;
    if n == 1 {
      AddingFollows(p.base.state, op, p.deltas[0], l);
      assert !Quiet(p.deltas[0]) by { AddsIsNotQuiet(op, p.deltas[0], l); }
    } else {
      hide ContentsOf;
    }
  }

  lemma AddsIsNotQuiet(op: Op, d: Delta, l: Limits)
    requires Adds(op, d, l)
    ensures !Quiet(d)
  {
  }

  lemma SinglePart(p: Phase, l: Limits)
    requires PhaseOk(p, l) && |p.deltas| == 1
    ensures Partly(p, 0) == p.base.state && Good(p.base.state, l) && Admissible(p.base.state, p.deltas[0], l)
    ensures ApplyDelta(p.base.state, p.deltas[0]) == Some(Partly(p, 1))
  {
    var d, s := p.deltas[0], p.base.state;
    assert p.deltas == [d];
    hide Good, Admissible, ApplyDelta;
    SingleReplay(s, d, l);
  }

  lemma SingleReplay(s: State, d: Delta, l: Limits)
    ensures [d][..0] == [] && [d][..1] == [d] && Replay(s, []) == Some(s) && Replay(s, [d]) == ApplyDelta(s, d)
    ensures GoodJournal(s, [d], l) ==> Admissible(s, d, l)
  {
    hide ApplyDelta, Admissible, Good;
    assert [d][..0] == [];
  }

  lemma QuietOrAdds(op: Op, l: Limits)
    requires OpDelta(op).Some?
    ensures Quiet(OpDelta(op).value) || Adds(op, OpDelta(op).value, l)
  {
  }

  lemma OneDeltaFollows(c: Coordinator, op: Op, n: nat)
    requires Inv(c) && OpDelta(op).Some? && !Apply(c, op).1.Failed? && n <= 1
    ensures var p := Phase(c, Applied(c.state, OpDelta(op).value), [OpDelta(op).value]);
            Follows(c.state, Partly(p, n), PartEffect(p, n, op))
  {
    var p := Phase(c, Applied(c.state, OpDelta(op).value), [OpDelta(op).value]);
    QuietOrAdds(op, c.limits);
    hide Inv, PhaseOk, Follows, Partly, PartEffect, Apply, Applied, OpDelta, Adds, Quiet;
    DeltaAdmissible(c, op);
    SinglePhase(c, OpDelta(op).value);
    if Quiet(OpDelta(op).value) { QuietPhaseFollows(p, n, op, c.limits); }
    else { AddingPhaseFollows(p, n, op, c.limits); }
  }

  lemma EnteredFollows(c: Coordinator, op: Op)
    requires Inv(c) && op.DoBegin? && op.epoch >= EpochOf(c.state, op.producer)
    ensures Follows(c.state, Entered(c, op.producer, op.epoch).state, None)
  {
    if op.epoch > EpochOf(c.state, op.producer) {
      var p := FencePhase(c, op);
      assert Entered(c, op.producer, op.epoch) == Settle(p) && p.base == c
        && p.deltas == FenceDeltas(c.state, op.producer, op.epoch);
      hide Inv, PhaseOk, Follows, FenceDeltas, FencePhase, Settle, Entered, Trimmed, EpochOf;
      FencePhaseOk(c, op);
      FenceDeltasAreQuiet(c.state, op.producer, op.epoch);
      QuietPhaseFollows(p, |p.deltas|, op, c.limits);
      WholePhase(p, c.limits);
      SettleIsGood(p, c.limits);
      TrimmedFollows(c.state, p.after, Settle(p).state, None);
    }
  }

  lemma WholePhase(p: Phase, l: Limits)
    requires PhaseOk(p, l)
    ensures Partly(p, |p.deltas|) == p.after
  {
    hide Good, GoodJournal, Replay;
    assert p.deltas[..|p.deltas|] == p.deltas;
  }

  lemma StartFollows(c: Coordinator, op: Op, n: nat)
    requires Inv(c) && op.DoBegin? && !BeginRefused(c, op) && n <= 1
    requires |LiveIds(Entered(c, op.producer, op.epoch).state)| < c.limits.maxConcurrent
    ensures Follows(c.state, Partly(StartPhase(c, op), n), PartEffect(StartPhase(c, op), n, op))
  {
    var p := StartPhase(c, op);
    assert Adds(op, p.deltas[0], c.limits) && |p.deltas| == 1;
    hide Inv, PhaseOk, Follows, Partly, Entered, LiveIds, Applied;
    EnteredFollows(c, op);
    StartPhaseOk(c, op);
    AddingPhaseFollows(p, n, op, c.limits);
    QuietThenFollows(c.state, p.base.state, Partly(p, n), PartEffect(p, n, op));
  }

  lemma BeginPhaseFollows(c: Coordinator, op: Op, i: nat, n: nat)
    requires Inv(c) && op.DoBegin? && i < |Phases(c, op)| && n <= |Phases(c, op)[i].deltas|
    ensures Follows(c.state, Partly(Phases(c, op)[i], n), PartEffect(Phases(c, op)[i], n, op))
  {
    var p := Phases(c, op)[i];
    hide Inv, Follows, Partly, Applied, FencedState, FenceDeltas, Entered, LiveIds, PartEffect, PhaseOk;
    if p in FencePhases(c, op) {
      assert p == FencePhase(c, op);
      FencePhaseOk(c, op);
      FenceDeltasAreQuiet(c.state, op.producer, op.epoch);
      hide Phases;
      QuietPhaseFollows(p, n, op, c.limits);
    } else {
      assert p == StartPhase(c, op);
      hide Phases;
      StartFollows(c, op, n);
    }
  }

  lemma RecoverPhaseFollows(c: Coordinator, op: Op, n: nat)
    requires Inv(c) && op.DoRecover? && n <= |Phases(c, op)[0].deltas|
    ensures Follows(c.state, Partly(Phases(c, op)[0], n), PartEffect(Phases(c, op)[0], n, op))
  {
    PhasesOk(c, op);
    var p := Phases(c, op)[0];
    hide Inv, PhaseOk, Follows, Partly, PartEffect, RecoveredState, RecoverDeltas;
    RecoverDeltasAreQuiet(c.state, op.now);
    QuietPhaseFollows(p, n, op, c.limits);
  }

  /** However far a journalling step of an operation has got, every transaction is as it was
      or as the operation says. */
  lemma PhaseFollows(c: Coordinator, op: Op, i: nat, n: nat)
    requires Inv(c) && i < |Phases(c, op)| && n <= |Phases(c, op)[i].deltas|
    ensures Follows(c.state, Partly(Phases(c, op)[i], n), PartEffect(Phases(c, op)[i], n, op))
  {
    hide Inv, Follows, Partly, Apply, PartEffect, Applied;
    if op.DoBegin? {
      hide Phases;
      BeginPhaseFollows(c, op, i, n);
    } else if op.DoRecover? {
      assert i == 0;
      hide Phases;
      RecoverPhaseFollows(c, op, n);
    } else {
      OneDeltaFollows(c, op, n);
    }
  }

  lemma NoPhaseFollows(c: Coordinator, op: Op)
    requires Phases(c, op) == []
    ensures Follows(c.state, c.state, Took(c, Do(op)))
  {
    TookIsEffect(c, op);
    hide Phases, Took;
  }

  lemma DoFollows(c: Coordinator, op: Op)
    requires Inv(c)
    ensures Follows(c.state, Apply(c, op).0.state, Took(c, Do(op)))
  {
    hide Inv, PhaseOk, Follows, Partly, Phases, Apply, Took, Settle, Effect, Trimmed;
    PhasesCompose(c, op);
    TookIsEffect(c, op);
    PhasesOk(c, op);
    var ps := Phases(c, op);
    if ps == [] {
      NoPhaseFollows(c, op);
    } else {
      var last := ps[|ps| - 1];
      PhaseFollows(c, op, |ps| - 1, |last.deltas|);
      WholePhase(last, c.limits);
      SettleIsGood(last, c.limits);
      TrimmedFollows(c.state, last.after, Settle(last).state, Took(c, Do(op)));
    }
  }

  lemma CrashIsPartly(c: Coordinator, ev: Event)
    requires Inv(c) && Possible(c, ev) && ev.Crash? && Synced(c, ev)
    ensures var p := CrashSites(c, ev.during)[ev.phase]; Next(c, ev).state == Partly(p, ev.kept - |p.base.journal|)
  {
    var p := CrashSites(c, ev.during)[ev.phase];
    SitesOk(c, ev.during);
    hide Inv, PhaseOk, Phases, Crashed, Replay, GoodJournal;
    SyncedCrash(p, ev.kept, c.limits);
  }

  lemma CrashFollows(c: Coordinator, ev: Event)
    requires Inv(c) && Possible(c, ev) && ev.Crash? && Synced(c, ev)
    ensures Follows(c.state, Next(c, ev).state, Took(c, ev))
  {
    var p := CrashSites(c, ev.during)[ev.phase];
    var n := ev.kept - |p.base.journal|;
    CrashIsPartly(c, ev);
    SitesOk(c, ev.during);
    hide Inv, PhaseOk, Phases, Next, Partly;
    if ev.during.Some? {
      hide Follows, Effect;
      PhaseFollows(c, ev.during.value, ev.phase, n);
    } else {
      WholePhase(p, c.limits);
    }
  }

  /** Every event keeps the journal refinement, and every event that loses nothing synced
      changes each transaction only as it should. */
  lemma NextFollows(c: Coordinator, ev: Event)
    requires Inv(c) && Possible(c, ev) && Synced(c, ev)
    ensures Follows(c.state, Next(c, ev).state, Took(c, ev))
  {
    hide Inv, Follows, Took, Crashed, Apply, Phases;
    if ev.Do? { DoFollows(c, ev.op); } else { CrashFollows(c, ev); }
  }

  // ----- runs -----

  /** A coordinator just made by `new`, or by `open` on empty files. */
  predicate Fresh(c: Coordinator) {
    LimitsError(c.limits).None? && c.state == EMPTY && c.checkpoint == EMPTY && c.journal == []
  }

  lemma FreshIsGood(c: Coordinator)
    requires Fresh(c)
    ensures Inv(c)
  {
  }

  function After(c: Coordinator, run: seq<Event>): Coordinator {
    if run == [] then c
    else
      var before := After(c, run[..|run| - 1]);
      if Possible(before, run[|run| - 1]) then Next(before, run[|run| - 1]) else before
  }

  /** Every crash is one the files allow, and keeps what was synced, as `sync_data` promises. */
  predicate SyncedRun(c: Coordinator, run: seq<Event>) {
    run == [] ||
      (var before := run[..|run| - 1];
       SyncedRun(c, before) && Possible(After(c, before), run[|run| - 1]) && Synced(After(c, before), run[|run| - 1]))
  }

  lemma {:induction false} RunKeepsInv(c: Coordinator, run: seq<Event>)
    requires Inv(c)
    ensures Inv(After(c, run)) && After(c, run).limits == c.limits && After(c, run).durable == c.durable
  {
    hide Inv, Next, Possible;
    if run != [] {
      var before := After(c, run[..|run| - 1]);
      RunKeepsInv(c, run[..|run| - 1]);
      if Possible(before, run[|run| - 1]) { NextIsGood(before, run[|run| - 1]); }
    }
  }

  /** Main theorem on the journal. After any operations, accepted or refused, and any crashes,
      `open` on the files gives back exactly the coordinator in memory, pruning included. */
  lemma ReopenRestoresMemory(c: Coordinator, run: seq<Event>)
    requires Fresh(c) && c.durable
    ensures var c' := After(c, run); Reopen(c'.limits, c'.checkpoint, c'.journal) == Ok(c')
  {
    hide Good, GoodJournal, Replay, Next;
    FreshIsGood(c);
    RunKeepsInv(c, run);
  }

  /** Main theorem on crashes. Wherever a crash hits the journalling of an operation, and
      whatever prefix of the journal it leaves, even one that loses synced entries: `open`
      succeeds, the coordinator it gives keeps the journal refinement, fencing and quotas,
      and each transaction shows not at all or exactly as the operation left it in memory
      before any pruning. */
  lemma CrashShowsAllOrNothing(c: Coordinator, run: seq<Event>, during: Option<Op>, i: nat, kept: nat, id: string)
    requires Fresh(c) && c.durable && i < |CrashSites(After(c, run), during)|
    requires kept <= |CrashSites(After(c, run), during)[i].base.journal + CrashSites(After(c, run), during)[i].deltas|
    ensures var p := CrashSites(After(c, run), during)[i];
            && Crashed(p, kept).Ok? && Inv(Crashed(p, kept).value)
            && var shown := VisibleBatch(Crashed(p, kept).value.state, id);
               shown == None || shown == VisibleBatch(p.after, id)
  {
    FreshIsGood(c);
    RunKeepsInv(c, run);
    SitesOk(After(c, run), during);
    var p := CrashSites(After(c, run), during)[i];
    hide Inv, Good, GoodJournal, Replay, After, CrashSites, VisibleBatch;
    CrashIsGood(p, kept, c.limits);
    PhaseJournal(p, c.limits);
    PrefixIsAtomic(p.base.checkpoint, p.base.journal + p.deltas, kept, c.limits, id);
  }

  /** Main theorem on fencing and quotas, in every state reachable by operations and crashes:
      an open or prepared transaction carries its producer's current epoch, each transaction
      is within the message, byte and partition limits, and the live ones within the
      concurrency limit. */
  lemma FencingAndQuotasHold(c: Coordinator, run: seq<Event>)
    requires Fresh(c)
    ensures var s, l := After(c, run).state, c.limits;
            && (forall id :: id in s.transactions && Live(s.transactions[id]) ==>
                  s.transactions[id].epoch == EpochOf(s, s.transactions[id].producer))
            && (forall id :: id in s.transactions ==>
                  && Messages(s.transactions[id]) <= l.maxMessages
                  && TotalBytes(s.transactions[id]) <= l.maxBytes
                  && |Touched(s.transactions[id])| <= l.maxPartitions)
            && |LiveIds(s)| <= l.maxConcurrent
  {
    FreshIsGood(c);
    RunKeepsInv(c, run);
    hide GoodJournal, Replay, After, Messages, TotalBytes, Touched, LiveIds;
  }

  lemma {:induction false} SyncedPrefix(c: Coordinator, run: seq<Event>, k: nat)
    requires SyncedRun(c, run) && k <= |run|
    ensures SyncedRun(c, run[..k])
  {
    hide Next, Possible, Synced;
    if k < |run| {
      SyncedPrefix(c, run[..|run| - 1], k);
      assert run[..|run| - 1][..k] == run[..k];
    } else {
      assert run[..k] == run;
    }
  }

  lemma RunFollows(c: Coordinator, run: seq<Event>, i: nat)
    requires Inv(c) && SyncedRun(c, run) && i < |run|
    ensures Possible(After(c, run[..i]), run[i])
    ensures Follows(After(c, run[..i]).state, After(c, run[..i + 1]).state, Took(After(c, run[..i]), run[i]))
  {
    SyncedPrefix(c, run, i + 1);
    assert run[..i + 1][..i] == run[..i];
    hide Inv, Next, Possible, Synced, Follows, Took;
    RunKeepsInv(c, run[..i]);
    NextFollows(After(c, run[..i]), run[i]);
  }

  /** A finished transaction keeps its outcome and contents for as long as it is kept, across
      crashes that keep what was synced. */
  lemma {:induction false} OutcomeIsFinal(c: Coordinator, run: seq<Event>, i: nat, j: nat, id: string)
    requires Inv(c) && SyncedRun(c, run) && i <= j <= |run|
    requires forall k :: i <= k <= j ==> id in After(c, run[..k]).state.transactions
    requires !Live(After(c, run[..i]).state.transactions[id])
    ensures After(c, run[..j]).state.transactions[id] == After(c, run[..i]).state.transactions[id]
  {
    hide Inv, After, SyncedRun, Possible, Took, ContentsOf, Grow;
    if i < j {
      OutcomeIsFinal(c, run, i, j - 1, id);
      RunFollows(c, run, j - 1);
      assert id in After(c, run[..j - 1]).state.transactions && id in After(c, run[..j]).state.transactions;
    }
  }

  /** What took effect for a transaction since it was last begun, read off the replies and,
      at a crash, off the journal entries that reached the disk. */
  function Accepted(c: Coordinator, run: seq<Event>, id: string): Contents {
    if run == [] then NOTHING
    else
      var before, ev := After(c, run[..|run| - 1]), run[|run| - 1];
      var took := if Possible(before, ev) then Took(before, ev) else None;
      if Begins(took, id) && id !in before.state.transactions then NOTHING
      else Grow(Accepted(c, run[..|run| - 1], id), took, id)
  }

  lemma {:induction false} HoldsWhatWasAccepted(c: Coordinator, run: seq<Event>, id: string)
    requires Fresh(c) && SyncedRun(c, run) && id in After(c, run).state.transactions
    ensures ContentsOf(After(c, run).state.transactions[id]) == Accepted(c, run, id)
  {
    if run != [] {
      var front := run[..|run| - 1];
      var before := After(c, front);
      FreshIsGood(c);
      RunKeepsInv(c, front);
      NextFollows(before, run[|run| - 1]);
      hide Next, Possible, Synced, Took, Good, GoodJournal, Replay, Grow;
      if id in before.state.transactions {
        HoldsWhatWasAccepted(c, front, id);
        IdMatches(before.state, id, before.limits);
      }
    }
  }

  /** Main theorem on commits: the batch that `commit` returns holds exactly the writes,
      offsets and view mutations that took effect since the transaction began, in order,
      through any crashes that keep what was synced. */
  lemma CommitReturnsWhatWasAccepted(c: Coordinator, run: seq<Event>, id: string, now: nat)
    requires Fresh(c) && SyncedRun(c, run) && Apply(After(c, run), DoCommit(id, now)).1.CommittedBatch?
    ensures var k := Accepted(c, run, id);
            Apply(After(c, run), DoCommit(id, now)).1.batch == Batch(id, k.writes, k.offsets, k.views)
  {
    hide Good, GoodJournal, Replay, AppendDeltas, After, Accepted, SyncedRun;
    HoldsWhatWasAccepted(c, run, id);
    FreshIsGood(c);
    RunKeepsInv(c, run);
    IdMatches(After(c, run).state, id, After(c, run).limits);
  }
}
