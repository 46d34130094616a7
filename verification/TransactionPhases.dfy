/** The journal refinement of the transaction coordinator (crates/server/src/transaction.rs)
    operation by operation: the memory is the replay of the files, and each operation is a
    short sequence of journalling steps that keep it so. */
module TransactionPhases {
  import opened Common
  import opened Transactions
  import opened TransactionJournal

  /** Journal refinement: the in-memory state is the replay of the journal over the
      checkpoint, entry by entry admissible. */
  ghost predicate Inv(c: Coordinator) {
    && LimitsError(c.limits).None?
    && Good(c.state, c.limits)
    && (c.durable ==>
          GoodJournal(c.checkpoint, c.journal, c.limits) && Replay(c.checkpoint, c.journal) == Some(c.state))
  }

  /** `a` is `b` without some finished transactions. */
  ghost predicate Trimmed(a: State, b: State) {
    && a.epochs == b.epochs
    && (forall id :: id in a.transactions ==> id in b.transactions && a.transactions[id] == b.transactions[id])
    && (forall id :: id in b.transactions && Live(b.transactions[id]) ==> id in a.transactions)
  }

  lemma RemovingTerminals(s: State, gone: set<string>, l: Limits)
    requires Good(s, l) && gone <= TerminalIds(s)
    ensures var kept := s.(transactions := s.transactions - gone); Good(kept, l) && Trimmed(kept, s)
  {
    hide RecordOk;
    SubsetSize(LiveIds(s.(transactions := s.transactions - gone)), LiveIds(s));
  }

  lemma PruneTrims(s: State, l: Limits)
    requires Good(s, l)
    ensures Good(Prune(s, l), l) && Trimmed(Prune(s, l), s)
  {
    hide Good, Trimmed, Pruned, TerminalIds;
    PrunedAreTerminal(s, l);
    RemovingTerminals(s, Pruned(s, l), l);
  }

  lemma PrunedAreTerminal(s: State, l: Limits)
    ensures Pruned(s, l) <= TerminalIds(s)
  {
  }

  /** Journalling a good delta sequence keeps the refinement, checkpoint or not. */
  lemma JournalStep(c: Coordinator, ds: seq<Delta>, t: State)
    requires Inv(c) && GoodJournal(c.state, ds, c.limits) && Replay(c.state, ds) == Some(t)
    ensures Inv(AppendDeltas(c.(state := t), ds)) && Trimmed(AppendDeltas(c.(state := t), ds).state, t)
  {
    hide Good, Prune;
    GoodJournalReplays(c.state, ds, c.limits);
    PruneTrims(t, c.limits);
    if c.durable {
      if ds == [] {
      } else {
        JournalConcat(c.checkpoint, c.journal, ds, c.limits);
      }
    }
  }

  // ----- deltas that operations write -----

  lemma AbortAllAborts(s: State, ids: set<string>, reason: string, l: Limits)
    requires Good(s, l) && ids <= LiveIds(s)
    ensures AbortsOf(s, AbortAll(s, ids, reason))
    ensures forall id ::
              id in s.transactions && AbortAll(s, ids, reason).transactions[id].status != s.transactions[id].status ==>
                id in ids
  {
    hide RecordOk;
  }

  lemma EpochAdmissible(s: State, producer: string, epoch: nat, l: Limits)
    requires epoch >= EpochOf(s, producer)
    ensures Admissible(AbortAll(s, FencedIds(s, producer), FENCED), ProducerEpoch(producer, epoch), l)
  {
  }

  lemma FenceAborts(s: State, producer: string, l: Limits)
    requires Good(s, l)
    ensures var aborted := AbortAll(s, FencedIds(s, producer), FENCED);
            var ds := StatusDeltas(aborted, SortedNames(FencedIds(s, producer)));
            GoodJournal(s, ds, l) && Replay(s, ds) == Some(aborted)
  {
    var ids := FencedIds(s, producer);
    AbortAllAborts(s, ids, FENCED, l);
    hide Good, AbortsOf, GoodJournal, Replay, StatusDeltas;
    StatusJournalIsComplete(s, AbortAll(s, ids, FENCED), SortedNames(ids), l);
  }

  /** The deltas written when a producer is fenced, before any checkpoint. */
  lemma FenceJournal(s: State, producer: string, epoch: nat, l: Limits)
    requires Good(s, l) && epoch >= EpochOf(s, producer)
    ensures GoodJournal(s, FenceDeltas(s, producer, epoch), l)
    ensures Replay(s, FenceDeltas(s, producer, epoch)) == Some(FencedState(s, producer, epoch))
  {
    var aborted := AbortAll(s, FencedIds(s, producer), FENCED);
    var ds := StatusDeltas(aborted, SortedNames(FencedIds(s, producer)));
    FenceAborts(s, producer, l);
    EpochAdmissible(s, producer, epoch, l);
    hide Good, GoodJournal, Replay, StatusDeltas, Admissible, FencedIds, AbortAll;
    ExtendJournal(s, ds, ProducerEpoch(producer, epoch), l);
  }

  lemma WriteTotals(r: Record, w: Write, l: Limits)
    requires RecordOk(r, l) && Messages(r) < l.maxMessages && TotalBytes(r) + |w.bytes| <= l.maxBytes
    requires |Touched(r) + {(w.stream, w.partition)}| <= l.maxPartitions
    ensures RecordOk(r.(writes := r.writes + [w]), l)
  {
    var r' := r.(writes := r.writes + [w]);
    assert r'.writes[..|r'.writes| - 1] == r.writes;
    assert Touched(r') == Touched(r) + {(w.stream, w.partition)};
  }

  lemma OffsetTotals(r: Record, o: OffsetCommit, l: Limits)
    requires RecordOk(r, l) && Messages(r) < l.maxMessages
    requires |Touched(r) + {(o.stream, o.partition)}| <= l.maxPartitions
    ensures RecordOk(r.(offsets := r.offsets + [o]), l)
  {
    var r' := r.(offsets := r.offsets + [o]);
    assert Touched(r') == Touched(r) + {(o.stream, o.partition)};
  }

  lemma ViewTotals(r: Record, v: ViewMutation, l: Limits)
    requires RecordOk(r, l) && Messages(r) < l.maxMessages && TotalBytes(r) + ValueBytes(v) <= l.maxBytes
    ensures RecordOk(r.(views := r.views + [v]), l)
  {
  }

  // ----- the journalling steps of an operation -----

  /** One call of `append_deltas`: the deltas go to the files of `base` while the memory
      moves to `after`. An operation makes none, one, or for `begin` up to two such calls. */
  datatype Phase = Phase(base: Coordinator, after: State, deltas: seq<Delta>)

  /** The coordinator when the call has returned, checkpoint included. */
  function Settle(p: Phase): Coordinator { AppendDeltas(p.base.(state := p.after), p.deltas) }

  ghost predicate PhaseOk(p: Phase, l: Limits) {
    Inv(p.base) && p.base.limits == l && GoodJournal(p.base.state, p.deltas, l)
      && Replay(p.base.state, p.deltas) == Some(p.after)
  }

  /** The delta of an operation that journals exactly one. */
  function OpDelta(op: Op): Option<Delta> {
    match op
    case DoAppend(id, write, _) => Some(WriteDelta(id, write))
    case DoOffset(id, offset, _) => Some(OffsetDelta(id, offset))
    case DoView(id, mutation, _) => Some(ViewDelta(id, mutation))
    case DoPrepare(id, _) => Some(StatusDelta(id, Prepared))
    case DoCommit(id, _) => Some(StatusDelta(id, Committed))
    case DoAbort(id, reason) => Some(StatusDelta(id, Aborted(reason)))
    case _ => None
  }

  function Applied(s: State, d: Delta): State { if ApplyDelta(s, d).Some? then ApplyDelta(s, d).value else s }

  /** The first half of `begin`: fence the producer if its epoch rises. */
  function Entered(c: Coordinator, producer: string, epoch: nat): Coordinator {
    if epoch > EpochOf(c.state, producer) then Fence(c, producer, epoch) else c
  }

  predicate BeginRefused(c: Coordinator, op: Op)
    requires op.DoBegin?
  {
    || op.id == "" || op.tenant == "" || op.producer == "" || op.id in c.state.transactions
    || op.epoch < EpochOf(c.state, op.producer)
  }

  function FencePhases(c: Coordinator, op: Op): seq<Phase>
    requires op.DoBegin?
  {
    if op.epoch > EpochOf(c.state, op.producer) then [FencePhase(c, op)] else []
  }

  function StartPhase(c: Coordinator, op: Op): Phase
    requires op.DoBegin?
  {
    var e := Entered(c, op.producer, op.epoch);
    var r := NewRecord(c, op.id, op.tenant, op.producer, op.epoch, op.now);
    Phase(e, Applied(e.state, Begin(r)), [Begin(r)])
  }

  function Phases(c: Coordinator, op: Op): seq<Phase> {
    if op.DoBegin? then
      if BeginRefused(c, op) then []
      else if |LiveIds(Entered(c, op.producer, op.epoch).state)| >= c.limits.maxConcurrent then FencePhases(c, op)
      else FencePhases(c, op) + [StartPhase(c, op)]
    else if op.DoRecover? then [Phase(c, RecoveredState(c.state, op.now), RecoverDeltas(c.state, op.now))]
    else if Apply(c, op).1.Failed? then []
    else [Phase(c, Applied(c.state, OpDelta(op).value), [OpDelta(op).value])]
  }

  /** The phases are what the operation does: they start at the coordinator, each starts
      where the one before ended, and the operation ends where the last one does. */
  lemma PhasesCompose(c: Coordinator, op: Op)
    ensures var ps := Phases(c, op);
            && |ps| <= 2
            && (ps == [] ==> Apply(c, op).0 == c)
            && (ps != [] ==> ps[0].base == c && Apply(c, op).0 == Settle(ps[|ps| - 1]))
            && (|ps| == 2 ==> ps[1].base == Settle(ps[0]))
  {
    hide AppendDeltas, FencedState, FenceDeltas, RecoveredState, RecoverDeltas, LiveIds, Messages, TotalBytes, Touched;
  }

  lemma SettleIsGood(p: Phase, l: Limits)
    requires PhaseOk(p, l)
    ensures Inv(Settle(p)) && Settle(p).limits == l && Settle(p).durable == p.base.durable
    ensures Trimmed(Settle(p).state, p.after)
  {
    hide Good, GoodJournal, Replay, Prune, Trimmed;
    JournalStep(p.base, p.deltas, p.after);
  }

  lemma SinglePhase(c: Coordinator, d: Delta)
    requires Inv(c) && Admissible(c.state, d, c.limits)
    ensures PhaseOk(Phase(c, Applied(c.state, d), [d]), c.limits) && ApplyDelta(c.state, d) == Some(Applied(c.state, d))
  {
    AdmissibleKeepsGood(c.state, d, c.limits);
    hide Good, Admissible, ApplyDelta;
    assert [d][..0] == [];
    assert Replay(c.state, []) == Some(c.state) && GoodJournal(c.state, [], c.limits);
  }

  // ----- every operation's phases are good -----

  lemma AppendAdmissible(c: Coordinator, op: Op)
    requires Inv(c) && op.DoAppend? && !Apply(c, op).1.Failed?
    ensures Admissible(c.state, OpDelta(op).value, c.limits)
  {
    IdMatches(c.state, op.id, c.limits);
    WriteTotals(c.state.transactions[op.id], op.write, c.limits);
  }

  lemma OffsetAdmissible(c: Coordinator, op: Op)
    requires Inv(c) && op.DoOffset? && !Apply(c, op).1.Failed?
    ensures Admissible(c.state, OpDelta(op).value, c.limits)
  {
    IdMatches(c.state, op.id, c.limits);
    OffsetTotals(c.state.transactions[op.id], op.offset, c.limits);
  }

  lemma ViewAdmissible(c: Coordinator, op: Op)
    requires Inv(c) && op.DoView? && !Apply(c, op).1.Failed?
    ensures Admissible(c.state, OpDelta(op).value, c.limits)
  {
    IdMatches(c.state, op.id, c.limits);
    ViewTotals(c.state.transactions[op.id], op.mutation, c.limits);
  }

  /** An accepted operation of one delta writes an admissible one. */
  lemma DeltaAdmissible(c: Coordinator, op: Op)
    requires Inv(c) && OpDelta(op).Some? && !Apply(c, op).1.Failed?
    ensures Admissible(c.state, OpDelta(op).value, c.limits)
  {
    hide Inv, RecordOk, AppendDeltas, Messages, TotalBytes, Touched;
    match op
    case DoAppend(_, _, _) => AppendAdmissible(c, op);
    case DoOffset(_, _, _) => OffsetAdmissible(c, op);
    case DoView(_, _, _) => ViewAdmissible(c, op);
    case _ =>
  }

  lemma RecoverJournal(s: State, now: nat, l: Limits)
    requires Good(s, l)
    ensures GoodJournal(s, RecoverDeltas(s, now), l) && Replay(s, RecoverDeltas(s, now)) == Some(RecoveredState(s, now))
  {
    AbortAllAborts(s, OverdueIds(s, now), TIMEOUT, l);
    hide Good, GoodJournal, Replay, StatusDeltas;
    StatusJournalIsComplete(s, RecoveredState(s, now), SortedNames(AbortedIds(RecoveredState(s, now))), l);
  }

  lemma FencedKeepsIds(s: State, producer: string, epoch: nat)
    ensures var t := FencedState(s, producer, epoch);
            EpochOf(t, producer) == epoch && forall id :: id in t.transactions ==> id in s.transactions
  {
  }

  function FencePhase(c: Coordinator, op: Op): Phase
    requires op.DoBegin?
  {
    Phase(c, FencedState(c.state, op.producer, op.epoch), FenceDeltas(c.state, op.producer, op.epoch))
  }

  lemma FencePhaseOk(c: Coordinator, op: Op)
    requires Inv(c) && op.DoBegin? && op.epoch >= EpochOf(c.state, op.producer)
    ensures PhaseOk(FencePhase(c, op), c.limits)
  {
    hide Good, GoodJournal, Replay, FencedState, FenceDeltas, EpochOf;
    FenceJournal(c.state, op.producer, op.epoch, c.limits);
  }

  lemma EnteredOk(c: Coordinator, op: Op)
    requires Inv(c) && op.DoBegin? && op.epoch >= EpochOf(c.state, op.producer)
    ensures var e := Entered(c, op.producer, op.epoch);
            && Inv(e) && e.limits == c.limits && e.durable == c.durable && EpochOf(e.state, op.producer) == op.epoch
            && (forall id :: id in e.state.transactions ==> id in c.state.transactions)
  {
    if op.epoch > EpochOf(c.state, op.producer) {
      var p := FencePhase(c, op);
      assert Entered(c, op.producer, op.epoch) == Settle(p);
      FencePhaseOk(c, op);
      FencedKeepsIds(c.state, op.producer, op.epoch);
      hide Inv, PhaseOk, Settle, FencedState, FenceDeltas, Entered;
      SettleIsGood(p, c.limits);
    }
  }

  lemma StartPhaseOk(c: Coordinator, op: Op)
    requires Inv(c) && op.DoBegin? && !BeginRefused(c, op)
    requires |LiveIds(Entered(c, op.producer, op.epoch).state)| < c.limits.maxConcurrent
    ensures PhaseOk(StartPhase(c, op), c.limits)
  {
    hide Inv, Entered, LiveIds, PhaseOk, Applied;
    EnteredOk(c, op);
    SinglePhase(Entered(c, op.producer, op.epoch), StartPhase(c, op).deltas[0]);
  }

  lemma BeginPhasesOk(c: Coordinator, op: Op)
    requires Inv(c) && op.DoBegin?
    ensures forall p :: p in Phases(c, op) ==> PhaseOk(p, c.limits) && p.base.durable == c.durable
  {
    hide PhaseOk, Inv, LiveIds, FencedState, FenceDeltas, Applied, Entered;
    if !BeginRefused(c, op) {
      FencePhaseOk(c, op);
      EnteredOk(c, op);
      if |LiveIds(Entered(c, op.producer, op.epoch).state)| < c.limits.maxConcurrent { StartPhaseOk(c, op); }
    }
  }

  /** Every journalling step of every operation writes admissible deltas that replay to the
      memory it leaves. */
  lemma PhasesOk(c: Coordinator, op: Op)
    requires Inv(c)
    ensures forall p :: p in Phases(c, op) ==> PhaseOk(p, c.limits) && p.base.durable == c.durable
  {
    if op.DoBegin? {
      hide Phases, PhaseOk, Inv;
      BeginPhasesOk(c, op);
    } else if op.DoRecover? {
      hide Good, GoodJournal, Replay, RecoveredState, RecoverDeltas;
      RecoverJournal(c.state, op.now, c.limits);
    } else {
      hide PhaseOk, Inv, Apply, Applied;
      if !Apply(c, op).1.Failed? {
        DeltaAdmissible(c, op);
        SinglePhase(c, OpDelta(op).value);
      }
    }
  }
}
