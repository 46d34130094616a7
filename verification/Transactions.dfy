/** The transaction coordinator (crates/server/src/transaction.rs): in-memory state,
    delta journal and checkpoint. I/O always succeeds and a checkpoint is atomic. */
module Transactions {
  import opened Common

  type Bytes = seq<nat>

  datatype Limits = Limits(maxMessages: nat, maxBytes: nat, maxPartitions: nat, maxDuration: nat, maxConcurrent: nat)

  datatype Status = Open | Prepared | Committed | Aborted(reason: string)

  datatype Write = Write(stream: string, partition: nat, offset: nat, bytes: Bytes)

  datatype OffsetCommit = OffsetCommit(consumer: string, stream: string, partition: nat, offset: nat)

  datatype ViewMutation = ViewMutation(view: string, key: string, value: Option<Bytes>)

  datatype Record = Record(
    id: string, tenant: string, producer: string, epoch: nat, startedAt: nat, deadline: nat, status: Status,
    writes: seq<Write>, offsets: seq<OffsetCommit>, views: seq<ViewMutation>)

  datatype Batch = Batch(id: string, writes: seq<Write>, offsets: seq<OffsetCommit>, views: seq<ViewMutation>)

  datatype State = State(transactions: map<string, Record>, epochs: map<string, nat>)

  datatype Delta =
    | Begin(record: Record)
    | ProducerEpoch(producer: string, epoch: nat)
    | WriteDelta(id: string, write: Write)
    | OffsetDelta(id: string, offset: OffsetCommit)
    | ViewDelta(id: string, mutation: ViewMutation)
    | StatusDelta(id: string, status: Status)

  datatype Error =
    | BadLimits | EmptyIdentity | IdReused | ProducerFenced | ConcurrentQuota | MessageQuota | ByteQuota
    | PartitionQuota
    | UnknownTransaction | TimedOut | NotOpen | NotPrepared | AlreadyTerminal

  datatype Reply = Done | CommittedBatch(batch: Batch) | Recovered(count: nat) | Failed(error: Error)

  /** The coordinator with its files: `checkpoint` is the state file, `journal` the delta
      log. A coordinator made by `new` has no files. */
  datatype Coordinator = Coordinator(
    limits: Limits, durable: bool, state: State, checkpoint: State, journal: seq<Delta>)

  const EMPTY := State(map[], map[])

  const FENCED := "producer epoch fenced"
  const TIMEOUT := "transaction timeout during recovery"

  predicate Live(r: Record) { r.status == Open || r.status == Prepared }

  function LimitsError(l: Limits): Option<Error> {
    if l.maxMessages > 0 && l.maxBytes > 0 && l.maxPartitions > 0 && l.maxDuration > 0 && l.maxConcurrent > 0 then None
    else Some(BadLimits)
  }

  function EpochOf(s: State, producer: string): nat {
    if producer in s.epochs then s.epochs[producer] else 0
  }

  function LiveIds(s: State): set<string> {
    set id | id in s.transactions && Live(s.transactions[id])
  }

  // ----- per-transaction totals -----

  function Messages(r: Record): nat { |r.writes| + |r.offsets| + |r.views| }

  function WriteBytes(ws: seq<Write>): nat {
    if ws == [] then 0 else WriteBytes(ws[..|ws| - 1]) + |ws[|ws| - 1].bytes|
  }

  function ValueBytes(v: ViewMutation): nat { if v.value.Some? then |v.value.value| else 0 }

  function ViewBytes(vs: seq<ViewMutation>): nat {
    if vs == [] then 0 else ViewBytes(vs[..|vs| - 1]) + ValueBytes(vs[|vs| - 1])
  }

  function TotalBytes(r: Record): nat { WriteBytes(r.writes) + ViewBytes(r.views) }

  function Touched(r: Record): set<(string, nat)> {
    (set w | w in r.writes :: (w.stream, w.partition)) + (set o | o in r.offsets :: (o.stream, o.partition))
  }

  // ----- the journal -----

  /** `apply_delta`; None is the error for an unknown transaction. */
  function ApplyDelta(s: State, d: Delta): Option<State> {
    match d
    case Begin(r) => Some(s.(transactions := s.transactions[r.id := r]))
    case ProducerEpoch(p, e) => Some(s.(epochs := s.epochs[p := e]))
    case WriteDelta(id, w) =>
      if id in s.transactions then
        var r := s.transactions[id]; Some(s.(transactions := s.transactions[id := r.(writes := r.writes + [w])]))
      else None
    case OffsetDelta(id, o) =>
      if id in s.transactions then
        var r := s.transactions[id]; Some(s.(transactions := s.transactions[id := r.(offsets := r.offsets + [o])]))
      else None
    case ViewDelta(id, v) =>
      if id in s.transactions then
        var r := s.transactions[id]; Some(s.(transactions := s.transactions[id := r.(views := r.views + [v])]))
      else None
    case StatusDelta(id, status) =>
      if id in s.transactions then Some(WithStatus(s, id, status)) else None
  }

  function WithStatus(s: State, id: string, status: Status): State
    requires id in s.transactions
  {
    s.(transactions := s.transactions[id := s.transactions[id].(status := status)])
  }

  function Replay(s: State, ds: seq<Delta>): Option<State> {
    if ds == [] then Some(s)
    else
      var before := Replay(s, ds[..|ds| - 1]);
      if before.None? then None else ApplyDelta(before.value, ds[|ds| - 1])
  }

  // ----- checkpoint and pruning -----

  function TerminalIds(s: State): set<string> {
    set id | id in s.transactions && !Live(s.transactions[id])
  }

  function KeepTerminal(l: Limits): nat {
    if l.maxConcurrent * 16 > 64 then l.maxConcurrent * 16 else 64
  }

  /** The terminal transactions a checkpoint drops: the first ones in id order. */
  function Pruned(s: State, l: Limits): set<string> {
    var terminal := SortedNames(TerminalIds(s));
    var gone := if |terminal| > KeepTerminal(l) then terminal[..|terminal| - KeepTerminal(l)] else [];
    ElementsOf(gone)
  }

  function Prune(s: State, l: Limits): State { s.(transactions := s.transactions - Pruned(s, l)) }

  function Checkpoint(c: Coordinator): Coordinator {
    var kept := Prune(c.state, c.limits);
    c.(state := kept, checkpoint := kept, journal := [])
  }

  const JOURNAL_LIMIT := 64

  /** Journalling of deltas already applied in memory. */
  function AppendDeltas(c: Coordinator, ds: seq<Delta>): Coordinator {
    if !c.durable || ds == [] then c
    else
      var c' := c.(journal := c.journal + ds);
      if |c'.journal| >= JOURNAL_LIMIT then Checkpoint(c') else c'
  }

  // ----- operations -----

  /** Abort every live transaction in `ids`. */
  function AbortAll(s: State, ids: set<string>, reason: string): State {
    s.(transactions := map id | id in s.transactions ::
         if id in ids then s.transactions[id].(status := Aborted(reason)) else s.transactions[id])
  }

  function FencedIds(s: State, producer: string): set<string> {
    set id | id in s.transactions && s.transactions[id].producer == producer && Live(s.transactions[id])
  }

  /** The status of each listed transaction, as a delta. */
  function StatusDeltas(s: State, ids: seq<string>): (ds: seq<Delta>)
    requires forall id :: id in ids ==> id in s.transactions
    ensures |ds| == |ids|
  {
    if ids == [] then []
    else
      var last := ids[|ids| - 1];
      StatusDeltas(s, ids[..|ids| - 1]) + [StatusDelta(s.transactions[last].id, s.transactions[last].status)]
  }

  /** Raising a producer's epoch: its live transactions are aborted first. */
  function FencedState(s: State, producer: string, epoch: nat): State {
    var aborted := AbortAll(s, FencedIds(s, producer), FENCED);
    aborted.(epochs := aborted.epochs[producer := epoch])
  }

  function FenceDeltas(s: State, producer: string, epoch: nat): seq<Delta> {
    var ids := FencedIds(s, producer);
    StatusDeltas(AbortAll(s, ids, FENCED), SortedNames(ids)) + [ProducerEpoch(producer, epoch)]
  }

  function Fence(c: Coordinator, producer: string, epoch: nat): Coordinator {
    AppendDeltas(c.(state := FencedState(c.state, producer, epoch)), FenceDeltas(c.state, producer, epoch))
  }

  function NewRecord(c: Coordinator, id: string, tenant: string, producer: string, epoch: nat, now: nat): Record {
    Record(id, tenant, producer, epoch, now, SatAdd(now, c.limits.maxDuration), Open, [], [], [])
  }

  function BeginStep(
    c: Coordinator, id: string, tenant: string, producer: string, epoch: nat, now: nat
  ): (Coordinator, Reply) {
    if id == "" || tenant == "" || producer == "" then (c, Failed(EmptyIdentity))
    else if id in c.state.transactions then
      var r := c.state.transactions[id];
      (c, if r.producer == producer && r.epoch == epoch then Done else Failed(IdReused))
    else if epoch < EpochOf(c.state, producer) then (c, Failed(ProducerFenced))
    else
      var c' := if epoch > EpochOf(c.state, producer) then Fence(c, producer, epoch) else c;
      if |LiveIds(c'.state)| >= c.limits.maxConcurrent then (c', Failed(ConcurrentQuota))
      else
        var r := NewRecord(c, id, tenant, producer, epoch, now);
        (AppendDeltas(c'.(state := c'.state.(transactions := c'.state.transactions[id := r])), [Begin(r)]), Done)
  }

  /** Lookup for operations that need an open, unexpired transaction. */
  function OpenError(s: State, id: string, now: nat): Option<Error> {
    if id !in s.transactions then Some(UnknownTransaction)
    else if now > s.transactions[id].deadline then Some(TimedOut)
    else if s.transactions[id].status != Open then Some(NotOpen)
    else None
  }

  /** One in-memory change with its journal delta. */
  function Update(c: Coordinator, id: string, r: Record, d: Delta): Coordinator {
    AppendDeltas(c.(state := c.state.(transactions := c.state.transactions[id := r])), [d])
  }

  function AppendStep(c: Coordinator, id: string, w: Write, now: nat): (Coordinator, Reply) {
    var failure := OpenError(c.state, id, now);
    if failure.Some? then (c, Failed(failure.value))
    else
      var r := c.state.transactions[id];
      if Messages(r) >= c.limits.maxMessages then (c, Failed(MessageQuota))
      else if TotalBytes(r) + |w.bytes| > c.limits.maxBytes then (c, Failed(ByteQuota))
      else if |Touched(r) + {(w.stream, w.partition)}| > c.limits.maxPartitions then (c, Failed(PartitionQuota))
      else (Update(c, id, r.(writes := r.writes + [w]), WriteDelta(id, w)), Done)
  }

  function CommitOffsetStep(c: Coordinator, id: string, o: OffsetCommit, now: nat): (Coordinator, Reply) {
    var failure := OpenError(c.state, id, now);
    if failure.Some? then (c, Failed(failure.value))
    else
      var r := c.state.transactions[id];
      if Messages(r) >= c.limits.maxMessages then (c, Failed(MessageQuota))
      else if |Touched(r) + {(o.stream, o.partition)}| > c.limits.maxPartitions then (c, Failed(PartitionQuota))
      else (Update(c, id, r.(offsets := r.offsets + [o]), OffsetDelta(id, o)), Done)
  }

  function MutateViewStep(c: Coordinator, id: string, v: ViewMutation, now: nat): (Coordinator, Reply) {
    var failure := OpenError(c.state, id, now);
    if failure.Some? then (c, Failed(failure.value))
    else
      var r := c.state.transactions[id];
      if Messages(r) >= c.limits.maxMessages then (c, Failed(MessageQuota))
      else if TotalBytes(r) + ValueBytes(v) > c.limits.maxBytes then (c, Failed(ByteQuota))
      else (Update(c, id, r.(views := r.views + [v]), ViewDelta(id, v)), Done)
  }

  function SetStatus(c: Coordinator, id: string, status: Status): Coordinator
    requires id in c.state.transactions
  {
    Update(c, id, c.state.transactions[id].(status := status), StatusDelta(id, status))
  }

  function PrepareStep(c: Coordinator, id: string, now: nat): (Coordinator, Reply) {
    var failure := OpenError(c.state, id, now);
    if failure.Some? then (c, Failed(failure.value)) else (SetStatus(c, id, Prepared), Done)
  }

  function BatchOf(r: Record): Batch { Batch(r.id, r.writes, r.offsets, r.views) }

  function CommitStep(c: Coordinator, id: string, now: nat): (Coordinator, Reply) {
    if id !in c.state.transactions then (c, Failed(UnknownTransaction))
    else
      var r := c.state.transactions[id];
      if now > r.deadline then (c, Failed(TimedOut))
      else if r.status != Prepared then (c, Failed(NotPrepared))
      else (SetStatus(c, id, Committed), CommittedBatch(BatchOf(r)))
  }

  function AbortStep(c: Coordinator, id: string, reason: string): (Coordinator, Reply) {
    if id !in c.state.transactions then (c, Failed(UnknownTransaction))
    else if !Live(c.state.transactions[id]) then (c, Failed(AlreadyTerminal))
    else (SetStatus(c, id, Aborted(reason)), Done)
  }

  function OverdueIds(s: State, now: nat): set<string> {
    set id | id in s.transactions && Live(s.transactions[id]) && s.transactions[id].deadline <= now
  }

  function AbortedIds(s: State): set<string> {
    set id | id in s.transactions && s.transactions[id].status.Aborted?
  }

  function RecoveredState(s: State, now: nat): State { AbortAll(s, OverdueIds(s, now), TIMEOUT) }

  function RecoverDeltas(s: State, now: nat): seq<Delta> {
    var t := RecoveredState(s, now);
    StatusDeltas(t, SortedNames(AbortedIds(t)))
  }

  /** `recover` aborts overdue transactions and journals every aborted one again. */
  function RecoverStep(c: Coordinator, now: nat): (Coordinator, Reply) {
    (AppendDeltas(c.(state := RecoveredState(c.state, now)), RecoverDeltas(c.state, now)),
     Recovered(|OverdueIds(c.state, now)|))
  }

  function VisibleBatch(s: State, id: string): Option<Batch> {
    if id in s.transactions && s.transactions[id].status == Committed then Some(BatchOf(s.transactions[id])) else None
  }

  datatype Op =
    | DoBegin(id: string, tenant: string, producer: string, epoch: nat, now: nat)
    | DoAppend(id: string, write: Write, now: nat)
    | DoOffset(id: string, offset: OffsetCommit, now: nat)
    | DoView(id: string, mutation: ViewMutation, now: nat)
    | DoPrepare(id: string, now: nat)
    | DoCommit(id: string, now: nat)
    | DoAbort(id: string, reason: string)
    | DoRecover(now: nat)

  function Apply(c: Coordinator, op: Op): (Coordinator, Reply) {
    match op
    case DoBegin(id, tenant, producer, epoch, now) => BeginStep(c, id, tenant, producer, epoch, now)
    case DoAppend(id, write, now) => AppendStep(c, id, write, now)
    case DoOffset(id, offset, now) => CommitOffsetStep(c, id, offset, now)
    case DoView(id, mutation, now) => MutateViewStep(c, id, mutation, now)
    case DoPrepare(id, now) => PrepareStep(c, id, now)
    case DoCommit(id, now) => CommitStep(c, id, now)
    case DoAbort(id, reason) => AbortStep(c, id, reason)
    case DoRecover(now) => RecoverStep(c, now)
  }

  /** `open`: the checkpoint, then the journal entry by entry. */
  function Reopen(limits: Limits, checkpoint: State, journal: seq<Delta>): Result<Coordinator, Error> {
    if LimitsError(limits).Some? then Err(BadLimits)
    else
      match Replay(checkpoint, journal)
      case None => Err(UnknownTransaction)
      case Some(s) => Ok(Coordinator(limits, true, s, checkpoint, journal))
  }

  // ----- the coordinator object -----

  /** Aborting transactions one by one, as the loops of `begin` and `recover` do. */
  method AbortEach(s: State, ids: seq<string>, reason: string) returns (t: State)
    requires forall id :: id in ids ==> id in s.transactions
    ensures t == AbortAll(s, ElementsOf(ids), reason)
  {
    t := s;
    for i := 0 to |ids|
      invariant t.epochs == s.epochs && t.transactions.Keys == s.transactions.Keys
      invariant forall id :: id in s.transactions ==>
                  t.transactions[id] == if id in ids[..i] then s.transactions[id].(status := Aborted(reason))
                                        else s.transactions[id]
    {
      t := t.(transactions := t.transactions[ids[i] := t.transactions[ids[i]].(status := Aborted(reason))]);
      assert forall id :: id in ids[..i + 1] <==> id in ids[..i] || id == ids[i];
    }
    assert ids[..|ids|] == ids;
    assert t.transactions == AbortAll(s, ElementsOf(ids), reason).transactions;
  }

  /** The status deltas collected along the way. */
  method CollectStatuses(s: State, ids: seq<string>) returns (ds: seq<Delta>)
    requires forall id :: id in ids ==> id in s.transactions
    ensures ds == StatusDeltas(s, ids)
  {
    ds := [];
    for i := 0 to |ids|
      invariant ds == StatusDeltas(s, ids[..i])
    {
      assert ids[..i + 1][..i] == ids[..i];
      ds := ds + [StatusDelta(s.transactions[ids[i]].id, s.transactions[ids[i]].status)];
    }
    assert ids[..|ids|] == ids;
  }

  /** The replay loop of `open`. */
  method ReplayLoop(checkpoint: State, journal: seq<Delta>) returns (r: Option<State>)
    ensures r == Replay(checkpoint, journal)
  {
    r := Some(checkpoint);
    for i := 0 to |journal|
      invariant r.Some? && r == Replay(checkpoint, journal[..i])
    {
      assert journal[..i + 1][..i] == journal[..i];
      r := ApplyDelta(r.value, journal[i]);
      if r.None? {
        ReplayStaysFailed(checkpoint, journal, i + 1);
        return;
      }
    }
    assert journal[..|journal|] == journal;
  }

  lemma {:induction false} ReplayStaysFailed(s: State, ds: seq<Delta>, k: nat)
    requires k <= |ds| && Replay(s, ds[..k]).None?
    ensures Replay(s, ds).None?
  {
    if k < |ds| {
      assert ds[..|ds| - 1][..k] == ds[..k];
      ReplayStaysFailed(s, ds[..|ds| - 1], k);
    } else {
      assert ds[..k] == ds;
    }
  }

  class TransactionCoordinator {
    const limits: Limits
    const durable: bool
    var transactions: map<string, Record>
    var epochs: map<string, nat>
    var journalEntries: nat
    // the files
    var checkpointFile: State
    var journalFile: seq<Delta>

    ghost predicate Valid()
      reads this
    {
      durable ==> journalEntries == |journalFile|
    }

    function View(): Coordinator
      reads this
    {
      Coordinator(limits, durable, State(transactions, epochs), checkpointFile, journalFile)
    }

    constructor (c: Coordinator)
      ensures Valid() && View() == c
    {
      limits, durable := c.limits, c.durable;
      transactions, epochs := c.state.transactions, c.state.epochs;
      checkpointFile, journalFile, journalEntries := c.checkpoint, c.journal, |c.journal|;
    }

    /** `new`: refuses zero limits, otherwise an empty coordinator without files. */
    static method New(limits: Limits) returns (failure: Option<Error>, c: TransactionCoordinator?)
      ensures failure == LimitsError(limits)
      ensures failure.None? ==>
                c != null && fresh(c) && c.Valid() && c.View() == Coordinator(limits, false, EMPTY, EMPTY, [])
    {
      c := null;
      failure := LimitsError(limits);
      if failure.None? { c := new TransactionCoordinator(Coordinator(limits, false, EMPTY, EMPTY, [])); }
    }

    static method OpenFiles(limits: Limits, checkpoint: State, journal: seq<Delta>)
      returns (failure: Option<Error>, c: TransactionCoordinator?)
      ensures match Reopen(limits, checkpoint, journal)
              case Ok(v) => failure == None && c != null && fresh(c) && c.Valid() && c.View() == v
              case Err(error) => failure == Some(error)
    {
      c := null;
      failure := LimitsError(limits);
      if failure.Some? { return; }
      var state := ReplayLoop(checkpoint, journal);
      if state.None? { return Some(UnknownTransaction), null; }
      c := new TransactionCoordinator(Coordinator(limits, true, state.value, checkpoint, journal));
    }

    method Journal(ds: seq<Delta>)
      requires Valid()
      modifies this
      ensures Valid() && View() == AppendDeltas(old(View()), ds)
    {
      if !durable || ds == [] { return; }
      for i := 0 to |ds|
        invariant Valid()
        invariant View() == old(View()).(journal := old(journalFile) + ds[..i])
      {
        journalFile := journalFile + [ds[i]];
        journalEntries := journalEntries + 1;
        assert ds[..i + 1] == ds[..i] + [ds[i]];
      }
      assert ds[..|ds|] == ds;
      if journalEntries >= JOURNAL_LIMIT { WriteCheckpoint(); }
    }

    method WriteCheckpoint()
      modifies this
      ensures Valid() && View() == Checkpoint(old(View()))
    {
      hide TerminalIds, KeepTerminal, SortedNames;
      var terminal := SortedNames(TerminalIds(State(transactions, epochs)));
      var keep := KeepTerminal(limits);
      if |terminal| > keep {
        hide ElementsOf;
        transactions := WithoutKeys(transactions, terminal[..|terminal| - keep]);
      } else {
        assert ElementsOf<string>([]) == {} && transactions - {} == transactions;
      }
      checkpointFile := State(transactions, epochs);
      journalFile := [];
      journalEntries := 0;
    }

    method BeginTransaction(id: string, tenant: string, producer: string, epoch: nat, now: nat) returns (r: Reply)
      requires Valid()
      modifies this
      ensures Valid() && (View(), r) == BeginStep(old(View()), id, tenant, producer, epoch, now)
    {
      if id == "" || tenant == "" || producer == "" { return Failed(EmptyIdentity); }
      if id in transactions {
        return if transactions[id].producer == producer && transactions[id].epoch == epoch then Done
               else Failed(IdReused);
      }
      var current := if producer in epochs then epochs[producer] else 0;
      if epoch < current { return Failed(ProducerFenced); }
      if epoch > current { FenceProducer(producer, epoch); }
      if |LiveIds(State(transactions, epochs))| >= limits.maxConcurrent { return Failed(ConcurrentQuota); }
      var record := Record(id, tenant, producer, epoch, now, SatAdd(now, limits.maxDuration), Open, [], [], []);
      transactions := transactions[id := record];
      Journal([Begin(record)]);
      r := Done;
    }

    method FenceProducer(producer: string, epoch: nat)
      requires Valid()
      modifies this
      ensures Valid() && View() == Fence(old(View()), producer, epoch)
    {
      var s := State(transactions, epochs);
      var ids := SortedNames(FencedIds(s, producer));
      var aborted := AbortEach(s, ids, FENCED);
      assert ElementsOf(ids) == FencedIds(s, producer);
      var ds := CollectStatuses(aborted, ids);
      ds := ds + [ProducerEpoch(producer, epoch)];
      transactions, epochs := aborted.transactions, aborted.epochs[producer := epoch];
      Journal(ds);
    }

    method AppendWrite(id: string, w: Write, now: nat) returns (r: Reply)
      requires Valid()
      modifies this
      ensures Valid() && (View(), r) == AppendStep(old(View()), id, w, now)
    {
      if id !in transactions { return Failed(UnknownTransaction); }
      var record := transactions[id];
      if now > record.deadline { return Failed(TimedOut); }
      if record.status != Open { return Failed(NotOpen); }
      if Messages(record) >= limits.maxMessages { return Failed(MessageQuota); }
      if TotalBytes(record) + |w.bytes| > limits.maxBytes { return Failed(ByteQuota); }
      if |Touched(record) + {(w.stream, w.partition)}| > limits.maxPartitions { return Failed(PartitionQuota); }
      transactions := transactions[id := record.(writes := record.writes + [w])];
      Journal([WriteDelta(id, w)]);
      r := Done;
    }

    method CommitOffset(id: string, o: OffsetCommit, now: nat) returns (r: Reply)
      requires Valid()
      modifies this
      ensures Valid() && (View(), r) == CommitOffsetStep(old(View()), id, o, now)
    {
      if id !in transactions { return Failed(UnknownTransaction); }
      var record := transactions[id];
      if now > record.deadline { return Failed(TimedOut); }
      if record.status != Open { return Failed(NotOpen); }
      if Messages(record) >= limits.maxMessages { return Failed(MessageQuota); }
      if |Touched(record) + {(o.stream, o.partition)}| > limits.maxPartitions { return Failed(PartitionQuota); }
      transactions := transactions[id := record.(offsets := record.offsets + [o])];
      Journal([OffsetDelta(id, o)]);
      r := Done;
    }

    method MutateView(id: string, v: ViewMutation, now: nat) returns (r: Reply)
      requires Valid()
      modifies this
      ensures Valid() && (View(), r) == MutateViewStep(old(View()), id, v, now)
    {
      if id !in transactions { return Failed(UnknownTransaction); }
      var record := transactions[id];
      if now > record.deadline { return Failed(TimedOut); }
      if record.status != Open { return Failed(NotOpen); }
      if Messages(record) >= limits.maxMessages { return Failed(MessageQuota); }
      if TotalBytes(record) + ValueBytes(v) > limits.maxBytes { return Failed(ByteQuota); }
      transactions := transactions[id := record.(views := record.views + [v])];
      Journal([ViewDelta(id, v)]);
      r := Done;
    }

    method MarkStatus(id: string, status: Status)
      requires Valid() && id in transactions
      modifies this
      ensures Valid() && View() == SetStatus(old(View()), id, status)
    {
      transactions := transactions[id := transactions[id].(status := status)];
      Journal([StatusDelta(id, status)]);
    }

    method Prepare(id: string, now: nat) returns (r: Reply)
      requires Valid()
      modifies this
      ensures Valid() && (View(), r) == PrepareStep(old(View()), id, now)
    {
      if id !in transactions { return Failed(UnknownTransaction); }
      if now > transactions[id].deadline { return Failed(TimedOut); }
      if transactions[id].status != Open { return Failed(NotOpen); }
      MarkStatus(id, Prepared);
      r := Done;
    }

    method Commit(id: string, now: nat) returns (r: Reply)
      requires Valid()
      modifies this
      ensures Valid() && (View(), r) == CommitStep(old(View()), id, now)
    {
      if id !in transactions { return Failed(UnknownTransaction); }
      if now > transactions[id].deadline { return Failed(TimedOut); }
      if transactions[id].status != Prepared { return Failed(NotPrepared); }
      var batch := BatchOf(transactions[id]);
      MarkStatus(id, Committed);
      r := CommittedBatch(batch);
    }

    method Abort(id: string, reason: string) returns (r: Reply)
      requires Valid()
      modifies this
      ensures Valid() && (View(), r) == AbortStep(old(View()), id, reason)
    {
      if id !in transactions { return Failed(UnknownTransaction); }
      if !Live(transactions[id]) { return Failed(AlreadyTerminal); }
      MarkStatus(id, Aborted(reason));
      r := Done;
    }

    method Recover(now: nat) returns (r: Reply)
      requires Valid()
      modifies this
      ensures Valid() && (View(), r) == RecoverStep(old(View()), now)
    {
      var s := State(transactions, epochs);
      var overdue := SortedNames(OverdueIds(s, now));
      var recovered := AbortEach(s, overdue, TIMEOUT);
      assert ElementsOf(overdue) == OverdueIds(s, now);
      transactions := recovered.transactions;
      var ds := CollectStatuses(recovered, SortedNames(AbortedIds(recovered)));
      Journal(ds);
      r := Recovered(|overdue|);
    }
  }
}
