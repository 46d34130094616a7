/** Two runs of the transaction coordinator (crates/server/src/transaction.rs) from empty
    files, under any limits that admit one transaction at a time, after which a checkpoint
    interrupted between its two halves fails: one leaves files that cannot be opened, the
    other repeats a write. */
module TransactionWitnesses {
  import opened Common
  import opened Transactions
  import opened TransactionJournal
  import opened TransactionPhases
  import opened TransactionRuns
  import opened TransactionCheckpoint

  function Opening(l: Limits): Coordinator { Coordinator(l, true, EMPTY, EMPTY, []) }

  predicate OneAtATime(l: Limits) { LimitsError(l).None? && l.maxConcurrent == 1 }

  function Starting(id: string): Op { DoBegin(id, "t", "p", 0, 0) }

  /** Producer q raises its epoch, which is journalled, and is then refused by the quota. */
  function Knock(epoch: nat): Op { DoBegin("x", "t", "q", epoch, 0) }

  lemma ThenDo(c: Coordinator, run: seq<Event>, op: Op)
    ensures After(c, run + [Do(op)]) == Apply(After(c, run), op).0
  {
    hide Apply;
    assert (run + [Do(op)])[..|run|] == run;
  }

  // ----- single steps -----

  predicate Writable(c: Coordinator) {
    c.durable && |c.journal| < JOURNAL_LIMIT && |TerminalIds(c.state)| <= KeepTerminal(c.limits)
  }

  function Journalled(journal: seq<Delta>, d: Delta): seq<Delta> {
    if |journal| + 1 == JOURNAL_LIMIT then [] else journal + [d]
  }

  /** Journalling one delta with nothing to prune. */
  lemma OneDelta(c: Coordinator, d: Delta)
    requires Writable(c)
    ensures var c' := AppendDeltas(c, [d]);
            && c'.state == c.state && c'.journal == Journalled(c.journal, d) && Writable(c')
            && c'.limits == c.limits
  {
    hide TerminalIds, KeepTerminal, Pruned, Prune;
    NothingPruned(c.state, c.limits);
  }

  lemma Begins(c: Coordinator, id: string)
    requires Writable(c) && OneAtATime(c.limits) && LiveIds(c.state) == {} && EpochOf(c.state, "p") == 0
    requires id != "" && id !in c.state.transactions
    ensures var c' := Apply(c, Starting(id)).0; var r := NewRecord(c, id, "t", "p", 0, 0);
            && c'.state == c.state.(transactions := c.state.transactions[id := r])
            && c'.journal == Journalled(c.journal, Begin(r)) && Writable(c') && c'.limits == c.limits
  {
    var r := NewRecord(c, id, "t", "p", 0, 0);
    var begun := c.(state := c.state.(transactions := c.state.transactions[id := r]));
    assert TerminalIds(begun.state) == TerminalIds(c.state);
    hide TerminalIds, KeepTerminal, AppendDeltas;
    OneDelta(begun, Begin(r));
  }

  lemma Prepares(c: Coordinator, id: string)
    requires Writable(c) && id in c.state.transactions && c.state.transactions[id].status == Open
    ensures var c' := Apply(c, DoPrepare(id, 0)).0;
            && c'.state == WithStatus(c.state, id, Prepared) && Writable(c') && c'.limits == c.limits
            && c'.journal == Journalled(c.journal, StatusDelta(id, Prepared))
  {
    var prepared := c.(state := WithStatus(c.state, id, Prepared));
    assert TerminalIds(prepared.state) == TerminalIds(c.state);
    hide TerminalIds, KeepTerminal, AppendDeltas;
    OneDelta(prepared, StatusDelta(id, Prepared));
  }

  lemma Commits(c: Coordinator, id: string)
    requires Writable(c) && id in c.state.transactions && c.state.transactions[id].status == Prepared
    requires |TerminalIds(c.state)| < KeepTerminal(c.limits)
    ensures var c' := Apply(c, DoCommit(id, 0)).0;
            && c'.state == WithStatus(c.state, id, Committed) && Writable(c') && c'.limits == c.limits
            && c'.journal == Journalled(c.journal, StatusDelta(id, Committed))
  {
    var committed := c.(state := WithStatus(c.state, id, Committed));
    OneMoreFinished(c.state, id);
    hide TerminalIds, KeepTerminal, AppendDeltas;
    OneDelta(committed, StatusDelta(id, Committed));
  }

  // ----- finished transactions -----

  /** The names b, bb, bbb, ... up to length n. */
  function Names(n: nat): (r: set<string>)
    ensures |r| == n && forall id :: id in r ==> 1 <= |id| <= n && id[0] == 'b'
  {
    if n == 0 then {} else Names(n - 1) + {Name(n)}
  }

  function Name(n: nat): (name: string)
    requires n > 0
    ensures |name| == n && name[0] == 'b'
  {
    seq(n, _ => 'b')
  }

  function Cycle(id: string): seq<Event> { [Do(Starting(id))] + [Do(DoPrepare(id, 0))] + [Do(DoCommit(id, 0))] }

  function Cycles(n: nat): seq<Event> { if n == 0 then [] else Cycles(n - 1) + Cycle(Name(n)) }

  /** `n` transactions have been committed one after the other. */
  predicate Finished(c: Coordinator, n: nat) {
    && Writable(c) && c.state.epochs == map[] && LiveIds(c.state) == {}
    && c.state.transactions.Keys == Names(n) && TerminalIds(c.state) == Names(n)
  }

  lemma FinishedMeans(c: Coordinator, n: nat)
    requires Finished(c, n)
    ensures Writable(c) && c.state.epochs == map[] && LiveIds(c.state) == {} && |TerminalIds(c.state)| == n
    ensures c.state.transactions.Keys == Names(n) && TerminalIds(c.state) == Names(n)
  {
  }

  /** One more finished transaction in the state. */
  lemma OneMoreName(s: State, id: string, r: Record, names: set<string>)
    requires s.transactions.Keys == names == TerminalIds(s) && id !in names && r.status == Open
    ensures var t := s.(transactions := s.transactions[id := r]);
            var u := WithStatus(t, id, Prepared); var v := WithStatus(u, id, Committed);
            && TerminalIds(u) == names && v.epochs == s.epochs && LiveIds(v) == {}
            && v.transactions.Keys == names + {id} && TerminalIds(v) == names + {id}
  {
    var v := s.transactions[id := r.(status := Committed)];
    assert s.transactions[id := r][id := r.(status := Prepared)] == s.transactions[id := r.(status := Prepared)];
    assert s.transactions[id := r.(status := Prepared)][id := r.(status := Committed)] == v;
  }

  lemma OneCycle(c: Coordinator, id: string, n: nat)
    requires Finished(c, n) && n < KeepTerminal(c.limits) && OneAtATime(c.limits) && id != "" && id !in Names(n)
    ensures var c' := Apply(Apply(Apply(c, Starting(id)).0, DoPrepare(id, 0)).0, DoCommit(id, 0)).0;
            && Writable(c') && c'.limits == c.limits && c'.state.epochs == map[] && LiveIds(c'.state) == {}
            && c'.state.transactions.Keys == Names(n) + {id} && TerminalIds(c'.state) == Names(n) + {id}
  {
    FinishedMeans(c, n);
    assert EpochOf(c.state, "p") == 0;
    var r := NewRecord(c, id, "t", "p", 0, 0);
    assert r.status == Open && r.id == id;
    hide Apply, Finished, Names, TerminalIds, LiveIds, KeepTerminal, EpochOf, Journalled, NewRecord;
    Begins(c, id);
    var begun := Apply(c, Starting(id)).0;
    Prepares(begun, id);
    var prepared := Apply(begun, DoPrepare(id, 0)).0;
    OneMoreName(c.state, id, r, Names(n));
    Commits(prepared, id);
  }

  lemma ThenCycle(c: Coordinator, run: seq<Event>, id: string)
    ensures After(c, run + Cycle(id))
         == Apply(Apply(Apply(After(c, run), Starting(id)).0, DoPrepare(id, 0)).0, DoCommit(id, 0)).0
  {
    ThenDo(c, run, Starting(id));
    ThenDo(c, run + [Do(Starting(id))], DoPrepare(id, 0));
    ThenDo(c, run + [Do(Starting(id))] + [Do(DoPrepare(id, 0))], DoCommit(id, 0));
    hide After, Apply;
    assert run + Cycle(id) == run + [Do(Starting(id))] + [Do(DoPrepare(id, 0))] + [Do(DoCommit(id, 0))];
  }

  lemma CycleFinishes(c: Coordinator, n: nat)
    requires Finished(c, n) && n < KeepTerminal(c.limits) && OneAtATime(c.limits)
    ensures var id := Name(n + 1);
            var c' := Apply(Apply(Apply(c, Starting(id)).0, DoPrepare(id, 0)).0, DoCommit(id, 0)).0;
            Finished(c', n + 1) && c'.limits == c.limits
  {
    assert Names(n + 1) == Names(n) + {Name(n + 1)} && Name(n + 1) !in Names(n) && Name(n + 1) != "";
    hide Apply, KeepTerminal, Name, Names, Writable, OneAtATime, LiveIds, TerminalIds;
    OneCycle(c, Name(n + 1), n);
  }

  lemma NoneFinished(l: Limits)
    ensures Finished(Opening(l), 0)
  {
  }

  lemma {:induction false} CyclesFinish(l: Limits, n: nat)
    requires OneAtATime(l) && n <= KeepTerminal(l)
    ensures Finished(After(Opening(l), Cycles(n)), n) && After(Opening(l), Cycles(n)).limits == l
  {
    if n == 0 {
      NoneFinished(l);
    } else {
      CyclesFinish(l, n - 1);
      hide Apply, After, KeepTerminal, Cycle, OneAtATime, Name, Names, Finished;
      ThenCycle(Opening(l), Cycles(n - 1), Name(n));
      CycleFinishes(After(Opening(l), Cycles(n - 1)), n - 1);
    }
  }

  // ----- entries that touch no transaction -----

  /** Transaction a is live, and producer q has knocked `epoch` times. */
  predicate Waiting(c: Coordinator, epoch: nat) {
    && Writable(c) && OneAtATime(c.limits) && LiveIds(c.state) == {"a"} && c.state.transactions["a"].producer == "p"
    && "x" !in c.state.transactions && EpochOf(c.state, "q") == epoch
  }

  lemma OneKnock(c: Coordinator, epoch: nat)
    requires Waiting(c, epoch)
    ensures var c' := Apply(c, Knock(epoch + 1)).0;
            && Waiting(c', epoch + 1) && c'.limits == c.limits && c'.state.transactions == c.state.transactions
            && c'.journal == Journalled(c.journal, ProducerEpoch("q", epoch + 1))
  {
    var d := ProducerEpoch("q", epoch + 1);
    var fenced := c.(state := c.state.(epochs := c.state.epochs["q" := epoch + 1]));
    NobodyFenced(c.state, epoch + 1);
    assert TerminalIds(fenced.state) == TerminalIds(c.state) && LiveIds(fenced.state) == LiveIds(c.state);
    hide TerminalIds, KeepTerminal, AppendDeltas, LiveIds, FencedState, FenceDeltas;
    OneDelta(fenced, d);
    assert |{"a"}| == 1;
  }

  lemma NobodyFenced(s: State, epoch: nat)
    requires LiveIds(s) == {"a"} && s.transactions["a"].producer == "p"
    ensures FenceDeltas(s, "q", epoch) == [ProducerEpoch("q", epoch)]
    ensures FencedState(s, "q", epoch) == s.(epochs := s.epochs["q" := epoch])
  {
    assert FencedIds(s, "q") <= LiveIds(s) && "a" !in FencedIds(s, "q");
    assert FencedIds(s, "q") == {};
    assert SortedNames({}) == [];
    assert AbortAll(s, {}, FENCED).transactions == s.transactions;
  }

  predicate OnlyEpochs(ds: seq<Delta>) { forall i :: 0 <= i < |ds| ==> ds[i].ProducerEpoch? }

  function Knocks(from: nat, n: nat): seq<Event> {
    if n == 0 then [] else Knocks(from, n - 1) + [Do(Knock(from + n))]
  }

  /** Knocking until the journal is full empties it, and less than that adds epochs only. */
  predicate Filled(was: Coordinator, now: Coordinator, from: nat, n: nat) {
    && Waiting(now, from + n) && now.limits == was.limits && now.state.transactions == was.state.transactions
    && |now.journal| == (if n > 0 && |was.journal| + n == JOURNAL_LIMIT then 0 else |was.journal| + n)
    && (OnlyEpochs(was.journal) ==> OnlyEpochs(now.journal))
  }

  lemma FilledStep(was: Coordinator, front: Coordinator, from: nat, n: nat)
    requires Filled(was, front, from, n) && |was.journal| + n < JOURNAL_LIMIT
    ensures Filled(was, Apply(front, Knock(from + n + 1)).0, from, n + 1)
  {
    hide Apply, Waiting;
    OneKnock(front, from + n);
  }

  lemma OneMoreKnock(run: seq<Event>, from: nat, n: nat)
    requires n > 0
    ensures run + Knocks(from, n) == run + Knocks(from, n - 1) + [Do(Knock(from + n))]
  {
  }

  lemma FilledNone(c: Coordinator, from: nat)
    requires Waiting(c, from)
    ensures Filled(c, c, from, 0)
  {
    hide Waiting;
  }

  lemma {:induction false} KnocksFill(c: Coordinator, run: seq<Event>, from: nat, n: nat)
    requires Waiting(After(c, run), from) && |After(c, run).journal| + n <= JOURNAL_LIMIT
    ensures Filled(After(c, run), After(c, run + Knocks(from, n)), from, n)
  {
    hide Apply, After, Waiting, Filled, Knock;
    if n == 0 {
      assert run + [] == run;
      FilledNone(After(c, run), from);
    } else {
      hide Knocks;
      KnocksFill(c, run, from, n - 1);
      OneMoreKnock(run, from, n);
      ThenDo(c, run + Knocks(from, n - 1), Knock(from + n));
      FilledStep(After(c, run), After(c, run + Knocks(from, n - 1)), from, n - 1);
    }
  }

  lemma {:induction false} EpochsPushNothing(ds: seq<Delta>, id: string)
    requires OnlyEpochs(ds)
    ensures !Begun(ds, id) && PushedTo(ds, id) == Pushed([], [], [])
  {
    if ds != [] { EpochsPushNothing(ds[..|ds| - 1], id); }
  }

  /** First until the next checkpoint, then until the journal lacks one entry. */
  lemma KnocksTwice(c: Coordinator, run: seq<Event>, first: nat)
    requires Waiting(After(c, run), 0) && |After(c, run).journal| + first == JOURNAL_LIMIT && first > 0
    ensures var was, now := After(c, run), After(c, run + Knocks(0, first) + Knocks(first, JOURNAL_LIMIT - 1));
            && Waiting(now, first + JOURNAL_LIMIT - 1) && now.limits == was.limits
            && now.state.transactions == was.state.transactions
            && |now.journal| == JOURNAL_LIMIT - 1 && OnlyEpochs(now.journal)
  {
    hide Apply, After, Waiting, Knocks;
    KnocksFill(c, run, 0, first);
    KnocksFill(c, run + Knocks(0, first), first, JOURNAL_LIMIT - 1);
  }

  // ----- nothing but operations -----

  predicate OnlyOps(run: seq<Event>) { forall i :: 0 <= i < |run| ==> run[i].Do? }

  lemma {:induction false} OpsAreSynced(c: Coordinator, run: seq<Event>)
    requires OnlyOps(run)
    ensures SyncedRun(c, run)
  {
    hide After;
    if run != [] { OpsAreSynced(c, run[..|run| - 1]); }
  }

  lemma {:induction false} KnocksAreOps(from: nat, n: nat)
    ensures OnlyOps(Knocks(from, n))
  {
    if n > 0 { KnocksAreOps(from, n - 1); }
  }

  lemma {:induction false} CyclesAreOps(n: nat)
    ensures OnlyOps(Cycles(n))
  {
    if n > 0 { CyclesAreOps(n - 1); }
  }

  // ----- the two runs -----

  /** Knocks until the next checkpoint, and on until one entry is missing for another. */
  function Knocking(c: Coordinator, run: seq<Event>): seq<Event> {
    var journal := After(c, run).journal;
    var first := if |journal| < JOURNAL_LIMIT then JOURNAL_LIMIT - |journal| else 0;
    run + Knocks(0, first) + Knocks(first, JOURNAL_LIMIT - 1)
  }

  lemma KnockingWaits(c: Coordinator, run: seq<Event>)
    requires Waiting(After(c, run), 0)
    ensures var was, now := After(c, run), After(c, Knocking(c, run));
            && Writable(now) && now.limits == was.limits && now.state.transactions == was.state.transactions
            && |now.journal| == JOURNAL_LIMIT - 1 && OnlyEpochs(now.journal)
  {
    hide After, Knocks, TerminalIds, LiveIds, KeepTerminal, EpochOf;
    KnocksTwice(c, run, JOURNAL_LIMIT - |After(c, run).journal|);
  }

  lemma KnockingIsOps(c: Coordinator, run: seq<Event>)
    requires OnlyOps(run)
    ensures OnlyOps(Knocking(c, run))
  {
    hide Knocks, After;
    var journal := After(c, run).journal;
    var first := if |journal| < JOURNAL_LIMIT then JOURNAL_LIMIT - |journal| else 0;
    KnocksAreOps(0, first);
    KnocksAreOps(first, JOURNAL_LIMIT - 1);
  }

  /** As many committed transactions as a checkpoint keeps, and then a prepared one whose
      name sorts first. */
  function UntilPrepared(l: Limits): seq<Event> {
    Cycles(KeepTerminal(l)) + [Do(Starting("a"))] + [Do(DoPrepare("a", 0))]
  }

  function BlockingRun(l: Limits): seq<Event> { Knocking(Opening(l), UntilPrepared(l)) }

  lemma PreparedAfterCycles(l: Limits)
    requires OneAtATime(l)
    ensures var c := After(Opening(l), UntilPrepared(l));
            && Waiting(c, 0) && c.limits == l && c.state.transactions["a"].status == Prepared
            && TerminalIds(c.state) == Names(KeepTerminal(l))
  {
    var n := KeepTerminal(l);
    CyclesFinish(l, n);
    hide Apply, After, KeepTerminal, Cycles, Names, Finished, Waiting, TerminalIds, OneAtATime;
    var run := Cycles(n);
    ThenDo(Opening(l), run, Starting("a"));
    ThenDo(Opening(l), run + [Do(Starting("a"))], DoPrepare("a", 0));
    PreparedNext(After(Opening(l), run), n);
  }

  lemma PreparedNext(full: Coordinator, n: nat)
    requires Finished(full, n) && OneAtATime(full.limits)
    ensures var c := Apply(Apply(full, Starting("a")).0, DoPrepare("a", 0)).0;
            && Waiting(c, 0) && c.limits == full.limits && c.state.transactions["a"].status == Prepared
            && TerminalIds(c.state) == Names(n)
  {
    FinishedMeans(full, n);
    var r := NewRecord(full, "a", "t", "p", 0, 0);
    assert "a" !in Names(n) && "x" !in Names(n) && r.status == Open;
    assert EpochOf(full.state, "p") == 0 && r.producer == "p";
    hide Apply, Finished, Names, TerminalIds, LiveIds, KeepTerminal, NewRecord, Journalled, Writable;
    Begins(full, "a");
    var begun := Apply(full, Starting("a")).0;
    Prepares(begun, "a");
    PreparedShape(full.state, r, Names(n));
  }

  lemma PreparedShape(s: State, r: Record, names: set<string>)
    requires s.transactions.Keys == names == TerminalIds(s) && "a" !in names && "x" !in names && r.status == Open
    ensures var t := s.(transactions := s.transactions["a" := r]); var u := WithStatus(t, "a", Prepared);
            LiveIds(u) == {"a"} && TerminalIds(u) == names && "x" !in u.transactions
  {
  }

  lemma BlockingRunIsSynced(l: Limits)
    ensures SyncedRun(Opening(l), BlockingRun(l))
  {
    hide Cycles, Knocking, SyncedRun, KeepTerminal;
    CyclesAreOps(KeepTerminal(l));
    KnockingIsOps(Opening(l), UntilPrepared(l));
    OpsAreSynced(Opening(l), BlockingRun(l));
  }

  /** A commit reached from empty files whose checkpoint, interrupted, leaves files that
      cannot be opened. */
  lemma InterruptedCheckpointBlocksReopening(l: Limits)
    requires OneAtATime(l)
    ensures var c := After(Opening(l), BlockingRun(l)); var ps := Phases(c, DoCommit("a", 0));
            && Fresh(Opening(l)) && SyncedRun(Opening(l), BlockingRun(l))
            && Apply(c, DoCommit("a", 0)).1.CommittedBatch?
            && |ps| == 1 && Settle(ps[0]).journal == [] && Interrupted(ps[0]).Err?
  {
    var run := BlockingRun(l);
    var c := After(Opening(l), run);
    BlockingRunIsSynced(l);
    hide Apply, After, KeepTerminal, Names, Knocking, UntilPrepared, Begun, Phases, Settle, Interrupted, LexLe,
         TerminalIds;
    hide Inv, SyncedRun;
    PreparedAfterCycles(l);
    KnockingWaits(Opening(l), UntilPrepared(l));
    FreshIsGood(Opening(l));
    RunKeepsInv(Opening(l), run);
    SameFinished(After(Opening(l), UntilPrepared(l)).state, c.state);
    forall other | other in TerminalIds(c.state) ensures LexLe("a", other) { SortsFirst(other); }
    EpochsPushNothing(c.journal, "a");
    PruningBlocksReopening(c, "a", 0);
    CommitReplies(c, "a");
  }

  lemma SameFinished(a: State, b: State)
    requires a.transactions == b.transactions
    ensures TerminalIds(a) == TerminalIds(b)
  {
  }

  lemma CommitReplies(c: Coordinator, id: string)
    requires id in c.state.transactions && c.state.transactions[id].status == Prepared
    ensures Apply(c, DoCommit(id, 0)).1.CommittedBatch?
  {
    hide AppendDeltas;
  }

  lemma SortsFirst(other: string)
    requires other != "" && other[0] == 'b'
    ensures LexLe("a", other)
  {
  }

  function RepeatingRun(l: Limits): seq<Event> { Knocking(Opening(l), [Do(Starting("a"))]) }

  const W := Write("orders", 0, 0, [])

  lemma StartedFirst(l: Limits)
    requires OneAtATime(l)
    ensures var c := After(Opening(l), [Do(Starting("a"))]);
            && Waiting(c, 0) && c.limits == l
            && c.state.transactions["a"] == NewRecord(Opening(l), "a", "t", "p", 0, 0) && TerminalIds(c.state) == {}
  {
    var c := Opening(l);
    assert LiveIds(c.state) == {} && TerminalIds(c.state) == {};
    Begins(c, "a");
    assert [] + [Do(Starting("a"))] == [Do(Starting("a"))];
    ThenDo(c, [], Starting("a"));
    hide Apply;
    var begun := After(c, [Do(Starting("a"))]);
    assert LiveIds(begun.state) == {"a"} && TerminalIds(begun.state) == {};
  }

  lemma RepeatingRunIsSynced(l: Limits)
    ensures SyncedRun(Opening(l), RepeatingRun(l))
  {
    hide Knocking, SyncedRun;
    KnockingIsOps(Opening(l), [Do(Starting("a"))]);
    OpsAreSynced(Opening(l), RepeatingRun(l));
  }

  lemma WriteTaken(c: Coordinator)
    requires LimitsError(c.limits).None? && "a" in c.state.transactions
    requires var r := c.state.transactions["a"]; r.status == Open && r.writes == [] && r.offsets == [] && r.views == []
    ensures Apply(c, DoAppend("a", W, 0)).1.Done?
  {
    hide AppendDeltas;
    var r := c.state.transactions["a"];
    assert Touched(r) + {("orders", 0)} == {("orders", 0)};
    assert |{("orders", 0)}| == 1;
  }

  /** A write reached from empty files whose checkpoint, interrupted, leaves it there twice. */
  lemma InterruptedCheckpointRepeatsAWrite(l: Limits)
    requires OneAtATime(l)
    ensures var c := After(Opening(l), RepeatingRun(l)); var ps := Phases(c, DoAppend("a", W, 0));
            && Fresh(Opening(l)) && SyncedRun(Opening(l), RepeatingRun(l))
            && |ps| == 1 && Settle(ps[0]).journal == [] && Interrupted(ps[0]).Ok?
            && (var memory, again := Settle(ps[0]).state.transactions, Interrupted(ps[0]).value.state.transactions;
                "a" in memory && "a" in again && memory["a"].writes == [W] && again["a"].writes == [W, W])
  {
    var c := After(Opening(l), RepeatingRun(l));
    RepeatingRunIsSynced(l);
    hide Apply, After, KeepTerminal, Knocking, Begun, Phases, Settle, Interrupted, TerminalIds, PushedTo, Inv,
         SyncedRun;
    StartedFirst(l);
    KnockingWaits(Opening(l), [Do(Starting("a"))]);
    FreshIsGood(Opening(l));
    RunKeepsInv(Opening(l), RepeatingRun(l));
    SameFinished(After(Opening(l), [Do(Starting("a"))]).state, c.state);
    WriteTaken(c);
    EpochsPushNothing(c.journal, "a");
    WritesAreRepeated(c, "a", W, 0);
  }
}
