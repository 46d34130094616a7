/** A checkpoint interrupted between renaming the new state file and emptying the journal
    (crates/server/src/transaction.rs): exactly when reopening still gives the memory back,
    and exactly when it fails. */
module TransactionCheckpoint {
  import opened Common
  import opened Transactions
  import opened TransactionJournal
  import opened TransactionPhases

  /** The transaction a delta needs to find. */
  function Needs(d: Delta): Option<string> {
    match d
    case WriteDelta(id, _) => Some(id)
    case OffsetDelta(id, _) => Some(id)
    case ViewDelta(id, _) => Some(id)
    case StatusDelta(id, _) => Some(id)
    case _ => None
  }

  /** A delta that pushes onto its transaction. */
  predicate Pushes(d: Delta) { d.WriteDelta? || d.OffsetDelta? || d.ViewDelta? }

  predicate Starts(d: Delta, id: string) { d.Begin? && d.record.id == id }

  predicate Begun(ds: seq<Delta>, id: string) {
    ds != [] && (Starts(ds[|ds| - 1], id) || Begun(ds[..|ds| - 1], id))
  }

  /** Every push comes after the beginning of its transaction in the same journal. */
  predicate SelfContained(ds: seq<Delta>) {
    forall i :: 0 <= i < |ds| && Pushes(ds[i]) ==> Begun(ds[..i], Needs(ds[i]).value)
  }

  predicate Names(d: Delta, id: string) { Needs(d) == Some(id) || Starts(d, id) }

  lemma {:induction false} BegunIff(ds: seq<Delta>, id: string)
    ensures Begun(ds, id) <==> exists i :: 0 <= i < |ds| && Starts(ds[i], id)
  {
    if ds != [] {
      var front := ds[..|ds| - 1];
      BegunIff(front, id);
      assert forall i :: 0 <= i < |front| ==> front[i] == ds[i];
      if Begun(front, id) {
        var i :| 0 <= i < |front| && Starts(front[i], id);
        assert Starts(ds[i], id);
      }
    }
  }

  lemma BegunEarlier(ds: seq<Delta>, k: nat, id: string)
    requires k <= |ds| && Begun(ds[..k], id)
    ensures Begun(ds, id)
  {
    BegunIff(ds[..k], id);
    var i :| 0 <= i < k && Starts(ds[..k][i], id);
    assert Starts(ds[i], id);
    BegunIff(ds, id);
  }

  // ----- which transactions a replay has, and when it fails -----

  lemma {:induction false} ReplayKeys(s: State, ds: seq<Delta>, id: string)
    requires Replay(s, ds).Some?
    ensures id in Replay(s, ds).value.transactions <==> id in s.transactions || Begun(ds, id)
  {
    if ds != [] { ReplayKeys(s, ds[..|ds| - 1], id); }
  }

  /** The entry needs a transaction that neither the start state nor the journal before it has. */
  predicate Dangling(s: State, ds: seq<Delta>, i: nat)
    requires i < |ds|
  {
    Needs(ds[i]).Some? && Needs(ds[i]).value !in s.transactions && !Begun(ds[..i], Needs(ds[i]).value)
  }

  lemma LastFailsIff(s: State, ds: seq<Delta>)
    requires ds != [] && Replay(s, ds[..|ds| - 1]).Some?
    ensures Replay(s, ds).None? <==> Dangling(s, ds, |ds| - 1)
  {
    var d := ds[|ds| - 1];
    if Needs(d).Some? { ReplayKeys(s, ds[..|ds| - 1], Needs(d).value); }
  }

  lemma {:induction false} ReplayFailsIff(s: State, ds: seq<Delta>)
    ensures Replay(s, ds).None? <==> exists i :: 0 <= i < |ds| && Dangling(s, ds, i)
  {
    if ds != [] {
      var n := |ds| - 1;
      var front := ds[..n];
      ReplayFailsIff(s, front);
      assert Replay(s, front).None? ==> Replay(s, ds).None?;
      if Replay(s, front).Some? { LastFailsIff(s, ds); }
      forall i | 0 <= i < n ensures Dangling(s, ds, i) <==> Dangling(s, front, i) {
        assert front[i] == ds[i] && front[..i] == ds[..i];
      }
      hide Replay, Dangling;
      if Replay(s, front).None? {
        var i :| 0 <= i < n && Dangling(s, front, i);
        assert Dangling(s, ds, i);
      }
    }
  }

  // ----- one transaction through a journal -----

  function Slot(s: State, id: string): Option<Record> {
    if id in s.transactions then Some(s.transactions[id]) else None
  }

  function Touch(slot: Option<Record>, d: Delta, id: string): Option<Record> {
    if Starts(d, id) then Some(d.record)
    else if slot.None? || Needs(d) != Some(id) then slot
    else
      var r := slot.value;
      match d
      case WriteDelta(_, w) => Some(r.(writes := r.writes + [w]))
      case OffsetDelta(_, o) => Some(r.(offsets := r.offsets + [o]))
      case ViewDelta(_, v) => Some(r.(views := r.views + [v]))
      case StatusDelta(_, status) => Some(r.(status := status))
      case _ => slot
  }

  function SlotAfter(slot: Option<Record>, ds: seq<Delta>, id: string): Option<Record> {
    if ds == [] then slot else Touch(SlotAfter(slot, ds[..|ds| - 1], id), ds[|ds| - 1], id)
  }

  lemma {:induction false} ReplaySlot(s: State, ds: seq<Delta>, id: string)
    requires Replay(s, ds).Some?
    ensures Slot(Replay(s, ds).value, id) == SlotAfter(Slot(s, id), ds, id)
  {
    if ds != [] { ReplaySlot(s, ds[..|ds| - 1], id); }
  }

  lemma {:induction false} BegunForgets(a: Option<Record>, b: Option<Record>, ds: seq<Delta>, id: string)
    requires Begun(ds, id)
    ensures SlotAfter(a, ds, id) == SlotAfter(b, ds, id)
  {
    if !Starts(ds[|ds| - 1], id) { BegunForgets(a, b, ds[..|ds| - 1], id); }
  }

  lemma {:induction false} Untouched(slot: Option<Record>, ds: seq<Delta>, id: string)
    requires forall d :: d in ds ==> !Names(d, id)
    ensures SlotAfter(slot, ds, id) == slot
  {
    if ds != [] {
      assert ds[|ds| - 1] in ds;
      Untouched(slot, ds[..|ds| - 1], id);
    }
  }

  /** Without a beginning and without pushes only the status moves, and it ends where the
      last entry puts it, wherever it began. */
  lemma {:induction false} StatusesRepeat(slot: Option<Record>, status: Status, ds: seq<Delta>, id: string)
    requires slot.Some? && forall d :: d in ds ==> !Starts(d, id) && !(Pushes(d) && Needs(d) == Some(id))
    ensures SlotAfter(slot, ds, id).Some?
    ensures var r := SlotAfter(slot, ds, id).value;
            && r == slot.value.(status := r.status)
            && (SlotAfter(Some(slot.value.(status := status)), ds, id) == Some(r)
                || (r == slot.value
                      && SlotAfter(Some(slot.value.(status := status)), ds, id) == Some(slot.value.(status := status))))
  {
    if ds != [] {
      assert ds[|ds| - 1] in ds;
      StatusesRepeat(slot, status, ds[..|ds| - 1], id);
    }
  }

  lemma StatusesSettle(slot: Option<Record>, ds: seq<Delta>, id: string)
    requires slot.Some? && forall d :: d in ds ==> !Starts(d, id) && !(Pushes(d) && Needs(d) == Some(id))
    ensures SlotAfter(SlotAfter(slot, ds, id), ds, id) == SlotAfter(slot, ds, id)
  {
    StatusesRepeat(slot, slot.value.status, ds, id);
    var r := SlotAfter(slot, ds, id).value;
    StatusesRepeat(slot, r.status, ds, id);
  }

  function PushCount(ds: seq<Delta>, id: string): nat {
    if ds == [] then 0
    else PushCount(ds[..|ds| - 1], id) + if Pushes(ds[|ds| - 1]) && Needs(ds[|ds| - 1]) == Some(id) then 1 else 0
  }

  lemma {:induction false} PushesAccumulate(slot: Option<Record>, ds: seq<Delta>, id: string)
    requires slot.Some? && !Begun(ds, id)
    ensures SlotAfter(slot, ds, id).Some?
    ensures Messages(SlotAfter(slot, ds, id).value) == Messages(slot.value) + PushCount(ds, id)
  {
    if ds != [] { PushesAccumulate(slot, ds[..|ds| - 1], id); }
  }

  lemma {:induction false} PushCounted(ds: seq<Delta>, i: nat, id: string)
    requires i < |ds| && Pushes(ds[i]) && Needs(ds[i]) == Some(id)
    ensures PushCount(ds, id) > 0
  {
    if i < |ds| - 1 { PushCounted(ds[..|ds| - 1], i, id); }
  }

  // ----- producer epochs -----

  function EpochSlot(s: State, p: string): Option<nat> { if p in s.epochs then Some(s.epochs[p]) else None }

  function LastEpoch(slot: Option<nat>, ds: seq<Delta>, p: string): Option<nat> {
    if ds == [] then slot
    else
      var d := ds[|ds| - 1];
      if d.ProducerEpoch? && d.producer == p then Some(d.epoch) else LastEpoch(slot, ds[..|ds| - 1], p)
  }

  lemma {:induction false} ReplayEpoch(s: State, ds: seq<Delta>, p: string)
    requires Replay(s, ds).Some?
    ensures EpochSlot(Replay(s, ds).value, p) == LastEpoch(EpochSlot(s, p), ds, p)
  {
    if ds != [] { ReplayEpoch(s, ds[..|ds| - 1], p); }
  }

  lemma {:induction false} LastEpochSettles(slot: Option<nat>, ds: seq<Delta>, p: string)
    ensures LastEpoch(LastEpoch(slot, ds, p), ds, p) == LastEpoch(slot, ds, p)
    ensures forall other :: LastEpoch(slot, ds, p) == slot || LastEpoch(other, ds, p) == LastEpoch(slot, ds, p)
  {
    if ds != [] { LastEpochSettles(slot, ds[..|ds| - 1], p); }
  }

  // ----- the interrupted checkpoint -----

  /** A good journal begins a transaction only once, before anything needs it. */
  lemma BegunBeforeNeeded(s: State, ds: seq<Delta>, l: Limits, i: nat, id: string)
    requires GoodJournal(s, ds, l) && i < |ds| && Needs(ds[i]) == Some(id)
    ensures Begun(ds, id) ==> Begun(ds[..i], id)
    ensures !Begun(ds[..i], id) ==> id in s.transactions
  {
    JournalPrefix(s, ds, i + 1, l);
    assert ds[..i + 1][..i] == ds[..i];
    ReplayKeys(s, ds[..i], id);
    if !Begun(ds[..i], id) {
      assert id in s.transactions by { hide RecordOk; }
      KnownIsNotBegun(s, ds, l, id);
    }
  }

  lemma {:induction false} KnownIsNotBegun(s: State, ds: seq<Delta>, l: Limits, id: string)
    requires GoodJournal(s, ds, l) && id in s.transactions
    ensures !Begun(ds, id)
  {
    hide RecordOk, LiveIds;
    if ds != [] {
      KnownIsNotBegun(s, ds[..|ds| - 1], l, id);
      ReplayKeys(s, ds[..|ds| - 1], id);
    }
  }

  /** The state file of a checkpoint that drops some finished transactions. */
  function Kept(t: State, gone: set<string>): State { t.(transactions := t.transactions - gone) }

  /** The entry needs a dropped transaction that the journal does not begin before it. */
  predicate NeedsGone(ds: seq<Delta>, gone: set<string>, i: nat)
    requires i < |ds|
  {
    Needs(ds[i]).Some? && Needs(ds[i]).value in gone && !Begun(ds[..i], Needs(ds[i]).value)
  }

  /** Reopening on the new state file and the old journal fails if and only if some entry
      needs a dropped transaction that the journal does not begin itself. */
  lemma InterruptedReopenFailsIff(s: State, ds: seq<Delta>, l: Limits, gone: set<string>)
    requires GoodJournal(s, ds, l) && Replay(s, ds).Some?
    ensures Replay(Kept(Replay(s, ds).value, gone), ds).None?
       <==> exists i :: 0 <= i < |ds| && NeedsGone(ds, gone, i)
  {
    var t := Replay(s, ds).value;
    var kept := Kept(t, gone);
    ReplayFailsIff(kept, ds);
    forall i | 0 <= i < |ds| ensures Dangling(kept, ds, i) <==> NeedsGone(ds, gone, i) {
      if Needs(ds[i]).Some? && !Begun(ds[..i], Needs(ds[i]).value) {
        BegunBeforeNeeded(s, ds, l, i, Needs(ds[i]).value);
        ReplayKeys(s, ds, Needs(ds[i]).value);
      }
    }
    hide GoodJournal, Replay, Begun, Dangling, NeedsGone;
    if i :| 0 <= i < |ds| && Dangling(kept, ds, i) { assert NeedsGone(ds, gone, i); }
    if i :| 0 <= i < |ds| && NeedsGone(ds, gone, i) { assert Dangling(kept, ds, i); }
  }

  predicate NamesNone(ds: seq<Delta>, gone: set<string>) {
    forall i, id :: 0 <= i < |ds| && id in gone ==> !Names(ds[i], id)
  }

  /** Each transaction comes back. */
  lemma SlotReturns(s: State, ds: seq<Delta>, l: Limits, gone: set<string>, id: string)
    requires GoodJournal(s, ds, l) && Replay(s, ds).Some? && SelfContained(ds) && NamesNone(ds, gone)
    ensures var kept := Kept(Replay(s, ds).value, gone); SlotAfter(Slot(kept, id), ds, id) == Slot(kept, id)
  {
    hide GoodJournal, Replay;
    var t := Replay(s, ds).value;
    var kept := Kept(t, gone);
    ReplaySlot(s, ds, id);
    if id in gone || id !in t.transactions || forall d :: d in ds ==> !Names(d, id) {
      if id !in gone && id !in t.transactions { ReplayKeys(s, ds, id); NeverNamed(s, ds, l, id); }
      Untouched(Slot(kept, id), ds, id);
    } else if Begun(ds, id) {
      BegunForgets(Slot(kept, id), Slot(s, id), ds, id);
    } else {
      forall d | d in ds ensures !Starts(d, id) && !(Pushes(d) && Needs(d) == Some(id)) {
        var i :| 0 <= i < |ds| && ds[i] == d;
        BegunIff(ds, id);
        if Begun(ds[..i], id) { BegunEarlier(ds, i, id); }
      }
      ReplayKeys(s, ds, id);
      StatusesSettle(Slot(s, id), ds, id);
    }
  }

  lemma NeverNamed(s: State, ds: seq<Delta>, l: Limits, id: string)
    requires GoodJournal(s, ds, l) && id !in s.transactions && !Begun(ds, id)
    ensures forall d :: d in ds ==> !Names(d, id)
  {
    BegunIff(ds, id);
    forall d | d in ds ensures !Names(d, id) {
      var i :| 0 <= i < |ds| && ds[i] == d;
      if Needs(d) == Some(id) {
        BegunBeforeNeeded(s, ds, l, i, id);
        if Begun(ds[..i], id) { BegunEarlier(ds, i, id); }
      }
    }
  }

  lemma SameSlots(a: State, b: State)
    requires (forall id :: Slot(a, id) == Slot(b, id)) && forall p :: EpochSlot(a, p) == EpochSlot(b, p)
    ensures a == b
  {
    forall id ensures id in a.transactions <==> id in b.transactions { assert Slot(a, id) == Slot(b, id); }
    forall id | id in a.transactions ensures a.transactions[id] == b.transactions[id] {
      assert Slot(a, id) == Slot(b, id);
    }
    forall p ensures p in a.epochs <==> p in b.epochs { assert EpochSlot(a, p) == EpochSlot(b, p); }
    forall p | p in a.epochs ensures a.epochs[p] == b.epochs[p] { assert EpochSlot(a, p) == EpochSlot(b, p); }
    assert a.transactions == b.transactions && a.epochs == b.epochs;
  }

  lemma SelfContainedReturns(s: State, ds: seq<Delta>, l: Limits, gone: set<string>)
    requires GoodJournal(s, ds, l) && Replay(s, ds).Some? && SelfContained(ds) && NamesNone(ds, gone)
    ensures Replay(Kept(Replay(s, ds).value, gone), ds) == Some(Kept(Replay(s, ds).value, gone))
  {
    var kept := Kept(Replay(s, ds).value, gone);
    InterruptedReopenFailsIff(s, ds, l, gone);
    hide GoodJournal, Replay, SelfContained, Slot, EpochSlot;
    assert forall i, id :: 0 <= i < |ds| && id in gone ==> !Names(ds[i], id);
    assert Replay(kept, ds).Some?;
    forall id ensures Slot(Replay(kept, ds).value, id) == Slot(kept, id) {
      ReplaySlot(kept, ds, id);
      SlotReturns(s, ds, l, gone, id);
    }
    forall p ensures EpochSlot(Replay(kept, ds).value, p) == EpochSlot(kept, p) {
      ReplayEpoch(kept, ds, p);
      ReplayEpoch(s, ds, p);
      SameEpochs(Replay(s, ds).value, gone, p);
      LastEpochSettles(EpochSlot(s, p), ds, p);
    }
    SameSlots(Replay(kept, ds).value, kept);
  }

  lemma SameEpochs(t: State, gone: set<string>, p: string)
    ensures EpochSlot(Kept(t, gone), p) == EpochSlot(t, p)
  {
  }

  /** A push onto a transaction begun before the journal is applied a second time. */
  lemma ReturnMeansSelfContained(s: State, ds: seq<Delta>, l: Limits, gone: set<string>, i: nat)
    requires GoodJournal(s, ds, l) && Replay(s, ds).Some?
    requires Replay(Kept(Replay(s, ds).value, gone), ds) == Some(Kept(Replay(s, ds).value, gone))
    requires i < |ds| && Pushes(ds[i])
    ensures Begun(ds[..i], Needs(ds[i]).value)
  {
    var kept, id := Kept(Replay(s, ds).value, gone), Needs(ds[i]).value;
    if !Begun(ds[..i], id) {
      BegunBeforeNeeded(s, ds, l, i, id);
      ReplayFailsIff(kept, ds);
      hide GoodJournal, Replay;
      assert !Dangling(kept, ds, i);
      ReplaySlot(kept, ds, id);
      PushesAccumulate(Slot(kept, id), ds, id);
      PushCounted(ds, i, id);
      assert false;
    }
  }

  lemma ReturnMeansNamesNone(s: State, ds: seq<Delta>, gone: set<string>, i: nat, id: string)
    requires Replay(s, ds).Some?
    requires Replay(Kept(Replay(s, ds).value, gone), ds) == Some(Kept(Replay(s, ds).value, gone))
    requires i < |ds| && id in gone
    ensures !Names(ds[i], id)
  {
    var kept := Kept(Replay(s, ds).value, gone);
    ReplayFailsIff(kept, ds);
    ReplayKeys(kept, ds, id);
    BegunIff(ds, id);
    hide Replay;
    assert !Dangling(kept, ds, i);
    if Needs(ds[i]) == Some(id) && Begun(ds[..i], id) { BegunEarlier(ds, i, id); }
  }

  /** Reopening on the new state file and the old journal gives the memory back if and only if
      every push in the journal comes after the beginning of its transaction in the journal,
      and the journal does not name a transaction the checkpoint dropped. */
  lemma InterruptedReopenReturnsIff(s: State, ds: seq<Delta>, l: Limits, gone: set<string>)
    requires GoodJournal(s, ds, l) && Replay(s, ds).Some?
    ensures Replay(Kept(Replay(s, ds).value, gone), ds) == Some(Kept(Replay(s, ds).value, gone))
       <==> SelfContained(ds) && NamesNone(ds, gone)
  {
    hide GoodJournal, Replay, Begun, Kept;
    var kept := Kept(Replay(s, ds).value, gone);
    if Replay(kept, ds) == Some(kept) {
      forall i | 0 <= i < |ds| && Pushes(ds[i]) ensures Begun(ds[..i], Needs(ds[i]).value) {
        ReturnMeansSelfContained(s, ds, l, gone, i);
      }
      forall i, id | 0 <= i < |ds| && id in gone ensures !Names(ds[i], id) {
        ReturnMeansNamesNone(s, ds, gone, i, id);
      }
    }
    if SelfContained(ds) && NamesNone(ds, gone) { SelfContainedReturns(s, ds, l, gone); }
  }

  /** The files between the rename and the emptying of the journal. */
  function Interrupted(p: Phase): Result<Coordinator, Error> {
    Reopen(p.base.limits, Prune(p.after, p.base.limits), p.base.journal + p.deltas)
  }

  /** For a checkpoint in any journalling step of any operation: after a crash between its two
      halves, reopening fails exactly when an entry needs a pruned transaction begun before
      the journal, and gives the pruned memory back exactly when the journal begins whatever
      it pushes onto and names nothing pruned. */
  lemma InterruptedCheckpointIff(p: Phase, l: Limits)
    requires PhaseOk(p, l) && p.base.durable
    ensures var journal, gone := p.base.journal + p.deltas, Pruned(p.after, l);
            && (Interrupted(p).Err? <==> exists i :: 0 <= i < |journal| && NeedsGone(journal, gone, i))
            && ((Interrupted(p).Ok? && Interrupted(p).value.state == Prune(p.after, l))
                <==> SelfContained(journal) && NamesNone(journal, gone))
  {
    var journal, gone := p.base.journal + p.deltas, Pruned(p.after, l);
    assert Prune(p.after, l) == Kept(p.after, gone);
    JournalConcat(p.base.checkpoint, p.base.journal, p.deltas, l);
    hide Good, GoodJournal, Replay, Pruned, Kept, Prune, NeedsGone, SelfContained, NamesNone;
    InterruptedReopenFailsIff(p.base.checkpoint, journal, l, gone);
    InterruptedReopenReturnsIff(p.base.checkpoint, journal, l, gone);
  }

  // ----- both failures, for the operations that cause them -----

  /** What a journal pushes onto a transaction. */
  datatype Pushed = Pushed(writes: seq<Write>, offsets: seq<OffsetCommit>, views: seq<ViewMutation>)

  function PushedTo(ds: seq<Delta>, id: string): Pushed {
    if ds == [] then Pushed([], [], [])
    else
      var before := PushedTo(ds[..|ds| - 1], id);
      match ds[|ds| - 1]
      case WriteDelta(i, w) => if i == id then before.(writes := before.writes + [w]) else before
      case OffsetDelta(i, o) => if i == id then before.(offsets := before.offsets + [o]) else before
      case ViewDelta(i, v) => if i == id then before.(views := before.views + [v]) else before
      case _ => before
  }

  predicate Gained(r: Record, r': Record, more: Pushed) {
    r'.writes == r.writes + more.writes && r'.offsets == r.offsets + more.offsets && r'.views == r.views + more.views
  }

  lemma {:induction false} SlotGains(r: Record, ds: seq<Delta>, id: string)
    requires !Begun(ds, id)
    ensures SlotAfter(Some(r), ds, id).Some? && Gained(r, SlotAfter(Some(r), ds, id).value, PushedTo(ds, id))
  {
    if ds != [] { SlotGains(r, ds[..|ds| - 1], id); }
  }

  /** Whatever the journal pushed onto a transaction begun before it is there twice after an
      interrupted checkpoint: once from the new state file and once from the old journal. */
  lemma InterruptedCheckpointRepeats(p: Phase, l: Limits, id: string)
    requires PhaseOk(p, l) && p.base.durable && Interrupted(p).Ok?
    requires id in Prune(p.after, l).transactions && !Begun(p.base.journal + p.deltas, id)
    ensures var again := Interrupted(p).value.state.transactions;
            && id in again
            && Gained(Prune(p.after, l).transactions[id], again[id], PushedTo(p.base.journal + p.deltas, id))
  {
    var journal, kept := p.base.journal + p.deltas, Prune(p.after, l);
    hide Replay, Begun, Gained, PushedTo, Prune, PhaseOk, SlotAfter;
    LimitsOfPhase(p, l);
    ReplaySlot(kept, journal, id);
    SlotGains(kept.transactions[id], journal, id);
  }

  lemma LimitsOfPhase(p: Phase, l: Limits)
    requires PhaseOk(p, l)
    ensures p.base.limits == l
  {
  }

  /** A write to a transaction begun before the journal, as its 64th entry and with nothing
      to prune: interrupted, the checkpoint leaves files that open, with the write and all
      others of that journal twice. */
  lemma WritesAreRepeated(c: Coordinator, id: string, w: Write, now: nat)
    requires Inv(c) && c.durable && |c.journal| == JOURNAL_LIMIT - 1 && Apply(c, DoAppend(id, w, now)).1.Done?
    requires |TerminalIds(c.state)| <= KeepTerminal(c.limits) && !Begun(c.journal, id)
    ensures |Phases(c, DoAppend(id, w, now))| == 1 && id in c.state.transactions
    ensures var p := Phases(c, DoAppend(id, w, now))[0];
            && p.base == c && Settle(p).journal == [] && Interrupted(p).Ok?
            && (var memory, again := Settle(p).state.transactions, Interrupted(p).value.state.transactions;
                && id in memory && id in again
                && memory[id].writes == c.state.transactions[id].writes + [w]
                && again[id].writes == memory[id].writes + (PushedTo(c.journal, id).writes + [w]))
  {
    var d := WriteDelta(id, w);
    var p := Phase(c, Applied(c.state, d), [d]);
    hide Inv, PhaseOk, Phases, Settle, KeepTerminal, TerminalIds, Pruned, Begun, Apply, Applied, PushedTo, Prune;
    hide Interrupted, WithStatus, Messages, TotalBytes, Touched, AppendDeltas;
    WriteCheckpoints(c, id, w, now);
    PhasesOk(c, DoAppend(id, w, now));
    NothingPruned(p.after, c.limits);
    PushedLast(c.journal, d, id);
    assert p in [p];
    NothingGoneOpens(p, c.limits);
    InterruptedCheckpointRepeats(p, c.limits, id);
  }

  lemma WriteCheckpoints(c: Coordinator, id: string, w: Write, now: nat)
    requires c.durable && |c.journal| == JOURNAL_LIMIT - 1 && Apply(c, DoAppend(id, w, now)).1.Done?
    ensures id in c.state.transactions
    ensures var p := Phase(c, Applied(c.state, WriteDelta(id, w)), [WriteDelta(id, w)]);
            && Phases(c, DoAppend(id, w, now)) == [p] && Settle(p).journal == []
            && Settle(p).state == Prune(p.after, c.limits) && TerminalIds(p.after) == TerminalIds(c.state)
            && id in p.after.transactions
            && p.after.transactions[id].writes == c.state.transactions[id].writes + [w]
  {
    hide Prune, Messages, TotalBytes, Touched;
  }

  lemma NothingGoneOpens(p: Phase, l: Limits)
    requires PhaseOk(p, l) && p.base.durable && Pruned(p.after, l) == {}
    ensures Interrupted(p).Ok?
  {
    hide PhaseOk, Interrupted, Pruned, Begun, SelfContained, NamesNone, Prune;
    InterruptedCheckpointIff(p, l);
  }

  lemma NothingPruned(s: State, l: Limits)
    requires |TerminalIds(s)| <= KeepTerminal(l)
    ensures Pruned(s, l) == {} && Prune(s, l) == s
  {
    hide TerminalIds, KeepTerminal;
    assert s.transactions - {} == s.transactions;
  }

  lemma PushedLast(ds: seq<Delta>, d: Delta, id: string)
    requires !Begun(ds, id) && d.WriteDelta? && d.id == id
    ensures !Begun(ds + [d], id) && PushedTo(ds + [d], id).writes == PushedTo(ds, id).writes + [d.write]
  {
    assert (ds + [d])[..|ds|] == ds;
  }

  /** A commit that is the 64th journal entry: the checkpoint follows at once. */
  lemma CommitCheckpoints(c: Coordinator, id: string, now: nat)
    requires c.durable && |c.journal| == JOURNAL_LIMIT - 1
    requires id in c.state.transactions && c.state.transactions[id].status == Prepared
    requires now <= c.state.transactions[id].deadline
    ensures var p := Phase(c, WithStatus(c.state, id, Committed), [StatusDelta(id, Committed)]);
            Phases(c, DoCommit(id, now)) == [p] && Settle(p).journal == []
  {
    hide Prune;
  }

  /** A commit that triggers a checkpoint while at least as many transactions are finished as
      a checkpoint keeps, all later in name order: the checkpoint prunes the transaction, and
      the journal still sets its status. Interrupted, it leaves files that cannot be opened
      unless the transaction began in the same journal; with exactly as many finished ones,
      if and only if it did not. */
  lemma PruningBlocksReopening(c: Coordinator, id: string, now: nat)
    requires Inv(c) && c.durable && |c.journal| == JOURNAL_LIMIT - 1
    requires id in c.state.transactions && c.state.transactions[id].status == Prepared
    requires now <= c.state.transactions[id].deadline
    requires |TerminalIds(c.state)| >= KeepTerminal(c.limits)
    requires forall other :: other in TerminalIds(c.state) ==> LexLe(id, other)
    ensures var p := Phase(c, WithStatus(c.state, id, Committed), [StatusDelta(id, Committed)]);
            && Phases(c, DoCommit(id, now)) == [p] && Settle(p).journal == []
            && (!Begun(c.journal, id) ==> Interrupted(p).Err?)
            && (|TerminalIds(c.state)| == KeepTerminal(c.limits) ==> (Interrupted(p).Err? <==> !Begun(c.journal, id)))
  {
    var t := WithStatus(c.state, id, Committed);
    var p := Phase(c, t, [StatusDelta(id, Committed)]);
    CommitCheckpoints(c, id, now);
    PhasesOk(c, DoCommit(id, now));
    OneMoreFinished(c.state, id);
    hide Inv, PhaseOk, Phases, Settle, Interrupted, KeepTerminal, TerminalIds, Pruned, LexLe, WithStatus, Begun;
    assert p in [p];
    FirstIsPruned(t, c.limits, id);
    FailsAtTheEndIff(p, c.limits, id);
  }

  lemma LastNeedsGone(p: Phase, gone: set<string>, id: string)
    requires p.deltas == [StatusDelta(id, Committed)] && id in gone && !Begun(p.base.journal, id)
    ensures NeedsGone(p.base.journal + p.deltas, gone, |p.base.journal|)
  {
    hide Begun;
    assert (p.base.journal + p.deltas)[..|p.base.journal|] == p.base.journal;
  }

  lemma NoneNeedsGone(p: Phase, l: Limits, id: string, i: nat)
    requires PhaseOk(p, l) && p.base.durable && Begun(p.base.journal, id) && i < |p.base.journal + p.deltas|
    ensures !NeedsGone(p.base.journal + p.deltas, {id}, i)
  {
    var journal, n := p.base.journal + p.deltas, |p.base.journal|;
    assert journal[..n] == p.base.journal;
    JournalConcat(p.base.checkpoint, p.base.journal, p.deltas, l);
    hide Inv, GoodJournal, Replay, Begun;
    BegunEarlier(journal, n, id);
    if Needs(journal[i]) == Some(id) { BegunBeforeNeeded(p.base.checkpoint, journal, l, i, id); }
  }

  lemma FailsAtTheEndIff(p: Phase, l: Limits, id: string)
    requires PhaseOk(p, l) && p.base.durable && p.deltas == [StatusDelta(id, Committed)] && id in Pruned(p.after, l)
    ensures !Begun(p.base.journal, id) ==> Interrupted(p).Err?
    ensures Pruned(p.after, l) == {id} && Begun(p.base.journal, id) ==> Interrupted(p).Ok?
  {
    hide PhaseOk, Interrupted, Pruned, Begun, NeedsGone, SelfContained, NamesNone, Prune;
    InterruptedCheckpointIff(p, l);
    if !Begun(p.base.journal, id) {
      LastNeedsGone(p, Pruned(p.after, l), id);
    } else if Pruned(p.after, l) == {id} {
      forall i | 0 <= i < |p.base.journal + p.deltas| ensures !NeedsGone(p.base.journal + p.deltas, {id}, i) {
        NoneNeedsGone(p, l, id, i);
      }
    }
  }

  lemma OneMoreFinished(s: State, id: string)
    requires id in LiveIds(s)
    ensures var finished := TerminalIds(WithStatus(s, id, Committed));
            finished == TerminalIds(s) + {id} && id !in TerminalIds(s) && |finished| == |TerminalIds(s)| + 1
  {
    assert TerminalIds(WithStatus(s, id, Committed)) == TerminalIds(s) + {id};
  }

  /** The first finished transaction in name order goes first; one too many, and it alone. */
  lemma FirstIsPruned(t: State, l: Limits, id: string)
    requires id in TerminalIds(t) && |TerminalIds(t)| > KeepTerminal(l)
    requires forall other :: other in TerminalIds(t) ==> other == id || LexLe(id, other)
    ensures id in Pruned(t, l) && (|TerminalIds(t)| == KeepTerminal(l) + 1 ==> Pruned(t, l) == {id})
  {
    hide TerminalIds, KeepTerminal, LexLe;
    var sorted := SortedNames(TerminalIds(t));
    assert id in sorted && sorted[0] in TerminalIds(t);
    var i :| 0 <= i < |sorted| && sorted[i] == id;
    if i > 0 { LexLeTotalAt(sorted[0], id); }
    assert sorted[0] == id;
    assert sorted[..|sorted| - KeepTerminal(l)][0] == id;
  }
}
