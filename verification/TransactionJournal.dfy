/** The journal of the transaction coordinator (crates/server/src/transaction.rs): which
    deltas it may contain, and what replaying any prefix of it yields. */
module TransactionJournal {
  import opened Common
  import opened Transactions

  /** Within limits: what every stored transaction and the live set respect. */
  predicate RecordOk(r: Record, l: Limits) {
    Messages(r) <= l.maxMessages && TotalBytes(r) <= l.maxBytes && |Touched(r)| <= l.maxPartitions
  }

  /** Producer fencing and quotas in one state. */
  ghost predicate Good(s: State, l: Limits) {
    && (forall id :: id in s.transactions ==> s.transactions[id].id == id && RecordOk(s.transactions[id], l))
    && (forall id :: id in s.transactions && Live(s.transactions[id]) ==>
          s.transactions[id].epoch == EpochOf(s, s.transactions[id].producer))
    && |LiveIds(s)| <= l.maxConcurrent
  }

  predicate IsOpen(s: State, id: string) {
    id in s.transactions && s.transactions[id].status == Open
  }

  /** The deltas the coordinator writes in a given state. */
  predicate Admissible(s: State, d: Delta, l: Limits) {
    match d
    case Begin(r) =>
      && r.id !in s.transactions && r.status == Open && r.writes == [] && r.offsets == [] && r.views == []
      && r.epoch == EpochOf(s, r.producer) && |LiveIds(s)| < l.maxConcurrent
    case ProducerEpoch(p, e) => e >= EpochOf(s, p) && FencedIds(s, p) == {}
    case WriteDelta(id, w) =>
      && IsOpen(s, id)
      && RecordOk(s.transactions[id].(writes := s.transactions[id].writes + [w]), l)
    case OffsetDelta(id, o) =>
      && IsOpen(s, id)
      && RecordOk(s.transactions[id].(offsets := s.transactions[id].offsets + [o]), l)
    case ViewDelta(id, v) =>
      && IsOpen(s, id)
      && RecordOk(s.transactions[id].(views := s.transactions[id].views + [v]), l)
    case StatusDelta(id, status) =>
      && id in s.transactions
      && (status == s.transactions[id].status || (Live(s.transactions[id]) && status != Open))
  }

  lemma EmptyRecordOk(r: Record, l: Limits)
    requires r.writes == [] && r.offsets == [] && r.views == []
    ensures RecordOk(r, l)
  {
  }

  /** Replacing a stored record by one of the same identity that is not more alive. */
  lemma ReplaceKeepsGood(s: State, id: string, r: Record, l: Limits)
    requires Good(s, l) && id in s.transactions && RecordOk(r, l)
    requires r.id == id && r.producer == s.transactions[id].producer && r.epoch == s.transactions[id].epoch
    requires Live(r) ==> Live(s.transactions[id])
    ensures Good(s.(transactions := s.transactions[id := r]), l)
  {
    hide RecordOk;
    SubsetSize(LiveIds(s.(transactions := s.transactions[id := r])), LiveIds(s));
  }

  lemma LiveAfterBegin(s: State, r: Record)
    ensures |LiveIds(s.(transactions := s.transactions[r.id := r]))| <= |LiveIds(s)| + 1
  {
    var s' := s.(transactions := s.transactions[r.id := r]);
    SubsetSize(LiveIds(s'), LiveIds(s) + {r.id});
  }

  lemma BeginKeepsGood(s: State, r: Record, l: Limits)
    requires Good(s, l) && Admissible(s, Begin(r), l)
    ensures Good(s.(transactions := s.transactions[r.id := r]), l)
  {
    hide RecordOk, LiveIds;
    EmptyRecordOk(r, l);
    LiveAfterBegin(s, r);
  }

  lemma EpochKeepsGood(s: State, p: string, e: nat, l: Limits)
    requires Good(s, l) && FencedIds(s, p) == {}
    ensures Good(s.(epochs := s.epochs[p := e]), l)
  {
    hide RecordOk;
    var s' := s.(epochs := s.epochs[p := e]);
    assert LiveIds(s') == LiveIds(s);
    forall id | id in s'.transactions && Live(s'.transactions[id])
      ensures s'.transactions[id].epoch == EpochOf(s', s'.transactions[id].producer)
    {
      assert id !in FencedIds(s, p);
    }
  }

  lemma SameTotals(r: Record, status: Status, l: Limits)
    requires RecordOk(r, l)
    ensures RecordOk(r.(status := status), l)
  {
  }

  /** Fencing and quotas survive every admissible delta. */
  lemma AdmissibleKeepsGood(s: State, d: Delta, l: Limits)
    requires Good(s, l) && Admissible(s, d, l)
    ensures ApplyDelta(s, d).Some? && Good(ApplyDelta(s, d).value, l)
  {
    hide Good, RecordOk;
    match d
    case Begin(r) => BeginKeepsGood(s, r, l);
    case ProducerEpoch(p, e) => EpochKeepsGood(s, p, e, l);
    case WriteDelta(id, w) =>
      IdMatches(s, id, l);
      ReplaceKeepsGood(s, id, s.transactions[id].(writes := s.transactions[id].writes + [w]), l);
    case OffsetDelta(id, o) =>
      IdMatches(s, id, l);
      ReplaceKeepsGood(s, id, s.transactions[id].(offsets := s.transactions[id].offsets + [o]), l);
    case ViewDelta(id, v) =>
      IdMatches(s, id, l);
      ReplaceKeepsGood(s, id, s.transactions[id].(views := s.transactions[id].views + [v]), l);
    case StatusDelta(id, status) =>
      IdMatches(s, id, l);
      SameTotals(s.transactions[id], status, l);
      ReplaceKeepsGood(s, id, s.transactions[id].(status := status), l);
  }

  lemma IdMatches(s: State, id: string, l: Limits)
    requires Good(s, l) && id in s.transactions
    ensures s.transactions[id].id == id && RecordOk(s.transactions[id], l)
  {
  }

  // ----- journals -----

  /** Every entry is admissible where it stands, starting from a good state. */
  ghost predicate GoodJournal(s: State, ds: seq<Delta>, l: Limits) {
    if ds == [] then Good(s, l)
    else
      var front := ds[..|ds| - 1];
      GoodJournal(s, front, l) && Replay(s, front).Some? && Admissible(Replay(s, front).value, ds[|ds| - 1], l)
  }

  lemma {:induction false} GoodJournalReplays(s: State, ds: seq<Delta>, l: Limits)
    requires GoodJournal(s, ds, l)
    ensures Replay(s, ds).Some? && Good(Replay(s, ds).value, l)
  {
    hide Admissible, ApplyDelta, Good;
    if ds != [] {
      GoodJournalReplays(s, ds[..|ds| - 1], l);
      AdmissibleKeepsGood(Replay(s, ds[..|ds| - 1]).value, ds[|ds| - 1], l);
    }
  }

  lemma {:induction false} JournalConcat(s: State, a: seq<Delta>, b: seq<Delta>, l: Limits)
    requires GoodJournal(s, a, l) && Replay(s, a).Some? && GoodJournal(Replay(s, a).value, b, l)
    ensures GoodJournal(s, a + b, l) && Replay(s, a + b) == Replay(Replay(s, a).value, b)
  {
    hide Admissible, ApplyDelta, Good;
    if b == [] {
      assert a + b == a;
    } else {
      var front := b[..|b| - 1];
      JournalConcat(s, a, front, l);
      assert (a + b)[..|a + b| - 1] == a + front && (a + b)[|a + b| - 1] == b[|b| - 1];
    }
  }

  lemma ExtendJournal(s: State, ds: seq<Delta>, d: Delta, l: Limits)
    requires GoodJournal(s, ds, l) && Replay(s, ds).Some? && Admissible(Replay(s, ds).value, d, l)
    ensures GoodJournal(s, ds + [d], l) && Replay(s, ds + [d]) == ApplyDelta(Replay(s, ds).value, d)
  {
  }

  lemma {:induction false} JournalPrefix(s: State, ds: seq<Delta>, k: nat, l: Limits)
    requires GoodJournal(s, ds, l) && k <= |ds|
    ensures GoodJournal(s, ds[..k], l)
  {
    hide Admissible, Good;
    if k < |ds| {
      JournalPrefix(s, ds[..|ds| - 1], k, l);
      assert ds[..|ds| - 1][..k] == ds[..k];
    } else {
      assert ds[..k] == ds;
    }
  }

  /** An admissible delta never touches a finished transaction. */
  lemma TerminalStep(s: State, d: Delta, l: Limits, id: string)
    requires Admissible(s, d, l) && ApplyDelta(s, d).Some? && id in s.transactions && !Live(s.transactions[id])
    ensures id in ApplyDelta(s, d).value.transactions && ApplyDelta(s, d).value.transactions[id] == s.transactions[id]
  {
    hide RecordOk;
  }

  lemma {:induction false} TerminalStays(s: State, ds: seq<Delta>, k: nat, l: Limits, id: string)
    requires GoodJournal(s, ds, l) && k <= |ds|
    requires Replay(s, ds[..k]).Some? && Replay(s, ds).Some?
    requires id in Replay(s, ds[..k]).value.transactions && !Live(Replay(s, ds[..k]).value.transactions[id])
    ensures id in Replay(s, ds).value.transactions
    ensures Replay(s, ds).value.transactions[id] == Replay(s, ds[..k]).value.transactions[id]
  {
    hide Admissible, ApplyDelta, Good;
    if k < |ds| {
      var front := ds[..|ds| - 1];
      assert front[..k] == ds[..k];
      TerminalStays(s, front, k, l, id);
      TerminalStep(Replay(s, front).value, ds[|ds| - 1], l, id);
    } else {
      assert ds[..k] == ds;
    }
  }

  /** Crash atomicity. Replaying any prefix of the journal succeeds, gives a state that
      respects fencing and quotas, and shows each transaction either not at all or with
      exactly the writes, offsets and view mutations, in order, of the full replay. */
  lemma PrefixIsAtomic(s: State, ds: seq<Delta>, k: nat, l: Limits, id: string)
    requires GoodJournal(s, ds, l) && k <= |ds|
    ensures Replay(s, ds[..k]).Some? && Good(Replay(s, ds[..k]).value, l) && Replay(s, ds).Some?
    ensures var early := VisibleBatch(Replay(s, ds[..k]).value, id);
            early == None || early == VisibleBatch(Replay(s, ds).value, id)
  {
    hide Good;
    JournalPrefix(s, ds, k, l);
    GoodJournalReplays(s, ds[..k], l);
    GoodJournalReplays(s, ds, l);
    if VisibleBatch(Replay(s, ds[..k]).value, id).Some? {
      TerminalStays(s, ds, k, l, id);
    }
  }

  // ----- journals of status changes -----

  /** `t` differs from `s` only in that some live transactions have been aborted. */
  ghost predicate AbortsOf(s: State, t: State) {
    && t.epochs == s.epochs && t.transactions.Keys == s.transactions.Keys
    && forall id :: id in s.transactions ==>
         && s.transactions[id].id == id
         && t.transactions[id] == s.transactions[id].(status := t.transactions[id].status)
         && (t.transactions[id].status == s.transactions[id].status
             || (Live(s.transactions[id]) && t.transactions[id].status.Aborted?))
  }

  /** The listed transactions as in `t`, the others as in `s`. */
  function Mix(s: State, t: State, ids: seq<string>): State
    requires t.transactions.Keys == s.transactions.Keys
  {
    s.(transactions := map id | id in s.transactions :: if id in ids then t.transactions[id] else s.transactions[id])
  }

  /** One entry of a status journal. */
  lemma MixStep(s: State, t: State, ids: seq<string>, l: Limits)
    requires AbortsOf(s, t) && ids != [] && forall id :: id in ids ==> id in s.transactions
    ensures var last := ids[|ids| - 1];
            var mixed := Mix(s, t, ids[..|ids| - 1]);
            && Admissible(mixed, StatusDelta(last, t.transactions[last].status), l)
            && ApplyDelta(mixed, StatusDelta(last, t.transactions[last].status)) == Some(Mix(s, t, ids))
  {
    var last := ids[|ids| - 1];
    var front := ids[..|ids| - 1];
    assert forall id :: id in ids <==> id in front || id == last;
    var mixed := Mix(s, t, front);
    assert WithStatus(mixed, last, t.transactions[last].status).transactions == Mix(s, t, ids).transactions;
  }

  lemma {:induction false} StatusJournal(s: State, t: State, ids: seq<string>, l: Limits)
    requires Good(s, l) && AbortsOf(s, t) && forall id :: id in ids ==> id in s.transactions
    ensures GoodJournal(s, StatusDeltas(t, ids), l)
    ensures Replay(s, StatusDeltas(t, ids)) == Some(Mix(s, t, ids))
  {
    if ids == [] {
      assert Mix(s, t, []).transactions == s.transactions;
    } else {
      var front, last := ids[..|ids| - 1], ids[|ids| - 1];
      assert t.transactions[last].id == last;
      hide Good, AbortsOf, Mix, Admissible, ApplyDelta;
      StatusJournal(s, t, front, l);
      MixStep(s, t, ids, l);
      ExtendJournal(s, StatusDeltas(t, front), StatusDelta(last, t.transactions[last].status), l);
    }
  }

  /** Journalling at least the changed statuses reproduces the change. */
  lemma StatusJournalIsComplete(s: State, t: State, ids: seq<string>, l: Limits)
    requires Good(s, l) && AbortsOf(s, t) && forall id :: id in ids ==> id in s.transactions
    requires forall id :: id in s.transactions && t.transactions[id].status != s.transactions[id].status ==> id in ids
    ensures GoodJournal(s, StatusDeltas(t, ids), l) && Replay(s, StatusDeltas(t, ids)) == Some(t)
  {
    hide Good, GoodJournal, Replay, StatusDeltas;
    StatusJournal(s, t, ids, l);
    assert Mix(s, t, ids).transactions == t.transactions;
  }
}
