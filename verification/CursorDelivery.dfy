/** At-least-once delivery over whole runs: a consumer's commit point only moves forward,
    and only past records that were acknowledged or are no longer retained. */
module CursorDelivery {
  import opened Common
  import opened Subjects
  import opened Cursors
  import opened CursorRuns

  /** What happened to one partition's matching records: published, acknowledged with
      success, the highest retention floor applied, and removed by compaction. `end` is one
      past the highest offset of the partition log. */
  datatype Ledger = Ledger(published: set<nat>, acknowledged: set<nat>, floor: nat, compacted: set<nat>, end: nat)

  predicate Gone(l: Ledger, o: nat) { o < l.floor || o in l.compacted }

  function EndOf(offsets: set<nat>): (end: nat)
    ensures forall o :: o in offsets ==> o < end
  {
    var sorted := SortedNats(offsets);
    if sorted == [] then 0 else sorted[|sorted| - 1] + 1
  }

  function Opening(w: World, filter: string, key: Key): Ledger
    requires key in w.cursors.partitions
  {
    Ledger(MatchingOffsets(w.messages, filter, key), w.cursors.partitions[key].acked, 0, {},
           EndOf(OffsetsOf(w.messages, key)))
  }

  function Note(l: Ledger, w: World, filter: string, key: Key, e: Event): Ledger {
    match e
    case Publish(_, m) =>
      if !InPartition(m, key) then l
      else
        l.(published := if Matches(filter, m.subject) then l.published + {m.offset.value} else l.published,
           end := m.offset.value + 1)
    case Ack(m) =>
      if InPartition(m, key) && Step(w, filter, e).1.None? then l.(acknowledged := l.acknowledged + {m.offset.value})
      else l
    case Retain(k, floor) => if k == key && floor > l.floor then l.(floor := floor) else l
    case Compact(s) =>
      if s in w.messages && InPartition(w.messages[s], key) then
        l.(compacted := l.compacted + {w.messages[s].offset.value})
      else l
    case _ => l
  }

  function LedgerOf(w: World, filter: string, key: Key, run: seq<Event>): Ledger
    requires key in w.cursors.partitions
  {
    if run == [] then Opening(w, filter, key)
    else
      var init := run[..|run| - 1];
      Note(LedgerOf(w, filter, key, init), After(w, filter, init), filter, key, run[|run| - 1])
  }

  /** What the partition log guarantees beyond unique positions: offsets grow, and a
      retention floor lies within the log. */
  predicate InLogOrder(l: Ledger, key: Key, e: Event) {
    match e
    case Publish(_, m) => InPartition(m, key) ==> m.offset.value >= l.end
    case Retain(k, floor) => k == key ==> floor <= l.end
    case _ => true
  }

  predicate LogOrderRun(w: World, filter: string, key: Key, run: seq<Event>)
    requires key in w.cursors.partitions
  {
    run == [] ||
      (var init := run[..|run| - 1];
       LogOrderRun(w, filter, key, init) && InLogOrder(LedgerOf(w, filter, key, init), key, run[|run| - 1]))
  }

  // ----- one advance -----

  /** The commit point passes exactly a run of acknowledged offsets, and stops at the first
      matching offset that is not acknowledged. */
  lemma {:induction false} AdvanceIsContiguous(c: Cursor, offsets: set<nat>)
    ensures var r := Advance(c, offsets);
            && (forall o :: o in offsets && c.committed <= o < r.committed ==> o in c.acked && o !in r.acked)
            && (forall o :: o in c.acked && o !in r.acked ==> o in offsets && c.committed <= o <= r.committed)
            && (var next := NextIn(offsets, r.committed); next.Some? ==> next.value !in r.acked)
            && (r == c || exists o :: o in offsets && o in c.acked && o >= c.committed && r.committed == SatInc(o))
    decreases |c.acked|
  {
    hide NextIn;
    var next := NextIn(offsets, c.committed);
    if next.Some? && next.value in c.acked {
      NextIsAbove(offsets, c.committed);
      var d := c.(acked := c.acked - {next.value}, committed := SatInc(next.value));
      AdvanceIsContiguous(d, offsets);
    }
  }

  /** The window bounds what is held back: an acknowledgement that finds it full is taken
      only if it is applied at once. */
  lemma WindowHolds(c: Cursor, offsets: set<nat>, window: nat, offset: nat)
    requires |c.acked| <= window
    ensures AckStep(c, offsets, window, offset).Ok? ==> |AckStep(c, offsets, window, offset).value.acked| <= window
  {
    hide NextIn;
    var held := c.(acked := c.acked + {offset});
    var next := NextIn(offsets, c.committed);
    SubsetSize(Advance(held, offsets).acked, held.acked);
    if offset in c.acked {
      assert held.acked == c.acked;
    } else if next == Some(offset) {
      var taken := held.(acked := held.acked - {offset}, committed := SatInc(offset));
      assert taken.acked == c.acked;
      SubsetSize(Advance(taken, offsets).acked, c.acked);
    }
  }

  // ----- the delivery invariant -----

  ghost predicate Accounts(l: Ledger, c: Cursor, offsets: set<nat>, start: nat) {
    && c.acked <= l.acknowledged
    && offsets <= l.published
    && (forall o :: o in l.published ==> o < l.end && (o in offsets <==> !Gone(l, o)))
    && l.floor <= l.end && (forall o :: o in l.compacted ==> o < l.end)
    && (forall o :: o in l.published && start <= o < c.committed ==> o in l.acknowledged || Gone(l, o))
    && (c.committed <= start || c.committed <= l.end)
  }

  lemma AckAccounts(l: Ledger, c: Cursor, offsets: set<nat>, start: nat, window: nat, offset: nat)
    requires Accounts(l, c, offsets, start) && AckStep(c, offsets, window, offset).Ok?
    ensures Accounts(l.(acknowledged := l.acknowledged + {offset}), AckStep(c, offsets, window, offset).value, offsets,
                     start)
  {
    hide NextIn, Advance;
    AdvanceIsContiguous(c.(acked := c.acked + {offset}), offsets);
  }

  lemma LiftAccounts(l: Ledger, c: Cursor, offsets: set<nat>, start: nat, retained: set<nat>)
    requires Accounts(l, c, offsets, start) && offsets <= retained && forall o :: o in retained ==> o < l.end
    ensures Accounts(l, LiftToRetained(c, NextIn(retained, 0)), offsets, start)
  {
  }

  ghost predicate Accounted(l: Ledger, w: World, filter: string, key: Key, start: nat) {
    && key in w.cursors.partitions
    && (forall o :: o in OffsetsOf(w.messages, key) ==> o < l.end)
    && Accounts(l, w.cursors.partitions[key], MatchingOffsets(w.messages, filter, key), start)
  }

  /** The successor described by the scan alone. */
  lemma NoteAccounts(l: Ledger, w: World, filter: string, key: Key, start: nat, e: Event)
    requires Inv(w, filter) && Accounted(l, w, filter, key, start) && InLogOrder(l, key, e)
    ensures Accounts(Note(l, w, filter, key, e), CursorAfter(w, filter, e, key), OffsetsAfter(w, filter, e, key), start)
  {
    var c, offsets := w.cursors.partitions[key], MatchingOffsets(w.messages, filter, key);
    match e
    case Ack(m) =>
      AckReply(w, filter, m, key);
      hide MatchingOffsets, Matches, AckStep, Step, NextIn, Inv, Accounts, OffsetsOf;
      if InPartition(m, key) && Step(w, filter, e).1.None? {
        AckAccounts(l, c, offsets, start, w.cursors.ackWindow, m.offset.value);
      }
    case Observe =>
      assert offsets <= OffsetsOf(w.messages, key);
      hide MatchingOffsets, Matches, AckStep, Step, NextIn, Inv, Accounts, OffsetsOf;
      LiftAccounts(l, c, offsets, start, OffsetsOf(w.messages, key));
    case Compact(s) =>
      assert s in w.messages && InPartition(w.messages[s], key) ==>
        w.messages[s].offset.value in OffsetsOf(w.messages, key);
      hide MatchingOffsets, Matches, AckStep, Step, NextIn, Inv, OffsetsOf;
    case _ =>
      hide MatchingOffsets, Matches, AckStep, Step, NextIn, Inv, OffsetsOf;
  }

  /** Retained offsets stay below the end of the log. */
  lemma RetainedBelowEnd(l: Ledger, w: World, filter: string, key: Key, e: Event)
    requires (forall o :: o in OffsetsOf(w.messages, key) ==> o < l.end) && InLogOrder(l, key, e)
    ensures forall o :: o in OffsetsOf(Step(w, filter, e).0.messages, key) ==> o < Note(l, w, filter, key, e).end
  {
    hide Acknowledge, ApplyFloor, ObservePublished, RemoveRecord, ObserveRetention, WithFrontiers, PopFrontiers,
         Matches;
    var after := Step(w, filter, e).0.messages;
    forall o | o in OffsetsOf(after, key) ensures o < Note(l, w, filter, key, e).end {
      var t :| t in after && InPartition(after[t], key) && after[t].offset.value == o;
      if !(e.Publish? && t == e.sequence) {
        assert t in w.messages && w.messages[t] == after[t] && o in OffsetsOf(w.messages, key);
      }
    }
  }

  /** An acknowledgement is answered with success exactly when the scan accepts it. */
  lemma AckReply(w: World, filter: string, m: Message, key: Key)
    requires Inv(w, filter) && key in w.cursors.partitions
    ensures InPartition(m, key) ==>
              (Step(w, filter, Ack(m)).1.None?
               <==> AckStep(w.cursors.partitions[key], MatchingOffsets(w.messages, filter, key), w.cursors.ackWindow,
                            m.offset.value).Ok?)
  {
    hide AckStep, MatchingOffsets;
    SameReply(w, filter, Ack(m));
  }

  lemma StepAccounts(l: Ledger, w: World, filter: string, key: Key, start: nat, e: Event)
    requires Inv(w, filter) && Accounted(l, w, filter, key, start) && Admissible(w, e) && InLogOrder(l, key, e)
    ensures Accounted(Note(l, w, filter, key, e), Step(w, filter, e).0, filter, key, start)
  {
    RetainedBelowEnd(l, w, filter, key, e);
    NoteAccounts(l, w, filter, key, start, e);
    FrontiersOfInv(w, filter);
    CursorFollows(w, filter, e, key);
    OffsetsFollow(w, filter, e, key);
    hide Accounts, Note, Step, CursorAfter, OffsetsAfter, Inv, MatchingOffsets, OffsetsOf;
  }

  lemma {:induction false} RunAccounts(w: World, filter: string, key: Key, run: seq<Event>)
    requires Inv(w, filter) && AdmissibleRun(w, filter, run)
    requires key in w.cursors.partitions && LogOrderRun(w, filter, key, run)
    ensures Accounted(LedgerOf(w, filter, key, run), After(w, filter, run), filter, key,
                      w.cursors.partitions[key].committed)
  {
    if run == [] {
      assert MatchingOffsets(w.messages, filter, key) <= OffsetsOf(w.messages, key);
    } else {
      hide Accounted, Step, Inv, Note, InLogOrder;
      var init := run[..|run| - 1];
      RunAccounts(w, filter, key, init);
      RunKeepsInv(w, filter, init);
      var start := w.cursors.partitions[key].committed;
      StepAccounts(LedgerOf(w, filter, key, init), After(w, filter, init), filter, key, start, run[|run| - 1]);
    }
  }

  // ----- main results -----

  /** Every matching record between the start position and the commit point was
      acknowledged, or is gone: it fell below a retention floor or was compacted away. Gone
      records, and only those, are no longer retained. */
  lemma AtLeastOnce(w: World, filter: string, key: Key, run: seq<Event>, o: nat)
    requires Inv(w, filter) && AdmissibleRun(w, filter, run)
    requires key in w.cursors.partitions && LogOrderRun(w, filter, key, run)
    requires o in LedgerOf(w, filter, key, run).published && o >= w.cursors.partitions[key].committed
    ensures key in After(w, filter, run).cursors.partitions
    ensures o < After(w, filter, run).cursors.partitions[key].committed ==>
              o in LedgerOf(w, filter, key, run).acknowledged || Gone(LedgerOf(w, filter, key, run), o)
    ensures Gone(LedgerOf(w, filter, key, run), o)
      <==> o !in MatchingOffsets(After(w, filter, run).messages, filter, key)
  {
    hide MatchingOffsets;
    RunAccounts(w, filter, key, run);
  }

  /** What a consumer can count on: a matching record published from the start on that was
      neither acknowledged nor lost to retention or compaction is retained, and will be
      offered unless it is leased. */
  lemma UnsettledIsOffered(
    w: World, filter: string, key: Key, run: seq<Event>, o: nat, leased: set<nat>) returns (s: nat)
    requires Inv(w, filter) && AdmissibleRun(w, filter, run)
    requires key in w.cursors.partitions && LogOrderRun(w, filter, key, run)
    requires var l := LedgerOf(w, filter, key, run); o in l.published && o !in l.acknowledged && !Gone(l, o)
    requires o >= w.cursors.partitions[key].committed
    ensures var after := After(w, filter, run);
            && s in after.messages && InPartition(after.messages[s], key) && after.messages[s].offset.value == o
            && (s in leased || Candidate(after.cursors.partitions, filter, after.messages, leased, s))
  {
    hide Matches;
    RunAccounts(w, filter, key, run);
    var messages := After(w, filter, run).messages;
    assert o in MatchingOffsets(messages, filter, key);
    s :| s in messages && InPartition(messages[s], key) && Matches(filter, messages[s].subject)
         && messages[s].offset.value == o;
  }

  /** Commit points never move back, and the acknowledgements held back stay within the
      window, over every run. */
  lemma {:induction false} CommitOnlyGrows(w: World, filter: string, key: Key, run: seq<Event>)
    requires Inv(w, filter) && AdmissibleRun(w, filter, run) && key in w.cursors.partitions
    ensures var after := After(w, filter, run).cursors;
            && key in after.partitions && after.ackWindow == w.cursors.ackWindow
            && after.partitions[key].committed >= w.cursors.partitions[key].committed
            && (|w.cursors.partitions[key].acked| <= w.cursors.ackWindow ==>
                  |after.partitions[key].acked| <= after.ackWindow)
  {
    if run != [] {
      var init := run[..|run| - 1];
      var before := After(w, filter, init);
      CommitOnlyGrows(w, filter, key, init);
      RunKeepsInv(w, filter, init);
      FrontiersOfInv(before, filter);
      CommitNeverMovesBack(before, filter, run[|run| - 1], key);
      CursorFollows(before, filter, run[|run| - 1], key);
      if |before.cursors.partitions[key].acked| <= w.cursors.ackWindow {
        StepWindow(before, filter, run[|run| - 1], key);
      }
      hide Step, CursorAfter, Inv, FrontiersAgree;
    }
  }

  lemma StepWindow(w: World, filter: string, e: Event, key: Key)
    requires key in w.cursors.partitions && |w.cursors.partitions[key].acked| <= w.cursors.ackWindow
    ensures |CursorAfter(w, filter, e, key).acked| <= w.cursors.ackWindow
  {
    hide AckStep, NextIn, MatchingOffsets, OffsetsOf;
    var c := w.cursors.partitions[key];
    if e.Ack? && InPartition(e.record, key) {
      WindowHolds(c, MatchingOffsets(w.messages, filter, key), w.cursors.ackWindow, e.record.offset.value);
    } else {
      SubsetSize(CursorAfter(w, filter, e, key).acked, c.acked);
    }
  }
}
