/** Runs of a consumer cursor set beside its message store: the frontier index gives the
    same results as the scan, and nothing is committed past an unsettled record. */
module CursorRuns {
  import opened Common
  import opened Subjects
  import opened Cursors

  /** The retained messages and the cursors. */
  datatype World = World(messages: Messages, cursors: CursorSet)

  datatype Event =
    | Publish(sequence: nat, message: Message)
    | Ack(record: Message)
    | Retain(key: Key, floor: nat)
    | Compact(victim: nat)
    | Observe
    | Deliver(sequences: map<Position, nat>)

  /** Retention drops a partition's messages below a floor. */
  function Trim(messages: Messages, key: Key, floor: nat): Messages {
    map s | s in messages && !(InPartition(messages[s], key) && messages[s].offset.value < floor) :: messages[s]
  }

  /** The partition logs list the retained matching offsets in ascending order. */
  function LogOffsets(messages: Messages, filter: string, keys: set<Key>): map<Key, seq<nat>> {
    map key | key in keys :: SortedNats(MatchingOffsets(messages, filter, key))
  }

  function Step(w: World, filter: string, e: Event): (World, Option<Error>) {
    match e
    case Publish(s, m) => (World(w.messages[s := m], ObservePublished(w.cursors, filter, m)), None)
    case Ack(m) =>
      var (cs, reply) := Acknowledge(w.cursors, m, filter, w.messages);
      (w.(cursors := cs), reply)
    case Retain(key, floor) =>
      (w.(messages := Trim(w.messages, key, floor), cursors := ApplyFloor(w.cursors, key, floor)), None)
    case Compact(s) =>
      if s !in w.messages then (w, None)
      else
        var m := w.messages[s];
        (w.(messages := w.messages - {s},
            cursors := if Located(m) then RemoveRecord(w.cursors, KeyOf(m), m.offset.value) else w.cursors), None)
    case Observe => (w.(cursors := ObserveRetention(w.cursors, w.messages)), None)
    case Deliver(sequences) => (w.(cursors := PopFrontiers(WithFrontiers(w, filter), sequences)), None)
  }

  /** The first thing an indexed search does: partitions without a frontier get one. */
  function WithFrontiers(w: World, filter: string): CursorSet {
    EnsureFrontiers(w.cursors, LogOffsets(w.messages, filter, w.cursors.partitions.Keys))
  }

  /** What the message store guarantees: a message gets a new sequence number and a position
      no retained message has, and the sequence index is exact. Offsets may arrive in any
      order. */
  ghost predicate Admissible(w: World, e: Event) {
    match e
    case Publish(s, m) => s !in w.messages && (Located(m) ==> !Occupied(w.messages, PositionOf(m)))
    case Deliver(sequences) => IndexOk(w.messages, sequences)
    case _ => true
  }

  predicate Occupied(messages: Messages, at: Position) {
    exists s :: s in messages && Located(messages[s]) && PositionOf(messages[s]) == at
  }

  function After(w: World, filter: string, run: seq<Event>): World {
    if run == [] then w else Step(After(w, filter, run[..|run| - 1]), filter, run[|run| - 1]).0
  }

  ghost predicate AdmissibleRun(w: World, filter: string, run: seq<Event>) {
    run == [] ||
    (AdmissibleRun(w, filter, run[..|run| - 1]) && Admissible(After(w, filter, run[..|run| - 1]), run[|run| - 1]))
  }

  // ----- the invariant -----

  ghost predicate Inv(w: World, filter: string) {
    UniquePositions(w.messages) && FrontiersAgree(w.cursors, filter, w.messages)
  }

  /** What one event does to the matching offsets of a partition. */
  function OffsetsAfter(w: World, filter: string, e: Event, key: Key): set<nat> {
    var before := MatchingOffsets(w.messages, filter, key);
    match e
    case Publish(s, m) =>
      if InPartition(m, key) && Matches(filter, m.subject) then before + {m.offset.value} else before
    case Retain(k, floor) => if k == key then Above(before, floor) else before
    case Compact(s) =>
      if s in w.messages && InPartition(w.messages[s], key) then before - {w.messages[s].offset.value} else before
    case _ => before
  }

  lemma OffsetsFollow(w: World, filter: string, e: Event, key: Key)
    requires UniquePositions(w.messages) && Admissible(w, e)
    ensures MatchingOffsets(Step(w, filter, e).0.messages, filter, key) == OffsetsAfter(w, filter, e, key)
  {
    match e
    case Publish(s, m) => PublishFollows(w, filter, s, m, key);
    case Retain(k, floor) => TrimFollows(w, filter, k, floor, key);
    case Compact(s) => if s in w.messages { CompactFollows(w, filter, s, key); }
    case _ =>
  }

  lemma PublishFollows(w: World, filter: string, s: nat, m: Message, key: Key)
    requires s !in w.messages
    ensures MatchingOffsets(w.messages[s := m], filter, key) == OffsetsAfter(w, filter, Publish(s, m), key)
  {
    hide Matches;
    var before, after := MatchingOffsets(w.messages, filter, key), MatchingOffsets(w.messages[s := m], filter, key);
    var messages := w.messages[s := m];
    assert messages[s] == m;
    forall o | o in before ensures o in after {
      var t :| t in w.messages && InPartition(w.messages[t], key) && Matches(filter, w.messages[t].subject)
               && w.messages[t].offset.value == o;
      assert t in messages && messages[t] == w.messages[t];
    }
  }

  lemma TrimFollows(w: World, filter: string, k: Key, floor: nat, key: Key)
    ensures MatchingOffsets(Trim(w.messages, k, floor), filter, key) == OffsetsAfter(w, filter, Retain(k, floor), key)
  {
    hide Matches;
    var messages := Trim(w.messages, k, floor);
    var after := MatchingOffsets(messages, filter, key);
    forall o | o in OffsetsAfter(w, filter, Retain(k, floor), key) ensures o in after {
      var t :| t in w.messages && InPartition(w.messages[t], key) && Matches(filter, w.messages[t].subject)
               && w.messages[t].offset.value == o;
      assert t in messages && messages[t] == w.messages[t];
    }
  }

  lemma CompactFollows(w: World, filter: string, s: nat, key: Key)
    requires UniquePositions(w.messages) && s in w.messages
    ensures MatchingOffsets(w.messages - {s}, filter, key) == OffsetsAfter(w, filter, Compact(s), key)
  {
    hide Matches;
    var messages := w.messages - {s};
    var after := MatchingOffsets(messages, filter, key);
    forall o | o in OffsetsAfter(w, filter, Compact(s), key) ensures o in after {
      var t :| t in w.messages && InPartition(w.messages[t], key) && Matches(filter, w.messages[t].subject)
               && w.messages[t].offset.value == o;
      assert t in messages && messages[t] == w.messages[t];
    }
    forall o | o in after ensures o in OffsetsAfter(w, filter, Compact(s), key) {
      var t :| t in messages && InPartition(messages[t], key) && Matches(filter, messages[t].subject)
        && messages[t].offset.value == o;
      assert messages[t] == w.messages[t];
    }
  }

  // ----- the frontier follows the scan -----

  lemma NextAgrees(frontier: seq<nat>, offsets: set<nat>, from: nat)
    requires AgreesAbove(frontier, offsets, from)
    ensures NextIn(ElementsOf(frontier), from) == NextIn(offsets, from)
  {
  }

  lemma {:induction false} AdvanceAgrees(c: Cursor, frontier: seq<nat>, offsets: set<nat>)
    requires AgreesAbove(frontier, offsets, c.committed)
    ensures Advance(c, ElementsOf(frontier)) == Advance(c, offsets)
    decreases |c.acked|
  {
    NextAgrees(frontier, offsets, c.committed);
    var next := NextIn(offsets, c.committed);
    if next.Some? && next.value in c.acked {
      NextIsAbove(offsets, c.committed);
      AdvanceAgrees(c.(acked := c.acked - {next.value}, committed := SatInc(next.value)), frontier, offsets);
    }
  }

  /** An acknowledgement has the same effect and the same reply on both paths. */
  lemma AckAgrees(c: Cursor, frontier: seq<nat>, offsets: set<nat>, window: nat, offset: nat)
    requires AgreesAbove(frontier, offsets, c.committed)
    ensures AckStep(c, ElementsOf(frontier), window, offset) == AckStep(c, offsets, window, offset)
  {
    NextAgrees(frontier, offsets, c.committed);
    AdvanceAgrees(c.(acked := c.acked + {offset}), frontier, offsets);
  }

  /** One partition's cursor after an event, stated over the scan alone. */
  function CursorAfter(w: World, filter: string, e: Event, key: Key): Cursor
    requires key in w.cursors.partitions
  {
    var c := w.cursors.partitions[key];
    match e
    case Ack(m) =>
      if InPartition(m, key) then
        match AckStep(c, MatchingOffsets(w.messages, filter, key), w.cursors.ackWindow, m.offset.value)
        case Ok(next) => next
        case Err(_) => c
      else c
    case Retain(k, floor) => if k == key then FloorStep(c, floor) else c
    case Observe => LiftToRetained(c, NextIn(OffsetsOf(w.messages, key), 0))
    case _ => c
  }

  /** With or without an index, every cursor moves as the scan says. */
  lemma CursorFollows(w: World, filter: string, e: Event, key: Key)
    requires FrontiersAgree(w.cursors, filter, w.messages) && key in w.cursors.partitions
    ensures var after := Step(w, filter, e).0.cursors;
            after.partitions.Keys == w.cursors.partitions.Keys && after.ackWindow == w.cursors.ackWindow
            && after.partitions[key] == CursorAfter(w, filter, e, key)
  {
    hide AckStep, FloorStep, NextIn, MatchingOffsets, Ascends, Matches, OffsetsOf;
    if e.Ack? && InPartition(e.record, key) && key in w.cursors.frontiers {
      AckAgrees(w.cursors.partitions[key], w.cursors.frontiers[key], MatchingOffsets(w.messages, filter, key),
                w.cursors.ackWindow, e.record.offset.value);
    }
  }

  lemma CommitNeverMovesBack(w: World, filter: string, e: Event, key: Key)
    requires FrontiersAgree(w.cursors, filter, w.messages) && key in w.cursors.partitions
    ensures CursorAfter(w, filter, e, key).committed >= w.cursors.partitions[key].committed
  {
    hide NextIn, MatchingOffsets, Ascends, Matches, OffsetsOf;
  }

  function FrontierAfter(w: World, filter: string, e: Event, key: Key): seq<nat>
    requires key in w.cursors.frontiers
  {
    var frontier := w.cursors.frontiers[key];
    match e
    case Publish(s, m) =>
      if InPartition(m, key) && Matches(filter, m.subject) then InsertOffset(frontier, m.offset.value) else frontier
    case Retain(k, floor) =>
      if k == key && key in w.cursors.partitions then Cursors.Retain(frontier, floor) else frontier
    case Compact(s) =>
      if s in w.messages && InPartition(w.messages[s], key) then Without(frontier, w.messages[s].offset.value)
      else frontier
    case Deliver(sequences) =>
      if key in w.cursors.partitions then Popped(frontier, w.cursors.partitions[key].committed, key, sequences)
      else frontier
    case _ => frontier
  }

  lemma FrontierMoves(w: World, filter: string, e: Event, key: Key)
    requires key in w.cursors.frontiers
    ensures key in Step(w, filter, e).0.cursors.frontiers
    ensures Step(w, filter, e).0.cursors.frontiers[key] == FrontierAfter(w, filter, e, key)
  {
    hide NextIn, MatchingOffsets, Matches, OffsetsOf, AckStep, InsertOffset, Without, Cursors.Retain, FloorStep, Trim,
         Popped;
  }

  lemma MovedFrontierAgrees(w: World, filter: string, e: Event, key: Key)
    requires FrontiersAgree(w.cursors, filter, w.messages) && key in w.cursors.frontiers && Admissible(w, e)
    ensures AgreesAbove(FrontierAfter(w, filter, e, key), OffsetsAfter(w, filter, e, key),
                        CursorAfter(w, filter, e, key).committed)
  {
    hide NextIn, MatchingOffsets, Matches, OffsetsOf, AckStep, InsertOffset, Without, Cursors.Retain, Ascends, Popped,
         IndexOk;
    var frontier := w.cursors.frontiers[key];
    CommitNeverMovesBack(w, filter, e, key);
    match e
    case Publish(s, m) => if InPartition(m, key) { InsertKeepsFrontier(frontier, m.offset.value); }
    case Retain(k, floor) => RetainKeepsFrontier(frontier, floor);
    case Compact(s) =>
      if s in w.messages && InPartition(w.messages[s], key) {
        WithoutKeepsFrontier(frontier, w.messages[s].offset.value);
      }
    case Deliver(sequences) =>
      IndexedAbove(w.cursors, filter, w.messages, sequences, key);
      PoppedKeepsTheRest(frontier, w.cursors.partitions[key].committed, key, sequences);
    case _ =>
  }

  lemma FrontierFollows(w: World, filter: string, e: Event, key: Key)
    requires FrontiersAgree(w.cursors, filter, w.messages) && key in Step(w, filter, e).0.cursors.frontiers
    requires Admissible(w, e)
    ensures key in w.cursors.partitions
    ensures AgreesAbove(Step(w, filter, e).0.cursors.frontiers[key], OffsetsAfter(w, filter, e, key),
                        CursorAfter(w, filter, e, key).committed)
  {
    if key in w.cursors.frontiers {
      hide Step, OffsetsAfter, CursorAfter, FrontierAfter, AgreesAbove, Admissible;
      MovedFrontierAgrees(w, filter, e, key);
      FrontierMoves(w, filter, e, key);
    } else {
      OnlyDeliveryAdds(w, filter, e, key);
      NewFrontierAgrees(w, filter, e.sequences, key);
    }
  }

  lemma OnlyDeliveryAdds(w: World, filter: string, e: Event, key: Key)
    requires key !in w.cursors.frontiers && key in Step(w, filter, e).0.cursors.frontiers
    ensures e.Deliver? && key in w.cursors.partitions
  {
    hide NextIn, MatchingOffsets, Matches, OffsetsOf, AckStep, InsertOffset, Without, Cursors.Retain, FloorStep, Trim,
         Popped;
  }

  /** A new frontier lists the log's matching offsets and is popped at once. */
  lemma NewFrontierAgrees(w: World, filter: string, sequences: map<Position, nat>, key: Key)
    requires IndexOk(w.messages, sequences) && key in w.cursors.partitions && key !in w.cursors.frontiers
    ensures var after := Step(w, filter, Deliver(sequences)).0.cursors;
            && key in after.frontiers
            && AgreesAbove(after.frontiers[key], MatchingOffsets(w.messages, filter, key),
                           w.cursors.partitions[key].committed)
  {
    var offsets, from := MatchingOffsets(w.messages, filter, key), w.cursors.partitions[key].committed;
    var listed := SortedNats(offsets);
    forall o | o in listed ensures At(key, o) in sequences {
      var t :| t in w.messages && InPartition(w.messages[t], key) && w.messages[t].offset.value == o;
      assert PositionOf(w.messages[t]) == At(key, o);
    }
    hide MatchingOffsets, IndexOk;
    NewFrontierIs(w, filter, sequences, key);
    hide Popped, Step;
    PoppedKeepsTheRest(listed, from, key, sequences);
  }

  lemma NewFrontierIs(w: World, filter: string, sequences: map<Position, nat>, key: Key)
    requires key in w.cursors.partitions && key !in w.cursors.frontiers
    ensures var after := Step(w, filter, Deliver(sequences)).0.cursors;
            && key in after.frontiers
            && after.frontiers[key]
               == Popped(SortedNats(MatchingOffsets(w.messages, filter, key)), w.cursors.partitions[key].committed, key,
                         sequences)
  {
    hide MatchingOffsets, Popped, SortedNats;
  }

  lemma StepKeepsInv(w: World, filter: string, e: Event)
    requires Inv(w, filter) && Admissible(w, e)
    ensures Inv(Step(w, filter, e).0, filter)
  {
    var after := Step(w, filter, e).0;
    PositionsStayUnique(w, filter, e);
    forall key | key in after.cursors.frontiers
      ensures key in after.cursors.partitions
      ensures AgreesAbove(after.cursors.frontiers[key], MatchingOffsets(after.messages, filter, key),
                          after.cursors.partitions[key].committed)
    {
      hide *;
      FrontierFollows(w, filter, e, key);
      FrontiersOfInv(w, filter);
      OffsetsFollow(w, filter, e, key);
      CursorFollows(w, filter, e, key);
    }
  }

  lemma FrontiersOfInv(w: World, filter: string)
    requires Inv(w, filter)
    ensures FrontiersAgree(w.cursors, filter, w.messages) && UniquePositions(w.messages)
  {
  }

  lemma PositionsStayUnique(w: World, filter: string, e: Event)
    requires UniquePositions(w.messages) && Admissible(w, e)
    ensures UniquePositions(Step(w, filter, e).0.messages)
  {
    hide Acknowledge, ObservePublished, ApplyFloor, RemoveRecord, ObserveRetention, WithFrontiers, PopFrontiers,
         IndexOk;
  }

  lemma {:induction false} RunKeepsInv(w: World, filter: string, run: seq<Event>)
    requires Inv(w, filter) && AdmissibleRun(w, filter, run)
    ensures Inv(After(w, filter, run), filter)
  {
    hide Inv, Step;
    if run != [] {
      RunKeepsInv(w, filter, run[..|run| - 1]);
      StepKeepsInv(After(w, filter, run[..|run| - 1]), filter, run[|run| - 1]);
    }
  }

  /** In every reachable world an indexed search starts from exact frontiers. */
  lemma SearchStartsExact(w: World, filter: string)
    requires Inv(w, filter)
    ensures FrontiersAgree(WithFrontiers(w, filter), filter, w.messages)
  {
    hide MatchingOffsets, SortedNats;
    forall key | key in w.cursors.partitions && key !in w.cursors.frontiers
      ensures AgreesAbove(SortedNats(MatchingOffsets(w.messages, filter, key)),
                          MatchingOffsets(w.messages, filter, key),
                          w.cursors.partitions[key].committed)
    {
      ListedAgrees(MatchingOffsets(w.messages, filter, key), w.cursors.partitions[key].committed);
    }
  }

  lemma ListedAgrees(offsets: set<nat>, from: nat)
    ensures AgreesAbove(SortedNats(offsets), offsets, from)
  {
  }

  // ----- the index changes nothing but speed -----

  /** The same world without any frontier: every decision is made by scanning. */
  function Plain(w: World): World { w.(cursors := w.cursors.(frontiers := map[])) }

  function PlainStep(w: World, filter: string, e: Event): (World, Option<Error>) {
    if e.Deliver? then (w, None) else Step(w, filter, e)
  }

  function PlainAfter(w: World, filter: string, run: seq<Event>): World {
    if run == [] then w else PlainStep(PlainAfter(w, filter, run[..|run| - 1]), filter, run[|run| - 1]).0
  }

  lemma SameReply(w: World, filter: string, e: Event)
    requires FrontiersAgree(w.cursors, filter, w.messages)
    ensures Step(w, filter, e).1 == PlainStep(Plain(w), filter, e).1
  {
    hide AckStep, FloorStep, NextIn, MatchingOffsets, Ascends, Matches, OffsetsOf;
    if e.Ack? && Located(e.record) && KeyOf(e.record) in w.cursors.frontiers {
      var key := KeyOf(e.record);
      AckAgrees(w.cursors.partitions[key], w.cursors.frontiers[key], MatchingOffsets(w.messages, filter, key),
                w.cursors.ackWindow, e.record.offset.value);
    }
  }

  lemma SameStore(w: World, filter: string, e: Event)
    ensures var indexed, plain := Step(w, filter, e).0, PlainStep(Plain(w), filter, e).0;
            indexed.messages == plain.messages && plain.cursors.frontiers == map[]
            && indexed.cursors.ackWindow == plain.cursors.ackWindow
            && indexed.cursors.partitions.Keys == plain.cursors.partitions.Keys == w.cursors.partitions.Keys
  {
    ShapeStays(w, filter, e);
    ShapeStays(Plain(w), filter, e);
    hide Acknowledge, ApplyFloor, ObservePublished, RemoveRecord, ObserveRetention, WithFrontiers, PopFrontiers, Trim;
  }

  lemma ShapeStays(w: World, filter: string, e: Event)
    ensures var after := Step(w, filter, e).0.cursors;
            after.partitions.Keys == w.cursors.partitions.Keys && after.ackWindow == w.cursors.ackWindow
            && (!e.Deliver? && w.cursors.frontiers == map[] ==> after.frontiers == map[])
  {
    hide AckStep, FloorStep, NextIn, MatchingOffsets, Matches, OffsetsOf, Trim, InsertOffset, Without, Cursors.Retain,
         LogOffsets, Popped;
  }

  lemma SameCursor(w: World, filter: string, e: Event, key: Key)
    requires FrontiersAgree(w.cursors, filter, w.messages) && key in w.cursors.partitions
    requires key in PlainStep(Plain(w), filter, e).0.cursors.partitions
    ensures PlainStep(Plain(w), filter, e).0.cursors.partitions[key] == CursorAfter(w, filter, e, key)
  {
    hide Step;
    assert CursorAfter(w, filter, e, key) == CursorAfter(Plain(w), filter, e, key);
    CursorFollows(Plain(w), filter, e, key);
  }

  lemma StepErases(w: World, filter: string, e: Event)
    requires FrontiersAgree(w.cursors, filter, w.messages)
    ensures Plain(Step(w, filter, e).0) == PlainStep(Plain(w), filter, e).0
  {
    var indexed, plain := Step(w, filter, e).0, PlainStep(Plain(w), filter, e).0;
    hide Step, PlainStep, FrontiersAgree, CursorAfter;
    SameStore(w, filter, e);
    forall key | key in w.cursors.partitions
      ensures indexed.cursors.partitions[key] == plain.cursors.partitions[key]
    {
      CursorFollows(w, filter, e, key);
      SameCursor(w, filter, e, key);
    }
    assert indexed.cursors.partitions == plain.cursors.partitions;
  }

  lemma {:induction false} RunErases(w: World, filter: string, run: seq<Event>)
    requires Inv(w, filter) && AdmissibleRun(w, filter, run)
    ensures Plain(After(w, filter, run)) == PlainAfter(Plain(w), filter, run)
  {
    hide Inv, Step, PlainStep, FrontiersAgree;
    if run != [] {
      var before := After(w, filter, run[..|run| - 1]);
      RunErases(w, filter, run[..|run| - 1]);
      RunKeepsInv(w, filter, run[..|run| - 1]);
      FrontiersOfInv(before, filter);
      StepErases(before, filter, run[|run| - 1]);
    }
  }

  lemma FirstIsUnique(
    cs: CursorSet, filter: string, messages: Messages, leased: set<nat>, r: Option<nat>, t: Option<nat>)
    requires UniquePositions(messages)
    requires IsFirst(r, cs.partitions, filter, messages, leased) && IsFirst(t, cs.partitions, filter, messages, leased)
    ensures r == t
  {
    hide PositionLe, Matches;
    if r.Some? && t.Some? { PositionLeTotal(PositionOf(messages[r.value]), PositionOf(messages[t.value])); }
  }

  /** Lifting cursors to the retained offsets neither adds nor removes a candidate. */
  lemma ObservingKeepsCandidates(cs: CursorSet, filter: string, messages: Messages, leased: set<nat>, s: nat)
    ensures Candidate(ObserveRetention(cs, messages).partitions, filter, messages, leased, s)
       <==> Candidate(cs.partitions, filter, messages, leased, s)
  {
    hide NextIn, Matches;
    if s in messages && Located(messages[s]) && KeyOf(messages[s]) in cs.partitions {
      var key := KeyOf(messages[s]);
      var offsets := OffsetsOf(messages, key);
      assert messages[s].offset.value in offsets;
      if NextIn(offsets, 0).Some? { NextIsAbove(offsets, 0); }
    }
  }

  /** The indexed choice is the scanned choice. */
  lemma IndexedPicksTheSame(
    cs: CursorSet, filter: string, messages: Messages, leased: set<nat>, r: Option<nat>, t: Option<nat>)
    requires UniquePositions(messages)
    requires IsFirst(r, cs.partitions, filter, messages, leased)
    requires IsFirst(t, ObserveRetention(cs, messages).partitions, filter, messages, leased)
    ensures r == t
  {
    forall s
      ensures Candidate(ObserveRetention(cs, messages).partitions, filter, messages, leased, s)
         <==> Candidate(cs.partitions, filter, messages, leased, s)
    {
      ObservingKeepsCandidates(cs, filter, messages, leased, s);
    }
    hide Candidate, ObserveRetention, UniquePositions;
    assert IsFirst(t, cs.partitions, filter, messages, leased);
    FirstIsUnique(cs, filter, messages, leased, r, t);
  }

  /** Over every run the indexed consumer and the scanning consumer hold the same cursors,
      answer the next event alike and choose the same message. Each frontier, also one that
      an indexed search fills in first, lists the retained matching offsets from the commit
      point on. */
  lemma FrontierRefinesScan(
    w: World, filter: string, run: seq<Event>, e: Event, leased: set<nat>, r: Option<nat>, t: Option<nat>)
    requires Inv(w, filter) && AdmissibleRun(w, filter, run)
    ensures var indexed, plain := After(w, filter, run), PlainAfter(Plain(w), filter, run);
            && indexed.cursors.partitions == plain.cursors.partitions && indexed.messages == plain.messages
            && FrontiersAgree(indexed.cursors, filter, indexed.messages)
            && FrontiersAgree(WithFrontiers(indexed, filter), filter, indexed.messages)
            && Step(indexed, filter, e).1 == PlainStep(plain, filter, e).1
            && (IsFirst(r, indexed.cursors.partitions, filter, indexed.messages, leased)
                && IsFirst(t, ObserveRetention(plain.cursors, plain.messages).partitions, filter, plain.messages,
                           leased)
                ==> r == t)
  {
    hide Inv, Step, PlainStep, FrontiersAgree, IsFirst, ObserveRetention, WithFrontiers;
    var indexed, plain := After(w, filter, run), PlainAfter(Plain(w), filter, run);
    RunErases(w, filter, run);
    RunKeepsInv(w, filter, run);
    FrontiersOfInv(indexed, filter);
    SearchStartsExact(indexed, filter);
    SameReply(indexed, filter, e);
    if IsFirst(r, indexed.cursors.partitions, filter, indexed.messages, leased)
       && IsFirst(t, ObserveRetention(plain.cursors, plain.messages).partitions, filter, plain.messages, leased) {
      IndexedPicksTheSame(plain.cursors, filter, plain.messages, leased, r, t);
    }
  }
}
