/** Consumer cursors (crates/server/src/consumer_cursor.rs): contiguous commit from
    out-of-order acknowledgements, with a frontier index beside the message scan. */
module Cursors {
  import opened Common
  import opened Subjects

  datatype Message = Message(stream: Option<string>, partition: Option<nat>, offset: Option<nat>, subject: string)

  datatype Cursor = Cursor(stream: string, partition: nat, committed: nat, acked: set<nat>, retentionGaps: nat)

  /** `cursor_key`: stream name and partition number. */
  type Key = (string, nat)

  datatype CursorSet = CursorSet(partitions: map<Key, Cursor>, ackWindow: nat, frontiers: map<Key, seq<nat>>)

  datatype Error = NoOffset | NoCursor | WindowExceeded

  type Messages = map<nat, Message>

  // ----- one cursor against a set of matching offsets -----

  function Above(offsets: set<nat>, from: nat): (r: set<nat>)
    ensures forall o :: o in r <==> o in offsets && o >= from
  {
    set o | o in offsets && o >= from
  }

  /** The least offset at or above a position. */
  function NextIn(offsets: set<nat>, from: nat): Option<nat> {
    if Above(offsets, from) == {} then None else Some(SortedNats(Above(offsets, from))[0])
  }

  /** `advance_committed`: consume acknowledgements as long as they are contiguous. */
  function Advance(c: Cursor, offsets: set<nat>): (r: Cursor)
    decreases |c.acked|
    ensures r.committed >= c.committed && r.acked <= c.acked
    ensures r.(committed := c.committed, acked := c.acked) == c
  {
    var next := NextIn(offsets, c.committed);
    if next.Some? && next.value in c.acked then
      NextIsAbove(offsets, c.committed);
      Advance(c.(acked := c.acked - {next.value}, committed := SatInc(next.value)), offsets)
    else c
  }

  lemma NextIsAbove(offsets: set<nat>, from: nat)
    requires NextIn(offsets, from).Some?
    ensures NextIn(offsets, from).value >= from && NextIn(offsets, from).value in offsets
    ensures forall o :: o in offsets && o >= from ==> NextIn(offsets, from).value <= o
  {
  }

  /** `acknowledge` on one cursor: offsets below the commit point are already done, the
      window bounds what is held back, and an offset that closes the gap always enters. */
  function AckStep(c: Cursor, offsets: set<nat>, window: nat, offset: nat): Result<Cursor, Error> {
    if offset < c.committed then Ok(c)
    else if offset in c.acked || |c.acked| < window || NextIn(offsets, c.committed) == Some(offset) then
      Ok(Advance(c.(acked := c.acked + {offset}), offsets))
    else Err(WindowExceeded)
  }

  function FloorStep(c: Cursor, floor: nat): Cursor {
    if c.committed < floor then
      c.(committed := floor, retentionGaps := SatInc(c.retentionGaps), acked := set o | o in c.acked && o >= floor)
    else c
  }

  // ----- the scan -----

  predicate InPartition(m: Message, key: Key) {
    m.stream == Some(key.0) && m.partition == Some(key.1) && m.offset.Some?
  }

  function OffsetsOf(messages: Messages, key: Key): set<nat> {
    set s | s in messages && InPartition(messages[s], key) :: messages[s].offset.value
  }

  function MatchingOffsets(messages: Messages, filter: string, key: Key): set<nat> {
    set s | s in messages && InPartition(messages[s], key) && Matches(filter, messages[s].subject) ::
      messages[s].offset.value
  }

  // ----- the frontier index -----

  predicate Ascends(q: seq<nat>) {
    forall i, j :: 0 <= i < j < |q| ==> q[i] < q[j]
  }

  /** `next_frontier_offset`: the first entry at or above the commit point. */
  method FindFrontierOffset(frontier: seq<nat>, from: nat) returns (r: Option<nat>)
    requires Ascends(frontier)
    ensures r == NextIn(ElementsOf(frontier), from)
  {
    ghost var above := Above(ElementsOf(frontier), from);
    for i := 0 to |frontier|
      invariant forall k :: 0 <= k < i ==> frontier[k] < from
    {
      if frontier[i] >= from {
        assert frontier[i] in above && forall o :: o in above ==> frontier[i] <= o;
        NextIsAbove(ElementsOf(frontier), from);
        return Some(frontier[i]);
      }
    }
    assert above == {};
    r := None;
  }

  /** `next_matching_offset`: the minimum over a scan of all messages. */
  method FindMatchingOffset(messages: Messages, filter: string, key: Key, from: nat) returns (r: Option<nat>)
    ensures r == NextIn(MatchingOffsets(messages, filter, key), from)
  {
    ghost var offsets := MatchingOffsets(messages, filter, key);
    var todo := messages.Keys;
    r := None;
    while todo != {}
      invariant todo <= messages.Keys
      invariant r.Some? ==> r.value in offsets && r.value >= from
      invariant forall s ::
        (s in messages && s !in todo && InPartition(messages[s], key)
         && Matches(filter, messages[s].subject) && messages[s].offset.value >= from)
        ==> r.Some? && r.value <= messages[s].offset.value
      decreases todo
    {
      var s :| s in todo;
      todo := todo - {s};
      var m := messages[s];
      if InPartition(m, key) && Matches(filter, m.subject) && m.offset.value >= from {
        if r.None? || m.offset.value < r.value { r := Some(m.offset.value); }
      }
    }
    MinimumIsNext(offsets, from, r);
  }

  /** The earliest retained offset of a partition. */
  method FindEarliest(messages: Messages, key: Key) returns (r: Option<nat>)
    ensures r == NextIn(OffsetsOf(messages, key), 0)
  {
    ghost var offsets := OffsetsOf(messages, key);
    var todo := messages.Keys;
    r := None;
    while todo != {}
      invariant todo <= messages.Keys
      invariant r.Some? ==> r.value in offsets
      invariant forall s :: s in messages && s !in todo && InPartition(messages[s], key) ==>
                  r.Some? && r.value <= messages[s].offset.value
      decreases todo
    {
      var s :| s in todo;
      todo := todo - {s};
      var m := messages[s];
      if InPartition(m, key) {
        if r.None? || m.offset.value < r.value { r := Some(m.offset.value); }
      }
    }
    MinimumIsNext(offsets, 0, r);
  }

  lemma MinimumIsNext(offsets: set<nat>, from: nat, r: Option<nat>)
    requires r.Some? ==> r.value in offsets && r.value >= from
    requires forall o :: o in offsets && o >= from ==> r.Some? && r.value <= o
    ensures r == NextIn(offsets, from)
  {
  }

  /** Insertion that keeps the deque ascending and free of duplicates. */
  function InsertOffset(q: seq<nat>, offset: nat): seq<nat> {
    if q == [] || q[|q| - 1] < offset then q + [offset]
    else if offset in q then q
    else var at := PartitionPoint(q, offset); q[..at] + [offset] + q[at..]
  }

  /** How many leading entries are below the offset. */
  function PartitionPoint(q: seq<nat>, offset: nat): (n: nat)
    ensures n <= |q| && (forall i :: 0 <= i < n ==> q[i] < offset) && (n < |q| ==> q[n] >= offset)
  {
    if q == [] || q[0] >= offset then 0 else 1 + PartitionPoint(q[1..], offset)
  }

  lemma SpliceAscends(q: seq<nat>, at: nat, offset: nat)
    requires Ascends(q) && at <= |q| && offset !in q
    requires (forall i :: 0 <= i < at ==> q[i] < offset) && (at < |q| ==> q[at] >= offset)
    ensures Ascends(q[..at] + [offset] + q[at..])
  {
  }

  lemma ConsAscends(x: nat, q: seq<nat>)
    requires Ascends(q) && forall o :: o in q ==> x < o
    ensures Ascends([x] + q)
  {
    assert forall i :: 0 <= i < |q| ==> q[i] in q;
  }

  lemma InsertKeepsFrontier(q: seq<nat>, offset: nat)
    requires Ascends(q)
    ensures Ascends(InsertOffset(q, offset)) && ElementsOf(InsertOffset(q, offset)) == ElementsOf(q) + {offset}
  {
    var r := InsertOffset(q, offset);
    if q != [] && q[|q| - 1] >= offset && offset !in q {
      var at := PartitionPoint(q, offset);
      SpliceAscends(q, at, offset);
      assert q == q[..at] + q[at..];
    }
    assert forall x :: x in r <==> x in q || x == offset;
  }

  /** `retain`: the entries at or above a floor. */
  function Retain(q: seq<nat>, floor: nat): seq<nat> {
    if q == [] then []
    else (if q[0] >= floor then [q[0]] else []) + Retain(q[1..], floor)
  }

  function Without(q: seq<nat>, offset: nat): seq<nat> {
    if q == [] then []
    else (if q[0] != offset then [q[0]] else []) + Without(q[1..], offset)
  }

  lemma {:induction false} RetainKeepsFrontier(q: seq<nat>, floor: nat)
    requires Ascends(q)
    ensures Ascends(Retain(q, floor)) && forall o :: o in Retain(q, floor) <==> o in q && o >= floor
  {
    if q != [] {
      RetainKeepsFrontier(q[1..], floor);
      assert q == [q[0]] + q[1..];
      assert forall o :: o in q[1..] ==> q[0] < o;
      ConsAscends(q[0], Retain(q[1..], floor));
    }
  }

  lemma {:induction false} WithoutKeepsFrontier(q: seq<nat>, offset: nat)
    requires Ascends(q)
    ensures Ascends(Without(q, offset)) && forall o :: o in Without(q, offset) <==> o in q && o != offset
  {
    if q != [] {
      WithoutKeepsFrontier(q[1..], offset);
      assert q == [q[0]] + q[1..];
      assert forall o :: o in q[1..] ==> q[0] < o;
      ConsAscends(q[0], Without(q[1..], offset));
    }
  }

  // ----- cursor sets -----

  /** The offsets an acknowledgement consults: the frontier if the partition has one, the
      scan otherwise. */
  function Consulted(cs: CursorSet, filter: string, messages: Messages, key: Key): set<nat> {
    if key in cs.frontiers then ElementsOf(cs.frontiers[key]) else MatchingOffsets(messages, filter, key)
  }

  function Acknowledge(cs: CursorSet, m: Message, filter: string, messages: Messages): (CursorSet, Option<Error>) {
    if m.offset.None? then (cs, Some(NoOffset))
    else if m.stream.None? || m.partition.None? || (m.stream.value, m.partition.value) !in cs.partitions then
      (cs, Some(NoCursor))
    else
      var key := (m.stream.value, m.partition.value);
      match AckStep(cs.partitions[key], Consulted(cs, filter, messages, key), cs.ackWindow, m.offset.value)
      case Ok(cursor) => (cs.(partitions := cs.partitions[key := cursor]), None)
      case Err(error) => (cs, Some(error))
  }

  function ApplyFloor(cs: CursorSet, key: Key, floor: nat): CursorSet {
    if key !in cs.partitions then cs
    else
      cs.(partitions := cs.partitions[key := FloorStep(cs.partitions[key], floor)],
          frontiers := if key in cs.frontiers then cs.frontiers[key := Retain(cs.frontiers[key], floor)]
                       else cs.frontiers)
  }

  function ObservePublished(cs: CursorSet, filter: string, m: Message): CursorSet {
    if m.stream.None? || m.partition.None? || m.offset.None? || !Matches(filter, m.subject) then cs
    else
      var key := (m.stream.value, m.partition.value);
      if key !in cs.frontiers then cs
      else cs.(frontiers := cs.frontiers[key := InsertOffset(cs.frontiers[key], m.offset.value)])
  }

  function RemoveRecord(cs: CursorSet, key: Key, offset: nat): CursorSet {
    if key in cs.frontiers then cs.(frontiers := cs.frontiers[key := Without(cs.frontiers[key], offset)]) else cs
  }

  /** `ensure_frontiers`: partitions without a frontier get the log's matching offsets,
      ascending; `logs` answers for the partition logs, empty if it has no entry. */
  function EnsureFrontiers(cs: CursorSet, logs: map<Key, seq<nat>>): CursorSet {
    cs.(frontiers := map key | key in cs.frontiers.Keys + cs.partitions.Keys ::
          if key in cs.frontiers then cs.frontiers[key] else if key in logs then logs[key] else [])
  }

  /** `observe_retention`: each cursor is lifted to the first retained offset. */
  function ObserveRetention(cs: CursorSet, messages: Messages): CursorSet {
    cs.(partitions := map key | key in cs.partitions ::
      LiftToRetained(cs.partitions[key], NextIn(OffsetsOf(messages, key), 0)))
  }

  function LiftToRetained(c: Cursor, earliest: Option<nat>): Cursor {
    if earliest.Some? then FloorStep(c, earliest.value) else c
  }

  // ----- delivery candidates -----

  type Position = (string, nat, nat)

  predicate PositionLe(a: Position, b: Position) {
    if a.0 != b.0 then LexLe(a.0, b.0) else if a.1 != b.1 then a.1 < b.1 else a.2 <= b.2
  }

  predicate Located(m: Message) { m.stream.Some? && m.partition.Some? && m.offset.Some? }

  function PositionOf(m: Message): Position
    requires Located(m)
  {
    (m.stream.value, m.partition.value, m.offset.value)
  }

  function KeyOf(m: Message): Key
    requires Located(m)
  {
    (m.stream.value, m.partition.value)
  }

  /** A message that may be delivered next: unleased, matching, not yet committed or
      acknowledged by its cursor. */
  predicate Candidate(partitions: map<Key, Cursor>, filter: string, messages: Messages, leased: set<nat>, s: nat) {
    && s in messages && s !in leased && Located(messages[s]) && Matches(filter, messages[s].subject)
    && var m := messages[s];
       var key := (m.stream.value, m.partition.value);
       key in partitions && m.offset.value >= partitions[key].committed && m.offset.value !in partitions[key].acked
  }

  /** The candidate with the least position, if there is one. */
  ghost predicate IsFirst(
    r: Option<nat>, partitions: map<Key, Cursor>, filter: string, messages: Messages, leased: set<nat>
  ) {
    match r
    case None => forall s :: !Candidate(partitions, filter, messages, leased, s)
    case Some(best) =>
      && Candidate(partitions, filter, messages, leased, best)
      && forall s :: Candidate(partitions, filter, messages, leased, s) ==>
           PositionLe(PositionOf(messages[best]), PositionOf(messages[s]))
  }

  ghost predicate UniquePositions(messages: Messages) {
    forall s, t ::
      (s in messages && t in messages && Located(messages[s]) && Located(messages[t])
       && PositionOf(messages[s]) == PositionOf(messages[t]))
      ==> s == t
  }

  lemma PositionLeTotal(a: Position, b: Position)
    ensures PositionLe(a, b) || PositionLe(b, a)
    ensures PositionLe(a, b) && PositionLe(b, a) ==> a == b
  {
    LexLeTotalAt(a.0, b.0);
  }

  lemma PositionLeTransitive(a: Position, b: Position, c: Position)
    requires PositionLe(a, b) && PositionLe(b, c)
    ensures PositionLe(a, c)
  {
    LexLeTotalAt(a.0, b.0);
    LexLeTotalAt(b.0, c.0);
    LexLeTotalAt(a.0, c.0);
    if a.0 != b.0 && b.0 != c.0 { LexLeTransitiveAt(a.0, b.0, c.0); }
  }

  /** `min_by_key` over a scan of all messages. */
  method ScanFirst(
    partitions: map<Key, Cursor>, filter: string, messages: Messages, leased: set<nat>) returns (r: Option<nat>)
    ensures IsFirst(r, partitions, filter, messages, leased)
  {
    var todo := messages.Keys;
    r := None;
    while todo != {}
      invariant todo <= messages.Keys
      invariant r.Some? ==> Candidate(partitions, filter, messages, leased, r.value)
      invariant forall s :: Candidate(partitions, filter, messages, leased, s) && s !in todo ==>
                  r.Some? && PositionLe(PositionOf(messages[r.value]), PositionOf(messages[s]))
      decreases todo
    {
      var s :| s in todo;
      todo := todo - {s};
      r := Better(partitions, filter, messages, leased, r, s);
    }
  }

  /** Keep the better of the best so far and one more message. */
  method Better(
    partitions: map<Key, Cursor>, filter: string, messages: Messages, leased: set<nat>, best: Option<nat>, s: nat)
    returns (r: Option<nat>)
    requires best.Some? ==> Candidate(partitions, filter, messages, leased, best.value)
    ensures r == best || (r == Some(s) && Candidate(partitions, filter, messages, leased, s))
    ensures Candidate(partitions, filter, messages, leased, s) ==>
              r.Some? && PositionLe(PositionOf(messages[r.value]), PositionOf(messages[s]))
    ensures best.Some? ==> r.Some?
    ensures best.Some? ==> forall p ::
              PositionLe(PositionOf(messages[best.value]), p) ==> PositionLe(PositionOf(messages[r.value]), p)
  {
    r := best;
    if Candidate(partitions, filter, messages, leased, s) {
      if best.None? {
        PositionLeTotal(PositionOf(messages[s]), PositionOf(messages[s]));
        r := Some(s);
      } else {
        var a, b := PositionOf(messages[s]), PositionOf(messages[best.value]);
        PositionLeTotal(a, b);
        if PositionLe(a, b) {
          r := Some(s);
          PositionLeTotal(a, a);
          forall p | PositionLe(b, p) ensures PositionLe(a, p) { PositionLeTransitive(a, b, p); }
        }
      }
    }
  }

  /** The sequence index beside the messages: positions to sequence numbers, exactly. */
  ghost predicate IndexOk(messages: Messages, sequences: map<Position, nat>) {
    && (forall p :: p in sequences ==>
          sequences[p] in messages && Located(messages[sequences[p]]) && PositionOf(messages[sequences[p]]) == p)
    && (forall s :: s in messages && Located(messages[s]) ==>
          PositionOf(messages[s]) in sequences && sequences[PositionOf(messages[s])] == s)
  }

  /** A frontier that agrees with a set of offsets from the commit point on. */
  ghost predicate AgreesAbove(frontier: seq<nat>, offsets: set<nat>, from: nat) {
    Ascends(frontier) && forall o :: o >= from ==> (o in frontier <==> o in offsets)
  }

  /** Every frontier agrees with the scan of its partition from the commit point on. */
  ghost predicate FrontiersAgree(cs: CursorSet, filter: string, messages: Messages) {
    forall key :: key in cs.frontiers ==>
      key in cs.partitions
      && AgreesAbove(cs.frontiers[key], MatchingOffsets(messages, filter, key), cs.partitions[key].committed)
  }

  function At(key: Key, offset: nat): Position { (key.0, key.1, offset) }

  /** An offset the index may deliver for one partition. */
  predicate Deliverable(
    c: Cursor, key: Key, frontier: seq<nat>, sequences: map<Position, nat>, leased: set<nat>, o: nat
  ) {
    && o in frontier && o >= c.committed && o !in c.acked
    && At(key, o) in sequences && sequences[At(key, o)] !in leased
  }

  /** The frontier without the entries at its front that are committed or not retained. */
  function Popped(frontier: seq<nat>, from: nat, key: Key, sequences: map<Position, nat>): seq<nat> {
    if frontier != [] && (frontier[0] < from || At(key, frontier[0]) !in sequences) then
      Popped(frontier[1..], from, key, sequences)
    else frontier
  }

  method PopCommitted(c: Cursor, key: Key, frontier: seq<nat>, sequences: map<Position, nat>) returns (rest: seq<nat>)
    ensures rest == Popped(frontier, c.committed, key, sequences)
  {
    rest := frontier;
    while rest != [] && (rest[0] < c.committed || At(key, rest[0]) !in sequences)
      invariant Popped(rest, c.committed, key, sequences) == Popped(frontier, c.committed, key, sequences)
    {
      rest := rest[1..];
    }
  }

  /** With an exact index exactly the entries from the commit point on remain. */
  lemma {:induction false} PoppedKeepsTheRest(frontier: seq<nat>, from: nat, key: Key, sequences: map<Position, nat>)
    requires Ascends(frontier)
    requires forall o :: o in frontier && o >= from ==> At(key, o) in sequences
    ensures Ascends(Popped(frontier, from, key, sequences))
    ensures forall o :: o in Popped(frontier, from, key, sequences) <==> o in frontier && o >= from
  {
    if frontier != [] {
      assert frontier[0] in frontier && frontier == [frontier[0]] + frontier[1..];
      if frontier[0] < from {
        PoppedKeepsTheRest(frontier[1..], from, key, sequences);
      } else {
        assert forall i :: 0 <= i < |frontier| ==> frontier[i] >= frontier[0];
      }
    }
  }

  /** Every frontier popped, as one search through the index does. */
  function PopFrontiers(cs: CursorSet, sequences: map<Position, nat>): CursorSet {
    cs.(frontiers := PopExcept(cs, sequences, {}))
  }

  /** The frontiers when all partitions but those in `todo` have been searched. */
  function PopExcept(cs: CursorSet, sequences: map<Position, nat>, todo: set<Key>): map<Key, seq<nat>> {
    map key | key in cs.frontiers ::
      if key in todo || key !in cs.partitions then cs.frontiers[key]
      else Popped(cs.frontiers[key], cs.partitions[key].committed, key, sequences)
  }

  lemma PopOne(cs: CursorSet, sequences: map<Position, nat>, todo: set<Key>, key: Key)
    requires key in todo && key in cs.partitions && key in cs.frontiers
    ensures PopExcept(cs, sequences, todo).Keys == cs.frontiers.Keys
    ensures PopExcept(cs, sequences, todo)[key] == cs.frontiers[key]
    ensures PopExcept(cs, sequences, todo - {key})
         == PopExcept(cs, sequences, todo)[key :=
              Popped(cs.frontiers[key], cs.partitions[key].committed, key, sequences)]
  {
    hide Popped;
  }

  lemma PopNone(cs: CursorSet, sequences: map<Position, nat>)
    ensures PopExcept(cs, sequences, cs.partitions.Keys) == cs.frontiers
  {
    hide Popped;
  }

  /** The first entry that is neither acknowledged nor leased. */
  method FindDeliverable(c: Cursor, key: Key, frontier: seq<nat>, sequences: map<Position, nat>, leased: set<nat>)
    returns (r: Option<nat>)
    requires Ascends(frontier) && forall o :: o in frontier ==> o >= c.committed
    ensures r.None? ==> forall o :: !Deliverable(c, key, frontier, sequences, leased, o)
    ensures r.Some? ==> Deliverable(c, key, frontier, sequences, leased, r.value)
    ensures r.Some? ==> forall o :: Deliverable(c, key, frontier, sequences, leased, o) ==> r.value <= o
  {
    for i := 0 to |frontier|
      invariant forall k :: 0 <= k < i ==> !Deliverable(c, key, frontier, sequences, leased, frontier[k])
    {
      if frontier[i] !in c.acked && At(key, frontier[i]) in sequences && sequences[At(key, frontier[i])] !in leased {
        return Some(frontier[i]);
      }
    }
    r := None;
  }

  /** Through exact indexes, deliverable offsets and candidates are the same records. */
  lemma DeliverableIsCandidate(
    cs: CursorSet, filter: string, messages: Messages, sequences: map<Position, nat>, leased: set<nat>, key: Key, o: nat
  )
    requires IndexOk(messages, sequences) && FrontiersAgree(cs, filter, messages) && key in cs.frontiers
    requires At(key, o) in sequences
    ensures Deliverable(cs.partitions[key], key, cs.frontiers[key], sequences, leased, o)
            <==> Candidate(cs.partitions, filter, messages, leased, sequences[At(key, o)])
  {
  }

  lemma IndexedAbove(cs: CursorSet, filter: string, messages: Messages, sequences: map<Position, nat>, key: Key)
    requires IndexOk(messages, sequences) && FrontiersAgree(cs, filter, messages) && key in cs.frontiers
    ensures forall o :: o in cs.frontiers[key] && o >= cs.partitions[key].committed ==> At(key, o) in sequences
  {
  }

  /** The first deliverable offset of a partition is its first candidate. */
  lemma FirstOfPartition(
    cs: CursorSet, filter: string, messages: Messages, sequences: map<Position, nat>, leased: set<nat>, key: Key,
    r: Option<nat>
  )
    requires IndexOk(messages, sequences) && FrontiersAgree(cs, filter, messages) && key in cs.frontiers
    requires r.None? ==> forall o :: !Deliverable(cs.partitions[key], key, cs.frontiers[key], sequences, leased, o)
    requires r.Some? ==> Deliverable(cs.partitions[key], key, cs.frontiers[key], sequences, leased, r.value)
    requires r.Some? ==> forall o :: Deliverable(cs.partitions[key], key, cs.frontiers[key], sequences, leased, o) ==>
      r.value <= o
    ensures r.Some? ==> Candidate(cs.partitions, filter, messages, leased, sequences[At(key, r.value)])
    ensures forall s :: Candidate(cs.partitions, filter, messages, leased, s) && KeyOf(messages[s]) == key ==>
              r.Some? && PositionLe(At(key, r.value), PositionOf(messages[s]))
  {
    if r.Some? { DeliverableIsCandidate(cs, filter, messages, sequences, leased, key, r.value); }
    forall s | Candidate(cs.partitions, filter, messages, leased, s) && KeyOf(messages[s]) == key
      ensures r.Some? && PositionLe(At(key, r.value), PositionOf(messages[s]))
    {
      var o := messages[s].offset.value;
      assert PositionOf(messages[s]) == At(key, o);
      DeliverableIsCandidate(cs, filter, messages, sequences, leased, key, o);
    }
  }

  // ----- the cursor set in place -----

  class ConsumerCursorSet {
    var partitions: map<Key, Cursor>
    const ackWindow: nat
    var frontiers: map<Key, seq<nat>>

    function View(): CursorSet
      reads this
    {
      CursorSet(partitions, ackWindow, frontiers)
    }

    constructor (partitions: map<Key, Cursor>, ackWindow: nat)
      ensures View() == CursorSet(partitions, ackWindow, map[])
    {
      this.partitions := partitions;
      this.ackWindow := ackWindow;
      frontiers := map[];
    }

    /** `advance_committed` over a scan of the messages. */
    method AdvanceByScan(cursor: Cursor, key: Key, filter: string, messages: Messages) returns (c: Cursor)
      ensures c == Advance(cursor, MatchingOffsets(messages, filter, key))
    {
      c := cursor;
      ghost var offsets := MatchingOffsets(messages, filter, key);
      while true
        invariant Advance(c, offsets) == Advance(cursor, offsets)
        decreases |c.acked|
      {
        var next := FindMatchingOffset(messages, filter, key, c.committed);
        if next.None? || next.value !in c.acked { return; }
        c := c.(acked := c.acked - {next.value}, committed := SatInc(next.value));
      }
    }

    /** `advance_committed_from_frontier`. */
    method AdvanceByFrontier(cursor: Cursor, frontier: seq<nat>) returns (c: Cursor)
      requires Ascends(frontier)
      ensures c == Advance(cursor, ElementsOf(frontier))
    {
      c := cursor;
      ghost var offsets := ElementsOf(frontier);
      while true
        invariant Advance(c, offsets) == Advance(cursor, offsets)
        decreases |c.acked|
      {
        var next := FindFrontierOffset(frontier, c.committed);
        if next.None? || next.value !in c.acked { return; }
        c := c.(acked := c.acked - {next.value}, committed := SatInc(next.value));
      }
    }

    method AcknowledgeRecord(m: Message, filter: string, messages: Messages) returns (r: Option<Error>)
      requires forall key :: key in frontiers ==> Ascends(frontiers[key])
      modifies this
      ensures (View(), r) == Acknowledge(old(View()), m, filter, messages)
    {
      hide Advance, MatchingOffsets, NextIn, Ascends;
      if m.offset.None? { return Some(NoOffset); }
      if m.stream.None? || m.partition.None? { return Some(NoCursor); }
      var key := (m.stream.value, m.partition.value);
      var offset := m.offset.value;
      if key !in partitions { return Some(NoCursor); }
      var cursor := partitions[key];
      if offset < cursor.committed {
        assert partitions == partitions[key := cursor];
        return None;
      }
      var next;
      if key in frontiers {
        next := FindFrontierOffset(frontiers[key], cursor.committed);
      } else {
        next := FindMatchingOffset(messages, filter, key, cursor.committed);
      }
      if !(offset in cursor.acked || |cursor.acked| < ackWindow || next == Some(offset)) {
        return Some(WindowExceeded);
      }
      cursor := cursor.(acked := cursor.acked + {offset});
      if key in frontiers {
        cursor := AdvanceByFrontier(cursor, frontiers[key]);
      } else {
        cursor := AdvanceByScan(cursor, key, filter, messages);
      }
      partitions := partitions[key := cursor];
      r := None;
    }

    method ApplyRetentionFloor(key: Key, floor: nat) returns (advanced: bool)
      modifies this
      ensures View() == ApplyFloor(old(View()), key, floor)
      ensures advanced <==> key in old(partitions) && old(partitions)[key].committed < floor
    {
      if key !in partitions { return false; }
      advanced := partitions[key].committed < floor;
      partitions := partitions[key := FloorStep(partitions[key], floor)];
      if key in frontiers { frontiers := frontiers[key := Retain(frontiers[key], floor)]; }
    }

    method ObservePublishedRecord(filter: string, m: Message)
      modifies this
      ensures View() == ObservePublished(old(View()), filter, m)
    {
      if m.stream.None? || m.partition.None? || m.offset.None? || !Matches(filter, m.subject) { return; }
      var key := (m.stream.value, m.partition.value);
      if key in frontiers { frontiers := frontiers[key := InsertOffset(frontiers[key], m.offset.value)]; }
    }

    method Remove(key: Key, offset: nat)
      modifies this
      ensures View() == RemoveRecord(old(View()), key, offset)
    {
      if key in frontiers { frontiers := frontiers[key := Without(frontiers[key], offset)]; }
    }

    method EnsureAllFrontiers(logs: map<Key, seq<nat>>)
      modifies this
      ensures View() == EnsureFrontiers(old(View()), logs)
    {
      ghost var before := frontiers;
      var missing := partitions.Keys - frontiers.Keys;
      while missing != {}
        invariant missing <= partitions.Keys - before.Keys && partitions == old(partitions)
        invariant frontiers.Keys == before.Keys + (partitions.Keys - missing)
        invariant forall key :: key in frontiers ==>
          frontiers[key] == if key in before then before[key] else if key in logs then logs[key] else []
        decreases missing
      {
        var key :| key in missing;
        missing := missing - {key};
        frontiers := frontiers[key := if key in logs then logs[key] else []];
      }
    }

    method ObserveAllRetention(messages: Messages)
      modifies this
      ensures View() == ObserveRetention(old(View()), messages)
    {
      hide LiftToRetained, NextIn, OffsetsOf;
      var todo := partitions.Keys;
      ghost var goal := ObserveRetention(View(), messages).partitions;
      while todo != {}
        invariant todo <= partitions.Keys == goal.Keys && frontiers == old(frontiers)
        invariant forall key :: key in partitions ==>
          partitions[key] == if key in todo then old(partitions)[key] else goal[key]
        decreases todo
      {
        var key :| key in todo;
        todo := todo - {key};
        var earliest := FindEarliest(messages, key);
        partitions := partitions[key := LiftToRetained(partitions[key], earliest)];
      }
    }

    method NextCandidate(filter: string, messages: Messages, leased: set<nat>) returns (r: Option<nat>)
      modifies this
      ensures View() == ObserveRetention(old(View()), messages)
      ensures IsFirst(r, partitions, filter, messages, leased)
    {
      ObserveAllRetention(messages);
      r := ScanFirst(partitions, filter, messages, leased);
    }

    method NextIndexedCandidate(
      filter: string, messages: Messages, sequences: map<Position, nat>, logs: map<Key, seq<nat>>, leased: set<nat>
    ) returns (r: Option<nat>)
      requires IndexOk(messages, sequences) && FrontiersAgree(EnsureFrontiers(View(), logs), filter, messages)
      modifies this
      ensures View() == PopFrontiers(EnsureFrontiers(old(View()), logs), sequences)
      ensures IsFirst(r, partitions, filter, messages, leased)
    {
      EnsureAllFrontiers(logs);
      assert frontiers.Keys == partitions.Keys;
      hide FrontiersAgree, EnsureFrontiers, PopExcept, IsFirst, IndexOk;
      r := SearchAll(filter, messages, sequences, leased);
    }

    /** The partitions one after the other, keeping the best candidate. */
    method SearchAll(
      filter: string, messages: Messages, sequences: map<Position, nat>, leased: set<nat>) returns (r: Option<nat>)
      requires IndexOk(messages, sequences) && FrontiersAgree(View(), filter, messages)
      requires frontiers.Keys == partitions.Keys
      modifies this`frontiers
      ensures View() == PopFrontiers(old(View()), sequences)
      ensures IsFirst(r, partitions, filter, messages, leased)
    {
      hide FrontiersAgree, BestOf, IsFirst, Popped, IndexOk, PopExcept;
      ghost var cs := View();
      var todo := partitions.Keys;
      r := None;
      NothingSearched(partitions, filter, messages, leased);
      PopNone(cs, sequences);
      while todo != {}
        invariant todo <= partitions.Keys == frontiers.Keys && frontiers == PopExcept(cs, sequences, todo)
        invariant FrontiersAgree(View(), filter, messages)
        invariant BestOf(r, partitions, filter, messages, leased, todo)
        decreases todo
      {
        var key :| key in todo;
        PopOne(cs, sequences, todo, key);
        assert todo - {key} + {key} == todo;
        todo := todo - {key};
        r := ConsiderPartition(key, filter, messages, sequences, leased, r, todo);
      }
      AllSearched(r, partitions, filter, messages, leased);
    }

    /** One partition of the scan: drop what is committed, then compare its first
        deliverable message with the best so far. */
    method ConsiderPartition(
      key: Key, filter: string, messages: Messages, sequences: map<Position, nat>, leased: set<nat>, best: Option<nat>,
      ghost rest: set<Key>
    ) returns (r: Option<nat>)
      requires IndexOk(messages, sequences) && FrontiersAgree(View(), filter, messages) && key in frontiers
      requires BestOf(best, partitions, filter, messages, leased, rest + {key})
      modifies this`frontiers
      ensures FrontiersAgree(View(), filter, messages)
      ensures frontiers == old(frontiers)[key := Popped(old(frontiers)[key], partitions[key].committed, key, sequences)]
      ensures BestOf(r, partitions, filter, messages, leased, rest)
    {
      var cursor := partitions[key];
      IndexedAbove(View(), filter, messages, sequences, key);
      var left := PopCommitted(cursor, key, frontiers[key], sequences);
      PoppedKeepsTheRest(frontiers[key], cursor.committed, key, sequences);
      frontiers := frontiers[key := left];
      var first := FindDeliverable(cursor, key, left, sequences, leased);
      FirstOfPartition(View(), filter, messages, sequences, leased, key, first);
      hide FrontiersAgree, IndexOk, Deliverable, Popped, PositionLe, Candidate;
      r := best;
      if first.Some? {
        r := Better(partitions, filter, messages, leased, best, sequences[At(key, first.value)]);
      }
    }
  }

  /** The best candidate of the partitions outside `todo`. */
  ghost predicate BestOf(
    r: Option<nat>, partitions: map<Key, Cursor>, filter: string, messages: Messages, leased: set<nat>, todo: set<Key>
  ) {
    && (r.Some? ==> Candidate(partitions, filter, messages, leased, r.value))
    && forall s :: Candidate(partitions, filter, messages, leased, s) && KeyOf(messages[s]) !in todo ==>
         r.Some? && PositionLe(PositionOf(messages[r.value]), PositionOf(messages[s]))
  }

  lemma NothingSearched(partitions: map<Key, Cursor>, filter: string, messages: Messages, leased: set<nat>)
    ensures BestOf(None, partitions, filter, messages, leased, partitions.Keys)
  {
  }

  lemma AllSearched(r: Option<nat>, partitions: map<Key, Cursor>, filter: string, messages: Messages, leased: set<nat>)
    requires BestOf(r, partitions, filter, messages, leased, {})
    ensures IsFirst(r, partitions, filter, messages, leased)
  {
  }
}
