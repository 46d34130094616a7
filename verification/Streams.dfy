/** Stream definitions and the unambiguous stream catalog (crates/server/src/stream.rs). */
module Streams {
  import opened Common
  import opened Text
  import opened Subjects

  datatype StorageMode = Local | Quorum | QuorumFsync

  datatype StreamDefinition = StreamDefinition(
    name: string, subjects: seq<string>, partitions: nat, partitioningEpoch: nat,
    mode: StorageMode, replicas: nat, minAckReplicas: nat)

  datatype Error =
    | NoPartitions | NoPartitioningEpoch | NoSubjects | NoReplicas | BadMinAck | BadLocalStorage
    | InvalidBinding | CapturesInbox | DuplicateName | AmbiguousBindings

  // ----- overlap -----

  /** `patterns_overlap_from`: decided token by token. */
  predicate OverlapTokens(l: seq<string>, r: seq<string>) {
    if (l != [] && l[0] == "**") || (r != [] && r[0] == "**") then true
    else if l == [] && r == [] then true
    else if l != [] && r != [] && (l[0] == r[0] || l[0] == "*" || r[0] == "*") then OverlapTokens(l[1..], r[1..])
    else false
  }

  predicate PatternsOverlap(left: string, right: string) {
    OverlapTokens(Split(left, '/'), Split(right, '/'))
  }

  /** A subject matching a pattern: wildcards become a fixed token, a tail disappears. */
  function Instance(p: seq<string>): seq<string> {
    if p == [] || p[0] == "**" then []
    else [if p[0] == "*" then "x" else p[0]] + Instance(p[1..])
  }

  /** A subject matching two overlapping patterns. */
  function Shared(l: seq<string>, r: seq<string>): seq<string> {
    if l == [] || l[0] == "**" then Instance(r)
    else if r == [] || r[0] == "**" then Instance(l)
    else [if l[0] != "*" then l[0] else if r[0] != "*" then r[0] else "x"] + Shared(l[1..], r[1..])
  }

  lemma {:induction false} InstanceMatches(p: seq<string>)
    requires PatternTokens(p)
    ensures SubjectTokens(Instance(p)) && MatchTokens(p, Instance(p))
    ensures forall t :: t in Instance(p) ==> t == "x" || t in p
  {
    if p != [] && p[0] != "**" {
      SuffixTokens(p);
      InstanceMatches(p[1..]);
      assert LiteralToken("x");
      assert Instance(p)[1..] == Instance(p[1..]);
    }
  }

  lemma {:induction false} SharedMatches(l: seq<string>, r: seq<string>)
    requires PatternTokens(l) && PatternTokens(r) && OverlapTokens(l, r)
    ensures SubjectTokens(Shared(l, r)) && MatchTokens(l, Shared(l, r)) && MatchTokens(r, Shared(l, r))
    ensures forall t :: t in Shared(l, r) ==> t == "x" || t in l || t in r
    ensures Shared(l, r) == [] ==> (l == [] || l[0] == "**") && (r == [] || r[0] == "**")
  {
    if l == [] || l[0] == "**" {
      InstanceMatches(r);
    } else if r == [] || r[0] == "**" {
      InstanceMatches(l);
    } else {
      SuffixTokens(l);
      SuffixTokens(r);
      SharedMatches(l[1..], r[1..]);
      assert LiteralToken("x");
      assert Shared(l, r)[1..] == Shared(l[1..], r[1..]);
    }
  }

  lemma {:induction false} CommonSubjectOverlaps(l: seq<string>, r: seq<string>, s: seq<string>)
    requires MatchTokens(l, s) && MatchTokens(r, s)
    ensures OverlapTokens(l, r)
    decreases |s|
  {
    if l != [] && r != [] && l[0] != "**" && r[0] != "**" && s != [] {
      CommonSubjectOverlaps(l[1..], r[1..], s[1..]);
    }
  }

  /** The overlap test is exact: it holds if and only if some concrete subject matches
      both patterns. */
  lemma OverlapIsExact(left: string, right: string)
    requires ValidateSubscription(left) && ValidateSubscription(right)
    ensures PatternsOverlap(left, right)
       <==> exists s :: ValidateSubject(s) && Matches(left, s) && Matches(right, s)
  {
    var l, r := Split(left, '/'), Split(right, '/');
    if PatternsOverlap(left, right) {
      SharedMatches(l, r);
      SplitPieces(left, '/');
      SplitPieces(right, '/');
      var shared := if Shared(l, r) == [] then ["x"] else Shared(l, r);
      assert LiteralToken("x");
      assert Shared(l, r) == [] ==> l[0] == "**" && r[0] == "**";
      var s := SubjectText(shared);
      assert ValidateSubject(s) && Matches(left, s) && Matches(right, s);
    }
    forall s | ValidateSubject(s) && Matches(left, s) && Matches(right, s)
      ensures PatternsOverlap(left, right)
    {
      CommonSubjectOverlaps(l, r, Split(s, '/'));
    }
  }

  lemma SubjectText(tokens: seq<string>) returns (s: string)
    requires SubjectTokens(tokens) && tokens != [] && forall t :: t in tokens ==> '/' !in t
    ensures ValidateSubject(s) && Split(s, '/') == tokens
  {
    s := Join(tokens, '/');
    SplitJoin(tokens, '/');
    NotWrapped(s);
  }

  // ----- definitions and catalog -----

  // The reserved inbox pattern, written as its tokens, and its literal prefix.
  const INBOX := "_MORROW" + ['/'] + ("INBOX" + ['/'] + "**")
  const INBOX_PREFIX := "_MORROW" + ['/'] + ("INBOX" + ['/'])

  predicate BindingOk(b: string) {
    ValidateSubscription(b) && !PatternsOverlap(b, INBOX)
  }

  predicate DefinitionOk(d: StreamDefinition) {
    && d.partitions > 0 && d.partitioningEpoch > 0 && d.subjects != []
    && d.replicas > 0 && 0 < d.minAckReplicas <= d.replicas
    && (d.mode == Local ==> d.replicas == 1 && d.minAckReplicas == 1)
    && forall b :: b in d.subjects ==> BindingOk(b)
  }

  /** The first objection to a list of bindings. */
  function BindingsError(subjects: seq<string>): Option<Error> {
    if subjects == [] then None
    else if !ValidateSubscription(subjects[0]) then Some(InvalidBinding)
    else if PatternsOverlap(subjects[0], INBOX) then Some(CapturesInbox)
    else BindingsError(subjects[1..])
  }

  /** The first check of `validate` that a definition fails. */
  function DefinitionError(d: StreamDefinition): Option<Error> {
    if d.partitions == 0 then Some(NoPartitions)
    else if d.partitioningEpoch == 0 then Some(NoPartitioningEpoch)
    else if d.subjects == [] then Some(NoSubjects)
    else if d.replicas == 0 then Some(NoReplicas)
    else if d.minAckReplicas == 0 || d.minAckReplicas > d.replicas then Some(BadMinAck)
    else if d.mode == Local && !(d.replicas == 1 && d.minAckReplicas == 1) then Some(BadLocalStorage)
    else BindingsError(d.subjects)
  }

  lemma {:induction false} BindingsErrorIff(subjects: seq<string>)
    ensures BindingsError(subjects).None? <==> forall b :: b in subjects ==> BindingOk(b)
  {
    hide ValidateSubscription, PatternsOverlap;
    if subjects != [] {
      BindingsErrorIff(subjects[1..]);
      assert forall b :: b in subjects <==> b == subjects[0] || b in subjects[1..];
      assert BindingOk(subjects[0]) <==> ValidateSubscription(subjects[0]) && !PatternsOverlap(subjects[0], INBOX);
      hide BindingOk;
    }
  }

  /** Exactly the definitions within all limits whose bindings are valid and stay clear of the
      inbox pass. */
  lemma DefinitionErrorIff(d: StreamDefinition)
    ensures DefinitionError(d).None? <==> DefinitionOk(d)
  {
    hide BindingOk, BindingsError;
    BindingsErrorIff(d.subjects);
  }

  method ValidateDefinition(d: StreamDefinition) returns (failure: Option<Error>)
    ensures failure == DefinitionError(d)
  {
    hide ValidateSubscription, PatternsOverlap;
    if d.partitions == 0 { return Some(NoPartitions); }
    if d.partitioningEpoch == 0 { return Some(NoPartitioningEpoch); }
    if d.subjects == [] { return Some(NoSubjects); }
    if d.replicas == 0 { return Some(NoReplicas); }
    if d.minAckReplicas == 0 || d.minAckReplicas > d.replicas { return Some(BadMinAck); }
    if d.mode == Local && !(d.replicas == 1 && d.minAckReplicas == 1) { return Some(BadLocalStorage); }
    assert d.subjects[0..] == d.subjects;
    for i := 0 to |d.subjects|
      invariant BindingsError(d.subjects) == BindingsError(d.subjects[i..])
    {
      assert d.subjects[i..][1..] == d.subjects[i + 1..];
      if !ValidateSubscription(d.subjects[i]) { return Some(InvalidBinding); }
      if PatternsOverlap(d.subjects[i], INBOX) { return Some(CapturesInbox); }
    }
    failure := None;
  }

  predicate BindingsOverlap(a: StreamDefinition, b: StreamDefinition) {
    exists x, y :: x in a.subjects && y in b.subjects && PatternsOverlap(x, y)
  }

  /** Insertion into a name-sorted list, before the first entry that is not smaller. */
  function InsertByName(d: StreamDefinition, sorted: seq<StreamDefinition>): (r: seq<StreamDefinition>)
    ensures multiset(r) == multiset(sorted) + multiset{d}
  {
    if sorted == [] then [d]
    else if LexLe(d.name, sorted[0].name) then
      [d] + sorted
    else
      assert sorted == [sorted[0]] + sorted[1..];
      [sorted[0]] + InsertByName(d, sorted[1..])
  }

  /** The stable sort of the constructor. */
  function SortByName(streams: seq<StreamDefinition>): (r: seq<StreamDefinition>)
    ensures multiset(r) == multiset(streams)
  {
    if streams == [] then []
    else
      assert streams == [streams[0]] + streams[1..];
      InsertByName(streams[0], SortByName(streams[1..]))
  }

  ghost predicate NameSorted(streams: seq<StreamDefinition>) {
    forall i, j :: 0 <= i <= j < |streams| ==> LexLe(streams[i].name, streams[j].name)
  }

  lemma {:induction false} InsertKeepsSorted(d: StreamDefinition, sorted: seq<StreamDefinition>)
    requires NameSorted(sorted)
    ensures NameSorted(InsertByName(d, sorted))
  {
    LexLeTotal();
    if sorted != [] && !LexLe(d.name, sorted[0].name) {
      InsertKeepsSorted(d, sorted[1..]);
      var rest := InsertByName(d, sorted[1..]);
      forall i | 0 <= i < |rest| ensures LexLe(sorted[0].name, rest[i].name) {
        assert rest[i] in multiset(rest);
        assert rest[i] == d || rest[i] in sorted[1..];
      }
    }
  }

  lemma {:induction false} SortIsSorted(streams: seq<StreamDefinition>)
    ensures NameSorted(SortByName(streams))
  {
    if streams != [] {
      SortIsSorted(streams[1..]);
      InsertKeepsSorted(streams[0], SortByName(streams[1..]));
    }
  }

  datatype Catalog = Catalog(streams: seq<StreamDefinition>, bindings: Node<nat>)

  /** Acceptance of a list of definitions: valid, distinct names, disjoint bindings. */
  ghost predicate Acceptable(streams: seq<StreamDefinition>) {
    && (forall d :: d in streams ==> DefinitionOk(d))
    && DistinctNames(streams)
    && DisjointBindings(streams)
  }

  /** The trie stores exactly the bindings, each under the index of its stream. */
  ghost predicate FilesExactly(root: Node<nat>, streams: seq<StreamDefinition>) {
    forall p, i: nat :: ValidateSubscription(p) ==>
      (Has(root, Split(p, '/'), i) <==> i < |streams| && p in streams[i].subjects)
  }

  ghost predicate CatalogOk(c: Catalog) {
    Acceptable(c.streams) && FilesExactly(c.bindings, c.streams)
  }

  /** In a sorted list, distinct neighbours mean distinct names. */
  lemma {:induction false} NeighboursSuffice(streams: seq<StreamDefinition>, i: nat, j: nat)
    requires NameSorted(streams) && i < j < |streams|
    requires forall k :: 0 <= k < |streams| - 1 ==> streams[k].name != streams[k + 1].name
    ensures streams[i].name != streams[j].name
  {
    LexLeTotalAt(streams[i].name, streams[i + 1].name);
    assert LexLe(streams[i].name, streams[i + 1].name) && LexLe(streams[i + 1].name, streams[j].name);
    if streams[i].name == streams[j].name { assert false; }
  }

  method FirstDuplicate(sorted: seq<StreamDefinition>) returns (found: bool)
    requires NameSorted(sorted)
    ensures !found <==> DistinctNames(sorted)
  {
    for k := 0 to |sorted| - if |sorted| == 0 then 0 else 1
      invariant forall m :: 0 <= m < k ==> sorted[m].name != sorted[m + 1].name
    {
      if sorted[k].name == sorted[k + 1].name { return true; }
    }
    forall i, j | 0 <= i < j < |sorted| ensures sorted[i].name != sorted[j].name {
      NeighboursSuffice(sorted, i, j);
    }
    found := false;
  }

  method BindingClash(a: StreamDefinition, b: StreamDefinition) returns (found: bool)
    ensures found <==> BindingsOverlap(a, b)
  {
    for i := 0 to |a.subjects|
      invariant forall x, y :: x in a.subjects[..i] && y in b.subjects ==> !PatternsOverlap(x, y)
    {
      for j := 0 to |b.subjects|
        invariant forall y :: y in b.subjects[..j] ==> !PatternsOverlap(a.subjects[i], y)
      {
        if PatternsOverlap(a.subjects[i], b.subjects[j]) {
          assert a.subjects[i] in a.subjects && b.subjects[j] in b.subjects;
          return true;
        }
      }
      assert b.subjects[..|b.subjects|] == b.subjects;
    }
    assert a.subjects[..|a.subjects|] == a.subjects;
    found := false;
  }

  method FirstClash(streams: seq<StreamDefinition>) returns (found: bool)
    ensures !found <==> DisjointBindings(streams)
  {
    for left := 0 to |streams|
      invariant forall i, j :: 0 <= i < left && i < j < |streams| ==> !BindingsOverlap(streams[i], streams[j])
    {
      for right := left + 1 to |streams|
        invariant forall j :: left < j < right ==> !BindingsOverlap(streams[left], streams[j])
      {
        var clash := BindingClash(streams[left], streams[right]);
        if clash { return true; }
      }
    }
    found := false;
  }

  /** Which (pattern, index) pairs the first `i` streams and the first `j` bindings of
      stream `i` contribute. */
  ghost predicate Bound(streams: seq<StreamDefinition>, i: nat, j: nat, p: string, k: nat) {
    || (k < i && k < |streams| && p in streams[k].subjects)
    || (k == i < |streams| && j <= |streams[i].subjects| && p in streams[i].subjects[..j])
  }

  method FillBindings(streams: seq<StreamDefinition>) returns (root: Node<nat>)
    requires forall d :: d in streams ==> DefinitionOk(d)
    ensures FilesExactly(root, streams)
  {
    root := EmptyNode();
    for i := 0 to |streams|
      invariant forall p, k: nat :: ValidateSubscription(p) ==>
        (Has(root, Split(p, '/'), k) <==> Bound(streams, i, 0, p, k))
    {
      assert streams[i] in streams;
      for j := 0 to |streams[i].subjects|
        invariant forall p, k: nat :: ValidateSubscription(p) ==>
          (Has(root, Split(p, '/'), k) <==> Bound(streams, i, j, p, k))
      {
        var b := streams[i].subjects[j];
        assert b in streams[i].subjects && BindingOk(b);
        ghost var before := root;
        root := InsertAt(root, Split(b, '/'), i);
        forall p, k: nat | ValidateSubscription(p)
          ensures Has(root, Split(p, '/'), k) <==> Bound(streams, i, j + 1, p, k)
        {
          SubscriptionTokens(b);
          SubscriptionTokens(p);
          InsertHas(before, Split(b, '/'), i, Split(p, '/'), k);
          if Split(p, '/') == Split(b, '/') { SplitInjective(p, b, '/'); }
          assert streams[i].subjects[..j + 1] == streams[i].subjects[..j] + [b];
        }
      }
      assert streams[i].subjects[..|streams[i].subjects|] == streams[i].subjects;
    }
  }

  /** The objection to the first bad definition. */
  function FirstError(streams: seq<StreamDefinition>): Option<Error> {
    if streams == [] then None
    else if DefinitionError(streams[0]).Some? then DefinitionError(streams[0])
    else FirstError(streams[1..])
  }

  lemma {:induction false} FirstErrorIff(streams: seq<StreamDefinition>)
    ensures FirstError(streams).None? <==> forall d :: d in streams ==> DefinitionOk(d)
  {
    hide DefinitionError, DefinitionOk;
    if streams != [] {
      DefinitionErrorIff(streams[0]);
      FirstErrorIff(streams[1..]);
      assert streams == [streams[0]] + streams[1..];
    }
  }

  method ValidateAll(streams: seq<StreamDefinition>) returns (failure: Option<Error>)
    ensures failure == FirstError(streams)
  {
    hide DefinitionError;
    assert streams[0..] == streams;
    for i := 0 to |streams|
      invariant FirstError(streams) == FirstError(streams[i..])
    {
      assert streams[i..][1..] == streams[i + 1..];
      failure := ValidateDefinition(streams[i]);
      if failure.Some? { return; }
    }
    failure := None;
  }

  ghost predicate DistinctNames(streams: seq<StreamDefinition>) {
    forall i, j :: 0 <= i < j < |streams| ==> streams[i].name != streams[j].name
  }

  ghost predicate DisjointBindings(streams: seq<StreamDefinition>) {
    forall i, j :: 0 <= i < j < |streams| ==> !BindingsOverlap(streams[i], streams[j])
  }

  /** Why a list of definitions is refused, if it is. */
  ghost function CatalogError(streams: seq<StreamDefinition>): Option<Error> {
    if FirstError(streams).Some? then FirstError(streams)
    else if !DistinctNames(SortByName(streams)) then Some(DuplicateName)
    else if !DisjointBindings(SortByName(streams)) then Some(AmbiguousBindings)
    else None
  }

  lemma SortKeepsElements(streams: seq<StreamDefinition>)
    ensures forall d :: d in SortByName(streams) <==> d in streams
  {
    assert forall d :: d in SortByName(streams) <==> d in multiset(SortByName(streams));
  }

  /** `StreamCatalog::new`: accepts exactly the unambiguous lists of valid definitions, files
      every binding under its stream, and otherwise names the first objection. */
  method NewCatalog(streams: seq<StreamDefinition>) returns (r: Result<Catalog, Error>)
    ensures r.Ok? <==> Acceptable(SortByName(streams))
    ensures r.Ok? ==> r.value.streams == SortByName(streams) && CatalogOk(r.value)
    ensures r.Err? ==> CatalogError(streams) == Some(r.error)
  {
    hide DefinitionOk, DistinctNames, DisjointBindings, NameSorted, FilesExactly, FirstError;
    SortKeepsElements(streams);
    FirstErrorIff(streams);
    var failure := ValidateAll(streams);
    if failure.Some? { return Err(failure.value); }
    var sorted := SortByName(streams);
    SortIsSorted(streams);
    var duplicate := FirstDuplicate(sorted);
    if duplicate { return Err(DuplicateName); }
    var clash := FirstClash(sorted);
    if clash { return Err(AmbiguousBindings); }
    var bindings := FillBindings(sorted);
    r := Ok(Catalog(sorted, bindings));
  }

  // ----- routing -----

  function ResolvePrimary(c: Catalog, subject: string): Option<StreamDefinition> {
    if !ValidateSubject(subject) || INBOX_PREFIX <= subject then None
    else
      var hits := SortedNats(Collect(c.bindings, Split(subject, '/')));
      if hits == [] || hits[0] >= |c.streams| then None else Some(c.streams[hits[0]])
  }

  predicate CoversFilter(d: StreamDefinition, filter: string) {
    exists b :: b in d.subjects && PatternsOverlap(b, filter)
  }

  /** `streams_for_filter`: an order-preserving filter of the catalog. */
  function StreamsForFilter(c: Catalog, filter: string): seq<StreamDefinition> {
    if !ValidateSubscription(filter) then [] else FilterStreams(c.streams, filter)
  }

  function FilterStreams(streams: seq<StreamDefinition>, filter: string): (r: seq<StreamDefinition>)
    ensures forall d :: d in r <==> d in streams && CoversFilter(d, filter)
  {
    if streams == [] then []
    else
      assert streams == [streams[0]] + streams[1..];
      (if CoversFilter(streams[0], filter) then [streams[0]] else []) + FilterStreams(streams[1..], filter)
  }

  /** Some binding of the stream matches the subject. */
  predicate Binds(d: StreamDefinition, subject: string) {
    exists b :: b in d.subjects && Matches(b, subject)
  }

  /** The trie finds exactly the streams that bind a subject. */
  lemma HitsAreBinders(c: Catalog, subject: string, i: nat)
    requires CatalogOk(c) && ValidateSubject(subject)
    ensures i in Collect(c.bindings, Split(subject, '/')) <==> i < |c.streams| && Binds(c.streams[i], subject)
  {
    var s := Split(subject, '/');
    if i in Collect(c.bindings, s) {
      var tokens := CollectSound(c.bindings, s, i);
      SplitPieces(subject, '/');
      var p := PatternText(tokens);
      assert p in c.streams[i].subjects && Matches(p, subject);
    }
    if i < |c.streams| && Binds(c.streams[i], subject) {
      var b :| b in c.streams[i].subjects && Matches(b, subject);
      assert c.streams[i] in c.streams && BindingOk(b);
      CollectComplete(c.bindings, Split(b, '/'), s, i);
    }
  }

  /** No two streams of an accepted catalog bind the same subject. */
  lemma BindersAreUnique(c: Catalog, subject: string, i: nat, j: nat)
    requires CatalogOk(c) && ValidateSubject(subject)
    requires i < |c.streams| && j < |c.streams| && Binds(c.streams[i], subject) && Binds(c.streams[j], subject)
    ensures i == j
  {
    if i != j {
      var lo, hi := if i < j then i else j, if i < j then j else i;
      var a :| a in c.streams[lo].subjects && Matches(a, subject);
      var b :| b in c.streams[hi].subjects && Matches(b, subject);
      CommonSubjectOverlaps(Split(a, '/'), Split(b, '/'), Split(subject, '/'));
      assert BindingsOverlap(c.streams[lo], c.streams[hi]);
      assert false;
    }
  }

  /** The first two tokens of a text under the reserved prefix. */
  lemma ReservedTokens(rest: string)
    ensures Split("_MORROW" + ['/'] + ("INBOX" + ['/'] + rest), '/') == ["_MORROW"] + (["INBOX"] + Split(rest, '/'))
  {
    SplitHead("INBOX", '/', rest);
    SplitHead("_MORROW", '/', "INBOX" + ['/'] + rest);
  }

  lemma InboxMatches(subject: string)
    requires INBOX_PREFIX <= subject
    ensures Matches(INBOX, subject)
  {
    var rest := subject[|INBOX_PREFIX|..];
    assert subject == "_MORROW" + ['/'] + ("INBOX" + ['/'] + rest);
    ReservedTokens(rest);
    ReservedTokens("**");
    SplitWhole("**", '/');
    ReservedMatch(Split(rest, '/'));
  }

  lemma ReservedMatch(rest: seq<string>)
    ensures MatchTokens(["_MORROW"] + (["INBOX"] + ["**"]), ["_MORROW"] + (["INBOX"] + rest))
  {
  }

  /** No accepted stream captures an inbox subject, so the guard in `resolve_primary`
      never hides a match. */
  lemma InboxIsNeverCaptured(c: Catalog, subject: string, i: nat)
    requires CatalogOk(c) && ValidateSubject(subject) && INBOX_PREFIX <= subject && i < |c.streams|
    ensures !Binds(c.streams[i], subject)
  {
    hide ValidateSubscription, ValidateSubject;
    InboxMatches(subject);
    forall b | b in c.streams[i].subjects && Matches(b, subject) ensures false {
      assert c.streams[i] in c.streams && BindingOk(b);
      CommonSubjectOverlaps(Split(b, '/'), Split(INBOX, '/'), Split(subject, '/'));
    }
  }

  /** Routing is exact and unambiguous: a concrete subject resolves to a stream if and
      only if that stream binds it, and then no other stream does. */
  lemma ResolvesToTheOnlyBinder(c: Catalog, subject: string)
    requires CatalogOk(c) && ValidateSubject(subject)
    ensures forall i :: 0 <= i < |c.streams| ==>
              (Binds(c.streams[i], subject) <==> ResolvePrimary(c, subject) == Some(c.streams[i]))
    ensures ResolvePrimary(c, subject) == None <==> forall i :: 0 <= i < |c.streams| ==> !Binds(c.streams[i], subject)
  {
    var hits := Collect(c.bindings, Split(subject, '/'));
    forall i: nat ensures i in hits <==> i < |c.streams| && Binds(c.streams[i], subject) {
      HitsAreBinders(c, subject, i);
    }
    if INBOX_PREFIX <= subject {
      forall i | 0 <= i < |c.streams| ensures !Binds(c.streams[i], subject) {
        InboxIsNeverCaptured(c, subject, i);
      }
    } else if hits != {} {
      var first := SortedNats(hits)[0];
      assert first in hits;
      forall i | 0 <= i < |c.streams| && i != first
        ensures !Binds(c.streams[i], subject) && c.streams[i] != c.streams[first]
      {
        if Binds(c.streams[i], subject) { BindersAreUnique(c, subject, i, first); }
      }
    }
  }

  /** `streams_for_filter` returns exactly the streams to which some concrete subject
      that matches the filter is routed. */
  lemma FilterFindsExactlyReachableStreams(c: Catalog, filter: string, i: nat)
    requires CatalogOk(c) && ValidateSubscription(filter) && i < |c.streams|
    ensures c.streams[i] in StreamsForFilter(c, filter)
       <==> exists s :: ValidateSubject(s) && Matches(filter, s) && Binds(c.streams[i], s)
  {
    var d := c.streams[i];
    assert d in c.streams;
    if CoversFilter(d, filter) {
      var b :| b in d.subjects && PatternsOverlap(b, filter);
      assert BindingOk(b);
      OverlapIsExact(b, filter);
      var s :| ValidateSubject(s) && Matches(b, s) && Matches(filter, s);
      assert Binds(d, s);
    }
    forall s | ValidateSubject(s) && Matches(filter, s) && Binds(d, s)
      ensures CoversFilter(d, filter)
    {
      var b :| b in d.subjects && Matches(b, s);
      CommonSubjectOverlaps(Split(b, '/'), Split(filter, '/'), Split(s, '/'));
    }
  }
}
