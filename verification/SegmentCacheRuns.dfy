/** All interleavings of threads calling `get` on one cache (crates/server/src/backup.rs).
    The store's answer and the checksum test are parameters; a key is always requested
    with the same checksum, so the test is a function of key and bytes. */
module SegmentCacheRuns {
  import opened Common
  import opened SegmentCache

  datatype Thread =
    | Idle
    | Waiting(key: string, token: nat)
    | Loading(key: string, token: nat)
    | Returned(key: string, result: Option<Bytes>)

  datatype World = World(cache: Cache, threads: map<nat, Thread>, done: set<nat>, nextToken: nat)

  datatype Event =
    | Call(t: nat, key: string)
    | Wake(t: nat)
    | Fetched(t: nat, answer: Option<Bytes>)

  const START := World(EMPTY, map[], {}, 0)

  function ThreadOf(w: World, t: nat): Thread {
    if t in w.threads then w.threads[t] else Idle
  }

  /** A thread may call when it has no call in progress, a waiter proceeds once its token
      is signalled, and a loader finishes at any time. */
  predicate Enabled(w: World, e: Event) {
    match e
    case Call(t, _) => ThreadOf(w, t).Idle? || ThreadOf(w, t).Returned?
    case Wake(t) => ThreadOf(w, t).Waiting? && ThreadOf(w, t).token in w.done
    case Fetched(t, _) => ThreadOf(w, t).Loading?
  }

  /** One pass through the first critical section. */
  function Attempt(w: World, t: nat, key: string): World {
    var (cache, found) := LookupStep(w.cache, key, w.nextToken);
    match found
    case Hit(value) => w.(cache := cache, threads := w.threads[t := Returned(key, Some(value))])
    case Wait(token) => w.(cache := cache, threads := w.threads[t := Waiting(key, token)])
    case Load => w.(cache := cache, threads := w.threads[t := Loading(key, w.nextToken)], nextToken := w.nextToken + 1)
  }

  function Checked(key: string, answer: Option<Bytes>, verify: (string, Bytes) -> bool): Option<Bytes> {
    if answer.Some? && verify(key, answer.value) then answer else None
  }

  function Step(w: World, e: Event, verify: (string, Bytes) -> bool, capacity: nat): World
    requires Enabled(w, e) && Inv(w.cache, capacity)
  {
    match e
    case Call(t, key) => Attempt(w, t, key)
    case Wake(t) => Attempt(w, t, ThreadOf(w, t).key)
    case Fetched(t, answer) =>
      var Loading(key, token) := ThreadOf(w, t);
      var result := Checked(key, answer, verify);
      w.(cache := FinishStep(w.cache, key, result, capacity),
         threads := w.threads[t := Returned(key, result)],
         done := w.done + {token})
  }

  /** Loading threads and the loading map are in one-to-one correspondence. */
  ghost predicate LoadersMatch(w: World) {
    && (forall t :: ThreadOf(w, t).Loading? ==>
          ThreadOf(w, t).key in w.cache.loading && w.cache.loading[ThreadOf(w, t).key] == ThreadOf(w, t).token)
    && (forall k :: k in w.cache.loading ==> exists t :: ThreadOf(w, t) == Loading(k, w.cache.loading[k]))
    && (forall t, u ::
          ThreadOf(w, t).Loading? && ThreadOf(w, u).Loading? && ThreadOf(w, t).key == ThreadOf(w, u).key ==> t == u)
  }

  /** Tokens in flight are distinct, unsignalled and already issued. */
  ghost predicate TokensOk(w: World) {
    && (forall k :: k in w.cache.loading ==> w.cache.loading[k] < w.nextToken && w.cache.loading[k] !in w.done)
    && (forall k, l :: k in w.cache.loading && l in w.cache.loading && w.cache.loading[k] == w.cache.loading[l] ==>
          k == l)
    && (forall n :: n in w.done ==> n < w.nextToken)
  }

  /** No lost wake-up: a waiter has been signalled, or its load is still in flight. */
  predicate Served(w: World, th: Thread) {
    th.Waiting? ==> th.token in w.done || (th.key in w.cache.loading && w.cache.loading[th.key] == th.token)
  }

  ghost predicate WorldInv(w: World, verify: (string, Bytes) -> bool, capacity: nat) {
    && Inv(w.cache, capacity)
    && LoadersMatch(w)
    && TokensOk(w)
    && (forall t :: Served(w, ThreadOf(w, t)))
    && (forall k :: k in w.cache.entries ==> verify(k, w.cache.entries[k]))
    && (forall t :: ThreadOf(w, t).Returned? && ThreadOf(w, t).result.Some? ==>
          verify(ThreadOf(w, t).key, ThreadOf(w, t).result.value))
  }

  lemma LookupKeepsInv(c: Cache, key: string, token: nat, capacity: nat)
    requires Inv(c, capacity)
    ensures Inv(LookupStep(c, key, token).0, capacity)
  {
  }

  lemma AttemptKeepsLoaders(w: World, t: nat, key: string)
    requires LoadersMatch(w) && !ThreadOf(w, t).Loading?
    ensures LoadersMatch(Attempt(w, t, key))
  {
    var w' := Attempt(w, t, key);
    assert forall u :: u != t ==> ThreadOf(w', u) == ThreadOf(w, u);
    forall k | k in w'.cache.loading
      ensures exists u :: ThreadOf(w', u) == Loading(k, w'.cache.loading[k])
    {
      if k in w.cache.loading {
        var u :| ThreadOf(w, u) == Loading(k, w.cache.loading[k]);
        assert ThreadOf(w', u) == Loading(k, w'.cache.loading[k]);
      } else {
        assert ThreadOf(w', t) == Loading(k, w'.cache.loading[k]);
      }
    }
  }

  lemma AttemptKeepsTokens(w: World, t: nat, key: string)
    requires TokensOk(w) && forall u :: Served(w, ThreadOf(w, u))
    ensures TokensOk(Attempt(w, t, key))
    ensures forall u :: Served(Attempt(w, t, key), ThreadOf(Attempt(w, t, key), u))
  {
    var w' := Attempt(w, t, key);
    forall u ensures Served(w', ThreadOf(w', u)) {
      assert Served(w, ThreadOf(w, u));
    }
  }

  lemma AttemptKeepsInv(w: World, t: nat, key: string, verify: (string, Bytes) -> bool, capacity: nat)
    requires WorldInv(w, verify, capacity) && !ThreadOf(w, t).Loading?
    ensures WorldInv(Attempt(w, t, key), verify, capacity)
  {
    hide Inv, LoadersMatch, TokensOk, Served;
    var w' := Attempt(w, t, key);
    LookupKeepsInv(w.cache, key, w.nextToken, capacity);
    AttemptKeepsLoaders(w, t, key);
    AttemptKeepsTokens(w, t, key);
    assert Inv(w'.cache, capacity);
    forall u | ThreadOf(w', u).Returned? && ThreadOf(w', u).result.Some?
      ensures verify(ThreadOf(w', u).key, ThreadOf(w', u).result.value)
    {
      assert u != t ==> ThreadOf(w', u) == ThreadOf(w, u);
    }
  }

  lemma FetchedKeepsLoaders(w: World, t: nat, answer: Option<Bytes>, verify: (string, Bytes) -> bool, capacity: nat)
    requires Inv(w.cache, capacity) && LoadersMatch(w) && ThreadOf(w, t).Loading?
    ensures LoadersMatch(Step(w, Fetched(t, answer), verify, capacity))
  {
    hide Inv;
    var w' := Step(w, Fetched(t, answer), verify, capacity);
    var key := ThreadOf(w, t).key;
    assert w'.cache.loading == w.cache.loading - {key};
    assert forall u :: u != t ==> ThreadOf(w', u) == ThreadOf(w, u);
    forall k | k in w'.cache.loading
      ensures exists u :: ThreadOf(w', u) == Loading(k, w'.cache.loading[k])
    {
      var u :| ThreadOf(w, u) == Loading(k, w.cache.loading[k]);
      assert ThreadOf(w', u) == Loading(k, w'.cache.loading[k]);
    }
  }

  lemma FetchedKeepsTokens(w: World, t: nat, answer: Option<Bytes>, verify: (string, Bytes) -> bool, capacity: nat)
    requires Inv(w.cache, capacity) && LoadersMatch(w) && TokensOk(w) && ThreadOf(w, t).Loading?
    requires forall u :: Served(w, ThreadOf(w, u))
    ensures var w' := Step(w, Fetched(t, answer), verify, capacity);
            TokensOk(w') && forall u :: Served(w', ThreadOf(w', u))
  {
    hide Inv;
    var w' := Step(w, Fetched(t, answer), verify, capacity);
    assert w'.cache.loading == w.cache.loading - {ThreadOf(w, t).key};
    forall u ensures Served(w', ThreadOf(w', u)) {
      assert Served(w, ThreadOf(w, u));
    }
  }

  lemma FetchedKeepsInv(w: World, t: nat, answer: Option<Bytes>, verify: (string, Bytes) -> bool, capacity: nat)
    requires WorldInv(w, verify, capacity) && ThreadOf(w, t).Loading?
    ensures WorldInv(Step(w, Fetched(t, answer), verify, capacity), verify, capacity)
  {
    hide Inv, TokensOk, Served;
    var w' := Step(w, Fetched(t, answer), verify, capacity);
    var key := ThreadOf(w, t).key;
    FinishKeepsInv(w.cache, key, Checked(key, answer, verify), capacity);
    FetchedKeepsLoaders(w, t, answer, verify, capacity);
    FetchedKeepsTokens(w, t, answer, verify, capacity);
    assert Inv(w'.cache, capacity);
    forall u | ThreadOf(w', u).Returned? && ThreadOf(w', u).result.Some?
      ensures verify(ThreadOf(w', u).key, ThreadOf(w', u).result.value)
    {
      assert u != t ==> ThreadOf(w', u) == ThreadOf(w, u);
    }
  }

  /** A run: every step enabled, from the empty cache with all threads idle. */
  ghost predicate Reaches(run: seq<Event>, w: World, verify: (string, Bytes) -> bool, capacity: nat)
    decreases |run|
  {
    if run == [] then w == START
    else
      exists v :: Reaches(run[..|run| - 1], v, verify, capacity)
        && Inv(v.cache, capacity) && Enabled(v, run[|run| - 1]) && w == Step(v, run[|run| - 1], verify, capacity)
  }

  lemma {:induction false} RunKeepsInv(run: seq<Event>, w: World, verify: (string, Bytes) -> bool, capacity: nat)
    requires Reaches(run, w, verify, capacity)
    ensures WorldInv(w, verify, capacity)
  {
    if run != [] {
      var before, e := run[..|run| - 1], run[|run| - 1];
      var v :| Reaches(before, v, verify, capacity) && Inv(v.cache, capacity) && Enabled(v, e)
        && w == Step(v, e, verify, capacity);
      RunKeepsInv(before, v, verify, capacity);
      match e
      case Call(t, key) => AttemptKeepsInv(v, t, key, verify, capacity);
      case Wake(t) => AttemptKeepsInv(v, t, ThreadOf(v, t).key, verify, capacity);
      case Fetched(t, answer) => FetchedKeepsInv(v, t, answer, verify, capacity);
    }
  }

  /** No interleaving gets stuck for want of an invariant: every enabled event of a
      reachable world has a next world. */
  lemma RunsExtend(run: seq<Event>, w: World, e: Event, verify: (string, Bytes) -> bool, capacity: nat)
    requires Reaches(run, w, verify, capacity) && Enabled(w, e)
    ensures Inv(w.cache, capacity) && Reaches(run + [e], Step(w, e, verify, capacity), verify, capacity)
  {
    RunKeepsInv(run, w, verify, capacity);
    assert (run + [e])[..|run|] == run;
  }

  /** Main theorem, for every interleaving: at most one thread loads a key, and never a
      cached one; the eviction queue lists each cached key once; the byte count is the
      total size of the entries and within capacity; whatever a call returns passed the
      checksum test; and a thread waits only for a load some thread is doing. */
  lemma SingleFlight(run: seq<Event>, w: World, verify: (string, Bytes) -> bool, capacity: nat)
    requires Reaches(run, w, verify, capacity)
    ensures forall t, u ::
              ThreadOf(w, t).Loading? && ThreadOf(w, u).Loading? && ThreadOf(w, t).key == ThreadOf(w, u).key ==> t == u
    ensures forall t :: ThreadOf(w, t).Loading? ==> ThreadOf(w, t).key !in w.cache.entries
    ensures (forall k :: k in w.cache.order <==> k in w.cache.entries) && |w.cache.order| == |w.cache.entries|
    ensures w.cache.bytes == Sum(w.cache.order, w.cache.entries) <= capacity
    ensures forall t :: ThreadOf(w, t).Returned? && ThreadOf(w, t).result.Some? ==>
              verify(ThreadOf(w, t).key, ThreadOf(w, t).result.value)
    ensures forall t :: ThreadOf(w, t).Waiting? && ThreadOf(w, t).token !in w.done ==>
              exists u :: ThreadOf(w, u) == Loading(ThreadOf(w, t).key, ThreadOf(w, t).token)
  {
    RunKeepsInv(run, w, verify, capacity);
    QueueLength(w.cache.order, w.cache.entries.Keys);
    forall t | ThreadOf(w, t).Waiting? && ThreadOf(w, t).token !in w.done
      ensures exists u :: ThreadOf(w, u) == Loading(ThreadOf(w, t).key, ThreadOf(w, t).token)
    {
      assert Served(w, ThreadOf(w, t));
    }
  }

  lemma {:induction false} QueueLength(order: seq<string>, keys: set<string>)
    requires forall k :: k in order <==> k in keys
    requires forall i, j :: 0 <= i < j < |order| ==> order[i] != order[j]
    ensures |order| == |keys|
  {
    if order == [] {
      assert keys == {};
    } else {
      assert order == [order[0]] + order[1..];
      assert forall k :: k in order[1..] <==> k in keys - {order[0]};
      QueueLength(order[1..], keys - {order[0]});
    }
  }
}
