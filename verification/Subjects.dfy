/** Subject patterns, the reference matcher and the wildcard trie
    (crates/protocol/src/subject.rs). */
module Subjects {
  import opened Common
  import opened Text

  /** The characters of Rust's `char::is_whitespace`. */
  predicate IsWhitespace(c: char) {
    var n := c as int;
    9 <= n <= 13 || n == 0x20 || n == 0x85 || n == 0xA0 || n == 0x1680 || 0x2000 <= n <= 0x200A
    || n == 0x2028 || n == 0x2029 || n == 0x202F || n == 0x205F || n == 0x3000
  }

  predicate HasWhitespace(t: string) {
    exists i :: 0 <= i < |t| && IsWhitespace(t[i])
  }

  predicate LiteralToken(t: string) {
    t != "" && '*' !in t && '>' !in t && !HasWhitespace(t)
  }

  predicate PatternToken(t: string) {
    t == "*" || t == "**" || LiteralToken(t)
  }

  predicate SlashWrapped(s: string) {
    s == "" || s[0] == '/' || s[|s| - 1] == '/'
  }

  predicate ValidateSubject(subject: string) {
    !SlashWrapped(subject) && forall t :: t in Split(subject, '/') ==> LiteralToken(t)
  }

  /** `validate_subscription`, token by token. */
  predicate ValidateSubscription(pattern: string) {
    && !SlashWrapped(pattern)
    && var tokens := Split(pattern, '/');
       forall i :: 0 <= i < |tokens| ==>
         && tokens[i] != "" && !HasWhitespace(tokens[i])
         && (tokens[i] == "**" ==> i + 1 == |tokens|)
         && (tokens[i] != "**" && tokens[i] != "*" ==> '*' !in tokens[i] && '>' !in tokens[i])
  }

  /** Tokens of a concrete subject, and of a pattern: the tail wildcard is always last. */
  predicate SubjectTokens(s: seq<string>) {
    forall t :: t in s ==> LiteralToken(t)
  }

  predicate PatternTokens(p: seq<string>) {
    forall i :: 0 <= i < |p| ==> PatternToken(p[i]) && (p[i] == "**" ==> i + 1 == |p|)
  }

  // ----- reference matcher -----

  predicate MatchTokens(p: seq<string>, s: seq<string>) {
    if p != [] && p[0] == "**" then true
    else if p == [] || s == [] then p == [] && s == []
    else (p[0] == "*" || p[0] == s[0]) && MatchTokens(p[1..], s[1..])
  }

  predicate Matches(pattern: string, subject: string) {
    MatchTokens(Split(pattern, '/'), Split(subject, '/'))
  }

  /** `matches`: two token iterators advanced in step. */
  method MatchesLoop(pattern: string, subject: string) returns (r: bool)
    ensures r == Matches(pattern, subject)
  {
    var p, s := Split(pattern, '/'), Split(subject, '/');
    var i := 0;
    while true
      invariant 0 <= i <= |p| && i <= |s|
      invariant MatchTokens(p[i..], s[i..]) == Matches(pattern, subject)
      decreases |p| - i
    {
      if i < |p| && p[i] == "**" { return true; }
      if i < |p| && i < |s| && (p[i] == "*" || p[i] == s[i]) {
        assert p[i..][1..] == p[i + 1..] && s[i..][1..] == s[i + 1..];
        i := i + 1;
      } else {
        return i == |p| && i == |s|;
      }
    }
  }

  /** What the matcher means: a pattern without tail matches position by position, and
      a tail wildcard matches any remainder, the empty one included. */
  lemma {:induction false} MatchMeaning(p: seq<string>, s: seq<string>)
    requires PatternTokens(p)
    ensures MatchTokens(p, s) <==>
      var fixed := if p != [] && p[|p| - 1] == "**" then |p| - 1 else |p|;
      && (if fixed < |p| then fixed <= |s| else fixed == |s|)
      && forall i :: 0 <= i < fixed ==> p[i] == "*" || p[i] == s[i]
  {
    if p != [] && p[0] != "**" && s != [] {
      assert forall i :: 0 <= i < |p[1..]| ==> p[1..][i] == p[i + 1];
      MatchMeaning(p[1..], s[1..]);
      var fixed := if p[|p| - 1] == "**" then |p| - 1 else |p|;
      if MatchTokens(p, s) {
        forall i | 0 <= i < fixed ensures p[i] == "*" || p[i] == s[i] {
          if i > 0 { assert p[1..][i - 1] == p[i] && s[1..][i - 1] == s[i]; }
        }
      } else if fixed <= |s| && forall i :: 0 <= i < fixed ==> p[i] == "*" || p[i] == s[i] {
        forall i | 0 <= i < fixed - 1 ensures p[1..][i] == "*" || p[1..][i] == s[1..][i] {
          assert p[1..][i] == p[i + 1] && s[1..][i] == s[i + 1];
        }
      }
    }
  }

  lemma SubscriptionTokens(pattern: string)
    requires ValidateSubscription(pattern)
    ensures PatternTokens(Split(pattern, '/'))
  {
  }

  // ----- the trie -----

  datatype Node<T> = Node(literals: map<string, Node<T>>, wildcard: Option<Node<T>>, exact: set<T>, tail: set<T>)

  function EmptyNode<T(==)>(): Node<T> { Node(map[], None, {}, {}) }

  function InsertAt<T(==)>(n: Node<T>, p: seq<string>, v: T): Node<T>
    decreases |p|
  {
    if p == [] then n.(exact := n.exact + {v})
    else if p[0] == "**" then n.(tail := n.tail + {v})
    else if p[0] == "*" then
      n.(wildcard := Some(InsertAt(if n.wildcard.Some? then n.wildcard.value else EmptyNode(), p[1..], v)))
    else
      var child := if p[0] in n.literals then n.literals[p[0]] else EmptyNode();
      n.(literals := n.literals[p[0] := InsertAt(child, p[1..], v)])
  }

  function RemoveAt<T(==)>(n: Node<T>, p: seq<string>, v: T): Node<T>
    decreases |p|
  {
    if p == [] then n.(exact := n.exact - {v})
    else if p[0] == "**" then n.(tail := n.tail - {v})
    else if p[0] == "*" then
      if n.wildcard.Some? then n.(wildcard := Some(RemoveAt(n.wildcard.value, p[1..], v))) else n
    else if p[0] in n.literals then n.(literals := n.literals[p[0] := RemoveAt(n.literals[p[0]], p[1..], v)])
    else n
  }

  /** Whether the value is stored under the pattern. */
  predicate Has<T(==)>(n: Node<T>, p: seq<string>, v: T)
    decreases |p|
  {
    if p == [] then v in n.exact
    else if p[0] == "**" then v in n.tail
    else if p[0] == "*" then n.wildcard.Some? && Has(n.wildcard.value, p[1..], v)
    else p[0] in n.literals && Has(n.literals[p[0]], p[1..], v)
  }

  function Collect<T(==)>(n: Node<T>, s: seq<string>): set<T>
    decreases |s|
  {
    n.tail +
    if s == [] then n.exact
    else
      (if s[0] in n.literals then Collect(n.literals[s[0]], s[1..]) else {}) +
      (if n.wildcard.Some? then Collect(n.wildcard.value, s[1..]) else {})
  }

  predicate MatchesNode<T(==)>(n: Node<T>, s: seq<string>)
    decreases |s|
  {
    || n.tail != {}
    || if s == [] then n.exact != {}
       else
         || (s[0] in n.literals && MatchesNode(n.literals[s[0]], s[1..]))
         || (n.wildcard.Some? && MatchesNode(n.wildcard.value, s[1..]))
  }

  lemma {:induction false} EmptyHasNothing<T>(p: seq<string>, v: T)
    ensures !Has(EmptyNode(), p, v)
  {
  }

  /** Insertion adds one pair and disturbs no other. */
  lemma {:induction false} InsertHas<T>(n: Node<T>, p: seq<string>, v: T, q: seq<string>, w: T)
    requires PatternTokens(p) && PatternTokens(q)
    ensures Has(InsertAt(n, p, v), q, w) <==> Has(n, q, w) || (p == q && v == w)
    decreases |p|
  {
    if p == [] || q == [] || p[0] == "**" || q[0] == "**" {
      assert p == q || p == [] || q == [] || p[0] != q[0] || (|p| == 1 && |q| == 1);
      if p != [] && q != [] && p[0] == "**" && q[0] == "**" { assert p == ["**"] && q == ["**"]; }
    } else {
      var child := if p[0] == "*" then (if n.wildcard.Some? then n.wildcard.value else EmptyNode())
                   else if p[0] in n.literals then n.literals[p[0]] else EmptyNode();
      SuffixTokens(p);
      SuffixTokens(q);
      InsertHas(child, p[1..], v, q[1..], w);
      EmptyHasNothing(q[1..], w);
      assert p == [p[0]] + p[1..] && q == [q[0]] + q[1..];
    }
  }

  /** Removal deletes one pair and disturbs no other. */
  lemma {:induction false} RemoveHas<T>(n: Node<T>, p: seq<string>, v: T, q: seq<string>, w: T)
    requires PatternTokens(p) && PatternTokens(q)
    ensures Has(RemoveAt(n, p, v), q, w) <==> Has(n, q, w) && !(p == q && v == w)
    decreases |p|
  {
    if p == [] || q == [] || p[0] == "**" || q[0] == "**" {
      if p != [] && q != [] && p[0] == "**" && q[0] == "**" { assert p == ["**"] && q == ["**"]; }
    } else {
      SuffixTokens(p);
      SuffixTokens(q);
      if p[0] == "*" {
        if n.wildcard.Some? { RemoveHas(n.wildcard.value, p[1..], v, q[1..], w); }
      } else if p[0] in n.literals {
        RemoveHas(n.literals[p[0]], p[1..], v, q[1..], w);
      }
      assert p == [p[0]] + p[1..] && q == [q[0]] + q[1..];
    }
  }

  lemma SuffixTokens(p: seq<string>)
    requires PatternTokens(p) && p != []
    ensures PatternTokens(p[1..])
  {
  }

  /** Everything collected comes from a stored pattern that matches. */
  lemma {:induction false} CollectSound<T>(n: Node<T>, s: seq<string>, v: T) returns (p: seq<string>)
    requires SubjectTokens(s) && v in Collect(n, s)
    ensures PatternTokens(p) && Has(n, p, v) && MatchTokens(p, s)
    ensures forall t :: t in p ==> t == "*" || t == "**" || t in s
    decreases |s|
  {
    if v in n.tail {
      p := ["**"];
    } else if s == [] {
      p := [];
    } else if s[0] in n.literals && v in Collect(n.literals[s[0]], s[1..]) {
      var rest := CollectSound(n.literals[s[0]], s[1..], v);
      p := [s[0]] + rest;
      assert LiteralToken(s[0]) && p[1..] == rest;
    } else {
      var rest := CollectSound(n.wildcard.value, s[1..], v);
      p := ["*"] + rest;
      assert p[1..] == rest;
    }
  }

  /** Every stored pattern that matches is collected. */
  lemma {:induction false} CollectComplete<T>(n: Node<T>, p: seq<string>, s: seq<string>, v: T)
    requires Has(n, p, v) && MatchTokens(p, s)
    ensures v in Collect(n, s)
    decreases |s|
  {
    if p != [] && p[0] != "**" && s != [] {
      CollectComplete(if p[0] == "*" then n.wildcard.value else n.literals[p[0]], p[1..], s[1..], v);
    }
  }

  lemma {:induction false} MatchesNodeIsNonEmpty<T>(n: Node<T>, s: seq<string>)
    ensures MatchesNode(n, s) <==> Collect(n, s) != {}
    decreases |s|
  {
    if s == [] {
      assert n.tail != {} || n.exact != {} <==> n.tail + n.exact != {};
    } else {
      if s[0] in n.literals { MatchesNodeIsNonEmpty(n.literals[s[0]], s[1..]); }
      if n.wildcard.Some? { MatchesNodeIsNonEmpty(n.wildcard.value, s[1..]); }
      var a := if s[0] in n.literals then Collect(n.literals[s[0]], s[1..]) else {};
      var b := if n.wildcard.Some? then Collect(n.wildcard.value, s[1..]) else {};
      assert n.tail + (a + b) != {} <==> n.tail != {} || a != {} || b != {};
    }
  }

  /** The trie object. `live` is the set of (pattern, value) pairs inserted and not
      removed since; Valid says the trie stores exactly those. */
  class SubjectTrie<T(==, !new)> {
    var root: Node<T>
    ghost var live: set<(string, T)>

    ghost predicate Valid()
      reads this
    {
      && (forall e :: e in live ==> ValidateSubscription(e.0))
      && forall p, v :: ValidateSubscription(p) ==> (Has(root, Split(p, '/'), v) <==> (p, v) in live)
    }

    constructor ()
      ensures Valid() && live == {}
    {
      root, live := EmptyNode(), {};
    }

    /** Reports whether the pair is new; an invalid pattern is refused. */
    method Insert(pattern: string, value: T) returns (inserted: bool)
      requires Valid()
      modifies this
      ensures Valid()
      ensures inserted == (ValidateSubscription(pattern) && (pattern, value) !in old(live))
      ensures live == if ValidateSubscription(pattern) then old(live) + {(pattern, value)} else old(live)
    {
      if !ValidateSubscription(pattern) { return false; }
      var tokens := Split(pattern, '/');
      inserted := !Has(root, tokens, value);
      ghost var before := root;
      root := InsertAt(root, tokens, value);
      live := live + {(pattern, value)};
      forall p, v | ValidateSubscription(p)
        ensures Has(root, Split(p, '/'), v) <==> (p, v) in live
      {
        SubscriptionTokens(pattern);
        SubscriptionTokens(p);
        InsertHas(before, tokens, value, Split(p, '/'), v);
        if Split(p, '/') == tokens { SplitInjective(p, pattern, '/'); }
      }
    }

    /** Reports whether the pair was present. */
    method Remove(pattern: string, value: T) returns (removed: bool)
      requires Valid()
      modifies this
      ensures Valid()
      ensures removed == (ValidateSubscription(pattern) && (pattern, value) in old(live))
      ensures live == old(live) - {(pattern, value)}
    {
      if !ValidateSubscription(pattern) { return false; }
      var tokens := Split(pattern, '/');
      removed := Has(root, tokens, value);
      ghost var before := root;
      root := RemoveAt(root, tokens, value);
      live := live - {(pattern, value)};
      forall p, v | ValidateSubscription(p)
        ensures Has(root, Split(p, '/'), v) <==> (p, v) in live
      {
        SubscriptionTokens(pattern);
        SubscriptionTokens(p);
        RemoveHas(before, tokens, value, Split(p, '/'), v);
        if Split(p, '/') == tokens { SplitInjective(p, pattern, '/'); }
      }
    }

    /** The values with a live pattern that the reference matcher accepts, each once, in the
        order of their type. */
    method Matching(subject: string, le: (T, T) -> bool) returns (values: seq<T>)
      requires Valid() && TotalOrder(le)
      ensures Ascending(values, le)
      ensures !ValidateSubject(subject) ==> values == []
      ensures ValidateSubject(subject) ==>
                forall v :: v in values <==> exists p :: (p, v) in live && Matches(p, subject)
    {
      if !ValidateSubject(subject) { return []; }
      values := SortedBy(Collect(root, Split(subject, '/')), le);
      forall v ensures v in values <==> exists p :: (p, v) in live && Matches(p, subject) {
        CollectIsExact(root, live, subject, v);
      }
    }

    method MatchesAny(subject: string) returns (r: bool)
      requires Valid()
      ensures r <==> ValidateSubject(subject) && exists e :: e in live && Matches(e.0, subject)
    {
      if !ValidateSubject(subject) { return false; }
      r := MatchesNode(root, Split(subject, '/'));
      MatchesNodeIsNonEmpty(root, Split(subject, '/'));
      if r {
        ghost var v :| v in Collect(root, Split(subject, '/'));
        CollectIsExact(root, live, subject, v);
        ghost var p :| (p, v) in live && Matches(p, subject);
        assert (p, v) in live && Matches((p, v).0, subject);
      } else {
        forall e | e in live && Matches(e.0, subject) ensures false {
          assert (e.0, e.1) == e;
          CollectIsExact(root, live, subject, e.1);
        }
      }
    }
  }

  /** Trie against matcher, for any node that stores exactly the live pairs. */
  lemma CollectIsExact<T>(root: Node<T>, live: set<(string, T)>, subject: string, v: T)
    requires ValidateSubject(subject)
    requires forall p, w :: ValidateSubscription(p) ==> (Has(root, Split(p, '/'), w) <==> (p, w) in live)
    requires forall e :: e in live ==> ValidateSubscription(e.0)
    ensures v in Collect(root, Split(subject, '/')) <==> exists p :: (p, v) in live && Matches(p, subject)
  {
    var s := Split(subject, '/');
    if v in Collect(root, s) {
      var tokens := CollectSound(root, s, v);
      SplitPieces(subject, '/');
      var p := PatternText(tokens);
      assert (p, v) in live;
    } else if p :| (p, v) in live && Matches(p, subject) {
      assert ValidateSubscription((p, v).0);
      CollectComplete(root, Split(p, '/'), s, v);
    }
  }

  /** A matching token pattern is the split of a valid pattern text. */
  lemma PatternText(tokens: seq<string>) returns (p: string)
    requires PatternTokens(tokens) && tokens != []
    requires forall t :: t in tokens ==> '/' !in t
    ensures ValidateSubscription(p) && Split(p, '/') == tokens
  {
    p := Join(tokens, '/');
    SplitJoin(tokens, '/');
    NotWrapped(p);
  }

  /** The guards on leading and trailing slashes follow from the token checks. */
  lemma NotWrapped(s: string)
    requires forall t :: t in Split(s, '/') ==> t != ""
    ensures !SlashWrapped(s)
  {
    assert Split(s, '/')[0] in Split(s, '/');
    if s != "" && s[|s| - 1] == '/' { TrailingPiece(s, '/'); }
  }

  lemma {:induction false} TrailingPiece(s: string, sep: char)
    requires s != "" && s[|s| - 1] == sep
    ensures var pieces := Split(s, sep); |pieces| >= 2 && pieces[|pieces| - 1] == ""
    ensures "" in Split(s, sep)
  {
    if |s| > 1 { TrailingPiece(s[1..], sep); }
    assert Split(s, sep)[|Split(s, sep)| - 1] in Split(s, sep);
  }
}
