/** Shared vocabulary: results, the saturating counters of the broker, and the
    ordered traversal of Rust's BTreeMap and BTreeSet. */
module Common {

  datatype Option<+T> = None | Some(value: T)

  datatype Result<+T, +E> = Ok(value: T) | Err(error: E) {
    predicate IsFailure() { Err? }

    function PropagateFailure<U>(): Result<U, E>
      requires Err?
    {
      Err(error)
    }

    function Extract(): T
      requires Ok?
    {
      value
    }
  }

  const U64_MAX: nat := 0xFFFF_FFFF_FFFF_FFFF

  const U32_MAX: nat := 0xFFFF_FFFF

  /** `saturating_add(1)` on a u64. */
  function SatInc(x: nat): (r: nat)
    ensures x < U64_MAX ==> r == x + 1
    ensures x >= U64_MAX ==> r == x
  {
    if x < U64_MAX then x + 1 else x
  }

  /** `saturating_add` on a u64. */
  function SatAdd(x: nat, y: nat): (r: nat)
    ensures r <= x + y && r <= U64_MAX
  {
    if x + y <= U64_MAX then x + y else U64_MAX
  }

  function ElementsOf<T(==, !new)>(q: seq<T>): (s: set<T>)
    ensures forall x :: x in s <==> x in q
  {
    set x | x in q
  }

  /** Removing keys from a map one by one. */
  method WithoutKeys<V>(m: map<string, V>, keys: seq<string>) returns (r: map<string, V>)
    ensures r == m - ElementsOf(keys)
  {
    r := m;
    for i := 0 to |keys|
      invariant r == m - ElementsOf(keys[..i])
    {
      r := r - {keys[i]};
      assert ElementsOf(keys[..i + 1]) == ElementsOf(keys[..i]) + {keys[i]};
    }
    assert keys[..|keys|] == keys;
  }

  lemma SubsetSize<T>(a: set<T>, b: set<T>)
    requires a <= b
    ensures |a| <= |b|
  {
    assert b == a + (b - a);
  }

  // ----- total orders and sorted traversal -----

  ghost predicate TotalOrder<T(!new)>(le: (T, T) -> bool) {
    && (forall x, y :: le(x, y) || le(y, x))
    && (forall x, y :: le(x, y) && le(y, x) ==> x == y)
    && (forall x, y, z :: le(x, y) && le(y, z) ==> le(x, z))
  }

  /** The laws of an order at given elements. */
  lemma OrderLaws<T(!new)>(le: (T, T) -> bool, x: T, y: T, z: T)
    requires TotalOrder(le)
    ensures le(x, x) && (le(x, y) || le(y, x))
    ensures le(x, y) && le(y, x) ==> x == y
    ensures le(x, y) && le(y, z) ==> le(x, z)
  {
  }

  predicate IsLeast<T(==)>(m: T, s: set<T>, le: (T, T) -> bool) {
    m in s && forall y :: y in s ==> le(m, y)
  }

  lemma {:induction false} LeastExists<T(!new)>(s: set<T>, le: (T, T) -> bool)
    requires TotalOrder(le) && s != {}
    ensures exists m :: IsLeast(m, s, le)
  {
    hide TotalOrder;
    var x :| x in s;
    var rest := s - {x};
    OrderLaws(le, x, x, x);
    if rest == {} {
      assert s == {x};
      assert IsLeast(x, s, le);
    } else {
      LeastExists(rest, le);
      var m :| IsLeast(m, rest, le);
      OrderLaws(le, x, m, x);
      var least := if le(x, m) then x else m;
      forall y | y in s ensures le(least, y) {
        if y != x { OrderLaws(le, x, m, y); }
      }
      assert IsLeast(least, s, le);
    }
  }

  function Least<T(==, !new)>(s: set<T>, le: (T, T) -> bool): (m: T)
    requires TotalOrder(le) && s != {}
    ensures m in s && forall y :: y in s ==> le(m, y)
  {
    LeastExists(s, le);
    var m :| IsLeast(m, s, le);
    m
  }

  ghost predicate Ascending<T>(q: seq<T>, le: (T, T) -> bool) {
    forall i, j :: 0 <= i < j < |q| ==> le(q[i], q[j]) && q[i] != q[j]
  }

  /** The elements of a set in ascending order, as a BTreeSet iterates them. */
  function SortedBy<T(==, !new)>(s: set<T>, le: (T, T) -> bool): (q: seq<T>)
    requires TotalOrder(le)
    ensures |q| == |s|
    ensures forall x :: x in q <==> x in s
    ensures Ascending(q, le)
  {
    if s == {} then []
    else
      var m := Least(s, le);
      var rest := SortedBy(s - {m}, le);
      PrependLeast(m, s, rest, le);
      [m] + rest
  }

  lemma PrependLeast<T>(m: T, s: set<T>, rest: seq<T>, le: (T, T) -> bool)
    requires m in s && (forall y :: y in s ==> le(m, y)) && |rest| == |s - {m}|
    requires (forall x :: x in rest <==> x in s - {m}) && Ascending(rest, le)
    ensures |[m] + rest| == |s| && (forall x :: x in [m] + rest <==> x in s) && Ascending([m] + rest, le)
  {
    assert s == (s - {m}) + {m};
    var q := [m] + rest;
    forall i, j | 0 <= i < j < |q| ensures le(q[i], q[j]) && q[i] != q[j] {
      assert q[j] == rest[j - 1] && rest[j - 1] in rest;
      if i > 0 { assert q[i] == rest[i - 1]; }
    }
  }

  /** An ascending sequence is determined by its elements. */
  lemma {:induction false} AscendingUnique<T(!new)>(p: seq<T>, q: seq<T>, le: (T, T) -> bool)
    requires TotalOrder(le) && Ascending(p, le) && Ascending(q, le)
    requires forall x :: x in p <==> x in q
    ensures p == q
  {
    if p == [] {
      assert forall i :: 0 <= i < |q| ==> q[i] in q;
    } else {
      assert p[0] in q;
      assert q[0] in p;
      assert forall i :: 0 <= i < |p| ==> le(p[0], p[i]);
      assert forall i :: 0 <= i < |q| ==> le(q[0], q[i]);
      assert p[0] == q[0];
      forall x
        ensures x in p[1..] <==> x in q[1..]
      {
        assert p == [p[0]] + p[1..] && q == [q[0]] + q[1..];
        if x in p[1..] { assert x in q && x != p[0]; }
        if x in q[1..] { assert x in p && x != q[0]; }
      }
      AscendingUnique(p[1..], q[1..], le);
      assert p == [p[0]] + p[1..] && q == [q[0]] + q[1..];
    }
  }

  predicate NatLe(x: nat, y: nat) { x <= y }

  lemma NatLeTotal()
    ensures TotalOrder(NatLe)
  {
  }

  function SortedNats(s: set<nat>): (q: seq<nat>)
    ensures |q| == |s|
    ensures forall x :: x in q <==> x in s
    ensures forall i, j :: 0 <= i < j < |q| ==> q[i] < q[j]
  {
    NatLeTotal();
    var q := SortedBy(s, NatLe);
    assert forall i, j :: 0 <= i < j < |q| ==> NatLe(q[i], q[j]) && q[i] != q[j];
    q
  }

  /** Lexicographic order of names: the byte order of Rust strings. */
  predicate LexLe(a: string, b: string) {
    a == [] || (b != [] && (a[0] < b[0] || (a[0] == b[0] && LexLe(a[1..], b[1..]))))
  }

  lemma {:induction false} LexLeTotalAt(a: string, b: string)
    ensures LexLe(a, b) || LexLe(b, a)
    ensures LexLe(a, b) && LexLe(b, a) ==> a == b
  {
    if a != [] && b != [] {
      LexLeTotalAt(a[1..], b[1..]);
      assert a == [a[0]] + a[1..] && b == [b[0]] + b[1..];
    }
  }

  lemma {:induction false} LexLeTransitiveAt(a: string, b: string, c: string)
    requires LexLe(a, b) && LexLe(b, c)
    ensures LexLe(a, c)
  {
    if a != [] && a[0] == b[0] && b[0] == c[0] {
      LexLeTransitiveAt(a[1..], b[1..], c[1..]);
    }
  }

  lemma LexLeTotal()
    ensures TotalOrder(LexLe)
  {
    forall a, b
      ensures LexLe(a, b) || LexLe(b, a)
      ensures LexLe(a, b) && LexLe(b, a) ==> a == b
    {
      LexLeTotalAt(a, b);
    }
    forall a, b, c | LexLe(a, b) && LexLe(b, c)
      ensures LexLe(a, c)
    {
      LexLeTransitiveAt(a, b, c);
    }
  }

  function SortedNames(s: set<string>): (q: seq<string>)
    ensures |q| == |s|
    ensures forall x :: x in q <==> x in s
    ensures Ascending(q, LexLe)
  {
    LexLeTotal();
    SortedBy(s, LexLe)
  }
}
