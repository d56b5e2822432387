/** What several modules share: optional values, and counting the elements of a sequence. */
module Common {

  datatype Option<+T> = None | Some(value: T)

  /** How many elements of `s` satisfy `p`. */
  function Count<T>(s: seq<T>, p: T -> bool): nat {
    if s == [] then 0 else Count(s[..|s| - 1], p) + if p(s[|s| - 1]) then 1 else 0
  }

  lemma CountPush<T>(s: seq<T>, x: T, p: T -> bool)
    ensures Count(s + [x], p) == Count(s, p) + if p(x) then 1 else 0
  {
    assert (s + [x])[..|s|] == s;
  }

  lemma {:induction false} CountUpdate<T>(s: seq<T>, i: nat, x: T, p: T -> bool)
    requires i < |s|
    ensures Count(s[i := x], p) == Count(s, p) - (if p(s[i]) then 1 else 0) + if p(x) then 1 else 0
  {
    var last := |s| - 1;
    if i == last {
      assert s[i := x][..last] == s[..last];
    } else {
      assert s[i := x][..last] == s[..last][i := x];
      CountUpdate(s[..last], i, x, p);
    }
  }

  lemma {:induction false} CountSplits<T>(s: seq<T>, p: T -> bool, q: T -> bool, r: T -> bool)
    requires forall x <- s :: p(x) <==> q(x) || r(x)
    requires forall x <- s :: !(q(x) && r(x))
    ensures Count(s, p) == Count(s, q) + Count(s, r)
  {
    if s != [] {
      CountSplits(s[..|s| - 1], p, q, r);
    }
  }

  lemma {:induction false} CountHas<T>(s: seq<T>, i: nat, p: T -> bool)
    requires i < |s| && p(s[i])
    ensures Count(s, p) >= 1
  {
    if i < |s| - 1 {
      CountHas(s[..|s| - 1], i, p);
    }
  }

  lemma {:induction false} CountNone<T>(s: seq<T>, p: T -> bool)
    requires forall x <- s :: !p(x)
    ensures Count(s, p) == 0
  {
    if s != [] {
      CountNone(s[..|s| - 1], p);
    }
  }

  lemma {:induction false} CountConcat<T>(a: seq<T>, b: seq<T>, p: T -> bool)
    ensures Count(a + b, p) == Count(a, p) + Count(b, p)
  {
    if b == [] {
      assert a + b == a;
    } else {
      assert (a + b)[..|a + b| - 1] == a + b[..|b| - 1];
      CountConcat(a, b[..|b| - 1], p);
    }
  }

  lemma {:induction false} CountAll<T>(s: seq<T>, p: T -> bool)
    requires forall x <- s :: p(x)
    ensures Count(s, p) == |s|
  {
    if s != [] {
      CountAll(s[..|s| - 1], p);
    }
  }

  /** A count does not depend on the order. */
  lemma {:induction false} CountPermutation<T>(a: seq<T>, b: seq<T>, p: T -> bool)
    requires multiset(a) == multiset(b)
    ensures Count(a, p) == Count(b, p)
  {
    if a == [] {
      assert |multiset(a)| == |multiset(b)|;
    } else {
      var last := a[|a| - 1];
      assert a == a[..|a| - 1] + [last];
      assert last in multiset(b);
      var j :| 0 <= j < |b| && b[j] == last;
      var rest := b[..j] + b[j + 1..];
      assert b == b[..j] + [last] + b[j + 1..];
      assert multiset(rest) == multiset(b[..j]) + multiset(b[j + 1..]);
      assert multiset(b) == multiset(rest) + multiset{last};
      assert multiset(a[..|a| - 1]) == multiset(a) - multiset{last};
      assert multiset(rest) == multiset(b) - multiset{last};
      CountPermutation(a[..|a| - 1], rest, p);
      CountConcat(b[..j], b[j + 1..], p);
      CountConcat(b[..j] + [last], b[j + 1..], p);
      CountPush(b[..j], last, p);
    }
  }

  /** A sequence in which each element is no greater than the next by `le`. */
  ghost predicate Sorted<T(!new)>(s: seq<T>, le: (T, T) -> bool) {
    forall i, j :: 0 <= i < j < |s| ==> le(s[i], s[j])
  }

  ghost predicate TotalOrder<T(!new)>(le: (T, T) -> bool) {
    && (forall x, y :: le(x, y) || le(y, x))
    && (forall x, y, z :: le(x, y) && le(y, z) ==> le(x, z))
  }

  function Insert<T>(x: T, s: seq<T>, le: (T, T) -> bool): seq<T> {
    if s == [] || !le(s[0], x) then [x] + s else [s[0]] + Insert(x, s[1..], le)
  }

  /** A stable sort, as `Array.prototype.sort` is. */
  function Sort<T>(s: seq<T>, le: (T, T) -> bool): seq<T> {
    if s == [] then [] else Insert(s[|s| - 1], Sort(s[..|s| - 1], le), le)
  }

  lemma {:induction false} InsertHolds<T>(x: T, s: seq<T>, le: (T, T) -> bool)
    ensures multiset(Insert(x, s, le)) == multiset(s) + multiset{x}
    ensures forall y <- Insert(x, s, le) :: y == x || y in s
  {
    if s != [] && le(s[0], x) {
      InsertHolds(x, s[1..], le);
      assert s == [s[0]] + s[1..];
    }
  }

  lemma {:induction false} InsertSorts<T(!new)>(x: T, s: seq<T>, le: (T, T) -> bool)
    requires TotalOrder(le) && Sorted(s, le)
    ensures Sorted(Insert(x, s, le), le)
  {
    if s == [] {
    } else if le(s[0], x) {
      InsertSorts(x, s[1..], le);
      InsertHolds(x, s[1..], le);
      hide TotalOrder;
      assert s == [s[0]] + s[1..];
      forall y <- Insert(x, s[1..], le) ensures le(s[0], y) {
      }
    } else {
      forall y <- s ensures le(x, y) {
        assert le(x, s[0]);
      }
    }
  }

  lemma {:induction false} SortSorts<T(!new)>(s: seq<T>, le: (T, T) -> bool)
    requires TotalOrder(le)
    ensures Sorted(Sort(s, le), le) && multiset(Sort(s, le)) == multiset(s) && |Sort(s, le)| == |s|
  {
    if s != [] {
      SortSorts(s[..|s| - 1], le);
      InsertSorts(s[|s| - 1], Sort(s[..|s| - 1], le), le);
      InsertHolds(s[|s| - 1], Sort(s[..|s| - 1], le), le);
      assert s == s[..|s| - 1] + [s[|s| - 1]];
      assert |Sort(s, le)| == |multiset(Sort(s, le))|;
      assert |s| == |multiset(s)|;
    }
  }
}
