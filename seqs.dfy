/** Sequence helpers shared by the components: insertion into an ordered set
    (JavaScript's `Set` and the `includes`-then-`push` idiom), filtering, and
    the stable descending sort that `Array.prototype.sort` performs with a
    comparator `(a, b) => key(b) - key(a)`. */
module Seqs {
  import opened Common

  predicate NoDups<T(==,!new)>(s: seq<T>) {
    forall i, j :: 0 <= i < j < |s| ==> s[i] != s[j]
  }

  /** Pushes each element of `ys`, in order, onto `xs` unless it is already
      there: the `if (!list.includes(y)) list.push(y)` loop, and also the
      iteration order of a `Set` that `ys` is added to. */
  function AppendMissing<T(==,!new)>(xs: seq<T>, ys: seq<T>): (r: seq<T>)
    ensures xs <= r
    ensures forall x :: x in r <==> x in xs || x in ys
    ensures NoDups(xs) ==> NoDups(r)
    decreases |ys|
  {
    if ys == [] then xs
    else
      var r := AppendMissing(xs, ys[..|ys| - 1]);
      var y := ys[|ys| - 1];
      if y in r then r else r + [y]
  }

  /** `[...new Set(s)]` */
  function Dedup<T(==,!new)>(s: seq<T>): (r: seq<T>)
    ensures NoDups(r)
    ensures forall x :: x in r <==> x in s
  {
    AppendMissing([], s)
  }

  /** Adding one element at the end of the input adds it at the end of the
      deduplication, unless it was already there. */
  lemma DedupSnoc<T(!new)>(s: seq<T>, y: T)
    ensures Dedup(s + [y]) == if y in s then Dedup(s) else Dedup(s) + [y]
  {
    assert (s + [y])[..|s|] == s;
  }

  /** The position of the first occurrence of `x` in `s`. */
  function FirstIndex<T(==,!new)>(s: seq<T>, x: T): (i: nat)
    requires x in s
    ensures i < |s| && s[i] == x && x !in s[..i]
  {
    if s[0] == x then 0 else 1 + FirstIndex(s[1..], x)
  }

  lemma {:induction false} FirstIndexPrefix<T(!new)>(s: seq<T>, n: nat, x: T)
    requires n <= |s| && x in s[..n]
    ensures FirstIndex(s, x) == FirstIndex(s[..n], x)
  {
    if s[0] != x {
      assert s[1..][..n - 1] == s[..n][1..];
      FirstIndexPrefix(s[1..], n - 1, x);
    }
  }

  /** Deduplication keeps the elements in the order of their first occurrence. */
  lemma {:induction false} DedupKeepsFirstOccurrenceOrder<T(!new)>(s: seq<T>)
    ensures forall i, j :: 0 <= i < j < |Dedup(s)| ==> FirstIndex(s, Dedup(s)[i]) < FirstIndex(s, Dedup(s)[j])
    decreases |s|
  {
    if s != [] {
      var p := s[..|s| - 1];
      var y := s[|s| - 1];
      var r := Dedup(p);
      DedupKeepsFirstOccurrenceOrder(p);
      assert Dedup(s) == if y in r then r else r + [y];
      forall x | x in r ensures FirstIndex(s, x) == FirstIndex(p, x) {
        assert s[..|s| - 1] == p;
        FirstIndexPrefix(s, |s| - 1, x);
      }
      if y !in r {
        assert y !in p;
        forall k | 0 <= k < |s| - 1 ensures s[k] != y {
          assert s[k] == p[k];
        }
      }
    }
  }

  /** A sequence without duplicates is its own deduplication. */
  lemma {:induction false} DedupOfDistinct<T(!new)>(s: seq<T>)
    requires NoDups(s)
    ensures Dedup(s) == s
    decreases |s|
  {
    if s != [] {
      var p := s[..|s| - 1];
      DedupOfDistinct(p);
      assert s[|s| - 1] !in p;
      assert p + [s[|s| - 1]] == s;
    }
  }

  /** The first element survives deduplication in front. */
  lemma {:induction false} DedupHead<T(!new)>(s: seq<T>)
    requires s != []
    ensures Dedup(s) != [] && Dedup(s)[0] == s[0]
    decreases |s|
  {
    var p := s[..|s| - 1];
    var y := s[|s| - 1];
    assert Dedup(s) == if y in Dedup(p) then Dedup(p) else Dedup(p) + [y];
    if |s| > 1 {
      DedupHead(p);
    } else {
      assert p == [];
    }
  }

  /** `s.filter(p)` */
  function Filter<T(!new)>(s: seq<T>, p: T -> bool): (r: seq<T>)
    ensures |r| <= |s|
    ensures forall x :: x in r <==> x in s && p(x)
  {
    if s == [] then []
    else if p(s[0]) then [s[0]] + Filter(s[1..], p)
    else Filter(s[1..], p)
  }

  /** A filter keeps each element at most as often as the input has it. */
  lemma {:induction false} FilterSubMultiset<T(!new)>(s: seq<T>, p: T -> bool)
    ensures multiset(Filter(s, p)) <= multiset(s)
    decreases |s|
  {
    if s != [] {
      FilterSubMultiset(s[1..], p);
      assert s == [s[0]] + s[1..];
    }
  }

  /** `s.findIndex(p)` as an option: the first position whose element satisfies `p`. */
  function FindFirst<T>(s: seq<T>, p: T -> bool): (r: Option<nat>)
    ensures r.None? ==> forall i :: 0 <= i < |s| ==> !p(s[i])
    ensures r.Some? ==> r.value < |s| && p(s[r.value]) && forall i :: 0 <= i < r.value ==> !p(s[i])
  {
    if s == [] then None
    else if p(s[0]) then Some(0)
    else match FindFirst(s[1..], p)
      case None => None
      case Some(k) => Some(k + 1)
  }

  /** `s.slice(0, n)` */
  function Take<T>(s: seq<T>, n: nat): (r: seq<T>)
    ensures |r| == if n < |s| then n else |s|
    ensures r <= s
  {
    if n < |s| then s[..n] else s
  }

  lemma TakeSubMultiset<T>(s: seq<T>, n: nat)
    ensures multiset(Take(s, n)) <= multiset(s)
  {
    if n < |s| {
      assert s == s[..n] + s[n..];
    }
  }

  predicate NonIncreasing<T>(s: seq<T>, key: T -> real) {
    forall i, j :: 0 <= i < j < |s| ==> key(s[i]) >= key(s[j])
  }

  /** Places `x` after every element of `s` whose key is at least its own. */
  function InsertDesc<T(==,!new)>(x: T, s: seq<T>, key: T -> real): (r: seq<T>)
    requires NonIncreasing(s, key)
    ensures NonIncreasing(r, key)
    ensures multiset(r) == multiset(s) + multiset{x}
    ensures |r| == |s| + 1
    ensures forall k :: 0 <= k < |r| ==> r[k] == x || r[k] in s
  {
    if s == [] then [x]
    else if key(s[0]) >= key(x) then
      var t := InsertDesc(x, s[1..], key);
      InsertBelowHead(s, t, x, key);
      assert s == [s[0]] + s[1..];
      [s[0]] + t
    else [x] + s
  }

  lemma InsertBelowHead<T>(s: seq<T>, t: seq<T>, x: T, key: T -> real)
    requires s != [] && NonIncreasing(s, key) && NonIncreasing(t, key)
    requires key(s[0]) >= key(x)
    requires forall k :: 0 <= k < |t| ==> t[k] == x || t[k] in s[1..]
    ensures NonIncreasing([s[0]] + t, key)
  {
    forall k | 0 <= k < |t| ensures key(s[0]) >= key(t[k]) {
      if t[k] != x {
        var m :| 0 <= m < |s[1..]| && s[1..][m] == t[k];
        assert s[m + 1] == t[k];
      }
    }
  }

  /** Stable sort by descending key: the order `sort((a, b) => key(b) - key(a))`
      produces. */
  function SortDesc<T(==,!new)>(s: seq<T>, key: T -> real): (r: seq<T>)
    ensures NonIncreasing(r, key)
    ensures multiset(r) == multiset(s)
    ensures |r| == |s|
  {
    if s == [] then []
    else
      var p := s[..|s| - 1];
      assert s == p + [s[|s| - 1]];
      InsertDesc(s[|s| - 1], SortDesc(p, key), key)
  }

  /** An element no larger than everything already there goes to the end:
      the comparator never moves it in front of an equal key. */
  lemma NonIncreasingTail<T>(s: seq<T>, x: T, key: T -> real)
    requires s != [] && NonIncreasing(s, key)
    requires forall k :: 0 <= k < |s| ==> key(s[k]) >= key(x)
    ensures NonIncreasing(s[1..], key)
    ensures forall k :: 0 <= k < |s[1..]| ==> key(s[1..][k]) >= key(x)
  {
  }

  /** An element no larger than everything already there goes to the end:
      the comparator never moves it in front of an equal key. */
  lemma {:induction false} InsertDescAtEnd<T(!new)>(x: T, s: seq<T>, key: T -> real)
    requires NonIncreasing(s, key)
    requires forall k :: 0 <= k < |s| ==> key(s[k]) >= key(x)
    ensures InsertDesc(x, s, key) == s + [x]
    decreases |s|
  {
    if s != [] {
      NonIncreasingTail(s, x, key);
      InsertDescAtEnd(x, s[1..], key);
      assert key(s[0]) >= key(x);
      assert [s[0]] + (s[1..] + [x]) == s + [x];
    }
  }

  lemma NonIncreasingInit<T>(p: seq<T>, x: T, key: T -> real)
    requires NonIncreasing(p + [x], key)
    ensures NonIncreasing(p, key)
    ensures forall k :: 0 <= k < |p| ==> key(p[k]) >= key(x)
  {
    var s := p + [x];
    forall i, j | 0 <= i < j < |p| ensures key(p[i]) >= key(p[j]) {
      assert p[i] == s[i] && p[j] == s[j];
    }
    forall k | 0 <= k < |p| ensures key(p[k]) >= key(x) {
      assert p[k] == s[k] && x == s[|p|];
    }
  }

  lemma SortDescSnoc<T(!new)>(p: seq<T>, x: T, key: T -> real)
    ensures SortDesc(p + [x], key) == InsertDesc(x, SortDesc(p, key), key)
  {
    assert (p + [x])[..|p|] == p;
  }

  /** The sort is stable: a sequence already in order comes back unchanged. */
  lemma {:induction false} SortDescOfSorted<T(!new)>(s: seq<T>, key: T -> real)
    requires NonIncreasing(s, key)
    ensures SortDesc(s, key) == s
    decreases |s|
  {
    if s != [] {
      var p, x := s[..|s| - 1], s[|s| - 1];
      assert s == p + [x];
      NonIncreasingInit(p, x, key);
      SortDescOfSorted(p, key);
      SortDescSnoc(p, x, key);
      InsertDescAtEnd(x, p, key);
    }
  }

  /** The concatenation of `f(x)` for every `x` of `s`, in order: a loop that
      pushes `f(x)` for each element in turn. */
  function Flatten<T, U>(s: seq<T>, f: T -> seq<U>): seq<U>
    decreases |s|
  {
    if s == [] then [] else Flatten(s[..|s| - 1], f) + f(s[|s| - 1])
  }

  lemma FlattenSnoc<T, U>(s: seq<T>, x: T, f: T -> seq<U>)
    ensures Flatten(s + [x], f) == Flatten(s, f) + f(x)
  {
    assert (s + [x])[..|s|] == s;
  }

  /** An element is in the concatenation exactly when it comes from one of
      the parts. */
  lemma {:induction false} FlattenMember<T, U>(s: seq<T>, f: T -> seq<U>, y: U)
    ensures y in Flatten(s, f) <==> exists i :: 0 <= i < |s| && y in f(s[i])
    decreases |s|
  {
    if s != [] {
      var p, x := s[..|s| - 1], s[|s| - 1];
      FlattenMember(p, f, y);
      if y in Flatten(p, f) {
        var i :| 0 <= i < |p| && y in f(p[i]);
        assert p[i] == s[i];
      }
      if i :| 0 <= i < |s| && y in f(s[i]) {
        if i < |p| {
          assert p[i] == s[i];
        }
      }
    }
  }

  /** Applies `f` to each element in turn and collects the results, stopping
      at the first failure: a `forEach` whose body throws. */
  method TryMap<T, U, E>(s: seq<T>, f: T -> Result<U, E>) returns (r: Result<seq<U>, E>)
    ensures r.Success? ==> |r.value| == |s| && forall i :: 0 <= i < |s| ==> f(s[i]) == Success(r.value[i])
    ensures r.Failure? ==> exists k :: 0 <= k < |s| && f(s[k]) == Failure(r.error) && forall i :: 0 <= i < k ==> f(s[i]).Success?
  {
    var results: seq<U> := [];
    for i := 0 to |s|
      invariant |results| == i
      invariant forall j :: 0 <= j < i ==> f(s[j]) == Success(results[j])
    {
      var result := f(s[i]);
      if result.Failure? {
        return Failure(result.error);
      }
      results := results + [result.value];
    }
    return Success(results);
  }
}
