/**
 * Python's `list.sort(key=...)`: a stable sort by a key made of an integer
 * rank and a string compared code point by code point, as Python compares
 * `(int, str)` tuples. The sort is written as an insertion sort and proved
 * to be sorted, a permutation, and stable (entries with equal keys keep
 * their order), which together determine Python's result.
 */
module StableSort {

  datatype Key = Key(rank: int, text: string)

  /** Python `a <= b` on strings. */
  predicate StrLe(a: string, b: string)
    decreases |a|
  {
    a == [] || (b != [] && (a[0] < b[0] || (a[0] == b[0] && StrLe(a[1..], b[1..]))))
  }

  lemma {:induction false} StrLeTotal(a: string, b: string)
    ensures StrLe(a, b) || StrLe(b, a)
    decreases |a|
  {
    if a != [] && b != [] && a[0] == b[0] {
      StrLeTotal(a[1..], b[1..]);
    }
  }

  lemma {:induction false} StrLeTrans(a: string, b: string, c: string)
    requires StrLe(a, b) && StrLe(b, c)
    ensures StrLe(a, c)
    decreases |a|
  {
    if a != [] && b != [] && c != [] && a[0] == b[0] && b[0] == c[0] {
      StrLeTrans(a[1..], b[1..], c[1..]);
    }
  }

  lemma {:induction false} StrLeAntisym(a: string, b: string)
    requires StrLe(a, b) && StrLe(b, a)
    ensures a == b
    decreases |a|
  {
    if a != [] {
      StrLeAntisym(a[1..], b[1..]);
      assert a == [a[0]] + a[1..] && b == [b[0]] + b[1..];
    }
  }

  lemma {:induction false} StrLeRefl(a: string)
    ensures StrLe(a, a)
    decreases |a|
  {
    if a != [] {
      StrLeRefl(a[1..]);
    }
  }

  /** Python `a <= b` on `(rank, text)` tuples. */
  predicate KeyLe(a: Key, b: Key) {
    a.rank < b.rank || (a.rank == b.rank && StrLe(a.text, b.text))
  }

  /** Keys are totally preordered; since equal keys are the only ties, the order is total. */
  lemma KeyLeFacts(a: Key, b: Key, c: Key)
    ensures KeyLe(a, a)
    ensures KeyLe(a, b) || KeyLe(b, a)
    ensures KeyLe(a, b) && KeyLe(b, c) ==> KeyLe(a, c)
    ensures KeyLe(a, b) && KeyLe(b, a) ==> a == b
  {
    StrLeRefl(a.text);
    StrLeTotal(a.text, b.text);
    if KeyLe(a, b) && KeyLe(b, c) && a.rank == b.rank == c.rank {
      StrLeTrans(a.text, b.text, c.text);
    }
    if KeyLe(a, b) && KeyLe(b, a) {
      StrLeAntisym(a.text, b.text);
    }
  }

  predicate Sorted<T>(s: seq<(Key, T)>) {
    forall i, j :: 0 <= i < j < |s| ==> KeyLe(s[i].0, s[j].0)
  }

  /** Puts `x` after every entry whose key is at most its own. */
  function Insert<T>(x: (Key, T), s: seq<(Key, T)>): (r: seq<(Key, T)>)
    ensures |r| == |s| + 1
  {
    if s == [] then [x]
    else if !KeyLe(s[0].0, x.0) then [x] + s
    else [s[0]] + Insert(x, s[1..])
  }

  /** The stable sort: each entry in turn is inserted after the equal keys already placed. */
  function Sort<T>(s: seq<(Key, T)>): (r: seq<(Key, T)>)
    ensures |r| == |s|
  {
    if s == [] then [] else Insert(s[|s| - 1], Sort(s[..|s| - 1]))
  }

  lemma {:induction false} InsertMultiset<T>(x: (Key, T), s: seq<(Key, T)>)
    ensures multiset(Insert(x, s)) == multiset(s) + multiset{x}
  {
    if s != [] && KeyLe(s[0].0, x.0) {
      InsertMultiset(x, s[1..]);
      assert s == [s[0]] + s[1..];
    }
  }

  lemma {:induction false} InsertSorted<T>(x: (Key, T), s: seq<(Key, T)>)
    requires Sorted(s)
    ensures Sorted(Insert(x, s))
  {
    var r := Insert(x, s);
    if s == [] {
    } else if !KeyLe(s[0].0, x.0) {
      KeyLeFacts(s[0].0, x.0, x.0);
      forall i, j | 0 <= i < j < |r| ensures KeyLe(r[i].0, r[j].0) {
        if i == 0 {
          KeyLeFacts(x.0, s[0].0, r[j].0);
        }
      }
    } else {
      InsertSorted(x, s[1..]);
      var t := Insert(x, s[1..]);
      InsertMultiset(x, s[1..]);
      forall j | 0 <= j < |t| ensures KeyLe(s[0].0, t[j].0) {
        assert t[j] in multiset(t);
        assert t[j] == x || t[j] in s[1..];
      }
    }
  }

  /** The sort returns its input in key order... */
  lemma {:induction false} SortSorted<T>(s: seq<(Key, T)>)
    ensures Sorted(Sort(s))
  {
    if s != [] {
      SortSorted(s[..|s| - 1]);
      InsertSorted(s[|s| - 1], Sort(s[..|s| - 1]));
    }
  }

  /** ...and is a permutation of it. */
  lemma {:induction false} SortPermutation<T>(s: seq<(Key, T)>)
    ensures multiset(Sort(s)) == multiset(s)
  {
    if s != [] {
      var init := s[..|s| - 1];
      SortPermutation(init);
      InsertMultiset(s[|s| - 1], Sort(init));
      assert s == init + [s[|s| - 1]];
    }
  }

  /** The entries whose key is `k`, in order. */
  function WithKey<T>(s: seq<(Key, T)>, k: Key): (r: seq<(Key, T)>)
    ensures |r| <= |s|
  {
    if s == [] then [] else (if s[0].0 == k then [s[0]] else []) + WithKey(s[1..], k)
  }

  lemma {:induction false} WithKeyAppend<T>(a: seq<(Key, T)>, b: seq<(Key, T)>, k: Key)
    ensures WithKey(a + b, k) == WithKey(a, k) + WithKey(b, k)
  {
    if a != [] {
      WithKeyAppend(a[1..], b, k);
      assert (a + b)[1..] == a[1..] + b;
    } else {
      assert a + b == b;
    }
  }

  lemma {:induction false} WithKeyNone<T>(s: seq<(Key, T)>, k: Key)
    requires forall i :: 0 <= i < |s| ==> s[i].0 != k
    ensures WithKey(s, k) == []
  {
    if s != [] {
      WithKeyNone(s[1..], k);
    }
  }

  /** Inserting into a sorted list puts `x` after every entry with the same key. */
  lemma {:induction false} InsertStable<T>(x: (Key, T), s: seq<(Key, T)>, k: Key)
    requires Sorted(s)
    ensures WithKey(Insert(x, s), k) == WithKey(s, k) + (if x.0 == k then [x] else [])
  {
    if s == [] {
    } else if !KeyLe(s[0].0, x.0) {
      forall i | 0 <= i < |s| ensures s[i].0 != x.0 {
        KeyLeFacts(s[0].0, s[i].0, x.0);
      }
      if x.0 == k {
        WithKeyNone(s, k);
      }
      assert ([x] + s)[1..] == s;
    } else {
      InsertStable(x, s[1..], k);
      assert ([s[0]] + Insert(x, s[1..]))[1..] == Insert(x, s[1..]);
    }
  }

  /** Entries with equal keys come out of the sort in the order they went in. */
  lemma {:induction false} SortStable<T>(s: seq<(Key, T)>, k: Key)
    ensures WithKey(Sort(s), k) == WithKey(s, k)
  {
    if s != [] {
      var init, x := s[..|s| - 1], s[|s| - 1];
      SortStable(init, k);
      SortSorted(init);
      InsertStable(x, Sort(init), k);
      assert s == init + [x];
      WithKeyAppend(init, [x], k);
    }
  }

  lemma {:induction false} InsertItems<T>(x: (Key, T), s: seq<(Key, T)>)
    ensures multiset(Items(Insert(x, s))) == multiset(Items(s)) + multiset{x.1}
  {
    if s != [] {
      assert Items(s) == [s[0].1] + Items(s[1..]);
      if KeyLe(s[0].0, x.0) {
        InsertItems(x, s[1..]);
        assert Items([s[0]] + Insert(x, s[1..])) == [s[0].1] + Items(Insert(x, s[1..]));
      } else {
        assert Items([x] + s) == [x.1] + Items(s);
      }
    }
  }

  /** The sorted values are a permutation of the values. */
  lemma {:induction false} SortItemsPermutation<T>(s: seq<(Key, T)>)
    ensures multiset(Items(Sort(s))) == multiset(Items(s))
  {
    if s != [] {
      var init, x := s[..|s| - 1], s[|s| - 1];
      var sorted := Sort(init);
      assert Sort(s) == Insert(x, sorted);
      SortItemsPermutation(init);
      InsertItems(x, sorted);
      var before := multiset(Items(init));
      assert multiset(Items(Sort(s))) == before + multiset{x.1};
      ItemsLast(s);
      assert multiset(Items(s)) == before + multiset{x.1};
    }
  }

  lemma ItemsAppend<T>(a: seq<(Key, T)>, b: seq<(Key, T)>)
    ensures Items(a + b) == Items(a) + Items(b)
  {
    var l, r := Items(a + b), Items(a) + Items(b);
    assert |l| == |r|;
    forall i | 0 <= i < |l| ensures l[i] == r[i] {
      if i < |a| {
        assert (a + b)[i] == a[i];
      } else {
        assert (a + b)[i] == b[i - |a|];
      }
    }
  }

  lemma ItemsLast<T>(s: seq<(Key, T)>)
    requires s != []
    ensures Items(s) == Items(s[..|s| - 1]) + [s[|s| - 1].1]
  {
    var a, b := Items(s), Items(s[..|s| - 1]) + [s[|s| - 1].1];
    assert |a| == |b|;
    forall i | 0 <= i < |a| ensures a[i] == b[i] {
      if i < |s| - 1 {
        assert s[..|s| - 1][i] == s[i];
      }
    }
  }

  /** The values of keyed entries, in order. */
  function Items<T>(s: seq<(Key, T)>): (r: seq<T>)
    ensures |r| == |s|
    ensures forall i :: 0 <= i < |s| ==> r[i] == s[i].1
  {
    if s == [] then [] else [s[0].1] + Items(s[1..])
  }
}
