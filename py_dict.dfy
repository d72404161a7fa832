/**
 * Python dictionaries with string keys, kept in insertion order as a list
 * of named entries: assigning to a present key replaces its value in place,
 * assigning to a new key appends it, and `del` removes the entry.
 */
module PyDict {
  import opened Common

  /** No key appears twice. */
  predicate IsDict<T>(d: seq<Named<T>>) {
    Distinct(Names(d))
  }

  /** A dictionary as a value: its keys are distinct by construction. */
  type Dict<T> = d: seq<Named<T>> | IsDict(d) witness []

  /** `d.get(k)`: the value of the first entry named `k`. */
  function Get<T>(d: seq<Named<T>>, k: string): (r: Option<T>)
    ensures r.Some? <==> k in Names(d)
  {
    if d == [] then None
    else
      assert Names(d) == [d[0].name] + Names(d[1..]);
      if d[0].name == k then Some(d[0].item) else Get(d[1..], k)
  }

  /** A lookup checks the first entry, then the rest. */
  lemma GetCons<T>(e: Named<T>, r: seq<Named<T>>, k: string)
    ensures Get([e] + r, k) == if e.name == k then Some(e.item) else Get(r, k)
  {
    assert ([e] + r)[1..] == r;
  }

  /** The rest of a dictionary is a dictionary without the first key. */
  lemma IsDictTail<T>(d: seq<Named<T>>)
    requires IsDict(d) && d != []
    ensures IsDict(d[1..]) && d[0].name !in Names(d[1..])
    ensures Names(d) == [d[0].name] + Names(d[1..])
  {
    assert Names(d) == [d[0].name] + Names(d[1..]);
    DistinctTail(Names(d));
  }

  /** Every entry of a dictionary is what a lookup of its key finds. */
  lemma {:induction false} GetAt<T>(d: seq<Named<T>>, i: nat)
    requires IsDict(d) && i < |d|
    ensures Get(d, d[i].name) == Some(d[i].item)
  {
    if i > 0 {
      var n := Names(d);
      assert d[0].name != d[i].name by {
        assert n[0] == d[0].name && n[i] == d[i].name;
      }
      assert IsDict(d[1..]) by {
        DistinctTail(n);
        assert Names(d[1..]) == n[1..];
      }
      assert d[1..][i - 1] == d[i];
      GetAt(d[1..], i - 1);
    }
  }

  /** `d[k] = v`: a present key keeps its place, a new one goes last. */
  function Put<T>(d: seq<Named<T>>, k: string, v: T): (r: seq<Named<T>>)
    ensures Names(r) == if k in Names(d) then Names(d) else Names(d) + [k]
    ensures forall j :: j in Names(r) <==> j in Names(d) || j == k
    ensures Get(r, k) == Some(v)
    ensures forall j :: j != k ==> Get(r, j) == Get(d, j)
  {
    if d == [] then [Named(k, v)]
    else if d[0].name == k then
      assert Names(d) == [k] + Names(d[1..]);
      assert Names([Named(k, v)] + d[1..]) == [k] + Names(d[1..]);
      [Named(k, v)] + d[1..]
    else
      var t := Put(d[1..], k, v);
      PutCons(d, k, v, t);
      [d[0]] + t
  }

  lemma PutCons<T>(d: seq<Named<T>>, k: string, v: T, t: seq<Named<T>>)
    requires d != [] && d[0].name != k
    requires Names(t) == if k in Names(d[1..]) then Names(d[1..]) else Names(d[1..]) + [k]
    requires Get(t, k) == Some(v)
    requires forall j :: j != k ==> Get(t, j) == Get(d[1..], j)
    ensures Names([d[0]] + t) == if k in Names(d) then Names(d) else Names(d) + [k]
    ensures Get([d[0]] + t, k) == Some(v)
    ensures forall j :: j != k ==> Get([d[0]] + t, j) == Get(d, j)
  {
    assert Names(d) == [d[0].name] + Names(d[1..]);
    assert Names([d[0]] + t) == [d[0].name] + Names(t);
  }

  /** Assignment keeps the keys distinct. */
  lemma PutIsDict<T>(d: seq<Named<T>>, k: string, v: T)
    requires IsDict(d)
    ensures IsDict(Put(d, k, v))
  {
    var n := Names(d);
    if k !in n {
      forall i, j | 0 <= i < j < |n + [k]|
        ensures (n + [k])[i] != (n + [k])[j]
      {
        if j == |n| {
          assert (n + [k])[i] == n[i];
        }
      }
    }
  }

  /** Assigning to the key of entry `i` replaces that entry where it stands. */
  lemma PutAt<T>(d: seq<Named<T>>, i: nat, v: T)
    requires IsDict(d) && i < |d|
    ensures Put(d, d[i].name, v) == d[i := Named(d[i].name, v)]
  {
    forall j | 0 <= j < i
      ensures d[j].name != d[i].name
    {
      assert Names(d)[j] != Names(d)[i];
    }
    PutAtFirst(d, i, v);
  }

  lemma {:induction false} PutAtFirst<T>(d: seq<Named<T>>, i: nat, v: T)
    requires i < |d| && forall j :: 0 <= j < i ==> d[j].name != d[i].name
    ensures Put(d, d[i].name, v) == d[i := Named(d[i].name, v)]
  {
    var k := d[i].name;
    if i == 0 {
      assert Put(d, k, v) == [Named(k, v)] + d[1..];
    } else {
      assert d[0].name != k;
      assert d[1..][i - 1] == d[i];
      PutAtFirst(d[1..], i - 1, v);
      PutAtStep(d, i, Named(k, v), Put(d[1..], k, v));
    }
  }

  lemma PutAtStep<T>(d: seq<Named<T>>, i: nat, x: Named<T>, t: seq<Named<T>>)
    requires 0 < i < |d| && t == d[1..][i - 1 := x]
    ensures [d[0]] + t == d[i := x]
  {
    var a, b := [d[0]] + t, d[i := x];
    assert |a| == |b|;
    forall j | 0 <= j < |a|
      ensures a[j] == b[j]
    {
      if j > 0 {
        assert a[j] == t[j - 1];
      }
    }
  }

  /** Assigning to a key leaves every entry of another key where it was. */
  lemma PutKeepsOthers<T>(d: seq<Named<T>>, k: string, v: T, i: nat)
    requires i < |d| && d[i].name != k
    ensures i < |Put(d, k, v)| && Put(d, k, v)[i] == d[i]
  {
    if i > 0 && d[0].name != k {
      var t := Put(d[1..], k, v);
      assert Put(d, k, v) == [d[0]] + t;
      assert d[1..][i - 1] == d[i];
      PutKeepsOthers(d[1..], k, v, i - 1);
    }
  }

  /** A new key goes after every present entry. */
  lemma PutNew<T>(d: seq<Named<T>>, k: string, v: T)
    requires k !in Names(d)
    ensures Put(d, k, v) == d + [Named(k, v)]
  {
    PutNewAt(d, k, v);
  }

  lemma {:induction false} PutNewAt<T>(d: seq<Named<T>>, k: string, v: T)
    requires forall i :: 0 <= i < |d| ==> d[i].name != k
    ensures Put(d, k, v) == d + [Named(k, v)]
  {
    if d != [] {
      var t := Put(d[1..], k, v);
      assert Put(d, k, v) == [d[0]] + t;
      PutNewAt(d[1..], k, v);
      PutNewStep(d, [Named(k, v)]);
    }
  }

  lemma PutNewStep<T>(d: seq<Named<T>>, e: seq<Named<T>>)
    requires d != []
    ensures [d[0]] + (d[1..] + e) == d + e
  {
    ConcatAssoc([d[0]], d[1..], e);
    assert [d[0]] + d[1..] == d;
  }

  /** A second assignment to the same key overrides the first. */
  lemma {:induction false} PutPut<T>(d: seq<Named<T>>, k: string, v: T, w: T)
    ensures Put(Put(d, k, v), k, w) == Put(d, k, w)
  {
    if d != [] && d[0].name != k {
      var t := Put(d[1..], k, v);
      assert Put(d, k, v) == [d[0]] + t;
      assert ([d[0]] + t)[1..] == t;
      PutPut(d[1..], k, v, w);
    }
  }

  /** Assigning the value a key already holds changes nothing. */
  lemma PutSame<T>(d: seq<Named<T>>, k: string, v: T)
    requires IsDict(d) && Get(d, k) == Some(v)
    ensures Put(d, k, v) == d
  {
    var i := IndexOf(Names(d), k);
    GetAt(d, i);
    PutAt(d, i, v);
    assert d[i := Named(k, v)] == d;
  }

  /** Assigning the value a lookup finds changes nothing, whether or not the keys are distinct. */
  lemma {:induction false} PutFound<T>(d: seq<Named<T>>, k: string, v: T)
    requires Get(d, k) == Some(v)
    ensures Put(d, k, v) == d
  {
    if d[0].name != k {
      GetCons(d[0], d[1..], k);
      assert [d[0]] + d[1..] == d;
      PutFound(d[1..], k, v);
    }
  }

  /** `del d[k]` for a present key; an absent key leaves the dictionary alone. */
  function Del<T>(d: seq<Named<T>>, k: string): (r: seq<Named<T>>)
    ensures Names(r) == RemoveFirst(Names(d), k)
    ensures k !in Names(d) ==> r == d
    ensures forall j :: j != k ==> Get(r, j) == Get(d, j)
  {
    if d == [] then []
    else
      assert Names(d) == [d[0].name] + Names(d[1..]);
      if d[0].name == k then d[1..]
      else
        var t := Del(d[1..], k);
        assert Names([d[0]] + t) == [d[0].name] + Names(t);
        [d[0]] + t
  }

  /** Deleting from a dictionary with a known first entry. */
  lemma DelCons<T>(e: Named<T>, r: seq<Named<T>>, k: string)
    ensures Del([e] + r, k) == if e.name == k then r else [e] + Del(r, k)
  {
    assert ([e] + r)[1..] == r;
  }

  /** Deleting from a dictionary removes the key and keeps the others distinct. */
  lemma DelIsDict<T>(d: seq<Named<T>>, k: string)
    requires IsDict(d)
    ensures IsDict(Del(d, k)) && Get(Del(d, k), k) == None
  {
    RemoveFirstDistinct(Names(d), k);
  }

  /** `list(d.values())`. */
  function Values<T>(d: seq<Named<T>>): (r: seq<T>)
    ensures |r| == |d|
    ensures forall i :: 0 <= i < |d| ==> r[i] == d[i].item
  {
    if d == [] then [] else [d[0].item] + Values(d[1..])
  }

  /** `d.copy()` seen as a map: the same keys, each with the value a lookup finds. */
  function ToMap<T>(d: seq<Named<T>>): (m: map<string, T>)
    ensures forall k :: k in m <==> k in Names(d)
    ensures forall k :: k in m ==> Get(d, k) == Some(m[k])
  {
    if d == [] then map[]
    else
      assert Names(d) == [d[0].name] + Names(d[1..]);
      ToMap(d[1..])[d[0].name := d[0].item]
  }

  /** The values of a dictionary of lists, joined one after another in key order. */
  function ConcatValues<T>(d: seq<Named<seq<T>>>): (r: seq<T>) {
    if d == [] then [] else ConcatValues(d[..|d| - 1]) + d[|d| - 1].item
  }

  /** An element is in the joined values exactly when some entry's list holds it. */
  lemma {:induction false} ConcatValuesSpec<T>(d: seq<Named<seq<T>>>, x: T)
    ensures x in ConcatValues(d) <==> exists i :: 0 <= i < |d| && x in d[i].item
  {
    if d != [] {
      var n := |d| - 1;
      ConcatValuesSpec(d[..n], x);
      if exists i :: 0 <= i < |d| && x in d[i].item {
        var i :| 0 <= i < |d| && x in d[i].item;
        if i < n {
          assert d[..n][i] == d[i];
        }
      }
      if exists i :: 0 <= i < |d[..n]| && x in d[..n][i].item {
        var i :| 0 <= i < |d[..n]| && x in d[..n][i].item;
        assert d[..n][i] == d[i];
      }
    }
  }

  /**
   * The loop `for v in d.values(): out.extend(v)` over an empty list: it
   * collects every entry's list in key order.
   */
  method ExtendAll<T>(d: seq<Named<seq<T>>>) returns (out: seq<T>)
    ensures out == ConcatValues(d)
  {
    out := [];
    var k := 0;
    while k < |d|
      invariant 0 <= k <= |d|
      invariant out == ConcatValues(d[..k])
    {
      assert d[..k + 1][..k] == d[..k];
      out := out + d[k].item;
      k := k + 1;
    }
    assert d[..k] == d;
  }

  /** Looking up a key in a dictionary with one more entry at the end. */
  lemma {:induction false} GetSnoc<T>(d: seq<Named<T>>, e: Named<T>, k: string)
    ensures Get(d + [e], k) == if k in Names(d) then Get(d, k) else if e.name == k then Some(e.item) else None
  {
    if d == [] {
      assert d + [e] == [e] + [];
      GetCons(e, [], k);
    } else {
      assert d + [e] == [d[0]] + (d[1..] + [e]);
      GetCons(d[0], d[1..] + [e], k);
      GetCons(d[0], d[1..], k);
      GetSnoc(d[1..], e, k);
      assert d == [d[0]] + d[1..];
      NamesAppend([d[0]], d[1..]);
    }
  }

  /** Walking a dictionary entry by entry: the next entry's key is new, and only its lookup changes. */
  lemma GetPrefixStep<T>(d: seq<Named<T>>, k: nat)
    requires IsDict(d) && k < |d|
    ensures d[..k + 1] == d[..k] + [d[k]]
    ensures Get(d[..k + 1], d[k].name) == Some(d[k].item)
    ensures forall n :: n != d[k].name ==> Get(d[..k + 1], n) == Get(d[..k], n)
  {
    assert d[..k + 1] == d[..k] + [d[k]];
    GetPrefixStepAt(d, k, d[k].name);
    forall n: string | n != d[k].name
      ensures Get(d[..k + 1], n) == Get(d[..k], n)
    {
      GetPrefixStepAt(d, k, n);
    }
  }

  lemma GetPrefixStepAt<T>(d: seq<Named<T>>, k: nat, n: string)
    requires IsDict(d) && k < |d|
    ensures Get(d[..k + 1], n) == if n == d[k].name then Some(d[k].item) else Get(d[..k], n)
  {
    var p := d[..k];
    assert d[..k + 1] == p + [d[k]];
    assert d[k].name !in Names(p) by {
      assert forall i :: 0 <= i < |p| ==> Names(p)[i] == Names(d)[i] != Names(d)[k];
    }
    GetSnoc(p, d[k], n);
  }

  /** A dictionary without its last entry is a dictionary without the last key. */
  lemma DictInit<T>(d: seq<Named<T>>)
    requires IsDict(d) && d != []
    ensures IsDict(d[..|d| - 1]) && d[|d| - 1].name !in Names(d[..|d| - 1])
    ensures Names(d) == Names(d[..|d| - 1]) + [d[|d| - 1].name]
  {
    var k := |d| - 1;
    NamesInit(d);
    DistinctInit(Names(d));
  }

  lemma NamesInit<T>(d: seq<Named<T>>)
    requires d != []
    ensures Names(d[..|d| - 1]) == Names(d)[..|d| - 1]
    ensures Names(d) == Names(d)[..|d| - 1] + [d[|d| - 1].name]
  {
    var k := |d| - 1;
    var n := Names(d);
    var p := d[..k];
    var m := Names(p);
    forall i | 0 <= i < k ensures m[i] == n[..k][i] {
      assert m[i] == p[i].name;
      assert p[i] == d[i];
    }
    assert m == n[..k];
    assert n == n[..k] + [n[k]];
  }

  lemma DistinctInit<T>(n: seq<T>)
    requires Distinct(n) && n != []
    ensures Distinct(n[..|n| - 1]) && n[|n| - 1] !in n[..|n| - 1]
  {
    var k := |n| - 1;
    forall a, b | 0 <= a < b < k ensures n[..k][a] != n[..k][b] {
      assert n[a] != n[b];
    }
    forall a | 0 <= a < k ensures n[..k][a] != n[k] {
      assert n[a] != n[k];
    }
  }

  /** Looking a key up in a dictionary: the last entry, or what the rest finds. */
  lemma GetInit<T>(d: seq<Named<T>>, k: string)
    requires IsDict(d) && d != []
    ensures Get(d, k) == if k == d[|d| - 1].name then Some(d[|d| - 1].item) else Get(d[..|d| - 1], k)
  {
    var n := |d| - 1;
    DictInit(d);
    assert d == d[..n] + [d[n]];
    GetSnoc(d[..n], d[n], k);
  }

  /** Replacing the value of an entry in place keeps the keys. */
  lemma ReplaceKeepsNames<T>(d: seq<Named<T>>, i: nat, v: T)
    requires i < |d|
    ensures Names(d[i := Named(d[i].name, v)]) == Names(d)
  {
    var r := d[i := Named(d[i].name, v)];
    assert forall j :: 0 <= j < |d| ==> Names(r)[j] == Names(d)[j];
  }
}
