/** std::map<std::string, V>: an association list. Lookup and assignment are defined
    on every list; the maps the program builds are kept in strictly increasing key
    order (Increasing, preserved by Insert), so iteration order is part of the value. */
module OrderedMap {
  import opened Wrappers
  import opened Strings

  /** The key of entry i. */
  function KeyAt<V>(m: seq<(string, V)>, i: nat): string
    requires i < |m|
  {
    m[i].0
  }

  predicate Increasing<V>(m: seq<(string, V)>)
  {
    forall i, j :: 0 <= i < j < |m| ==> StrLt(KeyAt(m, i), KeyAt(m, j))
  }

  lemma IncreasingAt<V>(m: seq<(string, V)>, i: nat, j: nat)
    requires Increasing(m) && i < j < |m|
    ensures StrLt(m[i].0, m[j].0)
  {
    assert StrLt(KeyAt(m, i), KeyAt(m, j));
  }

  type OMap<V> = seq<(string, V)>

  function Empty<V>(): OMap<V>
  {
    []
  }

  /** The keys in iteration (ascending) order. */
  function Keys<V>(m: seq<(string, V)>): (ks: seq<string>)
    ensures |ks| == |m| && forall i :: 0 <= i < |m| ==> ks[i] == m[i].0
  {
    if |m| == 0 then [] else [m[0].0] + Keys(m[1..])
  }

  predicate HasKey<V>(m: seq<(string, V)>, k: string)
  {
    exists i :: 0 <= i < |m| && m[i].0 == k
  }

  /** map.find(k). */
  function Get<V>(m: seq<(string, V)>, k: string): (r: Option<V>)
    ensures r.Some? <==> HasKey(m, k)
    ensures r.Some? ==> (k, r.value) in m
  {
    if |m| == 0 then None
    else if m[0].0 == k then Some(m[0].1)
    else
      var r := Get(m[1..], k);
      assert HasKey(m[1..], k) ==> HasKey(m, k);
      assert HasKey(m, k) ==> HasKey(m[1..], k) by {
        if HasKey(m, k) {
          var i :| 0 <= i < |m| && m[i].0 == k;
          assert m[1..][i - 1].0 == k;
        }
      }
      r
  }

  /** In an increasing list a key below the head is absent. */
  lemma GetHead<V>(m: OMap<V>, k: string)
    requires Increasing(m) && |m| > 0 && StrLt(k, m[0].0)
    ensures Get(m, k) == None
  {
    if HasKey(m, k) {
      var i :| 0 <= i < |m| && m[i].0 == k;
      if i == 0 {
        StrLtIrreflexive(k);
      } else {
        IncreasingAt(m, 0, i);
        StrLtTransitive(k, m[0].0, m[i].0);
        StrLtIrreflexive(k);
      }
    }
  }

  lemma GetCons<V>(x: (string, V), t: seq<(string, V)>, j: string)
    ensures Get([x] + t, j) == if x.0 == j then Some(x.1) else Get(t, j)
  {
    assert ([x] + t)[1..] == t;
  }

  lemma HasKeyCons<V>(x: (string, V), t: seq<(string, V)>, j: string)
    ensures HasKey([x] + t, j) <==> x.0 == j || HasKey(t, j)
  {
    GetCons(x, t, j);
  }

  lemma HasKeyKeys<V>(m: seq<(string, V)>, k: string)
    ensures HasKey(m, k) <==> k in Keys(m)
  {
    if k in Keys(m) {
      var i :| 0 <= i < |m| && Keys(m)[i] == k;
    }
  }

  lemma HasKeySnoc<V>(m: seq<(string, V)>, x: (string, V), k: string)
    ensures HasKey(m + [x], k) <==> HasKey(m, k) || x.0 == k
  {
    var r := m + [x];
    if HasKey(m, k) {
      var i :| 0 <= i < |m| && m[i].0 == k;
      assert r[i].0 == k;
    }
    if HasKey(r, k) && x.0 != k {
      var i :| 0 <= i < |r| && r[i].0 == k;
      assert m[i].0 == k;
    }
    assert r[|m|] == x;
  }

  /** The cases of Insert, each stated about the sequence it returns. */
  lemma InsertAtHead<V>(m: OMap<V>, k: string, v: V)
    requires |m| > 0 && m[0].0 == k
    ensures forall j :: j != k ==> Get([(k, v)] + m[1..], j) == Get(m, j)
    ensures HasKey(m, k) && Get([(k, v)] + m[1..], k) == Some(v)
    ensures Increasing(m) ==> Increasing([(k, v)] + m[1..])
  {
    var r := [(k, v)] + m[1..];
    if Increasing(m) {
      forall i, j | 0 <= i < j < |r| ensures StrLt(KeyAt(r, i), KeyAt(r, j)) {
        assert r[i].0 == m[i].0 && r[j].0 == m[j].0;
        IncreasingAt(m, i, j);
      }
    }
    forall j | j != k ensures Get(r, j) == Get(m, j) {
      GetCons((k, v), m[1..], j);
      GetCons(m[0], m[1..], j);
      assert m == [m[0]] + m[1..];
    }
    GetCons((k, v), m[1..], k);
  }

  lemma InsertBefore<V>(m: OMap<V>, k: string, v: V)
    requires |m| > 0 && StrLt(k, m[0].0)
    ensures forall j :: j != k ==> Get([(k, v)] + m, j) == Get(m, j)
    ensures Get([(k, v)] + m, k) == Some(v)
    ensures Increasing(m) ==> Increasing([(k, v)] + m) && !HasKey(m, k)
  {
    var r := [(k, v)] + m;
    if Increasing(m) {
      forall i, j | 0 <= i < j < |r| ensures StrLt(KeyAt(r, i), KeyAt(r, j)) {
        if i == 0 && j > 1 {
          IncreasingAt(m, 0, j - 1);
          StrLtTransitive(k, m[0].0, m[j - 1].0);
        } else if i > 0 {
          IncreasingAt(m, i - 1, j - 1);
        }
      }
      GetHead(m, k);
    }
    forall j | j != k ensures Get(r, j) == Get(m, j) {
      GetCons((k, v), m, j);
    }
    GetCons((k, v), m, k);
  }

  lemma InsertAfterIncreasing<V>(m: OMap<V>, k: string, v: V, t: OMap<V>)
    requires |m| > 0 && StrLt(m[0].0, k) && Increasing(m) && Increasing(t)
    requires forall i :: 0 <= i < |t| ==> t[i] == (k, v) || t[i] in m[1..]
    ensures Increasing([m[0]] + t)
  {
    var r := [m[0]] + t;
    var tail := m[1..];
    forall i, j | 0 <= i < j < |r| ensures StrLt(KeyAt(r, i), KeyAt(r, j)) {
      if i == 0 {
        if t[j - 1] != (k, v) {
          var q :| 0 <= q < |tail| && tail[q] == t[j - 1];
          assert m[q + 1] == t[j - 1];
          IncreasingAt(m, 0, q + 1);
        }
      } else {
        assert r[i] == t[i - 1] && r[j] == t[j - 1];
        IncreasingAt(t, i - 1, j - 1);
      }
    }
  }

  lemma InsertAfterGet<V>(m: OMap<V>, k: string, v: V, t: OMap<V>)
    requires |m| > 0 && m[0].0 != k
    requires Get(t, k) == Some(v)
    requires forall j :: j != k ==> Get(t, j) == Get(m[1..], j)
    ensures forall j :: j != k ==> Get([m[0]] + t, j) == Get(m, j)
    ensures Get([m[0]] + t, k) == Some(v)
    ensures HasKey(m, k) <==> HasKey(m[1..], k)
  {
    var tail := m[1..];
    assert m == [m[0]] + tail;
    forall j | j != k ensures Get([m[0]] + t, j) == Get(m, j) {
      GetCons(m[0], t, j);
      GetCons(m[0], tail, j);
    }
    GetCons(m[0], t, k);
    HasKeyCons(m[0], tail, k);
  }

  lemma InsertAfterElements<V>(m: OMap<V>, k: string, v: V, t: OMap<V>)
    requires |m| > 0
    requires forall i :: 0 <= i < |t| ==> t[i] == (k, v) || t[i] in m[1..]
    ensures forall i :: 0 <= i < |t| + 1 ==> ([m[0]] + t)[i] == (k, v) || ([m[0]] + t)[i] in m
  {
    var r := [m[0]] + t;
    forall i | 0 <= i < |r| ensures r[i] == (k, v) || r[i] in m {
      if i > 0 && t[i - 1] != (k, v) {
        assert t[i - 1] in m[1..];
      }
    }
  }

  lemma IncreasingTail<V>(m: OMap<V>)
    requires Increasing(m) && |m| > 0
    ensures Increasing(m[1..])
  {
    var tail := m[1..];
    forall i, j | 0 <= i < j < |tail| ensures StrLt(KeyAt(tail, i), KeyAt(tail, j)) {
      assert tail[i] == m[i + 1] && tail[j] == m[j + 1];
      IncreasingAt(m, i + 1, j + 1);
    }
  }

  /** map[k] = v: replaces the value of the first entry for k met before a greater
      key, otherwise inserts k there. On an increasing list this is std::map's
      assignment: the order is kept and the size grows exactly when k is new. */
  function Insert<V>(m: OMap<V>, k: string, v: V): (r: OMap<V>)
    ensures Get(r, k) == Some(v)
    ensures forall j :: j != k ==> Get(r, j) == Get(m, j)
    ensures !HasKey(m, k) ==> |r| == |m| + 1
    ensures Increasing(m) ==> Increasing(r) && (HasKey(m, k) ==> |r| == |m|)
    decreases |m|, 0
  {
    if |m| == 0 then [(k, v)]
    else if m[0].0 == k then
      InsertAtHead(m, k, v);
      [(k, v)] + m[1..]
    else if StrLt(k, m[0].0) then
      InsertBefore(m, k, v);
      [(k, v)] + m
    else
      var tail := m[1..];
      var t := Insert(tail, k, v);
      InsertAfterGet(m, k, v, t);
      InsertElements(tail, k, v);
      assert Increasing(m) ==> Increasing(tail) && Increasing([m[0]] + t) by {
        if Increasing(m) {
          StrLtTotal(k, m[0].0);
          IncreasingTail(m);
          InsertAfterIncreasing(m, k, v, t);
        }
      }
      [m[0]] + t
  }

  /** Every entry of the result is the new pair or an entry of m. */
  lemma {:induction false} InsertElements<V>(m: OMap<V>, k: string, v: V)
    ensures forall i :: 0 <= i < |Insert(m, k, v)| ==> Insert(m, k, v)[i] == (k, v) || Insert(m, k, v)[i] in m
    decreases |m|, 1
  {
    if |m| > 0 && m[0].0 != k && !StrLt(k, m[0].0) {
      InsertElements(m[1..], k, v);
      InsertAfterElements(m, k, v, Insert(m[1..], k, v));
    } else if |m| > 0 && m[0].0 == k {
      var r := [(k, v)] + m[1..];
      forall i | 0 <= i < |r| ensures r[i] == (k, v) || r[i] in m {
        if i > 0 {
          assert r[i] == m[i];
        }
      }
    }
  }

  /** Inserting a key after the only entry. */
  lemma InsertAfterOne<V>(a: (string, V), k: string, v: V)
    requires a.0 != k && !StrLt(k, a.0)
    ensures Insert([a], k, v) == [a, (k, v)]
  {
    assert [a][1..] == [];
  }

  /** Inserting a key below the first entry. */
  lemma InsertFront<V>(m: OMap<V>, k: string, v: V)
    requires |m| > 0 && m[0].0 != k && StrLt(k, m[0].0)
    ensures Insert(m, k, v) == [(k, v)] + m
  {
  }

  /** Inserting a key after both entries of two. */
  lemma InsertAfterTwo<V>(a: (string, V), b: (string, V), k: string, v: V)
    requires a.0 != k && !StrLt(k, a.0) && b.0 != k && !StrLt(k, b.0)
    ensures Insert([a, b], k, v) == [a, b, (k, v)]
  {
    assert [a, b][1..] == [b];
    InsertAfterOne(b, k, v);
  }

  /** Inserting a key that falls between the two entries of two. */
  lemma InsertSecondOfTwo<V>(a: (string, V), b: (string, V), k: string, v: V)
    requires a.0 != k && !StrLt(k, a.0) && b.0 != k && StrLt(k, b.0)
    ensures Insert([a, b], k, v) == [a, (k, v), b]
  {
    assert [a, b][1..] == [b];
    assert Insert([b], k, v) == [(k, v)] + [b];
  }

  /** Inserting a key that falls between the first and second entries of three. */
  lemma InsertSecond<V>(a: (string, V), b: (string, V), c: (string, V), k: string, v: V)
    requires a.0 != k && !StrLt(k, a.0) && b.0 != k && StrLt(k, b.0)
    ensures Insert([a, b, c], k, v) == [a, (k, v), b, c]
  {
    assert [a, b, c][1..] == [b, c];
    assert Insert([b, c], k, v) == [(k, v)] + [b, c];
  }

  /** A map literal built by inserting the pairs one after another. */
  function FromPairs<V>(ps: seq<(string, V)>): OMap<V>
  {
    if |ps| == 0 then [] else Insert(FromPairs(ps[..|ps| - 1]), ps[|ps| - 1].0, ps[|ps| - 1].1)
  }
  lemma FromPairsSnoc<V>(ps: seq<(string, V)>, p: (string, V))
    ensures FromPairs(ps + [p]) == Insert(FromPairs(ps), p.0, p.1)
  {
    assert (ps + [p])[..|ps|] == ps;
  }

  /** A map built by assignments iterates in ascending key order. */
  lemma {:induction false} FromPairsIncreasing<V>(ps: seq<(string, V)>)
    ensures Increasing(FromPairs(ps))
    decreases |ps|
  {
    if |ps| > 0 {
      FromPairsIncreasing(ps[..|ps| - 1]);
    }
  }

  /** Assignments in descending key order build the reversed list. */
  lemma FromPairsDescendingTwo<V>(a: (string, V), b: (string, V))
    requires StrLt(b.0, a.0)
    ensures FromPairs([a, b]) == [b, a]
  {
    StrLtIrreflexive(a.0);
    var one := [a];
    assert [a, b][..1] == one;
    assert FromPairs(one) == one by {
      assert one[..0] == [];
    }
    assert FromPairs([a, b]) == Insert(one, b.0, b.1);
    InsertFront(one, b.0, b.1);
  }

  lemma FromPairsDescendingThree<V>(a: (string, V), b: (string, V), c: (string, V))
    requires StrLt(b.0, a.0) && StrLt(c.0, b.0)
    ensures FromPairs([a, b, c]) == [c, b, a]
  {
    StrLtIrreflexive(b.0);
    FromPairsDescendingTwo(a, b);
    FromPairsSnoc([a, b], c);
    SnocThree(a, b, c);
    InsertFront([b, a], c.0, c.1);
    assert (c.0, c.1) == c;
    ConsThree(c, b, a);
  }

  lemma FromPairsDescending<V>(a: (string, V), b: (string, V), c: (string, V), d: (string, V))
    requires StrLt(b.0, a.0) && StrLt(c.0, b.0) && StrLt(d.0, c.0)
    ensures FromPairs([a, b, c, d]) == [d, c, b, a]
  {
    StrLtIrreflexive(c.0);
    FromPairsDescendingThree(a, b, c);
    FromPairsSnoc([a, b, c], d);
    SnocFour(a, b, c, d);
    InsertFront([c, b, a], d.0, d.1);
    assert (d.0, d.1) == d;
    ConsFour(d, c, b, a);
  }

  lemma SnocThree<T>(a: T, b: T, c: T)
    ensures [a, b] + [c] == [a, b, c]
  {
  }

  lemma SnocFour<T>(a: T, b: T, c: T, d: T)
    ensures [a, b, c] + [d] == [a, b, c, d]
  {
  }

  lemma ConsThree<T>(c: T, b: T, a: T)
    ensures [c] + [b, a] == [c, b, a]
  {
  }

  lemma ConsFour<T>(d: T, c: T, b: T, a: T)
    ensures [d] + [c, b, a] == [d, c, b, a]
  {
  }

  /** Assignment passes an entry whose key is below the assigned one. */
  lemma InsertPast<V>(m: OMap<V>, k: string, v: V)
    requires |m| > 0 && StrLt(m[0].0, k)
    ensures Insert(m, k, v) == [m[0]] + Insert(m[1..], k, v)
  {
    StrLtIrreflexive(k);
    if StrLt(k, m[0].0) {
      StrLtTransitive(k, m[0].0, k);
    }
  }

  /** Assigning the key of the last of four entries, above the other three,
      replaces its value. */
  lemma InsertReplacesFourth<V>(a: (string, V), b: (string, V), c: (string, V), d: (string, V), v: V)
    requires StrLt(a.0, d.0) && StrLt(b.0, d.0) && StrLt(c.0, d.0)
    ensures Insert([a, b, c, d], d.0, v) == [a, b, c, (d.0, v)]
  {
    InsertPast([a, b, c, d], d.0, v);
    assert [a, b, c, d][1..] == [b, c, d];
    InsertPast([b, c, d], d.0, v);
    assert [b, c, d][1..] == [c, d];
    InsertPast([c, d], d.0, v);
    assert [c, d][1..] == [d];
    assert Insert([d], d.0, v) == [(d.0, v)];
    ConsFour(a, b, c, (d.0, v));
  }

  /** The last assignment to a key decides its value. */
  lemma {:induction false} FromPairsLast<V>(ps: seq<(string, V)>, i: nat, k: string, v: V)
    requires i < |ps| && ps[i] == (k, v) && forall j :: i < j < |ps| ==> ps[j].0 != k
    ensures Get(FromPairs(ps), k) == Some(v)
    decreases |ps|
  {
    var n := |ps| - 1;
    if i == n {
      FromPairsLastPair(ps, k, v);
    } else {
      var prefix := ps[..n];
      forall j | i <= j < |prefix|
        ensures prefix[j] == ps[j]
      {
      }
      FromPairsLast(prefix, i, k, v);
      FromPairsGet(ps, k);
    }
  }

  lemma FromPairsLastPair<V>(ps: seq<(string, V)>, k: string, v: V)
    requires |ps| > 0 && ps[|ps| - 1] == (k, v)
    ensures Get(FromPairs(ps), k) == Some(v)
  {
    FromPairsGet(ps, k);
  }

  /** The value of k after the pairs: the last pair's when it assigns k, otherwise
      the value before it. */
  lemma FromPairsGet<V>(ps: seq<(string, V)>, k: string)
    requires |ps| > 0
    ensures Get(FromPairs(ps), k)
         == if ps[|ps| - 1].0 == k then Some(ps[|ps| - 1].1) else Get(FromPairs(ps[..|ps| - 1]), k)
  {
    var last := ps[|ps| - 1];
    if last.0 != k {
      InsertKeeps(FromPairs(ps[..|ps| - 1]), last.0, last.1, k);
    }
  }

  lemma InsertReads<V>(m: OMap<V>, k: string, v: V)
    ensures Get(Insert(m, k, v), k) == Some(v)
  {
  }

  lemma InsertKeeps<V>(m: OMap<V>, k: string, v: V, j: string)
    requires j != k
    ensures Get(Insert(m, k, v), j) == Get(m, j)
  {
  }

  /** A key never assigned is absent. */
  lemma {:induction false} FromPairsAbsent<V>(ps: seq<(string, V)>, k: string)
    requires forall j :: 0 <= j < |ps| ==> ps[j].0 != k
    ensures Get(FromPairs(ps), k) == None
    decreases |ps|
  {
    if |ps| > 0 {
      var n := |ps| - 1;
      var prefix := ps[..n];
      FromPairsGet(ps, k);
      assert ps[n].0 != k;
      forall j | 0 <= j < |prefix|
        ensures prefix[j] == ps[j]
      {
      }
      FromPairsAbsent(prefix, k);
    }
  }
}
