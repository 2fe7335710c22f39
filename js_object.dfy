/** A JavaScript object with string keys, seen as its list of own
    properties in insertion order. Assigning a new key appends it; assigning
    an existing key replaces the value in place. */
module JsObject {
  import opened Results

  datatype Entry<V> = Entry(key: string, value: V)

  type Obj<V> = seq<Entry<V>>

  function Keys<V>(o: Obj<V>): (ks: seq<string>)
    ensures |ks| == |o|
    ensures forall i :: 0 <= i < |o| ==> ks[i] == o[i].key
  {
    seq(|o|, i requires 0 <= i < |o| => o[i].key)
  }

  function Values<V>(o: Obj<V>): (vs: seq<V>)
    ensures |vs| == |o|
    ensures forall i :: 0 <= i < |o| ==> vs[i] == o[i].value
  {
    seq(|o|, i requires 0 <= i < |o| => o[i].value)
  }

  predicate UniqueKeys<V>(o: Obj<V>)
  {
    forall i, j :: 0 <= i < j < |o| ==> o[i].key != o[j].key
  }

  /** `o[k]`: the value of the first property named k, `None` for undefined. */
  function Get<V(==)>(o: Obj<V>, k: string): (r: Option<V>)
    ensures r.Some? <==> k in Keys(o)
    ensures r.Some? ==> exists i :: 0 <= i < |o| && o[i] == Entry(k, r.value)
  {
    if o == [] then None
    else if o[0].key == k then Some(o[0].value)
    else
      assert Keys(o) == [o[0].key] + Keys(o[1..]);
      var r := Get(o[1..], k);
      if r.Some? then
        var i :| 0 <= i < |o[1..]| && o[1..][i] == Entry(k, r.value);
        assert o[i + 1] == Entry(k, r.value);
        r
      else r
  }

  lemma KeysCons<V>(e: Entry<V>, o: Obj<V>)
    ensures Keys([e] + o) == [e.key] + Keys(o)
  {
  }

  lemma KeysTail<V>(o: Obj<V>)
    requires |o| > 0
    ensures Keys(o) == [o[0].key] + Keys(o[1..])
  {
    assert o == [o[0]] + o[1..];
    KeysCons(o[0], o[1..]);
  }

  /** `o[k] = v`. */
  function Put<V>(o: Obj<V>, k: string, v: V): (r: Obj<V>)
    ensures Keys(r) == if k in Keys(o) then Keys(o) else Keys(o) + [k]
  {
    if o == [] then [Entry(k, v)]
    else
      KeysTail(o);
      if o[0].key == k then
        KeysCons(Entry(k, v), o[1..]);
        [Entry(k, v)] + o[1..]
      else
        var rest := Put(o[1..], k, v);
        KeysCons(o[0], rest);
        [o[0]] + rest
  }

  lemma {:induction false} PutGet<V>(o: Obj<V>, k: string, v: V, k': string)
    ensures Get(Put(o, k, v), k') == if k' == k then Some(v) else Get(o, k')
  {
    if o != [] && o[0].key != k {
      PutGet(o[1..], k, v, k');
      assert Put(o, k, v)[1..] == Put(o[1..], k, v);
    }
  }

  /** Assigning a key the object does not have appends it. */
  lemma {:induction false} PutAppends<V>(o: Obj<V>, k: string, v: V)
    requires k !in Keys(o)
    ensures Put(o, k, v) == o + [Entry(k, v)]
  {
    if o != [] {
      assert Keys(o) == [o[0].key] + Keys(o[1..]);
      PutAppends(o[1..], k, v);
      assert o == [o[0]] + o[1..];
    }
  }

  lemma PutCons<V>(o: Obj<V>, k: string, v: V)
    requires |o| > 0 && o[0].key != k
    ensures Put(o, k, v) == [o[0]] + Put(o[1..], k, v)
  {
  }

  lemma UniqueTail<V>(o: Obj<V>)
    requires |o| > 0 && UniqueKeys(o)
    ensures UniqueKeys(o[1..])
  {
    var t := o[1..];
    forall a, b | 0 <= a < b < |t| ensures t[a].key != t[b].key {
      assert t[a] == o[a + 1] && t[b] == o[b + 1];
    }
  }

  lemma UpdateCons<V>(o: Obj<V>, i: nat, e: Entry<V>)
    requires 0 < i < |o|
    ensures o[i := e] == [o[0]] + o[1..][i - 1 := e]
  {
  }

  /** Building an object from the first i properties of `src`, in order, the
      next key of `src` is new, so assigning it appends. */
  lemma PutNext<V, W>(o: Obj<V>, src: Obj<W>, i: nat, v: V)
    requires UniqueKeys(src) && i < |src| && |o| == i
    requires forall k :: 0 <= k < i ==> o[k].key == src[k].key
    ensures Put(o, src[i].key, v) == o + [Entry(src[i].key, v)]
  {
    assert src[i].key !in Keys(o) by {
      forall k | 0 <= k < i ensures Keys(o)[k] != src[i].key {
        assert src[k].key != src[i].key;
      }
    }
    PutAppends(o, src[i].key, v);
  }

  /** `o[src[i].key] = v` while copying the properties of `src` in order. */
  method AssignNext<V, W>(o: Obj<V>, src: Obj<W>, i: nat, v: V) returns (r: Obj<V>)
    requires UniqueKeys(src) && i < |src| && |o| == i
    requires forall k :: 0 <= k < i ==> o[k].key == src[k].key
    ensures r == o + [Entry(src[i].key, v)]
  {
    PutNext(o, src, i, v);
    r := Put(o, src[i].key, v);
  }

  /** Replacing a property's value in place keeps the keys and their order. */
  lemma ReplaceKeepsKeys<V>(o: Obj<V>, i: nat, v: V)
    requires i < |o|
    ensures Keys(o[i := Entry(o[i].key, v)]) == Keys(o)
    ensures UniqueKeys(o) ==> UniqueKeys(o[i := Entry(o[i].key, v)])
  {
    var o' := o[i := Entry(o[i].key, v)];
    assert forall k :: 0 <= k < |o| ==> o'[k].key == o[k].key;
  }

  /** Assigning a key the object has replaces its value in place. */
  lemma {:induction false} PutReplaces<V>(o: Obj<V>, i: nat, v: V)
    requires UniqueKeys(o) && i < |o|
    ensures Put(o, o[i].key, v) == o[i := Entry(o[i].key, v)]
  {
    if i > 0 {
      var t, k := o[1..], o[i].key;
      UniqueTail(o);
      assert t[i - 1] == o[i] && o[0].key != k;
      PutReplaces(t, i - 1, v);
      PutCons(o, k, v);
      UpdateCons(o, i, Entry(k, v));
    }
  }

  /** Every property after `o[k] = v` is the new one or was already there. */
  lemma {:induction false} PutEntries<V>(o: Obj<V>, k: string, v: V)
    ensures forall e :: e in Put(o, k, v) ==> e == Entry(k, v) || e in o
  {
    if o != [] && o[0].key != k {
      PutEntries(o[1..], k, v);
      assert Put(o, k, v) == [o[0]] + Put(o[1..], k, v);
    }
  }

  lemma PutUnique<V>(o: Obj<V>, k: string, v: V)
    requires UniqueKeys(o)
    ensures UniqueKeys(Put(o, k, v))
  {
    var r := Put(o, k, v);
    forall i, j | 0 <= i < j < |r| ensures r[i].key != r[j].key {
      assert Keys(r)[i] == r[i].key && Keys(r)[j] == r[j].key;
      if k !in Keys(o) && j == |o| {
        assert Keys(r)[i] == Keys(o)[i];
      } else {
        assert Keys(r)[i] == Keys(o)[i] && Keys(r)[j] == Keys(o)[j];
      }
    }
  }

  /** The keys of `s` in order of first occurrence: the keys an object has
      after its properties are assigned in the order of `s`. */
  function Dedup(s: seq<string>): (d: seq<string>)
    ensures forall k :: k in d <==> k in s
    ensures forall i, j :: 0 <= i < j < |d| ==> d[i] != d[j]
    ensures |d| <= |s|
  {
    if s == [] then []
    else
      var init := Dedup(s[..|s| - 1]);
      assert s == s[..|s| - 1] + [s[|s| - 1]];
      if s[|s| - 1] in init then init else init + [s[|s| - 1]]
  }

  /** Dropping the last element of a repetition-free sequence leaves one
      without repetitions that does not contain that element. */
  lemma DistinctInit(s: seq<string>, init: seq<string>)
    requires s != [] && init == s[..|s| - 1]
    requires forall i, j :: 0 <= i < j < |s| ==> s[i] != s[j]
    ensures forall i, j :: 0 <= i < j < |init| ==> init[i] != init[j]
    ensures s[|s| - 1] !in init
  {
    forall i | 0 <= i < |init| ensures init[i] != s[|s| - 1] {
      assert init[i] == s[i];
    }
  }

  /** Appending a new name to a sequence that deduplication leaves alone. */
  lemma DedupSnoc(init: seq<string>, last: string)
    requires last !in init && Dedup(init) == init
    ensures Dedup(init + [last]) == init + [last]
  {
    assert (init + [last])[..|init|] == init;
  }

  lemma DedupOfDistinct(s: seq<string>)
    requires forall i, j :: 0 <= i < j < |s| ==> s[i] != s[j]
    ensures Dedup(s) == s
  {
    if s != [] {
      var init, last := s[..|s| - 1], s[|s| - 1];
      DistinctInit(s, init);
      DedupOfDistinct(init);
      assert s == init + [last];
      DedupSnoc(init, last);
    }
  }

}
