/**
 * The small part of JavaScript object semantics the opcode tables rely on.
 * An object literal with string keys and number values is an association
 * list in key insertion order, the order `Object.keys` reports.
 */
module JsObjects {
  import opened Wrappers

  type Entry = (string, int)
  type Object = seq<Entry>

  /** An object never has two properties of the same name. */
  ghost predicate DistinctKeys(o: Object) {
    forall i, j :: 0 <= i < j < |o| ==> o[i].0 != o[j].0
  }

  /** No two properties hold the same value. */
  ghost predicate DistinctValues(o: Object) {
    forall i, j :: 0 <= i < j < |o| ==> o[i].1 != o[j].1
  }

  /** The position of property `k`, searching from `from`; |o| when there is none. */
  function IndexOfKey(o: Object, k: string, from: nat := 0): (i: nat)
    requires from <= |o|
    ensures from <= i <= |o|
    ensures i < |o| ==> o[i].0 == k
    ensures forall j :: from <= j < i ==> o[j].0 != k
    decreases |o| - from
  {
    if from == |o| then |o| else if o[from].0 == k then from else IndexOfKey(o, k, from + 1)
  }

  /** The position of the first property whose value is `v`; |o| when there is none. */
  function IndexOfValue(o: Object, v: int, from: nat := 0): (i: nat)
    requires from <= |o|
    ensures from <= i <= |o|
    ensures i < |o| ==> o[i].1 == v
    ensures forall j :: from <= j < i ==> o[j].1 != v
    decreases |o| - from
  {
    if from == |o| then |o| else if o[from].1 == v then from else IndexOfValue(o, v, from + 1)
  }

  predicate HasKey(o: Object, k: string) {
    IndexOfKey(o, k) < |o|
  }

  /** `o[k]`, None for a missing property. */
  function Get(o: Object, k: string): (r: Option<int>)
    ensures r.None? <==> !HasKey(o, k)
  {
    var i := IndexOfKey(o, k);
    if i < |o| then Some(o[i].1) else None
  }

  /**
   * The assignment `o[k] = v`: an existing property keeps its place and takes
   * the new value; a new property goes last.
   */
  function Assign(o: Object, k: string, v: int): (r: Object)
    ensures HasKey(o, k) ==> |r| == |o|
    ensures !HasKey(o, k) ==> |r| == |o| + 1
  {
    var i := IndexOfKey(o, k);
    if i < |o| then o[i := (k, v)] else o + [(k, v)]
  }

  /** `{...o, ...src}`: each property of `src`, from position `from` on, assigned to `o` in order. */
  function Spread(o: Object, src: Object, from: nat := 0): Object
    requires from <= |src|
    decreases |src| - from
  {
    if from == |src| then o else Spread(Assign(o, src[from].0, src[from].1), src, from + 1)
  }

  /** `Object.keys(o).find(key => o[key] === v)`, None for `undefined`. */
  function FindKey(o: Object, v: int): Option<string> {
    var i := IndexOfValue(o, v);
    if i < |o| then Some(o[i].0) else None
  }

  /** After `o[k] = v`, reading `k` gives `v` and every other property is as before. */
  lemma AssignGet(o: Object, k: string, v: int, k': string)
    requires DistinctKeys(o)
    ensures Get(Assign(o, k, v), k') == if k' == k then Some(v) else Get(o, k')
  {
    var i := IndexOfKey(o, k);
    var r := Assign(o, k, v);
    var i' := IndexOfKey(r, k');
    if k' == k {
      assert r[i].0 == k;
    } else if i < |o| {
      assert forall j :: 0 <= j < |o| && j != i ==> r[j] == o[j];
      if i' < |o| {
        assert r[i'] == o[i'];
      }
    } else {
      var p := IndexOfKey(o, k');
      assert p < |o| ==> r[p] == o[p];
      assert forall j :: 0 <= j < |o| ==> r[j] == o[j];
    }
  }

  /** A key found in `a` is found at the same place in `a + b`. */
  lemma IndexOfKeyAppend(a: Object, b: Object, k: string)
    requires IndexOfKey(a, k) < |a|
    ensures IndexOfKey(a + b, k) == IndexOfKey(a, k)
  {
    var i := IndexOfKey(a, k);
    assert (a + b)[i] == a[i];
    assert forall j :: 0 <= j < i ==> (a + b)[j] == a[j];
  }

  /**
   * Spreading properties whose names are all new appends them in order:
   * `Spread(o, src, from)` is `o + src[from..to]` followed by the rest of the spread.
   */
  lemma {:induction false} SpreadFresh(o: Object, src: Object, from: nat, to: nat)
    requires from <= to <= |src|
    requires DistinctKeys(o + src[from..to])
    ensures Spread(o, src, from) == Spread(o + src[from..to], src, to)
    decreases (to as int) - (from as int)
  {
    if from < to {
      var e := src[from];
      var whole := o + src[from..to];
      assert whole[|o|] == e;
      assert forall j :: 0 <= j < |o| ==> o[j].0 == whole[j].0 != e.0;
      assert Assign(o, e.0, e.1) == o + [e];
      var o' := o + [e];
      assert o' + src[from + 1..to] == whole;
      SpreadFresh(o', src, from + 1, to);
    } else {
      assert src[from..to] == [];
      assert o + src[from..to] == o;
    }
  }

  /** An object whose keys match, position by position, a prefix of a duplicate-free object has no duplicate keys. */
  lemma DistinctKeysByPrefix(a: Object, b: Object)
    requires DistinctKeys(b) && |a| <= |b|
    requires forall i :: 0 <= i < |a| ==> a[i].0 == b[i].0
    ensures DistinctKeys(a)
  {
  }

  /** Spreading an object none of whose keys `o` already has appends it. */
  lemma SpreadAllFresh(o: Object, src: Object)
    requires DistinctKeys(o + src)
    ensures Spread(o, src) == o + src
  {
    assert src[0..|src|] == src;
    SpreadFresh(o, src, 0, |src|);
  }

  /**
   * What `find` returns: None exactly when no property holds `v`; otherwise
   * the key of the first property that does.
   */
  lemma FindKeySpec(o: Object, v: int)
    ensures FindKey(o, v).None? <==> forall i :: 0 <= i < |o| ==> o[i].1 != v
    ensures FindKey(o, v).Some? ==>
              exists i :: (0 <= i < |o| && o[i] == (FindKey(o, v).value, v)
                          && forall j :: 0 <= j < i ==> o[j].1 != v)
  {
    var i := IndexOfValue(o, v);
    if i < |o| {
      assert o[i] == (FindKey(o, v).value, v);
    }
  }

  /** With distinct keys, the key `find` returns holds the value searched for. */
  lemma FindKeyGet(o: Object, v: int)
    requires DistinctKeys(o)
    ensures FindKey(o, v).Some? ==> Get(o, FindKey(o, v).value) == Some(v)
  {
    var i := IndexOfValue(o, v);
    if i < |o| {
      var p := IndexOfKey(o, o[i].0);
      assert o[p].0 == o[i].0;
    }
  }

  /** With pairwise distinct values, looking up a property's value gives back its key. */
  lemma FindKeyRoundTrip(o: Object, k: string)
    requires DistinctValues(o) && HasKey(o, k)
    ensures FindKey(o, Get(o, k).value) == Some(k)
  {
    var i := IndexOfKey(o, k);
    var v := o[i].1;
  }

  /**
   * Two objects with distinct values that hold the same properties of value `v`
   * give the same answer to `find`, whatever their order.
   */
  lemma FindKeySameEntries(a: Object, b: Object, v: int)
    requires DistinctValues(a) && DistinctValues(b)
    requires forall i :: 0 <= i < |a| && a[i].1 == v ==> exists j :: 0 <= j < |b| && b[j] == a[i]
    requires forall j :: 0 <= j < |b| && b[j].1 == v ==> exists i :: 0 <= i < |a| && a[i] == b[j]
    ensures FindKey(a, v) == FindKey(b, v)
  {
    var i := IndexOfValue(a, v);
    var j := IndexOfValue(b, v);
    if i < |a| {
      assert a[i].1 == v;
      var j' :| 0 <= j' < |b| && b[j'] == a[i];
      SameValueSameIndex(b, j, j');
    } else {
      assert forall k :: 0 <= k < |a| ==> a[k].1 != v;
    }
  }

  lemma SameValueSameIndex(o: Object, i: nat, j: nat)
    requires DistinctValues(o) && i < |o| && j < |o| && o[i].1 == o[j].1
    ensures i == j
  {
  }

  /** With distinct values, `find` for the value of the property at `i` returns that property's key. */
  lemma FindKeyAt(o: Object, i: nat)
    requires DistinctValues(o) && i < |o|
    ensures FindKey(o, o[i].1) == Some(o[i].0)
  {
    var p := IndexOfValue(o, o[i].1);
    assert p <= i && o[p].1 == o[i].1;
  }
}
