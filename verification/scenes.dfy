/**
 * The `scenes` view of the session snapshot the client mirrors from the
 * host: the snapshot's entries whose item is a scene, as scene records,
 * in ascending order of their `index`.
 */
module Scenes {
  import opened Common

  /**
   * One host item. Only items whose `kind` (the JSON field `type`) is
   * "scene" are interpreted; for those `name`, `current` and `index` are read.
   */
  datatype Item = Item(kind: string, name: string, current: bool, index: int)

  /** One `[key, item]` pair of the snapshot. */
  datatype Entry = Entry(key: string, item: Item)

  /** The session snapshot, in the order `Object.entries` lists it. */
  type Snapshot = seq<Entry>

  /** A scene as the view presents it. */
  datatype Scene = Scene(id: string, name: string, current: bool, index: int)

  predicate IsScene(e: Entry) {
    e.item.kind == "scene"
  }

  /** The `map` step: the key becomes the id, the other fields are copied. */
  function ToScene(e: Entry): Scene {
    Scene(e.key, e.item.name, e.item.current, e.item.index)
  }

  /** How many entries of a snapshot are scenes. */
  function SceneCount(items: Snapshot): nat {
    if items == [] then 0 else (if IsScene(items[0]) then 1 else 0) + SceneCount(items[1..])
  }

  /** The `filter` and `map` steps, in entry order. */
  function SceneEntries(items: Snapshot): (r: seq<Scene>)
    ensures |r| == SceneCount(items) <= |items|
    ensures forall sc :: sc in r <==> exists e :: e in items && IsScene(e) && ToScene(e) == sc
  {
    if items == [] then []
    else
      var rest := SceneEntries(items[1..]);
      assert forall e :: e in items <==> e == items[0] || e in items[1..];
      (if IsScene(items[0]) then [ToScene(items[0])] else []) + rest
  }

  /**
   * The filter and map keep entry order: the records of a concatenation are
   * those of its first part followed by those of its second part.
   */
  lemma {:induction false} SceneEntriesAppend(a: Snapshot, b: Snapshot)
    ensures SceneEntries(a + b) == SceneEntries(a) + SceneEntries(b)
  {
    if a == [] {
      assert a + b == b;
    } else {
      var head := if IsScene(a[0]) then [ToScene(a[0])] else [];
      assert (a + b)[0] == a[0] && (a + b)[1..] == a[1..] + b;
      assert SceneEntries(a + b) == head + SceneEntries(a[1..] + b);
      SceneEntriesAppend(a[1..], b);
      assert SceneEntries(a) == head + SceneEntries(a[1..]);
    }
  }

  /** A single entry yields one record when it is a scene and none otherwise. */
  lemma SceneEntriesOfOne(e: Entry)
    ensures SceneEntries([e]) == if IsScene(e) then [ToScene(e)] else []
  {
    assert [e][1..] == [];
  }

  predicate SortedByIndex(xs: seq<Scene>) {
    forall i, j :: 0 <= i < j < |xs| ==> xs[i].index <= xs[j].index
  }

  /**
   * Inserts `x` into a sorted sequence just before the first element whose
   * index is not smaller than its own, so `x` precedes the elements of equal
   * index that came after it in the input: the sort below is stable, as
   * `Array.prototype.sort` is.
   */
  function Insert(x: Scene, xs: seq<Scene>): (r: seq<Scene>)
    requires SortedByIndex(xs)
    ensures SortedByIndex(r)
    ensures multiset(r) == multiset(xs) + multiset{x}
    ensures |r| == |xs| + 1
    ensures r[0] == if xs == [] || x.index <= xs[0].index then x else xs[0]
  {
    if xs == [] || x.index <= xs[0].index then [x] + xs
    else
      assert xs == [xs[0]] + xs[1..];
      [xs[0]] + Insert(x, xs[1..])
  }

  /** How many leading elements of `xs` have an index smaller than that of `x`. */
  function InsertionPoint(x: Scene, xs: seq<Scene>): (k: nat)
    ensures k <= |xs|
  {
    if xs == [] || x.index <= xs[0].index then 0 else 1 + InsertionPoint(x, xs[1..])
  }

  /**
   * The insertion point separates the elements of smaller index from the
   * first one whose index is not smaller.
   */
  lemma {:induction false} InsertionPointBounds(x: Scene, xs: seq<Scene>)
    ensures forall j :: 0 <= j < InsertionPoint(x, xs) ==> xs[j].index < x.index
    ensures InsertionPoint(x, xs) < |xs| ==> x.index <= xs[InsertionPoint(x, xs)].index
  {
    if xs != [] && xs[0].index < x.index {
      InsertionPointBounds(x, xs[1..]);
      BelowAfterHead(xs, InsertionPoint(x, xs[1..]), x.index);
    }
  }

  /** `Insert` puts `x` exactly at its insertion point and keeps every other element in order. */
  lemma {:induction false} InsertPosition(x: Scene, xs: seq<Scene>)
    requires SortedByIndex(xs)
    ensures Insert(x, xs) == xs[..InsertionPoint(x, xs)] + [x] + xs[InsertionPoint(x, xs)..]
  {
    if xs == [] || x.index <= xs[0].index {
      assert xs[..0] == [] && xs[0..] == xs;
    } else {
      var tail := xs[1..];
      var k := InsertionPoint(x, tail);
      assert Insert(x, xs) == [xs[0]] + Insert(x, tail);
      InsertPosition(x, tail);
      SplitAfterHead(xs, k);
      ConsRegroup(xs[0], tail[..k], x, tail[k..]);
    }
  }

  lemma SplitAfterHead(xs: seq<Scene>, k: nat)
    requires k < |xs|
    ensures xs[..k + 1] == [xs[0]] + xs[1..][..k] && xs[k + 1..] == xs[1..][k..]
  {
  }

  lemma BelowAfterHead(xs: seq<Scene>, k: nat, v: int)
    requires k < |xs| && xs[0].index < v
    requires forall j :: 0 <= j < k ==> xs[1..][j].index < v
    ensures forall j :: 0 <= j < k + 1 ==> xs[j].index < v
  {
    forall j | 0 < j < k + 1 ensures xs[j].index < v {
      assert xs[j] == xs[1..][j - 1];
    }
  }

  lemma ConsRegroup(h: Scene, p: seq<Scene>, x: Scene, q: seq<Scene>)
    ensures [h] + (p + [x] + q) == ([h] + p) + [x] + q
  {
  }

  /** The scenes of `xs` whose index is `v`, in their order in `xs`. */
  function WithIndex(xs: seq<Scene>, v: int): seq<Scene> {
    if xs == [] then [] else (if xs[0].index == v then [xs[0]] else []) + WithIndex(xs[1..], v)
  }

  lemma {:induction false} WithIndexAppend(a: seq<Scene>, b: seq<Scene>, v: int)
    ensures WithIndex(a + b, v) == WithIndex(a, v) + WithIndex(b, v)
  {
    if a == [] {
      assert a + b == b;
    } else {
      assert (a + b)[1..] == a[1..] + b;
      WithIndexAppend(a[1..], b, v);
    }
  }

  lemma {:induction false} WithIndexNone(xs: seq<Scene>, v: int)
    requires forall i :: 0 <= i < |xs| ==> xs[i].index != v
    ensures WithIndex(xs, v) == []
  {
    if xs != [] {
      assert forall i :: 0 <= i < |xs[1..]| ==> xs[1..][i] == xs[i + 1];
      WithIndexNone(xs[1..], v);
    }
  }

  /**
   * Among the elements of one index, `x` lands in front of those of `xs`,
   * which keep their order.
   */
  lemma InsertIsStable(x: Scene, xs: seq<Scene>, v: int)
    requires SortedByIndex(xs)
    ensures WithIndex(Insert(x, xs), v) == (if x.index == v then [x] else []) + WithIndex(xs, v)
  {
    InsertPosition(x, xs);
    InsertionPointBounds(x, xs);
    var k := InsertionPoint(x, xs);
    assert xs == xs[..k] + xs[k..];
    WithIndexAround(xs[..k], x, xs[k..], v);
  }

  /** Placing `x` after elements of smaller index only adds `x` to the elements of its own index. */
  lemma WithIndexAround(pre: seq<Scene>, x: Scene, post: seq<Scene>, v: int)
    requires forall j :: 0 <= j < |pre| ==> pre[j].index < x.index
    ensures WithIndex(pre + [x] + post, v) == (if x.index == v then [x] else []) + WithIndex(pre + post, v)
  {
    WithIndexAppend(pre + [x], post, v);
    WithIndexAppend(pre, [x], v);
    WithIndexAppend(pre, post, v);
    assert [x][1..] == [];
    if x.index == v {
      WithIndexNone(pre, v);
    }
  }

  /** Insertion sort by ascending `index`, the comparator `a.index - b.index`. */
  function SortByIndex(xs: seq<Scene>): (r: seq<Scene>)
    ensures SortedByIndex(r)
    ensures multiset(r) == multiset(xs)
  {
    if xs == [] then []
    else
      assert xs == [xs[0]] + xs[1..];
      Insert(xs[0], SortByIndex(xs[1..]))
  }

  /**
   * The sort is stable: for every index, the elements with that index keep
   * the order they had in the input.
   */
  lemma {:induction false} SortIsStable(xs: seq<Scene>, v: int)
    ensures WithIndex(SortByIndex(xs), v) == WithIndex(xs, v)
  {
    if xs != [] {
      SortIsStable(xs[1..], v);
      InsertIsStable(xs[0], SortByIndex(xs[1..]), v);
    }
  }

  /** In the view, scenes of equal index appear in snapshot order. */
  lemma ViewIsStable(items: Snapshot, v: int)
    ensures WithIndex(SceneView(items), v) == WithIndex(SceneEntries(items), v)
  {
    SortIsStable(SceneEntries(items), v);
  }

  /**
   * The `scenes` getter: exactly the scene entries, each with its key as id,
   * sorted by index, each entry appearing as often as it does in the snapshot.
   */
  function SceneView(items: Snapshot): (r: seq<Scene>)
    ensures SortedByIndex(r)
    ensures multiset(r) == multiset(SceneEntries(items))
    ensures forall sc :: sc in r <==> exists e :: e in items && IsScene(e) && ToScene(e) == sc
  {
    var entries := SceneEntries(items);
    var r := SortByIndex(entries);
    assert forall sc :: sc in r <==> sc in multiset(r);
    assert forall sc :: sc in entries <==> sc in multiset(entries);
    r
  }

  /**
   * `Array.prototype.find`: the first element satisfying `p`, or None when
   * there is none.
   */
  function Find(xs: seq<Scene>, p: Scene -> bool): (r: Option<Scene>)
    ensures r.None? <==> forall i :: 0 <= i < |xs| ==> !p(xs[i])
    ensures r.Some? ==> exists i :: 0 <= i < |xs| && xs[i] == r.value && p(xs[i]) && FirstFrom(xs, p, i)
  {
    if xs == [] then None
    else if p(xs[0]) then
      assert FirstFrom(xs, p, 0);
      Some(xs[0])
    else
      var r := Find(xs[1..], p);
      if r.None? then None
      else
        var i :| 0 <= i < |xs[1..]| && xs[1..][i] == r.value && p(xs[1..][i]) && FirstFrom(xs[1..], p, i);
        assert FirstFrom(xs, p, i + 1);
        r
  }

  /** The predicate `s => s.current` the client searches the view with. */
  predicate IsCurrent(sc: Scene) {
    sc.current
  }

  /** No element before position `i` satisfies `p`. */
  predicate FirstFrom(xs: seq<Scene>, p: Scene -> bool, i: int)
    requires 0 <= i <= |xs|
  {
    forall j :: 0 <= j < i ==> !p(xs[j])
  }

  /** How many scenes of a sequence are marked current. */
  function CountCurrent(xs: seq<Scene>): nat {
    if xs == [] then 0 else (if xs[0].current then 1 else 0) + CountCurrent(xs[1..])
  }

  /** How many scene items of a snapshot are marked current. */
  function CurrentSceneItems(items: Snapshot): nat {
    if items == [] then 0
    else (if IsScene(items[0]) && items[0].item.current then 1 else 0) + CurrentSceneItems(items[1..])
  }

  lemma {:induction false} CountCurrentInsert(x: Scene, xs: seq<Scene>)
    requires SortedByIndex(xs)
    ensures CountCurrent(Insert(x, xs)) == CountCurrent(xs) + (if x.current then 1 else 0)
  {
    if xs == [] || x.index <= xs[0].index {
      assert ([x] + xs)[1..] == xs;
    } else {
      CountCurrentInsert(x, xs[1..]);
      assert ([xs[0]] + Insert(x, xs[1..]))[1..] == Insert(x, xs[1..]);
    }
  }

  lemma {:induction false} CountCurrentSort(xs: seq<Scene>)
    ensures CountCurrent(SortByIndex(xs)) == CountCurrent(xs)
  {
    if xs != [] {
      CountCurrentSort(xs[1..]);
      CountCurrentInsert(xs[0], SortByIndex(xs[1..]));
    }
  }

  lemma {:induction false} CountCurrentEntries(items: Snapshot)
    ensures CountCurrent(SceneEntries(items)) == CurrentSceneItems(items)
  {
    if items != [] {
      CountCurrentEntries(items[1..]);
      var head := if IsScene(items[0]) then [ToScene(items[0])] else [];
      var rest := SceneEntries(items[1..]);
      if IsScene(items[0]) {
        assert (head + rest)[1..] == rest;
      } else {
        assert head + rest == rest;
      }
    }
  }

  /**
   * The view only copies `current` flags: it holds as many current scenes
   * as the snapshot holds current scene items.
   */
  lemma ViewKeepsCurrentCount(items: Snapshot)
    ensures CountCurrent(SceneView(items)) == CurrentSceneItems(items)
  {
    CountCurrentEntries(items);
    CountCurrentSort(SceneEntries(items));
  }

  lemma {:induction false} AtMostOneCurrentAt(xs: seq<Scene>)
    requires CountCurrent(xs) <= 1
    ensures forall i, j :: 0 <= i < j < |xs| ==> !(xs[i].current && xs[j].current)
  {
    if xs != [] {
      AtMostOneCurrentAt(xs[1..]);
      if xs[0].current {
        assert CountCurrent(xs[1..]) == 0;
        NoCurrent(xs[1..]);
      }
      forall i, j | 0 <= i < j < |xs| ensures !(xs[i].current && xs[j].current) {
        if i > 0 {
          assert xs[i] == xs[1..][i - 1] && xs[j] == xs[1..][j - 1];
        } else {
          assert xs[j] == xs[1..][j - 1];
        }
      }
    }
  }

  lemma {:induction false} NoCurrent(xs: seq<Scene>)
    requires CountCurrent(xs) == 0
    ensures forall i :: 0 <= i < |xs| ==> !xs[i].current
  {
    if xs != [] {
      NoCurrent(xs[1..]);
      assert forall i :: 0 < i < |xs| ==> xs[i] == xs[1..][i - 1];
    }
  }

  /**
   * If at most one scene item of the snapshot is current, at most one
   * element of the view is current.
   */
  lemma ViewAtMostOneCurrent(items: Snapshot)
    requires CurrentSceneItems(items) <= 1
    ensures forall i, j :: 0 <= i < j < |SceneView(items)| ==>
              !(SceneView(items)[i].current && SceneView(items)[j].current)
  {
    ViewKeepsCurrentCount(items);
    AtMostOneCurrentAt(SceneView(items));
  }

  /** The first current scene of the view comes from a current scene item with its id as key. */
  lemma FirstCurrentHasItem(items: Snapshot)
    requires Find(SceneView(items), IsCurrent).Some?
    ensures exists e :: e in items && IsScene(e) && e.item.current &&
                        e.key == Find(SceneView(items), IsCurrent).value.id
  {
    var view := SceneView(items);
    var f := Find(view, IsCurrent).value;
    var i :| 0 <= i < |view| && view[i] == f && IsCurrent(view[i]) && FirstFrom(view, IsCurrent, i);
    assert f in view;
    var e :| e in items && IsScene(e) && ToScene(e) == f;
    assert e.item.current && e.key == f.id;
  }

  /** With at most one current scene item, that item is the first current scene of the view. */
  lemma CurrentItemIsFirstCurrent(items: Snapshot, e: Entry)
    requires CurrentSceneItems(items) <= 1
    requires e in items && IsScene(e) && e.item.current
    ensures Find(SceneView(items), IsCurrent) == Some(ToScene(e))
  {
    var view := SceneView(items);
    assert ToScene(e) in view;
    var k :| 0 <= k < |view| && view[k] == ToScene(e);
    assert IsCurrent(view[k]);
    var f := Find(view, IsCurrent);
    var i :| 0 <= i < |view| && view[i] == f.value && IsCurrent(view[i]) && FirstFrom(view, IsCurrent, i);
    ViewAtMostOneCurrent(items);
  }

  /**
   * When at most one scene item is current, the first current scene of the
   * view has id `id` exactly when the current scene item has key `id`.
   */
  lemma FirstCurrentIsTheCurrentItem(items: Snapshot, id: string)
    requires CurrentSceneItems(items) <= 1
    ensures (Find(SceneView(items), IsCurrent).Some? && Find(SceneView(items), IsCurrent).value.id == id) <==>
              exists e :: e in items && IsScene(e) && e.item.current && e.key == id
  {
    if Find(SceneView(items), IsCurrent).Some? {
      FirstCurrentHasItem(items);
    }
    if exists e :: e in items && IsScene(e) && e.item.current && e.key == id {
      var e :| e in items && IsScene(e) && e.item.current && e.key == id;
      CurrentItemIsFirstCurrent(items, e);
    }
  }
}
