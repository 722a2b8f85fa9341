/**
 * The pin list: an ordered list of action ids shown for quick access,
 * loaded from the browser's key-value storage and written back to it after
 * every change.
 */
module Deck {
  import opened Common

  /** The pins a first run starts with: the two reserved control ids. */
  const DefaultPins: seq<string> := [ControlStream, ControlRecord]

  /** How many scene ids `setDefaults` pins. */
  const DefaultSceneCount: nat := 4

  /**
   * `load`: the stored list when it decodes, `[]` when it does not, and the
   * two control ids when nothing is stored.
   */
  function LoadPins(stored: Stored<seq<string>>): (pins: seq<string>)
    ensures stored.Parsed? ==> pins == stored.value
    ensures stored.Unparsable? ==> pins == []
    ensures stored.Missing? ==> pins == [ControlStream, ControlRecord]
  {
    match stored
    case Parsed(ids) => ids
    case Unparsable => []
    case Missing => DefaultPins
  }

  /** `Array.prototype.indexOf`: the position of the first occurrence of `x`, or -1. */
  function IndexOf(xs: seq<string>, x: string): (r: int)
    ensures -1 <= r < |xs|
    ensures r == -1 <==> x !in xs
    ensures r != -1 ==> xs[r] == x && x !in xs[..r]
  {
    if xs == [] then -1
    else if xs[0] == x then 0
    else
      var r := IndexOf(xs[1..], x);
      assert xs[1..] == xs[..|xs|][1..];
      if r == -1 then -1
      else
        assert xs[..r + 1] == [xs[0]] + xs[1..][..r];
        r + 1
  }

  /** `Array.prototype.includes`: whether some element equals `x`. */
  function Includes(xs: seq<string>, x: string): (r: bool)
    ensures r <==> exists i :: 0 <= i < |xs| && xs[i] == x
  {
    if xs == [] then false
    else if xs[0] == x then true
    else
      var r := Includes(xs[1..], x);
      assert forall i :: 1 <= i < |xs| ==> xs[i] == xs[1..][i - 1];
      r
  }

  /** The list `togglePin(id)` leaves: `id` appended when absent, its first occurrence spliced out when present. */
  function Toggled(xs: seq<string>, id: string): seq<string> {
    var index := IndexOf(xs, id);
    if index == -1 then xs + [id] else xs[..index] + xs[index + 1..]
  }

  /** The list `setDefaults(sceneIds)` assigns on a first run. */
  function Defaults(sceneIds: seq<string>): (pins: seq<string>)
    ensures |pins| == (if |sceneIds| < DefaultSceneCount then |sceneIds| else DefaultSceneCount) + 2
    ensures forall i :: 0 <= i < |pins| - 2 ==> pins[i] == sceneIds[i]
    ensures pins[|pins| - 2] == ControlStream && pins[|pins| - 1] == ControlRecord
  {
    var count := if |sceneIds| < DefaultSceneCount then |sceneIds| else DefaultSceneCount;
    sceneIds[..count] + DefaultPins
  }

  /** No id occurs twice. */
  predicate Distinct(xs: seq<string>) {
    forall i, j :: 0 <= i < j < |xs| ==> xs[i] != xs[j]
  }

  /** Toggling an absent id appends it and leaves the earlier pins as they were. */
  lemma ToggleAbsentAppends(xs: seq<string>, id: string)
    requires id !in xs
    ensures Toggled(xs, id) == xs + [id]
    ensures Toggled(xs, id)[..|xs|] == xs && Toggled(xs, id)[|xs|] == id
  {
  }

  /**
   * Toggling a present id removes exactly its first occurrence: the pins
   * before it and after it keep their order, and one copy of `id` is gone.
   */
  lemma TogglePresentRemovesFirst(xs: seq<string>, id: string)
    requires id in xs
    ensures exists k :: 0 <= k < |xs| && xs[k] == id && id !in xs[..k] &&
                        Toggled(xs, id) == xs[..k] + xs[k + 1..]
    ensures |Toggled(xs, id)| == |xs| - 1
    ensures multiset(Toggled(xs, id)) == multiset(xs) - multiset{id}
  {
    var k := IndexOf(xs, id);
    assert xs == xs[..k] + [id] + xs[k + 1..];
    assert multiset(xs) == multiset(xs[..k]) + multiset{id} + multiset(xs[k + 1..]);
  }

  /** Toggling an absent id twice gives back exactly the original list. */
  lemma ToggleTwiceAbsentRestores(xs: seq<string>, id: string)
    requires id !in xs
    ensures Toggled(Toggled(xs, id), id) == xs
  {
    var ys := xs + [id];
    assert ys[|xs|] == id && ys[..|xs|] == xs;
    assert IndexOf(ys, id) == |xs|;
    assert ys[|xs| + 1..] == [];
  }

  /**
   * Toggling an id that occurs once, twice, keeps the same pins: the id
   * moves to the end and the others keep their order.
   */
  lemma ToggleTwicePresentMovesToEnd(xs: seq<string>, id: string)
    requires multiset(xs)[id] == 1
    ensures Toggled(Toggled(xs, id), id) == Toggled(xs, id) + [id]
    ensures multiset(Toggled(Toggled(xs, id), id)) == multiset(xs)
  {
    TogglePresentRemovesFirst(xs, id);
    assert multiset(Toggled(xs, id))[id] == 0;
    assert id !in Toggled(xs, id);
  }

  /** Toggling keeps a list without duplicates free of them, and flips whether `id` is pinned. */
  lemma ToggleKeepsDistinct(xs: seq<string>, id: string)
    requires Distinct(xs)
    ensures Distinct(Toggled(xs, id))
    ensures id in Toggled(xs, id) <==> id !in xs
  {
    var ys := Toggled(xs, id);
    var k := IndexOf(xs, id);
    if k == -1 {
      assert ys[|xs|] == id;
    } else {
      forall i, j | 0 <= i < j < |ys| ensures ys[i] != ys[j] {
        var i' := if i < k then i else i + 1;
        var j' := if j < k then j else j + 1;
        assert ys[i] == xs[i'] && ys[j] == xs[j'];
      }
    }
  }

  /** The pin list together with the storage entry it is saved under. */
  datatype DeckState = DeckState(pinnedIds: seq<string>, store: Stored<seq<string>>)

  /** Construction: `load` reads the store; the watch is installed afterwards, so nothing is written. */
  function Loaded(stored: Stored<seq<string>>): DeckState {
    DeckState(LoadPins(stored), stored)
  }

  /** The watch: the store holds the current list. */
  predicate Saved(d: DeckState) {
    d.store == Parsed(d.pinnedIds)
  }

  function AfterToggle(d: DeckState, id: string): DeckState {
    DeckState(Toggled(d.pinnedIds, id), Parsed(Toggled(d.pinnedIds, id)))
  }

  function AfterSetDefaults(d: DeckState, sceneIds: seq<string>): DeckState {
    if d.store != Missing then d else DeckState(Defaults(sceneIds), Parsed(Defaults(sceneIds)))
  }

  /** The two public operations that change the list. */
  datatype DeckOp = TogglePinOp(id: string) | SetDefaultsOp(sceneIds: seq<string>)

  function Apply(d: DeckState, op: DeckOp): DeckState {
    match op
    case TogglePinOp(id) => AfterToggle(d, id)
    case SetDefaultsOp(sceneIds) => AfterSetDefaults(d, sceneIds)
  }

  function ApplyAll(d: DeckState, ops: seq<DeckOp>): DeckState
    decreases |ops|
  {
    if ops == [] then d else ApplyAll(Apply(d, ops[0]), ops[1..])
  }

  /**
   * On a fresh store `setDefaults` pins the first four scene ids and then
   * the two control ids; a later call, whatever its input, changes nothing.
   */
  lemma SetDefaultsFirstRunOnly(sceneIds: seq<string>, later: seq<string>)
    ensures AfterSetDefaults(Loaded(Missing), sceneIds).pinnedIds ==
              sceneIds[..if |sceneIds| < 4 then |sceneIds| else 4] + [ControlStream, ControlRecord]
    ensures AfterSetDefaults(AfterSetDefaults(Loaded(Missing), sceneIds), later) ==
              AfterSetDefaults(Loaded(Missing), sceneIds)
  {
  }

  /** The five-scene case: the fifth scene is not pinned and a second call keeps the list. */
  lemma SetDefaultsExample()
    ensures var d := AfterSetDefaults(Loaded(Missing), ["a", "b", "c", "d", "e"]);
            d.pinnedIds == ["a", "b", "c", "d", ControlStream, ControlRecord] &&
            AfterSetDefaults(d, ["x"]) == d
  {
    var ids := ["a", "b", "c", "d", "e"];
    assert ids[..4] == ["a", "b", "c", "d"];
  }

  /** A store that held something, even an unreadable text, keeps `setDefaults` from acting. */
  lemma StoredEntryBlocksDefaults(stored: Stored<seq<string>>, sceneIds: seq<string>)
    requires stored != Missing
    ensures AfterSetDefaults(Loaded(stored), sceneIds) == Loaded(stored)
    ensures stored == Unparsable ==> AfterSetDefaults(Loaded(stored), sceneIds).pinnedIds == []
  {
  }

  /**
   * After construction, either nothing has changed the list yet, or the
   * store holds the current list, whatever operations ran since.
   */
  lemma {:induction false} ChangesAreSaved(d: DeckState, stored: Stored<seq<string>>, ops: seq<DeckOp>)
    requires d == Loaded(stored) || Saved(d)
    ensures ApplyAll(d, ops) == Loaded(stored) || Saved(ApplyAll(d, ops))
    decreases |ops|
  {
    if ops != [] {
      ChangesAreSaved(Apply(d, ops[0]), stored, ops[1..]);
    }
  }

  /** The list starts as `load` leaves it; after any operations it is saved or unchanged. */
  lemma LoadedThenSaved(stored: Stored<seq<string>>, ops: seq<DeckOp>)
    ensures var d := ApplyAll(Loaded(stored), ops);
            d == Loaded(stored) || d.store == Parsed(d.pinnedIds)
  {
    ChangesAreSaved(Loaded(stored), stored, ops);
  }

  class DeckManager {
    /** `pinnedIds.value`. */
    var pinnedIds: seq<string>
    /** The storage entry under the key `meld_deck_pins`. */
    var store: Stored<seq<string>>

    ghost function Model(): DeckState
      reads this
    {
      DeckState(pinnedIds, store)
    }

    /** Construction runs `load`, then installs the watch. */
    constructor(stored: Stored<seq<string>>)
      ensures Model() == Loaded(stored)
    {
      store := stored;
      new;
      Load();
    }

    method Load()
      modifies this`pinnedIds
      ensures pinnedIds == LoadPins(store)
    {
      if store.Parsed? {
        pinnedIds := store.value;
      } else if store.Unparsable? {
        pinnedIds := [];
      } else {
        pinnedIds := [ControlStream, ControlRecord];
      }
    }

    /** The watch's handler: the whole list is written back. */
    method Save()
      modifies this`store
      ensures store == Parsed(pinnedIds)
    {
      store := Parsed(pinnedIds);
    }

    /** Whether `id` is pinned. */
    function IsPinned(id: string): (r: bool)
      reads this
      ensures r <==> id in pinnedIds
      ensures r <==> IndexOf(pinnedIds, id) != -1
    {
      Includes(pinnedIds, id)
    }

    /** Appends `id` when absent, splices out its first occurrence when present; the watch saves. */
    method TogglePin(id: string)
      modifies this
      ensures Model() == AfterToggle(old(Model()), id)
    {
      var index := IndexOf(pinnedIds, id);
      if index == -1 {
        pinnedIds := pinnedIds + [id];
      } else {
        pinnedIds := pinnedIds[..index] + pinnedIds[index + 1..];
      }
      Save();
    }

    /** On a first run only, pins the first four scene ids and the two control ids; the watch saves. */
    method SetDefaults(sceneIds: seq<string>)
      modifies this
      ensures Model() == AfterSetDefaults(old(Model()), sceneIds)
    {
      if store != Missing {
        return;
      }
      var count := if |sceneIds| < DefaultSceneCount then |sceneIds| else DefaultSceneCount;
      pinnedIds := sceneIds[..count] + [ControlStream, ControlRecord];
      Save();
    }
  }
}
