/**
 * The hotkey manager: a map from action id to shortcut text, persisted on
 * every change and mirrored to the desktop shell's global-shortcut
 * registrar, and the router that turns a triggered action id into a
 * command on the session client.
 */
module Hotkeys {
  import opened Common
  import opened Scenes
  import opened Meld

  type Bindings = map<string, string>

  /** The adapter's `load`: the decoded map, or `{}` when nothing is stored or decoding fails. */
  function LoadBindings(stored: Stored<Bindings>): (m: Bindings)
    ensures stored.Parsed? ==> m == stored.value
    ensures !stored.Parsed? ==> m == map[]
  {
    match stored
    case Parsed(m) => m
    case _ => map[]
  }

  /** The bindings the registrar is asked to register: those whose shortcut is not empty. */
  ghost function ActiveBindings(m: Bindings): Bindings {
    map id | id in m && m[id] != "" :: m[id]
  }

  /**
   * The loop of `syncToElectron`: copies every binding with a non-empty
   * shortcut, unchanged, and drops the others.
   */
  method CollectActive(bindings: Bindings) returns (active: Bindings)
    ensures forall id :: id in active <==> id in bindings && bindings[id] != ""
    ensures forall id :: id in active ==> active[id] == bindings[id]
    ensures active == ActiveBindings(bindings)
  {
    active := map[];
    var rest := bindings.Keys;
    while rest != {}
      invariant rest <= bindings.Keys
      invariant forall id :: id in active <==> id in bindings && id !in rest && bindings[id] != ""
      invariant forall id :: id in active ==> active[id] == bindings[id]
      decreases rest
    {
      var id :| id in rest;
      if bindings[id] != "" {
        active := active[id := bindings[id]];
      }
      rest := rest - {id};
    }
  }

  /** What a triggered action id asks of the session client. */
  datatype Command = ToggleStreamCmd | ToggleRecordCmd | ShowSceneCmd(id: string) | NoCommand

  /**
   * The routing decision of `executeAction`: the two reserved ids toggle
   * streaming and recording whatever the scenes are; any other id shows
   * the scene with that id when the current view has one, and otherwise
   * does nothing.
   */
  function Route(actionId: string, scenes: seq<Scene>): (c: Command)
    ensures actionId == ControlStream ==> c == ToggleStreamCmd
    ensures actionId == ControlRecord ==> c == ToggleRecordCmd
    ensures actionId != ControlStream && actionId != ControlRecord ==>
              (c == ShowSceneCmd(actionId) <==> exists i :: 0 <= i < |scenes| && scenes[i].id == actionId) &&
              (c == NoCommand <==> forall i :: 0 <= i < |scenes| ==> scenes[i].id != actionId)
  {
    if actionId == ControlStream then ToggleStreamCmd
    else if actionId == ControlRecord then ToggleRecordCmd
    else
      match Find(scenes, (sc: Scene) => sc.id == actionId)
      case Some(scene) => ShowSceneCmd(scene.id)
      case None => NoCommand
  }

  /** The session client's reaction to a routed command. */
  function Dispatch(s: ClientState, c: Command): ClientState {
    match c
    case ToggleStreamCmd => Step(s, ToggleStreamCalled)
    case ToggleRecordCmd => Step(s, ToggleRecordCalled)
    case ShowSceneCmd(id) => Step(s, ShowSceneCalled(id))
    case NoCommand => s
  }

  /**
   * Triggering `control_stream` only toggles streaming and triggering
   * `control_record` only toggles recording, even when a scene has one of
   * those ids.
   */
  lemma ControlIdsOnlyToggle(s: ClientState)
    ensures Dispatch(s, Route(ControlStream, SceneView(s.items))) == Step(s, ToggleStreamCalled)
    ensures Dispatch(s, Route(ControlRecord, SceneView(s.items))) == Step(s, ToggleRecordCalled)
  {
  }

  /**
   * Triggering any other id shows that scene when the client's current
   * snapshot holds a scene entry with that key, and otherwise leaves the
   * client unchanged.
   */
  lemma OtherIdsShowKnownScenes(s: ClientState, actionId: string)
    requires actionId != ControlStream && actionId != ControlRecord
    ensures (exists e :: e in s.items && IsScene(e) && e.key == actionId) ==>
              Dispatch(s, Route(actionId, SceneView(s.items))) == Step(s, ShowSceneCalled(actionId))
    ensures (forall e :: e in s.items && IsScene(e) ==> e.key != actionId) ==>
              Dispatch(s, Route(actionId, SceneView(s.items))) == s
  {
    var view := SceneView(s.items);
    if exists e :: e in s.items && IsScene(e) && e.key == actionId {
      var e :| e in s.items && IsScene(e) && e.key == actionId;
      assert ToScene(e) in view;
      var i :| 0 <= i < |view| && view[i] == ToScene(e);
      assert view[i].id == actionId;
      assert Route(actionId, view) == ShowSceneCmd(actionId);
    } else {
      forall i | 0 <= i < |view| ensures view[i].id != actionId {
        assert view[i] in view;
      }
      assert Route(actionId, view) == NoCommand;
    }
  }

  /**
   * Binding a shortcut to an action and then removing that binding leaves
   * the action out of what the registrar is asked to register.
   */
  lemma SetThenRemoveUnregisters(m: Bindings, actionId: string, shortcut: string)
    ensures actionId !in ActiveBindings((m[actionId := shortcut]) - {actionId})
    ensures ActiveBindings((m[actionId := shortcut]) - {actionId}) == ActiveBindings(m - {actionId})
  {
  }

  class HotkeyManager {
    /** The in-memory map, `hotkeys.value`. */
    var hotkeys: Bindings
    /** The storage entry the persistence adapter keeps under the key `meld_deck_hotkeys`. */
    var store: Stored<Bindings>
    /** Whether the desktop shell's bridge is present (`window.electronAPI`). */
    const bridge: bool
    /** The session client commands are routed to. */
    const client: MeldClient
    /** The map last sent to the registrar, None while none was sent. */
    ghost var registered: Option<Bindings>

    /** The registrar mirrors the non-empty bindings whenever the bridge is present. */
    ghost predicate Valid()
      reads this
    {
      registered == if bridge then Some(ActiveBindings(hotkeys)) else None
    }

    /** Construction runs `init`: load the stored map, then sync it. */
    constructor(stored: Stored<Bindings>, bridge: bool, client: MeldClient)
      ensures Valid()
      ensures hotkeys == LoadBindings(stored) && store == stored
      ensures this.bridge == bridge && this.client == client
    {
      this.bridge := bridge;
      this.client := client;
      hotkeys := LoadBindings(stored);
      store := stored;
      registered := None;
      new;
      SyncToElectron();
    }

    /** Sends the non-empty bindings to the registrar, when the bridge is present. */
    method SyncToElectron()
      modifies this`registered
      ensures registered == if bridge then Some(ActiveBindings(hotkeys)) else old(registered)
    {
      if bridge {
        var active := CollectActive(hotkeys);
        registered := Some(active);
      }
    }

    /** The adapter's `save` of the whole map. */
    method Save()
      modifies this`store
      ensures store == Parsed(hotkeys)
    {
      store := Parsed(hotkeys);
    }

    /** The shortcut bound to `actionId`, None (`undefined`) when there is none. */
    function GetHotkey(actionId: string): (r: Option<string>)
      reads this
      ensures r.Some? <==> actionId in hotkeys
      ensures r.Some? ==> r.value == hotkeys[actionId]
    {
      if actionId in hotkeys then Some(hotkeys[actionId]) else None
    }

    /**
     * Binds `shortcut` to `actionId`, leaves every other binding as it was,
     * persists the whole map and re-syncs the registrar.
     */
    method SetHotkey(actionId: string, shortcut: string)
      requires Valid()
      modifies this`hotkeys, this`store, this`registered
      ensures Valid()
      ensures GetHotkey(actionId) == Some(shortcut)
      ensures forall id :: id != actionId ==> GetHotkey(id) == old(GetHotkey(id))
      ensures hotkeys == old(hotkeys)[actionId := shortcut]
      ensures store == Parsed(hotkeys)
    {
      hotkeys := hotkeys[actionId := shortcut];
      Save();
      SyncToElectron();
    }

    /**
     * Removes the binding of `actionId`, leaves every other binding as it
     * was, persists the whole map and re-syncs the registrar.
     */
    method RemoveHotkey(actionId: string)
      requires Valid()
      modifies this`hotkeys, this`store, this`registered
      ensures Valid()
      ensures GetHotkey(actionId) == None
      ensures forall id :: id != actionId ==> GetHotkey(id) == old(GetHotkey(id))
      ensures hotkeys == old(hotkeys) - {actionId}
      ensures store == Parsed(hotkeys)
    {
      hotkeys := hotkeys - {actionId};
      Save();
      SyncToElectron();
    }

    /**
     * A triggered hotkey: the reserved ids toggle streaming or recording,
     * any other id shows the scene of the current view with that id, if any.
     */
    method ExecuteAction(actionId: string)
      requires client.Valid()
      modifies client
      ensures client.Valid()
      ensures client.Model() == Dispatch(old(client.Model()), Route(actionId, SceneView(old(client.items))))
    {
      var command := Route(actionId, client.Scenes());
      Perform(command);
    }

    /** Issues a routed command as the matching call on the session client. */
    method Perform(command: Command)
      requires client.Valid()
      modifies client
      ensures client.Valid()
      ensures client.Model() == Dispatch(old(client.Model()), command)
    {
      match command {
        case ToggleStreamCmd => client.ToggleStream();
        case ToggleRecordCmd => client.ToggleRecord();
        case ShowSceneCmd(id) => client.ShowScene(id);
        case NoCommand =>
      }
    }
  }
}
