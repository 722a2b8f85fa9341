# Meld Studio deck: a Dafny model of its core

Meld Studio deck is a small desktop companion for the Meld Studio streaming
application. It connects to the host over a WebSocket/QWebChannel bridge,
mirrors the host's session (its scenes and its streaming and recording
flags), and lets the user switch scenes and toggle streaming or recording
from buttons or global hotkeys. This project models the three pieces that
hold the program's logic and proves properties of them.

- **The session client** (`MeldClient`) is modelled in `meld_client.dfy`,
  with its `scenes` view in `scenes.dfy`:
  - The client's fields and everything it reacts to form a state machine:
    the `ClientState` datatype, the `Event` datatype and `Step`.
  - The class `Meld.MeldClient` holds the same fields. Each method that
    handles an event or a call is proved to perform exactly one step.
    `UpdateState` and `ClearPendingIfCurrent` perform the two halves of the
    session-signal step (`Refreshed` and `ClearConfirmedScene`).
  - The host object is a `Proxy` value: the session items and the two
    flags as the host reports them.
  - The calls the client makes on the host are recorded as ghost state.
  - Timers scheduled with `setTimeout` are a ghost multiset of outstanding
    timers. Firing a timer is a method of its own.
  - The main invariant: the client reports itself connected exactly when
    it holds a host object. Every optimistic "pending" marker has an
    outstanding 3000 ms fallback that will clear it.
  - The `scenes` getter works as follows:
    - It keeps the entries whose item type is `"scene"`.
    - It takes each entry's key as the scene id.
    - It sorts by `index` with a stable insertion sort, since
      `Array.prototype.sort` is stable.
- **The hotkey manager** (`HotkeyManager`) is modelled in `hotkeys.dfy`:
  - The binding map, persisted through the storage adapter after every
    change.
  - Its mirror in the desktop shell's global-shortcut registrar. Only
    bindings with a non-empty shortcut are registered.
  - The router that turns a triggered action id into a command on the
    session client.
- **The pin list** (`DeckManager`) is modelled in `deck.dfy`:
  - An ordered list of action ids and the storage entry it is saved under.
  - The Vue `watch` that writes the list back after every change, modelled
    as a save at the end of each changing method.
  - `setDefaults`, which only acts while nothing is stored.

The browser's storage entry is the `Stored` datatype in `common.dfy`:
- `Missing` covers both no entry and an empty text, the two cases the
  source's `if (stored)` treats alike.
- `Unparsable` is a text that `JSON.parse` rejects.
- `Parsed` holds a decoded value.

Two behaviours of the code are easy to misread:
- **A socket close** (src/MeldClient.ts:67-72):
  - It only clears `isConnected` and the host object, and schedules a
    reconnect.
  - The snapshot and every pending marker survive it.
  - `Meld.ClosesScheduleReconnects` states the exact state after `n`
    closes.
- **The stream and record fallbacks** (src/MeldClient.ts:113 and :121):
  - They clear their marker unconditionally. The scene fallback, by
    contrast, first checks the id.
  - So after two quick toggles, the first fallback clears the marker that
    the second toggle set (`Meld.StaleStreamFallbackClearsNewer`).
  - Two quick `showScene` calls do not have this problem
    (`Meld.NewerPendingSceneSurvives`).

Toggling an absent id twice gives back exactly the original list. Toggling
a present id twice keeps the same pins only when the id occurs once: the
code removes only the first occurrence, so a duplicated id loses a copy on
each toggle. `Deck.ToggleKeepsDistinct` proves that toggling keeps a
duplicate-free list duplicate-free.

## Model

| member | source | states |
|---|---|---|
| Scenes.SceneEntries | src/MeldClient.ts:87-94 | a scene record is in the result exactly when some entry of the snapshot has type "scene" and maps to it (key as id, name/current/index copied); there are exactly as many records as scene entries |
| Scenes.SceneEntriesAppend | src/MeldClient.ts:87-94 | the filter and map keep entry order: the records of two consecutive runs of entries are the records of the first followed by those of the second |
| Scenes.SceneEntriesOfOne | src/MeldClient.ts:88-94 | one entry yields its one scene record when its type is "scene" and nothing otherwise |
| Scenes.Insert | src/MeldClient.ts:95 | inserting into a list sorted by index keeps it sorted, adds exactly one copy of the element and changes the length by one |
| Scenes.InsertionPointBounds | src/MeldClient.ts:95 | every element before the insertion point has a smaller index than the inserted one, and the element at that point does not |
| Scenes.InsertPosition | src/MeldClient.ts:95 | insertion puts the element exactly at its insertion point, before any element of equal index, and keeps all other elements in order |
| Scenes.InsertIsStable | src/MeldClient.ts:95 | among the elements of one index, the inserted element comes first and the others keep their order |
| Scenes.SortByIndex | src/MeldClient.ts:95 | the result is sorted by ascending index and is a permutation of the input |
| Scenes.SortIsStable | src/MeldClient.ts:95 | the sort is stable: for every index, the elements with that index appear in the output in their input order |
| Scenes.SceneView | src/MeldClient.ts:86-96 | the `scenes` getter is sorted by index, is a permutation of the filtered and mapped entries, and holds a scene exactly when a scene entry maps to it |
| Scenes.ViewIsStable | src/MeldClient.ts:86-96 | in the `scenes` view, scenes of equal index appear in snapshot entry order |
| Scenes.Find | src/MeldClient.ts:49 | `find` returns None exactly when no element satisfies the predicate, and otherwise the element at the first position that does |
| Scenes.ViewKeepsCurrentCount | src/MeldClient.ts:89-95 | the view holds as many current scenes as the snapshot holds current scene items |
| Scenes.ViewAtMostOneCurrent | src/MeldClient.ts:86-96 | when at most one scene item is current, no two elements of the view are current |
| Scenes.FirstCurrentHasItem | src/MeldClient.ts:49 | the first current scene of the view comes from a current scene item whose key is its id |
| Scenes.CurrentItemIsFirstCurrent | src/MeldClient.ts:49 | with at most one current scene item, `find(s => s.current)` returns exactly that item's scene |
| Scenes.FirstCurrentIsTheCurrentItem | src/MeldClient.ts:49-52 | with at most one current scene item, the first current scene has id `x` if and only if the current scene item has key `x` |
| Meld.InitialInvariant | src/MeldClient.ts:13-32 | a new client (no items, both flags false, disconnected, no pending marker, no host object) satisfies the client invariant |
| Meld.TimerKeepsInvariant | src/MeldClient.ts:103-121 | a fired fallback or reconnect timer keeps every other pending marker covered by its own outstanding fallback |
| Meld.SessionChangedKeepsInvariant | src/MeldClient.ts:46-53 | the session signal keeps the invariant |
| Meld.StepKeepsInvariant | src/MeldClient.ts:34-123 | every reaction of the client keeps "connected iff a host object is held" and "every pending marker has an outstanding 3000 ms fallback" |
| Meld.RunKeepsInvariant | src/MeldClient.ts:34-123 | any sequence of reactions keeps the invariant |
| Meld.ReachableInvariant | src/MeldClient.ts:29-123 | every state reachable from a new client satisfies the invariant, so no pending marker can stay set without a fallback that clears it |
| Meld.VerbsWithoutProxyAreNoops | src/MeldClient.ts:98-123 | without a host object `showScene`, `toggleStream` and `toggleRecord` change nothing, schedule nothing and call nothing, and `updateState` changes nothing |
| Meld.ShowSceneWhenConnected | src/MeldClient.ts:98-107 | with a host object `showScene(id)` marks `id` pending, makes exactly one `showScene(id)` call, schedules one 3000 ms fallback and changes nothing else |
| Meld.SceneFallbackChecksId | src/MeldClient.ts:103-105 | the scene fallback clears the pending scene only if it still equals its own id |
| Meld.NewerPendingSceneSurvives | src/MeldClient.ts:98-107 | after `showScene(a)` then `showScene(b)` with a ≠ b, the fallback of `a` leaves `b` pending |
| Meld.StaleStreamFallbackClearsNewer | src/MeldClient.ts:109-115 | after two quick `toggleStream` calls, the first fallback clears the pending stream marker while the second fallback is still outstanding |
| Meld.SessionChangedReplacesSnapshot | src/MeldClient.ts:46-53 | the session signal while connected replaces the snapshot and both flags with the host's values, holds the notifying host object as `meld`, and changes nothing else but possibly the pending scene |
| Meld.SessionChangedPendingScene | src/MeldClient.ts:46-53 | the pending scene is either kept or cleared, and it is cleared exactly when the first current scene of the new view has the pending id |
| Meld.ClearConfirmedSceneEffect | src/MeldClient.ts:49-52 | the pending-scene check either keeps the pending scene or clears it, and clears it exactly when the first current scene of the view has the pending id |
| Meld.SessionChangedClearsConfirmedScene | src/MeldClient.ts:46-53 | with at most one current scene item, the pending scene is cleared if and only if the current scene item's key is the pending id |
| Meld.StreamingChangedEffect | src/MeldClient.ts:55-58 | the streaming signal takes the host's flag, clears the pending stream marker, holds the notifying host object as `meld`, and changes nothing else |
| Meld.RecordingChangedEffect | src/MeldClient.ts:60-63 | the recording signal takes the host's flag, clears the pending record marker, holds the notifying host object as `meld`, and changes nothing else |
| Meld.ClosesScheduleReconnects | src/MeldClient.ts:67-72 | `n` closes leave the client disconnected without a host object, with snapshot and pending markers kept, and `n` more 5000 ms reconnect timers outstanding |
| Meld.MeldClient.constructor | src/MeldClient.ts:29-32 | keeps the address and port (defaults 127.0.0.1 and 13376) and starts in the initial state |
| Meld.MeldClient.Connect | src/MeldClient.ts:34-35 | opens one more socket, keeps the invariant, and changes nothing else |
| Meld.MeldClient.UpdateState | src/MeldClient.ts:79-84 | copies items and both flags from the host object when there is one, else changes nothing |
| Meld.MeldClient.OnOpen | src/MeldClient.ts:37-44 | stores the host object, marks the client connected and refreshes from it |
| Meld.MeldClient.OnSessionChanged | src/MeldClient.ts:46-53 | performs the session-signal step and keeps the invariant |
| Meld.MeldClient.ClearPendingIfCurrent | src/MeldClient.ts:49-52 | clears the pending scene when the first current scene of the view has its id |
| Meld.MeldClient.OnStreamingChanged | src/MeldClient.ts:55-58 | performs the streaming-signal step and keeps the invariant |
| Meld.MeldClient.OnRecordingChanged | src/MeldClient.ts:60-63 | performs the recording-signal step and keeps the invariant |
| Meld.MeldClient.OnClose | src/MeldClient.ts:67-72 | disconnects, drops the host object, schedules one reconnect and keeps the invariant |
| Meld.MeldClient.OnError | src/MeldClient.ts:74-76 | a socket error leaves the state as it is |
| Meld.MeldClient.ShowScene | src/MeldClient.ts:98-107 | performs the `showScene` step and keeps the invariant |
| Meld.MeldClient.ToggleStream | src/MeldClient.ts:109-115 | performs the `toggleStream` step and keeps the invariant |
| Meld.MeldClient.ToggleRecord | src/MeldClient.ts:117-123 | performs the `toggleRecord` step and keeps the invariant |
| Meld.MeldClient.SceneFallbackFired | src/MeldClient.ts:103-105 | removes its timer, clears the pending scene if it is still the timer's id, keeps the invariant |
| Meld.MeldClient.StreamFallbackFired | src/MeldClient.ts:113 | removes its timer, clears the pending stream marker, keeps the invariant |
| Meld.MeldClient.RecordFallbackFired | src/MeldClient.ts:121 | removes its timer, clears the pending record marker, keeps the invariant |
| Meld.MeldClient.ReconnectFired | src/MeldClient.ts:71 | removes the reconnect timer, calls `connect` again, keeps the invariant |
| Hotkeys.LoadBindings | src/persistence/PersistenceAdapter.ts:13-24 | the adapter's load yields the decoded map, and `{}` when nothing is stored or decoding fails |
| Hotkeys.CollectActive | src/HotkeyManager.ts:29-32 | the map sent to the registrar holds exactly the bindings with a non-empty shortcut, each with its own shortcut |
| Hotkeys.Route | src/HotkeyManager.ts:53-72 | `control_stream` and `control_record` route to the toggles; any other id shows its scene if and only if the view has a scene with that id, and does nothing otherwise |
| Hotkeys.ControlIdsOnlyToggle | src/HotkeyManager.ts:56-64 | triggering a reserved id toggles streaming or recording, whatever the scenes are |
| Hotkeys.OtherIdsShowKnownScenes | src/HotkeyManager.ts:66-71 | any other id shows the scene when the snapshot has a scene entry with that key, and leaves the client unchanged when it has none |
| Hotkeys.SetThenRemoveUnregisters | src/HotkeyManager.ts:37-47 | binding then removing an action leaves it unregistered, and the registered map is that of the original map with the action removed |
| Hotkeys.HotkeyManager.constructor | src/HotkeyManager.ts:9-16 | loads the stored map and syncs the registrar |
| Hotkeys.HotkeyManager.SyncToElectron | src/HotkeyManager.ts:26-35 | with the bridge present the registrar gets exactly the non-empty bindings; without it nothing is sent |
| Hotkeys.HotkeyManager.Save | src/persistence/PersistenceAdapter.ts:26-28 | the store holds the whole map |
| Hotkeys.HotkeyManager.GetHotkey | src/HotkeyManager.ts:49-51 | the bound shortcut, or None exactly when the action has no binding |
| Hotkeys.HotkeyManager.SetHotkey | src/HotkeyManager.ts:37-41 | binds the shortcut, leaves every other binding, saves the map and re-syncs the registrar |
| Hotkeys.HotkeyManager.RemoveHotkey | src/HotkeyManager.ts:43-47 | removes the binding, leaves every other binding, saves the map and re-syncs the registrar |
| Hotkeys.HotkeyManager.ExecuteAction | src/HotkeyManager.ts:53-72 | the client performs exactly the step of the routed command on the view as it was before the call, and keeps its invariant |
| Hotkeys.HotkeyManager.Perform | src/HotkeyManager.ts:57-71 | a routed command becomes the matching client call, and no command changes nothing |
| Deck.LoadPins | src/DeckManager.ts:17-31 | `load` yields the stored list, `[]` on a parse failure, and the two control ids when nothing is stored |
| Deck.IndexOf | src/DeckManager.ts:42 | `indexOf` is -1 exactly when the id is absent, and otherwise the position of its first occurrence |
| Deck.Includes | src/DeckManager.ts:38 | `includes` holds exactly when some element equals the id |
| Deck.Defaults | src/DeckManager.ts:53-59 | the first-run list is the first min(4, n) scene ids in order followed by the stream and record control ids |
| Deck.ToggleAbsentAppends | src/DeckManager.ts:42-44 | toggling an absent id appends it and leaves the earlier pins unchanged |
| Deck.TogglePresentRemovesFirst | src/DeckManager.ts:42-47 | toggling a present id removes exactly its first occurrence, keeping the order of the rest |
| Deck.ToggleTwiceAbsentRestores | src/DeckManager.ts:41-48 | toggling an absent id twice gives back exactly the original list |
| Deck.ToggleTwicePresentMovesToEnd | src/DeckManager.ts:41-48 | toggling an id that occurs once, twice, keeps the same pins and moves that id to the end |
| Deck.ToggleKeepsDistinct | src/DeckManager.ts:41-48 | toggling keeps a duplicate-free list duplicate-free and flips whether the id is pinned |
| Deck.SetDefaultsFirstRunOnly | src/DeckManager.ts:50-60 | on a fresh store the pins are the first four scene ids and the two control ids; a second call with any input changes nothing |
| Deck.SetDefaultsExample | src/DeckManager.ts:50-60 | `setDefaults(['a','b','c','d','e'])` on a fresh store pins a, b, c, d and the two control ids, and a later call keeps that list |
| Deck.StoredEntryBlocksDefaults | src/DeckManager.ts:51 | any stored entry, even one that failed to parse, keeps `setDefaults` from acting; after a parse failure the list stays empty |
| Deck.ChangesAreSaved | src/DeckManager.ts:12-14 | from a loaded or saved state, any sequence of toggles and `setDefaults` calls ends loaded-and-unchanged or with the store holding the current list |
| Deck.LoadedThenSaved | src/DeckManager.ts:8-15 | after construction and any operations, either nothing has changed or the store holds the current list |
| Deck.DeckManager.constructor | src/DeckManager.ts:8-15 | the list is what `load` yields and the store is left as it was |
| Deck.DeckManager.Load | src/DeckManager.ts:17-31 | assigns the list `load` yields for the stored entry |
| Deck.DeckManager.Save | src/DeckManager.ts:33-35 | the store holds the current list |
| Deck.DeckManager.IsPinned | src/DeckManager.ts:37-39 | holds exactly when the id is in the list, which is exactly when `indexOf` finds it |
| Deck.DeckManager.TogglePin | src/DeckManager.ts:41-48 | performs the toggle and saves the new list |
| Deck.DeckManager.SetDefaults | src/DeckManager.ts:50-60 | with nothing stored, assigns and saves the first-run list; otherwise changes nothing |

## Left out

- The WebSocket and QWebChannel handshake (src/MeldClient.ts:35-38) is I/O. The socket is counted, and its events are the `On…` methods. The address and port are kept but not used.
- Real time and the order of asynchronous callbacks are not modelled. A timer firing is an event that may come at any point while the timer is outstanding. Its delay is recorded but not compared with a clock.
- Vue reactivity is not modelled. Refs are plain fields. The deep `watch` of the pin list is a save at the end of each changing method rather than a deferred callback.
- Logging (`console.log`, `console.error`) is left out, as it changes no state.
- Meld.AfterStreamingChanged, Meld.AfterRecordingChanged: a stream or record signal that arrives while no host object is held would throw on the missing object in the source. It is modelled as changing nothing.
- The JSON decoding is not modelled. A stored text is `Parsed` only when it decodes to a value of the expected shape (an array of strings, or an object of strings). A text that parses to another shape is not modelled.
- A scene item's `index` is taken to be an integer. The comparator `a.index - b.index` on non-numbers or non-integers is not modelled.
- The desktop shell (electron/main.ts, electron/preload.ts) is not part of this model. This covers window, tray and dock handling and the IPC wiring. The registrar is the ghost field `registered`, and what it does with each shortcut, including failed registrations, is left out.
- Hotkeys.HotkeyManager.constructor: `init` is asynchronous and also subscribes `executeAction` to triggered hotkeys. The subscription is not modelled; `ExecuteAction` is called directly instead.
- The persistence adapter is modelled only as the storage entry it reads and writes. Its promise-based interface and the `adapter || new LocalStorageAdapter()` default are left out.
- Hotkeys.HotkeyManager.GetHotkey, Hotkeys.HotkeyManager.SetHotkey, Hotkeys.CollectActive: the binding map is a plain map, not a JavaScript object. Action ids are assumed not to be names of `Object.prototype` members. For such ids the source behaves differently: `hotkeys["toString"]` returns an inherited function, and an assignment to the key `__proto__` is ignored. The model returns None for the first and stores the binding for the second.
- Timers are never cancelled in the source, so the model has no cancellation either.
