/**
 * The session client: it mirrors the host's session over a socket, keeps
 * optimistic "pending" markers for commands the host has not yet
 * confirmed, and reconnects whenever the socket closes.
 *
 * `ClientState` and `Step` state the client as a state machine over the
 * events it reacts to; the class `MeldClient` holds the same state in
 * fields and each of its methods is proved to perform one `Step`.
 */
module Meld {
  import opened Common
  import opened Scenes

  const DefaultAddress: string := "127.0.0.1"
  const DefaultPort: int := 13376
  /** Delay of the fallback that clears a pending marker, in milliseconds. */
  const FallbackMs: nat := 3000
  /** Delay before reconnecting after a close, in milliseconds. */
  const ReconnectMs: nat := 5000

  /**
   * The host object the handshake yields, as the values of the properties
   * the client reads from it: the session items and the two flags.
   */
  datatype Proxy = Proxy(items: Snapshot, isStreaming: bool, isRecording: bool)

  /** A call the client makes on the host object. */
  datatype ProxyCall = CallShowScene(id: string) | CallToggleStream | CallToggleRecord

  /** What a scheduled timer does when it fires. */
  datatype Task = ClearScene(id: string) | ClearStream | ClearRecord | Reconnect

  datatype Timer = Timer(task: Task, delayMs: nat)

  const ReconnectTimer: Timer := Timer(Reconnect, ReconnectMs)

  /**
   * The client's fields, the number of sockets `connect` has opened, the
   * calls issued on the host object and the timers scheduled and not yet fired.
   */
  datatype ClientState = ClientState(
    items: Snapshot,
    isStreaming: bool,
    isRecording: bool,
    isConnected: bool,
    pendingSceneId: Option<string>,
    pendingStream: bool,
    pendingRecord: bool,
    meld: Option<Proxy>,
    sockets: nat,
    calls: seq<ProxyCall>,
    timers: multiset<Timer>)

  const Initial: ClientState :=
    ClientState([], false, false, false, None, false, false, None, 0, [], multiset{})

  /**
   * What the client reacts to. The three signals carry the host object's
   * property values as of the notification.
   */
  datatype Event =
    | ConnectCalled
    | SocketOpened(proxy: Proxy)
    | SessionChanged(proxy: Proxy)
    | StreamingChanged(proxy: Proxy)
    | RecordingChanged(proxy: Proxy)
    | SocketClosed
    | SocketError
    | ShowSceneCalled(id: string)
    | ToggleStreamCalled
    | ToggleRecordCalled
    | TimerFired(timer: Timer)

  /** `updateState`: copy the items and both flags from the host object, if there is one. */
  function Refreshed(s: ClientState): ClientState {
    match s.meld
    case None => s
    case Some(p) => s.(items := p.items, isStreaming := p.isStreaming, isRecording := p.isRecording)
  }

  /** Clears the pending scene when the first current scene of the view is that scene. */
  function ClearConfirmedScene(s: ClientState): ClientState {
    match Find(SceneView(s.items), IsCurrent)
    case None => s
    case Some(current) => if s.pendingSceneId == Some(current.id) then s.(pendingSceneId := None) else s
  }

  /** The body of a fired timer's callback. */
  function RunTask(s: ClientState, task: Task): ClientState {
    match task
    case ClearScene(id) => if s.pendingSceneId == Some(id) then s.(pendingSceneId := None) else s
    case ClearStream => s.(pendingStream := false)
    case ClearRecord => s.(pendingRecord := false)
    case Reconnect => s.(sockets := s.sockets + 1)
  }

  /** `connect`: a new socket; its events arrive as the other events below. */
  function AfterConnect(s: ClientState): ClientState {
    s.(sockets := s.sockets + 1)
  }

  /** The socket opened and the handshake yielded the host object; `updateState` follows. */
  function AfterOpen(s: ClientState, p: Proxy): ClientState {
    Refreshed(s.(meld := Some(p), isConnected := true))
  }

  /** The session signal: `updateState`, then the pending-scene check on the new view. */
  function AfterSessionChanged(s: ClientState, p: Proxy): ClientState {
    var seen := if s.meld.Some? then s.(meld := Some(p)) else s;
    ClearConfirmedScene(Refreshed(seen))
  }

  /**
   * The streaming signal. Arriving while no host object is held, it would
   * fail on the missing object before assigning anything.
   */
  function AfterStreamingChanged(s: ClientState, p: Proxy): ClientState {
    if s.meld.None? then s
    else s.(meld := Some(p), isStreaming := p.isStreaming, pendingStream := false)
  }

  /** The recording signal, likewise. */
  function AfterRecordingChanged(s: ClientState, p: Proxy): ClientState {
    if s.meld.None? then s
    else s.(meld := Some(p), isRecording := p.isRecording, pendingRecord := false)
  }

  /** The socket closed: disconnect, drop the host object, schedule a reconnect. */
  function AfterClose(s: ClientState): ClientState {
    s.(isConnected := false, meld := None, timers := s.timers + multiset{ReconnectTimer})
  }

  function AfterShowScene(s: ClientState, id: string): ClientState {
    if s.meld.None? then s
    else s.(pendingSceneId := Some(id), calls := s.calls + [CallShowScene(id)],
            timers := s.timers + multiset{Timer(ClearScene(id), FallbackMs)})
  }

  function AfterToggleStream(s: ClientState): ClientState {
    if s.meld.None? then s
    else s.(pendingStream := true, calls := s.calls + [CallToggleStream],
            timers := s.timers + multiset{Timer(ClearStream, FallbackMs)})
  }

  function AfterToggleRecord(s: ClientState): ClientState {
    if s.meld.None? then s
    else s.(pendingRecord := true, calls := s.calls + [CallToggleRecord],
            timers := s.timers + multiset{Timer(ClearRecord, FallbackMs)})
  }

  /** A timer fires: it is no longer outstanding and its callback runs. A timer not outstanding cannot fire. */
  function AfterTimer(s: ClientState, t: Timer): ClientState {
    if t !in s.timers then s else RunTask(s.(timers := s.timers - multiset{t}), t.task)
  }

  /** One reaction of the client. */
  function Step(s: ClientState, e: Event): ClientState {
    match e
    case ConnectCalled => AfterConnect(s)
    case SocketOpened(p) => AfterOpen(s, p)
    case SessionChanged(p) => AfterSessionChanged(s, p)
    case StreamingChanged(p) => AfterStreamingChanged(s, p)
    case RecordingChanged(p) => AfterRecordingChanged(s, p)
    case SocketClosed => AfterClose(s)
    case SocketError => s
    case ShowSceneCalled(id) => AfterShowScene(s, id)
    case ToggleStreamCalled => AfterToggleStream(s)
    case ToggleRecordCalled => AfterToggleRecord(s)
    case TimerFired(t) => AfterTimer(s, t)
  }

  /** The state after a sequence of events. */
  function Run(s: ClientState, es: seq<Event>): ClientState
    decreases |es|
  {
    if es == [] then s else Run(Step(s, es[0]), es[1..])
  }

  /**
   * The client holds a host object exactly when it reports itself
   * connected, and every pending marker has an outstanding fallback timer
   * that will clear it: no optimistic marker can hang forever.
   */
  predicate Invariant(s: ClientState) {
    && (s.isConnected <==> s.meld.Some?)
    && (s.pendingSceneId.Some? ==> Timer(ClearScene(s.pendingSceneId.value), FallbackMs) in s.timers)
    && (s.pendingStream ==> Timer(ClearStream, FallbackMs) in s.timers)
    && (s.pendingRecord ==> Timer(ClearRecord, FallbackMs) in s.timers)
  }

  lemma InitialInvariant()
    ensures Invariant(Initial)
  {
  }

  /** A fired timer removes one timer and clears at most the marker it covers. */
  lemma StillOutstanding(m: multiset<Timer>, t: Timer, u: Timer)
    requires u in m && u != t
    ensures u in m - multiset{t}
  {
  }

  lemma ClearSceneKeepsInvariant(s: ClientState, t: Timer, id: string)
    requires Invariant(s) && t in s.timers && t.task == ClearScene(id)
    ensures Invariant(RunTask(s.(timers := s.timers - multiset{t}), t.task))
  {
    var r := RunTask(s.(timers := s.timers - multiset{t}), t.task);
    if r.pendingSceneId.Some? {
      var u := Timer(ClearScene(r.pendingSceneId.value), FallbackMs);
      assert u != t;
      StillOutstanding(s.timers, t, u);
    }
    if r.pendingStream {
      StillOutstanding(s.timers, t, Timer(ClearStream, FallbackMs));
    }
    if r.pendingRecord {
      StillOutstanding(s.timers, t, Timer(ClearRecord, FallbackMs));
    }
  }

  lemma ClearStreamKeepsInvariant(s: ClientState, t: Timer)
    requires Invariant(s) && t in s.timers && t.task == ClearStream
    ensures Invariant(RunTask(s.(timers := s.timers - multiset{t}), t.task))
  {
    var r := RunTask(s.(timers := s.timers - multiset{t}), t.task);
    if r.pendingSceneId.Some? {
      StillOutstanding(s.timers, t, Timer(ClearScene(r.pendingSceneId.value), FallbackMs));
    }
    if r.pendingRecord {
      StillOutstanding(s.timers, t, Timer(ClearRecord, FallbackMs));
    }
  }

  lemma ClearRecordKeepsInvariant(s: ClientState, t: Timer)
    requires Invariant(s) && t in s.timers && t.task == ClearRecord
    ensures Invariant(RunTask(s.(timers := s.timers - multiset{t}), t.task))
  {
    var r := RunTask(s.(timers := s.timers - multiset{t}), t.task);
    if r.pendingSceneId.Some? {
      StillOutstanding(s.timers, t, Timer(ClearScene(r.pendingSceneId.value), FallbackMs));
    }
    if r.pendingStream {
      StillOutstanding(s.timers, t, Timer(ClearStream, FallbackMs));
    }
  }

  lemma ReconnectKeepsInvariant(s: ClientState, t: Timer)
    requires Invariant(s) && t in s.timers && t.task == Reconnect
    ensures Invariant(RunTask(s.(timers := s.timers - multiset{t}), t.task))
  {
    var r := RunTask(s.(timers := s.timers - multiset{t}), t.task);
    if r.pendingSceneId.Some? {
      StillOutstanding(s.timers, t, Timer(ClearScene(r.pendingSceneId.value), FallbackMs));
    }
    if r.pendingStream {
      StillOutstanding(s.timers, t, Timer(ClearStream, FallbackMs));
    }
    if r.pendingRecord {
      StillOutstanding(s.timers, t, Timer(ClearRecord, FallbackMs));
    }
  }

  /** A fired timer clears at most the marker it covers, so the other markers stay covered. */
  lemma TimerKeepsInvariant(s: ClientState, t: Timer)
    requires Invariant(s)
    ensures Invariant(AfterTimer(s, t))
  {
    if t in s.timers {
      match t.task
      case ClearScene(id) => ClearSceneKeepsInvariant(s, t, id);
      case ClearStream => ClearStreamKeepsInvariant(s, t);
      case ClearRecord => ClearRecordKeepsInvariant(s, t);
      case Reconnect => ReconnectKeepsInvariant(s, t);
    }
  }

  lemma SessionChangedKeepsInvariant(s: ClientState, p: Proxy)
    requires Invariant(s)
    ensures Invariant(AfterSessionChanged(s, p))
  {
    var seen := if s.meld.Some? then s.(meld := Some(p)) else s;
    assert Invariant(Refreshed(seen));
  }

  lemma StepKeepsInvariant(s: ClientState, e: Event)
    requires Invariant(s)
    ensures Invariant(Step(s, e))
  {
    match e
    case TimerFired(t) => TimerKeepsInvariant(s, t);
    case SessionChanged(p) => SessionChangedKeepsInvariant(s, p);
    case _ =>
  }

  lemma {:induction false} RunKeepsInvariant(s: ClientState, es: seq<Event>)
    requires Invariant(s)
    ensures Invariant(Run(s, es))
    decreases |es|
  {
    if es != [] {
      StepKeepsInvariant(s, es[0]);
      RunKeepsInvariant(Step(s, es[0]), es[1..]);
    }
  }

  /** Every state the client reaches from its initial state keeps the invariant. */
  lemma ReachableInvariant(es: seq<Event>)
    ensures Invariant(Run(Initial, es))
  {
    RunKeepsInvariant(Initial, es);
  }

  /** Without a host object the three command verbs and `updateState` change nothing and call nothing. */
  lemma VerbsWithoutProxyAreNoops(s: ClientState, id: string)
    requires s.meld.None?
    ensures Step(s, ShowSceneCalled(id)) == s
    ensures Step(s, ToggleStreamCalled) == s
    ensures Step(s, ToggleRecordCalled) == s
    ensures Refreshed(s) == s
  {
  }

  /**
   * With a host object, `showScene(id)` marks `id` pending, makes exactly
   * one call, schedules one fallback, and changes nothing else.
   */
  lemma ShowSceneWhenConnected(s: ClientState, id: string)
    requires s.meld.Some?
    ensures Step(s, ShowSceneCalled(id)) ==
              s.(pendingSceneId := Some(id), calls := s.calls + [CallShowScene(id)],
                 timers := s.timers + multiset{Timer(ClearScene(id), FallbackMs)})
  {
  }

  /** A scene fallback clears the pending scene only when it is still its own id. */
  lemma SceneFallbackChecksId(s: ClientState, id: string)
    requires Timer(ClearScene(id), FallbackMs) in s.timers
    ensures Step(s, TimerFired(Timer(ClearScene(id), FallbackMs))).pendingSceneId ==
              if s.pendingSceneId == Some(id) then None else s.pendingSceneId
  {
  }

  /**
   * Two `showScene` calls in quick succession: the first call's fallback
   * leaves the second call's pending scene in place.
   */
  lemma NewerPendingSceneSurvives(s: ClientState, a: string, b: string)
    requires s.meld.Some? && a != b
    ensures
      var s2 := Step(Step(s, ShowSceneCalled(a)), ShowSceneCalled(b));
      Step(s2, TimerFired(Timer(ClearScene(a), FallbackMs))).pendingSceneId == Some(b)
  {
  }

  /**
   * The stream fallback clears unconditionally: after two quick toggles,
   * the first toggle's fallback clears the marker the second one set,
   * although the second one's fallback is still outstanding.
   */
  lemma StaleStreamFallbackClearsNewer(s: ClientState)
    requires s.meld.Some?
    ensures
      var s2 := Step(Step(s, ToggleStreamCalled), ToggleStreamCalled);
      var s3 := Step(s2, TimerFired(Timer(ClearStream, FallbackMs)));
      s2.pendingStream && !s3.pendingStream && Timer(ClearStream, FallbackMs) in s3.timers
  {
    var t := Timer(ClearStream, FallbackMs);
    var s1 := AfterToggleStream(s);
    var s2 := AfterToggleStream(s1);
    assert s2.timers == s.timers + multiset{t} + multiset{t};
    assert s2.timers[t] == s.timers[t] + 2;
    assert Step(s2, TimerFired(t)) == RunTask(s2.(timers := s2.timers - multiset{t}), ClearStream);
  }

  /**
   * On a session signal while connected, the snapshot and both flags are
   * replaced from the host object; apart from the pending scene, nothing
   * else changes.
   */
  lemma SessionChangedReplacesSnapshot(s: ClientState, p: Proxy)
    requires s.meld.Some?
    ensures
      var r := Step(s, SessionChanged(p));
      && r.items == p.items && r.isStreaming == p.isStreaming && r.isRecording == p.isRecording
      && r.meld == Some(p)
      && r == s.(items := p.items, isStreaming := p.isStreaming, isRecording := p.isRecording,
                 meld := Some(p), pendingSceneId := r.pendingSceneId)
  {
    var t := Refreshed(s.(meld := Some(p)));
    assert Step(s, SessionChanged(p)) == ClearConfirmedScene(t);
    assert t == s.(items := p.items, isStreaming := p.isStreaming, isRecording := p.isRecording, meld := Some(p));
  }

  /**
   * On a session signal while connected, the pending scene is cleared
   * exactly when the first current scene of the new view has the pending
   * id; otherwise it stays as it was.
   */
  lemma SessionChangedPendingScene(s: ClientState, p: Proxy)
    requires s.meld.Some?
    ensures
      var r := Step(s, SessionChanged(p));
      var view := SceneView(p.items);
      && (r.pendingSceneId == None || r.pendingSceneId == s.pendingSceneId)
      && (r.pendingSceneId != s.pendingSceneId <==>
            s.pendingSceneId.Some? &&
            exists i :: 0 <= i < |view| && view[i].current && view[i].id == s.pendingSceneId.value
                        && FirstFrom(view, IsCurrent, i))
  {
    var t := Refreshed(s.(meld := Some(p)));
    assert Step(s, SessionChanged(p)) == ClearConfirmedScene(t);
    assert t.items == p.items && t.pendingSceneId == s.pendingSceneId;
    ClearConfirmedSceneEffect(t);
  }

  /**
   * The pending-scene check either keeps the pending scene or clears it,
   * and clears it exactly when the first current scene of the view has its id.
   */
  lemma ClearConfirmedSceneEffect(t: ClientState)
    ensures
      var r := ClearConfirmedScene(t);
      var view := SceneView(t.items);
      && (r.pendingSceneId == None || r.pendingSceneId == t.pendingSceneId)
      && (r.pendingSceneId != t.pendingSceneId <==>
            t.pendingSceneId.Some? &&
            exists i :: 0 <= i < |view| && view[i].current && view[i].id == t.pendingSceneId.value
                        && FirstFrom(view, IsCurrent, i))
  {
    var view := SceneView(t.items);
    var f := Find(view, IsCurrent);
    if f.Some? && t.pendingSceneId.Some? {
      var k :| 0 <= k < |view| && view[k] == f.value && IsCurrent(view[k]) && FirstFrom(view, IsCurrent, k);
      if exists i :: 0 <= i < |view| && view[i].current && view[i].id == t.pendingSceneId.value
                     && FirstFrom(view, IsCurrent, i) {
        var i :| 0 <= i < |view| && view[i].current && view[i].id == t.pendingSceneId.value
                 && FirstFrom(view, IsCurrent, i);
        FirstIsUnique(view, IsCurrent, i, k);
      }
    }
  }

  lemma FirstIsUnique(xs: seq<Scene>, p: Scene -> bool, i: int, k: int)
    requires 0 <= i < |xs| && 0 <= k < |xs|
    requires p(xs[i]) && FirstFrom(xs, p, i)
    requires p(xs[k]) && FirstFrom(xs, p, k)
    ensures i == k
  {
  }

  /**
   * When the new snapshot has at most one current scene item, the pending
   * scene is cleared exactly when the current scene item has the pending id.
   */
  lemma SessionChangedClearsConfirmedScene(s: ClientState, p: Proxy)
    requires s.meld.Some? && s.pendingSceneId.Some?
    requires CurrentSceneItems(p.items) <= 1
    ensures Step(s, SessionChanged(p)).pendingSceneId == None <==>
              exists e :: e in p.items && IsScene(e) && e.item.current && e.key == s.pendingSceneId.value
  {
    var seen := s.(meld := Some(p));
    assert Step(s, SessionChanged(p)) == ClearConfirmedScene(Refreshed(seen));
    assert Refreshed(seen).items == p.items;
    FirstCurrentIsTheCurrentItem(p.items, s.pendingSceneId.value);
  }

  /** A stream signal takes the host's flag and clears the pending stream marker. */
  lemma StreamingChangedEffect(s: ClientState, p: Proxy)
    requires s.meld.Some?
    ensures
      var r := Step(s, StreamingChanged(p));
      r.isStreaming == p.isStreaming && !r.pendingStream &&
      r == s.(meld := Some(p), isStreaming := r.isStreaming, pendingStream := false)
  {
  }

  /** A record signal takes the host's flag and clears the pending record marker. */
  lemma RecordingChangedEffect(s: ClientState, p: Proxy)
    requires s.meld.Some?
    ensures
      var r := Step(s, RecordingChanged(p));
      r.isRecording == p.isRecording && !r.pendingRecord &&
      r == s.(meld := Some(p), isRecording := r.isRecording, pendingRecord := false)
  {
  }

  /** `n` consecutive closes. */
  function Closes(n: nat): (es: seq<Event>)
    ensures |es| == n
    ensures forall i :: 0 <= i < n ==> es[i] == SocketClosed
  {
    if n == 0 then [] else [SocketClosed] + Closes(n - 1)
  }

  /**
   * A close disconnects and drops the host object, keeps the snapshot and
   * the pending markers, and schedules exactly one reconnect 5000 ms later;
   * `n` closes schedule `n` reconnects.
   */
  lemma {:induction false} ClosesScheduleReconnects(s: ClientState, n: nat)
    ensures Run(s, Closes(n)) ==
              if n == 0 then s
              else s.(isConnected := false, meld := None,
                      timers := s.timers[ReconnectTimer := s.timers[ReconnectTimer] + n])
    decreases n
  {
    if n > 0 {
      var s1 := AfterClose(s);
      assert Closes(n)[0] == SocketClosed && Closes(n)[1..] == Closes(n - 1);
      assert Run(s, Closes(n)) == Run(s1, Closes(n - 1));
      ClosesScheduleReconnects(s1, n - 1);
      OneMoreReconnect(s.timers, n - 1);
      var expected := s.(isConnected := false, meld := None,
                         timers := s.timers[ReconnectTimer := s.timers[ReconnectTimer] + n]);
      if n == 1 {
        assert Run(s1, Closes(0)) == s1 == expected;
      } else {
        assert s1.timers == s.timers + multiset{ReconnectTimer};
        assert Run(s1, Closes(n - 1)) == s1.(timers := expected.timers) == expected;
      }
    }
  }

  /** Adding one reconnect timer and then `k` more adds `k + 1`. */
  lemma OneMoreReconnect(m: multiset<Timer>, k: nat)
    ensures (m + multiset{ReconnectTimer})[ReconnectTimer := (m + multiset{ReconnectTimer})[ReconnectTimer] + k] ==
              m[ReconnectTimer := m[ReconnectTimer] + k + 1]
    ensures m + multiset{ReconnectTimer} == m[ReconnectTimer := m[ReconnectTimer] + 1]
  {
  }

  class MeldClient {
    const address: string
    const port: int

    var items: Snapshot
    var isStreaming: bool
    var isRecording: bool
    var isConnected: bool
    var pendingSceneId: Option<string>
    var pendingStream: bool
    var pendingRecord: bool
    /** The host object, `null` while there is none. */
    var meld: Option<Proxy>
    /** How many sockets `connect` has opened; the socket itself is I/O. */
    var sockets: nat

    ghost var calls: seq<ProxyCall>
    ghost var timers: multiset<Timer>

    ghost function Model(): ClientState
      reads this
    {
      ClientState(items, isStreaming, isRecording, isConnected, pendingSceneId,
                  pendingStream, pendingRecord, meld, sockets, calls, timers)
    }

    ghost predicate Valid()
      reads this
    {
      Invariant(Model())
    }

    constructor(address: string := DefaultAddress, port: int := DefaultPort)
      ensures Valid() && Model() == Initial
      ensures this.address == address && this.port == port
    {
      this.address := address;
      this.port := port;
      items := [];
      isStreaming, isRecording, isConnected := false, false, false;
      pendingSceneId, pendingStream, pendingRecord := None, false, false;
      meld := None;
      sockets := 0;
      calls := [];
      timers := multiset{};
    }

    /** `connect`: opens a socket whose events arrive as the methods below. */
    method Connect()
      requires Valid()
      modifies this
      ensures Valid() && Model() == AfterConnect(old(Model()))
    {
      sockets := sockets + 1;
    }

    method UpdateState()
      modifies this
      ensures Model() == Refreshed(old(Model()))
    {
      if meld.Some? {
        items := meld.value.items;
        isStreaming := meld.value.isStreaming;
        isRecording := meld.value.isRecording;
      }
    }

    /** The socket opened and the handshake yielded the host object. */
    method OnOpen(proxy: Proxy)
      requires Valid()
      modifies this
      ensures Valid() && Model() == AfterOpen(old(Model()), proxy)
    {
      meld := Some(proxy);
      isConnected := true;
      UpdateState();
    }

    method OnSessionChanged(proxy: Proxy)
      requires Valid()
      modifies this
      ensures Valid() && Model() == AfterSessionChanged(old(Model()), proxy)
    {
      SessionChangedKeepsInvariant(Model(), proxy);
      if meld.Some? {
        meld := Some(proxy);
      }
      UpdateState();
      ClearPendingIfCurrent();
    }

    /** Clears the pending scene when the first current scene of the view is that scene. */
    method ClearPendingIfCurrent()
      modifies this
      ensures Model() == ClearConfirmedScene(old(Model()))
    {
      var current := Find(Scenes(), IsCurrent);
      if current.Some? && pendingSceneId == Some(current.value.id) {
        pendingSceneId := None;
      }
    }

    method OnStreamingChanged(proxy: Proxy)
      requires Valid()
      modifies this
      ensures Valid() && Model() == AfterStreamingChanged(old(Model()), proxy)
    {
      if meld.Some? {
        meld := Some(proxy);
        isStreaming := proxy.isStreaming;
        pendingStream := false;
      }
    }

    method OnRecordingChanged(proxy: Proxy)
      requires Valid()
      modifies this
      ensures Valid() && Model() == AfterRecordingChanged(old(Model()), proxy)
    {
      if meld.Some? {
        meld := Some(proxy);
        isRecording := proxy.isRecording;
        pendingRecord := false;
      }
    }

    method OnClose()
      requires Valid()
      modifies this
      ensures Valid() && Model() == AfterClose(old(Model()))
    {
      isConnected := false;
      meld := None;
      timers := timers + multiset{ReconnectTimer};
    }

    /** A socket error is only logged. */
    method OnError()
      requires Valid()
      ensures Model() == Step(Model(), SocketError)
    {
    }

    /** The `scenes` getter. */
    function Scenes(): seq<Scene>
      reads this
    {
      SceneView(items)
    }

    method ShowScene(id: string)
      requires Valid()
      modifies this
      ensures Valid() && Model() == AfterShowScene(old(Model()), id)
    {
      if meld.Some? {
        pendingSceneId := Some(id);
        calls := calls + [CallShowScene(id)];
        timers := timers + multiset{Timer(ClearScene(id), FallbackMs)};
      }
    }

    method ToggleStream()
      requires Valid()
      modifies this
      ensures Valid() && Model() == AfterToggleStream(old(Model()))
    {
      if meld.Some? {
        pendingStream := true;
        calls := calls + [CallToggleStream];
        timers := timers + multiset{Timer(ClearStream, FallbackMs)};
      }
    }

    method ToggleRecord()
      requires Valid()
      modifies this
      ensures Valid() && Model() == AfterToggleRecord(old(Model()))
    {
      if meld.Some? {
        pendingRecord := true;
        calls := calls + [CallToggleRecord];
        timers := timers + multiset{Timer(ClearRecord, FallbackMs)};
      }
    }

    /** The 3000 ms fallback scheduled by `showScene(id)` fires. */
    method SceneFallbackFired(id: string)
      requires Valid() && Timer(ClearScene(id), FallbackMs) in timers
      modifies this
      ensures Valid() && Model() == AfterTimer(old(Model()), Timer(ClearScene(id), FallbackMs))
    {
      var t := Timer(ClearScene(id), FallbackMs);
      TimerKeepsInvariant(Model(), t);
      ghost var before := Model();
      assert AfterTimer(before, t) == RunTask(before.(timers := before.timers - multiset{t}), ClearScene(id));
      timers := timers - multiset{t};
      if pendingSceneId == Some(id) {
        pendingSceneId := None;
      }
      assert Model() == AfterTimer(before, t);
    }

    /** The 3000 ms fallback scheduled by `toggleStream` fires. */
    method StreamFallbackFired()
      requires Valid() && Timer(ClearStream, FallbackMs) in timers
      modifies this
      ensures Valid() && Model() == AfterTimer(old(Model()), Timer(ClearStream, FallbackMs))
    {
      TimerKeepsInvariant(Model(), Timer(ClearStream, FallbackMs));
      timers := timers - multiset{Timer(ClearStream, FallbackMs)};
      pendingStream := false;
    }

    /** The 3000 ms fallback scheduled by `toggleRecord` fires. */
    method RecordFallbackFired()
      requires Valid() && Timer(ClearRecord, FallbackMs) in timers
      modifies this
      ensures Valid() && Model() == AfterTimer(old(Model()), Timer(ClearRecord, FallbackMs))
    {
      TimerKeepsInvariant(Model(), Timer(ClearRecord, FallbackMs));
      timers := timers - multiset{Timer(ClearRecord, FallbackMs)};
      pendingRecord := false;
    }

    /** The 5000 ms reconnect scheduled by a close fires and calls `connect` again. */
    method ReconnectFired()
      requires Valid() && ReconnectTimer in timers
      modifies this
      ensures Valid() && Model() == AfterTimer(old(Model()), ReconnectTimer)
    {
      TimerKeepsInvariant(Model(), ReconnectTimer);
      ghost var before := Model();
      assert AfterTimer(before, ReconnectTimer) == AfterConnect(before.(timers := before.timers - multiset{ReconnectTimer}));
      timers := timers - multiset{ReconnectTimer};
      Connect();
    }
  }
}
