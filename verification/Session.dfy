/** The whole application as a transition system: the handlers of MainActivity and
    Home on the UI thread, and the native engines that they create and destroy, each
    with its looper and status thread running in between.

    A handler that disconnects a box does not return before the engine of that box is
    destroyed, so it is cut in two: the label that begins it, and FinishDisconnect. */
module Sessions {
  import opened Messages
  import P = Protocol
  import I = ProtocolInvariant
  import opened Boxes
  import opened Painters
  import opened Apps
  import opened Handles

  /** What the UI thread is in the middle of. */
  datatype Ui =
    | Listening                // between two events
    | Switching(target: nat)   // in connectFreebox (target), disconnecting the active box
    | Pausing                  // in onPause, disconnecting the active box
    | Attaching(handle: nat)   // in Freebox.connect

  /** A status posted to the UI handler by the status thread of an engine. */
  datatype Post = Post(handle: nat, name: string)

  datatype State = State(
    app: App<nat>,
    ui: Ui, resumed: bool, started: bool,
    engines: map<nat, P.State>,  // the native Rcu objects that exist, by handle
    current: nat,                // the static pointer Rcu::_current_rcu, 0 for null
    nextHandle: nat, nextId: nat, capacity: nat,
    log: seq<Post>, delivered: nat,  // the UI queue of statuses, and how many it has handed out
    base: nat)                       // where the posts of the existing engine begin in log

  datatype Action =
    | Resume | Pause
    | GoNext | GoPrevious
    | Detected(address: string, port: int)
    | Deliver
    | FinishDisconnect | FinishConnect
    | Engine(handle: nat, step: P.Action)

  /** A new process, with what an earlier one has saved, if anything. */
  function Init(capacity: nat, pool: Option<seq<Record>>): State {
    State(App(map[], [], None, false, pool, Blank()),
          Listening, false, false, map[], 0, 1, 0, capacity, [], 0, 0)
  }

  /** The UI thread can take the next event: it is not inside a blocking write. */
  predicate Free(s: State) {
    s.ui.Listening? && forall h :: h in s.engines ==> s.engines[h].ui.Ready?
  }

  /** Which labels of an engine the UI thread may take, given where it stands. */
  predicate UiMay(s: State, h: nat, u: P.UiAction) {
    match s.ui
    case Listening => (u.SendKey? || u.WriteKey?) && h == ActiveHandle(s.app)
    case Switching(_) => I.Disconnects(u) && h == ActiveHandle(s.app)
    case Pausing => I.Disconnects(u) && h == ActiveHandle(s.app)
    case Attaching(k) => !I.Disconnects(u) && !u.SendKey? && !u.WriteKey? && h == k
  }

  predicate Enabled(s: State, x: Action) {
    match x
    case Resume => Free(s) && !s.resumed
    case Pause => Free(s) && s.resumed
    case GoNext => Free(s) && s.resumed
    case GoPrevious => Free(s) && s.resumed
    case Detected(_, _) => Free(s) && s.started
    case Deliver => Free(s) && s.delivered < |s.log|
    case FinishDisconnect =>
      && (s.ui.Switching? || s.ui.Pausing?)
      && var h := ActiveHandle(s.app); h in s.engines ==> s.engines[h].ui.Destroyed?
    case FinishConnect =>
      s.ui.Attaching? && s.ui.handle in s.engines && s.engines[s.ui.handle].ui.Ready?
    case Engine(h, a) =>
      && h in s.engines && P.Enabled(s.engines[h], a)
      && (a.ByUi? ==> UiMay(s, h, a.u))
  }

  /** connectFreebox (target), up to the disconnection of the active box. */
  function Switch(s: State, a: App<nat>, target: nat): State
    requires Closed(a)
  {
    s.(app := ReleaseFocus(a), ui := Switching(target))
  }

  function SwitchTo(s: State, k: Option<nat>): State
    requires Closed(s.app)
  {
    if k.Some? && k.value < |s.app.registry| then Switch(s, s.app, s.app.registry[k.value]) else s
  }

  function NewIds(from: nat, n: nat): (ids: seq<nat>)
    ensures |ids| == n
    ensures forall i :: 0 <= i < n ==> ids[i] == from + i
  {
    seq(n, i => from + i)
  }

  /** Freebox.connect on the new active box. */
  function Attach(s: State, a: App<nat>, target: nat): State
    requires Closed(a) && target in a.objs
  {
    if Connectable(a.objs[target]) then
      s.(app := Activate(a, target, s.nextHandle),
         ui := Attaching(s.nextHandle),
         engines := s.engines[s.nextHandle := P.Init(s.capacity)],
         nextHandle := s.nextHandle + 1)
    else s.(app := Activate(a, target, 0), ui := Listening)
  }

  /** The return of Freebox.disconnect: the engine of the active box is no more. */
  function Detach(s: State): State
    requires Closed(s.app)
  {
    s.(app := Disconnect(s.app), engines := s.engines - {ActiveHandle(s.app)}, base := |s.log|)
  }

  function EngineNext(s: State, h: nat, a: P.Action): State
    requires h in s.engines && P.Enabled(s.engines[h], a)
  {
    var e := s.engines[h];
    s.(engines := s.engines[h := P.Next(e, a)],
       current := if a == P.ByUi(P.OpenPipes) then h
                  else if a == P.ByUi(P.ClearCurrent) then 0 else s.current,
       log := if a == P.ByReader(P.PostStatus) then s.log + [Post(h, e.reader.name)] else s.log)
  }

  /** What the registry guarantees to the handlers. */
  ghost predicate Sound(s: State) {
    && RegistryOk(s.app)
    && (forall id :: id in s.app.objs ==> id < s.nextId)
    && (s.ui.Switching? ==> s.ui.target in s.app.objs)
  }

  /** The object that a sniffer has just made changes nothing to the registry. */
  lemma MadeKeepsRegistry(a: App<nat>, id: nat, b: Box)
    requires RegistryOk(a) && id !in a.objs
    ensures RegistryOk(a.(objs := a.objs[id := b]))
    ensures id !in a.registry
  {}

  function Made(s: State, address: string, port: int): App<nat> {
    s.app.(objs := s.app.objs[s.nextId := Sniffed(address, port)])
  }

  ghost function Next(s: State, x: Action): State
    requires Sound(s) && Enabled(s, x)
  {
    match x
    case Resume =>
      var n := |SavedRecords(s.app.pool)|;
      DiscloseKeepsRegistry(s.app, NewIds(s.nextId, n));
      var (a, focus) := Disclose(s.app, NewIds(s.nextId, n));
      var t := s.(app := a, nextId := s.nextId + n, resumed := true, started := true);
      if focus.Some? then Switch(t, a, focus.value) else t
    case Pause => s.(app := Conceal(s.app), ui := Pausing, resumed := false)
    case GoNext =>
      SwitchTo(s, NextReachable(Values(s.app.objs, s.app.registry), ActiveBox(s.app)))
    case GoPrevious =>
      SwitchTo(s, PreviousReachable(Values(s.app.objs, s.app.registry), ActiveBox(s.app)))
    case Detected(address, port) =>
      MadeKeepsRegistry(s.app, s.nextId, Sniffed(address, port));
      DetectKeepsRegistry(Made(s, address, port), s.nextId);
      var (a, target) := Detect(Made(s, address, port), s.nextId);
      var t := s.(app := a, nextId := s.nextId + 1);
      if !s.app.connected then Switch(t, a, target) else t
    case Deliver =>
      s.(app := Apps.OnStatus(s.app, s.log[s.delivered].name), delivered := s.delivered + 1)
    case FinishDisconnect =>
      var t := Detach(s);
      if s.ui.Switching? then Attach(t, t.app, s.ui.target) else t.(ui := Listening)
    case FinishConnect => s.(ui := Listening)
    case Engine(h, a) => EngineNext(s, h, a)
  }
}
