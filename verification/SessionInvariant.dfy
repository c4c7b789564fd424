/** What every reachable state of the application satisfies, and why. */
module SessionInvariant {
  import opened Messages
  import P = Protocol
  import I = ProtocolInvariant
  import T = ProtocolTheorems
  import opened Boxes
  import opened Apps
  import opened Handles
  import opened Sessions

  // ---- engines and handles

  /** How far an engine can be when the UI thread stands at `ui`. */
  predicate PhaseOk(ui: Ui, e: P.Ui) {
    match ui
    case Listening => e.Ready? || e.Sending?
    case Attaching(_) => e.Ready? || I.Phase(e) < 5
    case Switching(_) => e.Ready? || 6 <= I.Phase(e)
    case Pausing => e.Ready? || 6 <= I.Phase(e)
  }

  ghost predicate EngineOk(engines: map<nat, P.State>, h: nat) {
    h in engines ==> I.Inv(engines[h])
  }

  ghost predicate EnginesOk(engines: map<nat, P.State>) {
    forall h :: EngineOk(engines, h)
  }

  ghost predicate PhasesOk(ui: Ui, engines: map<nat, P.State>) {
    && (forall h :: h in engines ==> PhaseOk(ui, engines[h].ui))
    && (ui.Attaching? ==> ui.handle in engines)
  }

  /** The static pointer leads to the engine that believes so, and to no other. */
  ghost predicate CurrentOk(current: nat, engines: map<nat, P.State>) {
    && (forall h :: h in engines ==> (engines[h].objects.current <==> current == h))
    && (current != 0 ==> current in engines)
    && 0 !in engines
  }

  // ---- the queue of statuses

  function Tag(h: nat, names: seq<string>): (posts: seq<Post>)
    ensures |posts| == |names|
    ensures forall i :: 0 <= i < |names| ==> posts[i] == Post(h, names[i])
  {
    seq(|names|, i requires 0 <= i < |names| => Post(h, names[i]))
  }

  /** The queue is a sequence of sessions, one handle after the other, each closed by
      its "EXIT" before the next one begins. */
  ghost predicate Sectioned(log: seq<Post>) {
    forall i :: 0 <= i < |log| - 1 ==>
      if log[i].name == "EXIT" then log[i].handle < log[i + 1].handle
      else log[i].handle == log[i + 1].handle
  }

  /** The queue ends by the posts of the engine h, and all before them belongs to
      earlier engines; h is 0 when no engine exists. */
  ghost predicate LogOk(log: seq<Post>, base: nat, h: nat, posted: seq<string>, nextHandle: nat) {
    && Sectioned(log)
    && base <= |log|
    && (0 < base ==> log[base - 1].name == "EXIT")
    && (forall i :: 0 <= i < |log| ==> log[i].handle < nextHandle)
    && (if h == 0 then base == |log|
        else log[base..] == Tag(h, posted) && forall i :: 0 <= i < base ==> log[i].handle < h)
  }

  /** What the engine of the active box has posted. */
  function Posted(h: nat, engines: map<nat, P.State>): seq<string> {
    if h in engines then engines[h].posted else []
  }

  /** What mConnected says once the posts of `seen` have been handed out. */
  predicate Verdict(seen: seq<Post>) {
    seen != [] && seen[|seen| - 1].name == "connected"
  }

  // ---- the focus

  /** The box that has, or is about to have, the focus. */
  function Holder(s: State): Option<nat> {
    if s.ui.Switching? then Some(s.ui.target) else s.app.active
  }

  ghost predicate FocusInv(s: State) {
    && FocusOk(s.app, Holder(s))
    && ((s.ui.Listening? || s.ui.Attaching?) && s.app.active.Some? ==>
          s.app.active.value in s.app.objs && s.app.objs[s.app.active.value].focus)
    && (s.ui.Pausing? ==> s.app.registry == [])
  }

  ghost predicate Inv(s: State) {
    && Sound(s)
    && HandlesOk(s.app, s.engines.Keys, s.nextHandle)
    && EnginesOk(s.engines)
    && PhasesOk(s.ui, s.engines)
    && CurrentOk(s.current, s.engines)
    && LogOk(s.log, s.base, ActiveHandle(s.app), Posted(ActiveHandle(s.app), s.engines), s.nextHandle)
    && s.delivered <= |s.log|
    && s.app.connected == Verdict(s.log[..s.delivered])
    && FocusInv(s)
  }

  lemma InitInv(capacity: nat, pool: Option<seq<Record>>)
    requires PoolOk(SavedRecords(pool))
    ensures Inv(Init(capacity, pool))
  {}

  // ---- connectFreebox up to the disconnection

  /** A handler has brought the application to a, with the UI thread free. */
  ghost predicate Handled(s: State, a: App<nat>) {
    && Sound(s.(app := a)) && Free(s)
    && HandlesOk(a, s.engines.Keys, s.nextHandle)
    && EnginesOk(s.engines) && CurrentOk(s.current, s.engines)
    && LogOk(s.log, s.base, ActiveHandle(a), Posted(ActiveHandle(a), s.engines), s.nextHandle)
    && s.delivered <= |s.log| && a.connected == Verdict(s.log[..s.delivered])
  }

  /** What giving up the focus does to the application. */
  lemma ReleaseFacts(a: App<nat>, target: nat)
    requires RegistryOk(a) && (FocusOk(a, Some(target)) || FocusOk(a, a.active))
    ensures var t := ReleaseFocus(a);
      && RegistryOk(t) && FocusOk(t, Some(target))
      && ActiveHandle(t) == ActiveHandle(a) && t.objs.Keys == a.objs.Keys && t.connected == a.connected
  {
    ReleaseKeepsRegistry(a);
  }

  /** Beginning a switch from there. */
  lemma SwitchKeepsInv(s: State, a: App<nat>, target: nat)
    requires Handled(s, a) && target in a.objs
    requires FocusOk(a, Some(target)) || FocusOk(a, a.active)
    ensures Inv(Switch(s, a, target))
  {
    ReleaseFacts(a, target);
    ReleaseKeepsHandles(a, s.engines.Keys, s.nextHandle);
    SwitchedIsFine(s, a, ReleaseFocus(a), target);
  }

  lemma SwitchedIsFine(s: State, a: App<nat>, b: App<nat>, target: nat)
    requires Handled(s, a) && target in a.objs
    requires RegistryOk(b) && FocusOk(b, Some(target)) && HandlesOk(b, s.engines.Keys, s.nextHandle)
    requires ActiveHandle(b) == ActiveHandle(a) && b.objs.Keys == a.objs.Keys && b.connected == a.connected
    ensures Inv(s.(app := b, ui := Switching(target)))
  {}

  lemma SwitchToKeepsInv(s: State, k: Option<nat>)
    requires Inv(s) && Free(s)
    ensures Inv(SwitchTo(s, k))
  {
    if k.Some? && k.value < |s.app.registry| {
      SwitchKeepsInv(s, s.app, s.app.registry[k.value]);
    }
  }

  // ---- the handlers

  lemma ResumeHandled(s: State)
    requires Inv(s) && Enabled(s, Resume)
    ensures Recoverable(SavedRecords(s.app.pool))
    ensures var n := |SavedRecords(s.app.pool)|;
      Handled(s.(nextId := s.nextId + n), Disclose(s.app, NewIds(s.nextId, n)).0)
  {
    var n := |SavedRecords(s.app.pool)|;
    var ids := NewIds(s.nextId, n);
    DisclosedApp(s.app, ids, s.engines.Keys, s.nextHandle);
    DiscloseFrame(s.app, ids);
    ResumedIsHandled(s, n, Disclose(s.app, ids).0);
  }

  lemma ResumedIsHandled(s: State, n: nat, a: App<nat>)
    requires Inv(s) && Free(s)
    requires RegistryOk(a) && HandlesOk(a, s.engines.Keys, s.nextHandle)
    requires ActiveHandle(a) == ActiveHandle(s.app) && a.connected == s.app.connected
    requires forall id :: id in a.objs ==> id in s.app.objs || id < s.nextId + n
    ensures Handled(s.(nextId := s.nextId + n), a)
  {}

  lemma DisclosedApp(a: App<nat>, ids: seq<nat>, handles: set<nat>, nextHandle: nat)
    requires RegistryOk(a) && HandlesOk(a, handles, nextHandle)
    requires |ids| == |SavedRecords(a.pool)| && Fresh(ids, a.objs)
    ensures Recoverable(SavedRecords(a.pool))
    ensures var t := Disclose(a, ids).0;
      RegistryOk(t) && HandlesOk(t, handles, nextHandle) && ActiveHandle(t) == ActiveHandle(a)
  {
    DiscloseKeepsRegistry(a, ids);
    DiscloseFrame(a, ids);
  }

  lemma ResumeSelects(s: State)
    requires Sound(s)
    ensures Recoverable(SavedRecords(s.app.pool))
    ensures var (a, focus) := Disclose(s.app, NewIds(s.nextId, |SavedRecords(s.app.pool)|));
      && FocusOk(a, focus) && (focus.Some? ==> focus.value in a.objs)
      && (focus.None? ==> Unselected(s.app, a))
  {
    var ids := NewIds(s.nextId, |SavedRecords(s.app.pool)|);
    DiscloseKeepsRegistry(s.app, ids);
    DiscloseFrame(s.app, ids);
  }

  /** Nothing was recovered: the registry is empty, the active box is as it was. */
  ghost predicate Unselected(before: App<nat>, after: App<nat>) {
    && after.registry == [] && after.active == before.active
    && forall id :: id in before.objs ==> id in after.objs && after.objs[id] == before.objs[id]
  }

  lemma ResumeKeepsInv(s: State)
    requires Inv(s) && Enabled(s, Resume)
    ensures Inv(Next(s, Resume))
  {
    ResumeHandled(s);
    ResumeSelects(s);
    var n := |SavedRecords(s.app.pool)|;
    var (a, focus) := Disclose(s.app, NewIds(s.nextId, n));
    var t := s.(app := a, nextId := s.nextId + n, resumed := true, started := true);
    ResumedKeepsInv(s, t, focus);
  }

  lemma ResumedKeepsInv(s: State, t: State, focus: Option<nat>)
    requires FocusInv(s) && s.ui.Listening? && Handled(t, t.app) && t.ui == s.ui
    requires FocusOk(t.app, focus) && (focus.Some? ==> focus.value in t.app.objs)
    requires focus.None? ==> Unselected(s.app, t.app)
    ensures Inv(if focus.Some? then Switch(t, t.app, focus.value) else t)
  {
    if focus.Some? {
      SwitchKeepsInv(t, t.app, focus.value);
    }
  }

  lemma PauseKeepsInv(s: State)
    requires Inv(s) && Enabled(s, Pause)
    ensures Inv(Next(s, Pause))
  {
    ConcealKeepsRegistry(s.app, Holder(s));
  }

  lemma DetectedRegistry(s: State, address: string, port: int)
    requires Sound(s)
    ensures var made := Made(s, address, port);
      && Closed(made) && s.nextId in made.objs
      && RegistryOk(Detect(made, s.nextId).0) && Detect(made, s.nextId).1 in Detect(made, s.nextId).0.objs
  {
    DetectKeepsRegistry(Made(s, address, port), s.nextId);
  }

  lemma DetectedHandled(s: State, address: string, port: int)
    requires Inv(s) && Enabled(s, Detected(address, port))
    ensures Closed(Made(s, address, port)) && s.nextId in Made(s, address, port).objs
    ensures var (a, target) := Detect(Made(s, address, port), s.nextId);
      && Handled(s.(nextId := s.nextId + 1), a)
      && target in a.objs && FocusOk(a, a.active)
      && a.active == s.app.active && (a.active.Some? ==> a.objs[a.active.value].focus)
  {
    var made := Made(s, address, port);
    DetectedRegistry(s, address, port);
    DetectKeepsHandles(made, s.nextId, s.engines.Keys, s.nextHandle);
    DetectKeepsFocus(made, s.nextId, s.app.active);
  }

  lemma DetectedKeepsInv(s: State, address: string, port: int)
    requires Inv(s) && Enabled(s, Detected(address, port))
    ensures Inv(Next(s, Detected(address, port)))
  {
    DetectedHandled(s, address, port);
    var (a, target) := Detect(Made(s, address, port), s.nextId);
    if !s.app.connected {
      SwitchKeepsInv(s.(app := a, nextId := s.nextId + 1), a, target);
    }
  }

  lemma DeliverKeepsInv(s: State)
    requires Inv(s) && Enabled(s, Deliver)
    ensures Inv(Next(s, Deliver))
  {
    var n := s.delivered;
    assert s.log[..n + 1][n] == s.log[n];
  }

  // ---- the return of a disconnection

  /** When an engine is destroyed its last post was "EXIT". */
  lemma DestroyedEndsByExit(e: P.State)
    requires I.Inv(e) && e.ui.Destroyed?
    ensures e.posted != [] && e.posted[|e.posted| - 1] == "EXIT"
    ensures !e.objects.current
  {
    T.FinishedStream(e);
  }

  /** Once the engine is destroyed, the queue ends by an "EXIT" or is empty. */
  lemma DetachedLog(log: seq<Post>, base: nat, h: nat, posted: seq<string>, nextHandle: nat)
    requires LogOk(log, base, h, posted, nextHandle)
    requires h != 0 ==> posted != [] && posted[|posted| - 1] == "EXIT"
    ensures LogOk(log, |log|, 0, [], nextHandle)
  {}

  lemma DetachedCurrent(current: nat, engines: map<nat, P.State>, h: nat)
    requires CurrentOk(current, engines) && engines.Keys == (if h == 0 then {} else {h})
    requires h in engines ==> !engines[h].objects.current
    ensures current == 0 && engines - {h} == map[]
  {}

  lemma DetachedBoxes(a: App<nat>)
    requires Closed(a)
    ensures var t := Disconnect(a);
      && t.active.None? && t.objs.Keys == a.objs.Keys && t.registry == a.registry && t.connected == a.connected
      && forall id :: id in t.objs ==> t.objs[id].focus == a.objs[id].focus
  {}

  /** No box is active and no engine exists. */
  ghost predicate Detached(s: State) {
    && RegistryOk(s.app) && s.app.active.None? && s.engines == map[] && s.current == 0
    && (forall id :: id in s.app.objs ==> id < s.nextId)
    && HandlesOk(s.app, {}, s.nextHandle)
    && LogOk(s.log, s.base, 0, [], s.nextHandle) && s.base == |s.log|
    && s.delivered <= |s.log| && s.app.connected == Verdict(s.log[..s.delivered])
  }

  lemma DetachDetaches(s: State)
    requires Inv(s) && Enabled(s, FinishDisconnect)
    ensures Detached(Detach(s))
  {
    var h := ActiveHandle(s.app);
    assert EngineOk(s.engines, h);
    if h in s.engines {
      DestroyedEndsByExit(s.engines[h]);
    }
    DetachedLog(s.log, s.base, h, Posted(h, s.engines), s.nextHandle);
    DetachedCurrent(s.current, s.engines, h);
    DetachedBoxes(s.app);
    DisconnectKeepsRegistry(s.app);
    DisconnectKeepsHandles(s.app, s.engines.Keys, s.nextHandle);
  }

  lemma FinishDisconnectKeepsInv(s: State)
    requires Inv(s) && Enabled(s, FinishDisconnect)
    ensures Inv(Next(s, FinishDisconnect))
  {
    DetachDetaches(s);
    DetachedBoxes(s.app);
    var t := Detach(s);
    if s.ui.Switching? {
      AttachKeepsInv(t, s.ui.target);
    } else {
      NoEngineIsFine(t.(ui := Listening));
    }
  }

  lemma NoEngineIsFine(s: State)
    requires Detached(s) && s.ui.Listening? && s.app.registry == []
    ensures Inv(s)
  {}

  lemma AttachKeepsInv(s: State, target: nat)
    requires Detached(s) && target in s.app.objs && FocusOk(s.app, Some(target))
    ensures Inv(Attach(s, s.app, target))
  {
    if Connectable(s.app.objs[target]) {
      AttachesEngine(s, target);
    } else {
      ActivateFocus(s.app, target, 0);
    }
  }

  lemma AttachesEngine(s: State, target: nat)
    requires Detached(s) && target in s.app.objs && FocusOk(s.app, Some(target))
    requires Connectable(s.app.objs[target])
    ensures Inv(Attach(s, s.app, target))
  {
    ActivateKeepsHandles(s.app, target, s.nextHandle);
    ActivateKeepsRegistry(s.app, target, s.nextHandle);
    ActivateFocus(s.app, target, s.nextHandle);
    NewEngineIsFine(s, s.nextHandle);
    AttachedIsFine(s, Attach(s, s.app, target), target, s.nextHandle);
  }

  lemma ActivateFocus(a: App<nat>, target: nat, h: nat)
    requires Closed(a) && target in a.objs && FocusOk(a, Some(target))
    ensures var t := Activate(a, target, h);
      && FocusOk(t, Some(target)) && t.active == Some(target) && t.objs[target].focus
      && t.objs.Keys == a.objs.Keys && t.connected == a.connected
  {}

  lemma AttachedIsFine(s: State, t: State, target: nat, h: nat)
    requires Detached(s) && h == s.nextHandle
    requires t == s.(app := t.app, ui := Attaching(h), engines := t.engines, nextHandle := h + 1)
    requires RegistryOk(t.app) && HandlesOk(t.app, {h}, h + 1) && ActiveHandle(t.app) == h
    requires FocusOk(t.app, Some(target)) && t.app.active == Some(target) && t.app.objs[target].focus
    requires t.app.objs.Keys == s.app.objs.Keys && t.app.connected == s.app.connected
    requires t.engines.Keys == {h} && EnginesOk(t.engines) && PhasesOk(t.ui, t.engines) && CurrentOk(0, t.engines)
    requires LogOk(s.log, s.base, h, Posted(h, t.engines), h + 1)
    ensures Inv(t)
  {}

  lemma NewEngineIsFine(s: State, h: nat)
    requires s.engines == map[] && h == s.nextHandle && 0 < h && s.current == 0
    requires LogOk(s.log, s.base, 0, [], h) && s.base == |s.log|
    ensures var engines := s.engines[h := P.Init(s.capacity)];
      && engines.Keys == {h}
      && EnginesOk(engines) && PhasesOk(Attaching(h), engines) && CurrentOk(0, engines)
      && LogOk(s.log, s.base, h, Posted(h, engines), h + 1)
  {}

  // ---- the steps of an engine

  lemma EngineFrame(e: P.State, a: P.Action)
    requires P.Enabled(e, a) && I.Inv(e)
    ensures var f := P.Next(e, a);
      && I.Inv(f)
      && (a.ByUi? || f.ui == e.ui)
      && (f.objects.current == (if a == P.ByUi(P.OpenPipes) then true
                                else if a == P.ByUi(P.ClearCurrent) then false else e.objects.current))
      && f.posted == (if a == P.ByReader(P.PostStatus) then e.posted + [e.reader.name] else e.posted)
      && (a == P.ByReader(P.PostStatus) ==> "EXIT" !in e.posted)
  {
    T.FinishedStream(e);
    I.InvKept(e, a);
    match a
    case ByUi(u) => UiFrame(e, u);
    case ByLooper(l) => I.LooperFrame(e, l);
    case ByReader(r) =>
  }

  lemma UiFrame(e: P.State, u: P.UiAction)
    requires P.UiEnabled(e, u)
    ensures var f := P.UiNext(e, u);
      && f.posted == e.posted
      && f.objects.current == (if u.OpenPipes? then true else if u.ClearCurrent? then false else e.objects.current)
  {}

  lemma UiKeepsPhase(s: State, h: nat, u: P.UiAction)
    requires Inv(s) && h in s.engines && P.UiEnabled(s.engines[h], u) && UiMay(s, h, u)
    ensures PhaseOk(s.ui, P.UiNext(s.engines[h], u).ui)
  {
    assert EngineOk(s.engines, h);
    MayStaysIn(s.ui, s.engines[h], u);
  }

  lemma MayStaysIn(ui: Ui, e: P.State, u: P.UiAction)
    requires PhaseOk(ui, e.ui) && P.UiEnabled(e, u) && e.objects == I.ObjectsAt(I.Phase(e.ui))
    requires match ui
      case Listening => u.SendKey? || u.WriteKey?
      case Attaching(_) => !I.Disconnects(u) && !u.SendKey? && !u.WriteKey?
      case _ => I.Disconnects(u)
    ensures PhaseOk(ui, P.UiNext(e, u).ui)
  {
    match ui
    case Listening =>
    case Attaching(_) => ConnectingStaysIn(e, u);
    case _ => DisconnectingStaysIn(e, u);
  }

  lemma ConnectingStaysIn(e: P.State, u: P.UiAction)
    requires P.UiEnabled(e, u) && !I.Disconnects(u) && !u.SendKey? && !u.WriteKey?
    ensures var f := P.UiNext(e, u); f.ui.Ready? || I.Phase(f.ui) < 5
  {}

  lemma DisconnectingStaysIn(e: P.State, u: P.UiAction)
    requires P.UiEnabled(e, u) && I.Disconnects(u)
    ensures 6 <= I.Phase(P.UiNext(e, u).ui)
  {}

  lemma OnlyOne(s: State, h: nat)
    requires HandlesOk(s.app, s.engines.Keys, s.nextHandle) && h in s.engines
    ensures h == ActiveHandle(s.app) && forall k :: k in s.engines ==> k == h
  {}

  lemma EngineKeepsInv(s: State, h: nat, a: P.Action)
    requires Inv(s) && Enabled(s, Engine(h, a))
    ensures Inv(Next(s, Engine(h, a)))
  {
    var e, t := s.engines[h], EngineNext(s, h, a);
    OnlyOne(s, h);
    assert EngineOk(s.engines, h);
    EngineFrame(e, a);
    EnginePhase(s, h, a);
    var f := P.Next(e, a);
    PointerFollows(s.current, t.current, s.engines, h, f);
    PostKeepsLog(s.log, s.base, h, e.posted, f.posted, e.reader, a, s.nextHandle);
    MovedEngineIsFine(s.ui, s.engines, h, f);
    MovedIsFine(s, t, f);
  }

  /** The static pointer follows the only engine. */
  lemma PointerFollows(before: nat, after: nat, engines: map<nat, P.State>, h: nat, f: P.State)
    requires CurrentOk(before, engines) && h in engines && forall k :: k in engines ==> k == h
    requires (after == h && f.objects.current) || (after == 0 && !f.objects.current)
      || (after == before && f.objects.current == engines[h].objects.current)
    ensures CurrentOk(after, engines[h := f])
  {}

  lemma EnginePhase(s: State, h: nat, a: P.Action)
    requires Inv(s) && Enabled(s, Engine(h, a))
    ensures PhaseOk(s.ui, P.Next(s.engines[h], a).ui)
  {
    assert EngineOk(s.engines, h);
    EngineFrame(s.engines[h], a);
    if a.ByUi? {
      UiKeepsPhase(s, h, a.u);
    }
  }

  /** Replacing the only engine by its next state. */
  lemma MovedEngineIsFine(ui: Ui, engines: map<nat, P.State>, h: nat, f: P.State)
    requires EnginesOk(engines) && PhasesOk(ui, engines) && h in engines
    requires I.Inv(f) && PhaseOk(ui, f.ui)
    ensures var moved := engines[h := f];
      && moved.Keys == engines.Keys && EnginesOk(moved) && PhasesOk(ui, moved) && Posted(h, moved) == f.posted
  {
    var moved := engines[h := f];
    forall k ensures EngineOk(moved, k) {
      assert EngineOk(engines, k);
    }
  }

  lemma MovedIsFine(s: State, t: State, f: P.State)
    requires Inv(s) && ActiveHandle(s.app) in s.engines
    requires t == s.(engines := s.engines[ActiveHandle(s.app) := f], current := t.current, log := t.log)
    requires t.engines.Keys == s.engines.Keys && EnginesOk(t.engines) && PhasesOk(t.ui, t.engines)
    requires CurrentOk(t.current, t.engines) && s.log <= t.log
    requires LogOk(t.log, s.base, ActiveHandle(s.app), Posted(ActiveHandle(s.app), t.engines), s.nextHandle)
    ensures Inv(t)
  {
    assert s.log[..s.delivered] == t.log[..s.delivered];
  }

  lemma PostKeepsLog(log: seq<Post>, base: nat, h: nat, posted: seq<string>, after: seq<string>,
                     reader: P.Reader, a: P.Action, nextHandle: nat)
    requires LogOk(log, base, h, posted, nextHandle) && 0 < h < nextHandle
    requires a == P.ByReader(P.PostStatus) ==> reader.Posting? && "EXIT" !in posted && after == posted + [reader.name]
    requires a != P.ByReader(P.PostStatus) ==> after == posted
    ensures LogOk(if a == P.ByReader(P.PostStatus) then log + [Post(h, reader.name)] else log, base, h, after, nextHandle)
  {
    if a == P.ByReader(P.PostStatus) {
      AppendKeepsSections(log, base, h, posted, reader.name);
      AppendKeepsTail(log, base, h, posted, reader.name);
    }
  }

  lemma AppendKeepsTail(log: seq<Post>, base: nat, h: nat, posted: seq<string>, name: string)
    requires base <= |log| && log[base..] == Tag(h, posted)
    ensures (log + [Post(h, name)])[base..] == Tag(h, posted + [name])
  {
    assert (log + [Post(h, name)])[base..] == log[base..] + [Post(h, name)];
    assert Tag(h, posted + [name]) == Tag(h, posted) + [Post(h, name)];
  }

  lemma AppendKeepsSections(log: seq<Post>, base: nat, h: nat, posted: seq<string>, name: string)
    requires Sectioned(log) && base <= |log| && log[base..] == Tag(h, posted)
    requires 0 < base ==> log[base - 1].name == "EXIT"
    requires forall i :: 0 <= i < base ==> log[i].handle < h
    requires "EXIT" !in posted
    ensures Sectioned(log + [Post(h, name)])
  {
    if base < |log| {
      assert log[|log| - 1] == log[base..][|log| - 1 - base] == Post(h, posted[|posted| - 1]);
    }
  }

  lemma FinishConnectKeepsInv(s: State)
    requires Inv(s) && Enabled(s, FinishConnect)
    ensures Inv(Next(s, FinishConnect))
  {}

  lemma InvKept(s: State, x: Action)
    requires Inv(s) && Enabled(s, x)
    ensures Inv(Next(s, x))
  {
    match x
    case Resume => ResumeKeepsInv(s);
    case Pause => PauseKeepsInv(s);
    case GoNext => SwitchToKeepsInv(s, NextReachable(Values(s.app.objs, s.app.registry), ActiveBox(s.app)));
    case GoPrevious => SwitchToKeepsInv(s, PreviousReachable(Values(s.app.objs, s.app.registry), ActiveBox(s.app)));
    case Detected(address, port) => DetectedKeepsInv(s, address, port);
    case Deliver => DeliverKeepsInv(s);
    case FinishDisconnect => FinishDisconnectKeepsInv(s);
    case FinishConnect => FinishConnectKeepsInv(s);
    case Engine(h, a) => EngineKeepsInv(s, h, a);
  }
}
