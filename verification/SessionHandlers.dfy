/** The handlers of the application from their beginning to their end: what a handler
    that disconnects a box does once it returns, and that it does return. */
module SessionHandlers {
  import opened Messages
  import P = Protocol
  import T = ProtocolTheorems
  import opened Boxes
  import opened Apps
  import opened Handles
  import opened Sessions
  import opened SessionInvariant
  import opened SessionTheorems

  /** The UI thread is inside Freebox.disconnect. */
  predicate Blocked(s: State) {
    s.ui.Switching? || s.ui.Pausing?
  }

  predicate IsHandler(x: Action) {
    x.Resume? || x.Pause? || x.GoNext? || x.GoPrevious? || x.Detected?
  }

  /** What a handler does to the application, from its beginning to its end. */
  ghost function Whole(s: State, x: Action): App<nat>
    requires Sound(s) && Enabled(s, x) && IsHandler(x)
  {
    match x
    case Resume => ResumeAll(s.app, NewIds(s.nextId, |SavedRecords(s.app.pool)|), s.nextHandle)
    case Pause => PauseAll(s.app)
    case GoNext => SelectNext(s.app, s.nextHandle)
    case GoPrevious => SelectPrevious(s.app, s.nextHandle)
    case Detected(address, port) =>
      MadeKeepsRegistry(s.app, s.nextId, Sniffed(address, port));
      TakeDetection(Made(s, address, port), s.nextId, s.nextHandle)
  }

  /** What the return of a blocked handler makes of the application. */
  ghost function Returned(s: State): App<nat>
    requires Sound(s) && Blocked(s)
  {
    match s.ui
    case Switching(target) => Activate(Disconnect(s.app), target, s.nextHandle)
    case _ => Disconnect(s.app)
  }

  // ---- a handler and its return

  lemma BlockedStep(s: State, x: Action)
    requires Sound(s) && Blocked(s) && Enabled(s, x) && !x.FinishDisconnect?
    ensures x.Engine?
    ensures var t := Next(s, x); t.app == s.app && t.ui == s.ui && t.nextHandle == s.nextHandle && t.nextId == s.nextId
  {}

  /** Until the disconnection returns, nothing but the engine moves. */
  lemma {:induction false} BlockedRun(s: State, run: seq<Action>)
    requires Sound(s) && Blocked(s) && IsRun(s, run) && FinishDisconnect !in run
    ensures var t := Final(s, run);
      t.app == s.app && t.ui == s.ui && t.nextHandle == s.nextHandle && t.nextId == s.nextId
    decreases |run|
  {
    if run != [] {
      BlockedStep(s, run[0]);
      BlockedRun(Next(s, run[0]), run[1..]);
    }
  }

  lemma ReturnIs(s: State)
    requires Sound(s) && Blocked(s) && Enabled(s, FinishDisconnect)
    ensures Next(s, FinishDisconnect).app == Returned(s)
  {
    if s.ui.Switching? && !Connectable(Disconnect(s.app).objs[s.ui.target]) {
      var a := Disconnect(s.app);
      assert Activate(a, s.ui.target, 0) == Activate(a, s.ui.target, s.nextHandle);
    }
  }

  /** The state in which a handler stops or ends leads to what the handler is to do. */
  ghost predicate LeadsTo(t: State, whole: App<nat>)
    requires Sound(t)
  {
    if Blocked(t) then Returned(t) == whole else t.app == whole
  }

  lemma SelectionLeadsTo(s: State, k: Option<nat>)
    requires Inv(s) && Free(s)
    ensures Sound(SwitchTo(s, k))
    ensures LeadsTo(SwitchTo(s, k), Connect(s.app, At(s.app.registry, k), s.nextHandle))
  {
    SwitchToKeepsInv(s, k);
  }

  lemma DetectionLeadsTo(s: State, address: string, port: int)
    requires Inv(s) && Enabled(s, Detected(address, port))
    ensures Sound(Next(s, Detected(address, port)))
    ensures LeadsTo(Next(s, Detected(address, port)), Whole(s, Detected(address, port)))
  {
    DetectedKeepsInv(s, address, port);
    MadeKeepsRegistry(s.app, s.nextId, Sniffed(address, port));
    DetectCloses(Made(s, address, port), s.nextId);
  }

  /** Resume, once it is known what it has recovered. */
  lemma ResumedLeadsTo(t: State, focus: Option<nat>)
    requires Closed(t.app) && t.ui.Listening? && (focus.Some? ==> focus.value in t.app.objs)
    requires Sound(if focus.Some? then Switch(t, t.app, focus.value) else t)
    ensures LeadsTo(if focus.Some? then Switch(t, t.app, focus.value) else t, Connect(t.app, focus, t.nextHandle))
  {}

  lemma ResumeLeadsTo(s: State)
    requires Inv(s) && Enabled(s, Resume)
    ensures Sound(Next(s, Resume))
    ensures LeadsTo(Next(s, Resume), Whole(s, Resume))
  {
    ResumeKeepsInv(s);
    var n := |SavedRecords(s.app.pool)|;
    DiscloseFrame(s.app, NewIds(s.nextId, n));
    DiscloseKeepsRegistry(s.app, NewIds(s.nextId, n));
    var (a, focus) := Disclose(s.app, NewIds(s.nextId, n));
    ResumedLeadsTo(s.(app := a, nextId := s.nextId + n, resumed := true, started := true), focus);
  }

  lemma HandlerLeadsTo(s: State, x: Action)
    requires Inv(s) && Enabled(s, x) && IsHandler(x)
    ensures Sound(Next(s, x)) && LeadsTo(Next(s, x), Whole(s, x))
  {
    match x
    case Resume => ResumeLeadsTo(s);
    case Pause => PauseKeepsInv(s);
    case GoNext => SelectionLeadsTo(s, NextReachable(Values(s.app.objs, s.app.registry), ActiveBox(s.app)));
    case GoPrevious => SelectionLeadsTo(s, PreviousReachable(Values(s.app.objs, s.app.registry), ActiveBox(s.app)));
    case Detected(address, port) => DetectionLeadsTo(s, address, port);
  }

  /** Whatever the threads of the engine do meanwhile: when a handler has disconnected
      the active box and returns, or has nothing to disconnect, it has done to the
      application what it does as a whole, and that is what the methods of MainActivity
      are proved to do. */
  lemma HandlerDoes(s: State, x: Action, run: seq<Action>)
    requires Inv(s) && Enabled(s, x) && IsHandler(x)
    requires IsRun(Next(s, x), run) && FinishDisconnect !in run
    ensures Sound(Next(s, x))
    ensures !Blocked(Next(s, x)) ==> Next(s, x).app == Whole(s, x)
    ensures Blocked(Next(s, x)) && Enabled(Final(Next(s, x), run), FinishDisconnect) ==>
      var t := Final(Next(s, x), run); Sound(t) && Next(t, FinishDisconnect).app == Whole(s, x)
  {
    var t := Next(s, x);
    HandlerLeadsTo(s, x);
    InvKept(s, x);
    RunKeepsInv(t, run);
    if Blocked(t) {
      BlockedRun(t, run);
      if Enabled(Final(t, run), FinishDisconnect) {
        ReturnIs(Final(t, run));
      }
    }
  }

  // ---- what the user sees

  /** After "next" the active box is the next reachable one ... */
  lemma NextArrives(s: State, x: nat, y: nat, run: seq<Action>)
    requires Inv(s) && Enabled(s, GoNext) && x < |s.app.registry| && y < |s.app.registry|
    requires s.app.active == Some(s.app.registry[x]) && Adjacent(Values(s.app.objs, s.app.registry), x, y)
    requires IsRun(Next(s, GoNext), run) && FinishDisconnect !in run
    ensures Sound(Next(s, GoNext)) && Blocked(Next(s, GoNext))
    ensures Enabled(Final(Next(s, GoNext), run), FinishDisconnect) ==>
      var t := Final(Next(s, GoNext), run);
      Sound(t) && Next(t, FinishDisconnect).app.active == Some(s.app.registry[y])
  {
    HandlerDoes(s, GoNext, run);
    NextIsNeighbour(s.app, x, y, s.nextHandle);
    NextIsAdjacent(Values(s.app.objs, s.app.registry), x, y);
  }

  /** ... and after "previous" the previous one. */
  lemma PreviousArrives(s: State, x: nat, y: nat, run: seq<Action>)
    requires Inv(s) && Enabled(s, GoPrevious) && x < |s.app.registry| && y < |s.app.registry|
    requires s.app.active == Some(s.app.registry[y]) && Adjacent(Values(s.app.objs, s.app.registry), x, y)
    requires IsRun(Next(s, GoPrevious), run) && FinishDisconnect !in run
    ensures Sound(Next(s, GoPrevious)) && Blocked(Next(s, GoPrevious))
    ensures Enabled(Final(Next(s, GoPrevious), run), FinishDisconnect) ==>
      var t := Final(Next(s, GoPrevious), run);
      Sound(t) && Next(t, FinishDisconnect).app.active == Some(s.app.registry[x])
  {
    HandlerDoes(s, GoPrevious, run);
    PreviousIsNeighbour(s.app, x, y, s.nextHandle);
    PreviousIsAdjacent(Values(s.app.objs, s.app.registry), x, y);
  }

  /** The box id of the registry is reachable and has this address and port. */
  ghost predicate Shown(a: App<nat>, id: nat, address: string, port: int) {
    && id in a.registry && id in a.objs && a.objs[id].reachable
    && a.objs[id].address == Some(address) && a.objs[id].port == port
  }

  lemma ConnectKeepsShown(a: App<nat>, target: Option<nat>, handle: nat, id: nat, address: string, port: int)
    requires Closed(a) && (target.Some? ==> target.value in a.objs) && Shown(a, id, address, port)
    ensures var w := Connect(a, target, handle);
      Shown(w, id, address, port) && w.active == (if target.Some? then target else a.active)
  {}

  /** A detection connects the box that was detected, or the known one with its address and
      port, unless a box is connected; and that box is reachable then, in any case. */
  lemma DetectionArrives(s: State, address: string, port: int)
    requires Inv(s) && Enabled(s, Detected(address, port))
    ensures var w := Whole(s, Detected(address, port));
      && (s.app.connected ==> w.active == s.app.active)
      && exists id: nat :: Shown(w, id, address, port) && (!s.app.connected ==> w.active == Some(id))
  {
    var made := Made(s, address, port);
    MadeKeepsRegistry(s.app, s.nextId, Sniffed(address, port));
    DetectKeepsRegistry(made, s.nextId);
    ToldIsReachable(made, s.nextId);
    DetectCloses(made, s.nextId);
    var (t, told) := Detect(made, s.nextId);
    ConnectKeepsShown(t, if s.app.connected then None else Some(told), s.nextHandle, told, address, port);
  }

  // ---- a blocked handler returns

  /** The steps of an engine as steps of the application. */
  function Lift(h: nat, steps: seq<P.Action>): (run: seq<Action>)
    ensures |run| == |steps| && forall i :: 0 <= i < |run| ==> run[i] == Engine(h, steps[i])
  {
    seq(|steps|, i requires 0 <= i < |steps| => Engine(h, steps[i]))
  }

  /** The steps that the UI thread takes on its own in there are those of Disconnect. */
  lemma OwnStepMay(s: State, h: nat, a: P.Action)
    requires Inv(s) && Blocked(s) && h == ActiveHandle(s.app) && h in s.engines
    requires P.Enabled(s.engines[h], a) && !P.External(s.engines[h], a)
    ensures Enabled(s, Engine(h, a))
  {
    assert PhaseOk(s.ui, s.engines[h].ui);
  }

  lemma LiftedStep(s: State, h: nat, a: P.Action)
    requires Inv(s) && Blocked(s) && h == ActiveHandle(s.app) && h in s.engines
    requires P.Enabled(s.engines[h], a) && !P.External(s.engines[h], a)
    ensures Enabled(s, Engine(h, a))
    ensures var t := Next(s, Engine(h, a));
      && Inv(t) && t.ui == s.ui && t.app == s.app
      && h in t.engines && t.engines[h] == P.Next(s.engines[h], a)
  {
    OwnStepMay(s, h, a);
    InvKept(s, Engine(h, a));
  }

  lemma {:induction false} LiftedRun(s: State, h: nat, steps: seq<P.Action>)
    requires Inv(s) && Blocked(s) && h == ActiveHandle(s.app) && h in s.engines
    requires P.IsRun(s.engines[h], steps) && T.Externals(s.engines[h], steps) == 0
    ensures IsRun(s, Lift(h, steps))
    ensures var t := Final(s, Lift(h, steps));
      t.ui == s.ui && t.app == s.app && h in t.engines && t.engines[h] == P.Final(s.engines[h], steps)
    decreases |steps|
  {
    if steps != [] {
      LiftedStep(s, h, steps[0]);
      LiftedRun(Next(s, Engine(h, steps[0])), h, steps[1..]);
      assert Lift(h, steps)[1..] == Lift(h, steps[1..]);
    }
  }

  /** The UI thread of the engine has posted no more than its status pipe holds. */
  predicate FewPosts(e: P.State) {
    1 <= e.capacity && e.connectPosts <= e.capacity && e.teardownPosts <= e.capacity
  }

  /** A switch of boxes, or a pause, that has begun comes to its end: the engine's own
      steps are enough. */
  lemma HandlerReturns(s: State) returns (run: seq<Action>)
    requires Inv(s) && Blocked(s)
    requires ActiveHandle(s.app) in s.engines ==> FewPosts(s.engines[ActiveHandle(s.app)])
    ensures IsRun(s, run) && forall x :: x in run ==> x.Engine?
    ensures Enabled(Final(s, run), FinishDisconnect)
  {
    var h := ActiveHandle(s.app);
    run := [];
    if h in s.engines {
      assert EngineOk(s.engines, h);
      var steps := T.ShutdownCompletes(s.engines[h]);
      LiftedRun(s, h, steps);
      run := Lift(h, steps);
    }
  }

  // ---- and so does the connection that follows

  /** A step of Connect that the UI thread takes on its own. */
  lemma ConnectMay(s: State)
    requires Inv(s) && s.ui.Attaching? && s.ui.handle in s.engines
    requires FewPosts(s.engines[s.ui.handle]) && !s.engines[s.ui.handle].ui.Ready?
    ensures var e := s.engines[s.ui.handle]; var a := P.ByUi(T.UiProgress(e.ui));
      && P.Enabled(e, a) && !P.External(e, a) && Enabled(s, Engine(s.ui.handle, a))
  {
    var e := s.engines[s.ui.handle];
    assert EngineOk(s.engines, s.ui.handle);
    assert PhaseOk(s.ui, e.ui);
    assert |e.statuses.written| == |e.statuses.read| + |e.statuses.pipe|;
  }

  lemma ConnectStep(s: State) returns (x: Action)
    requires Inv(s) && s.ui.Attaching? && s.ui.handle in s.engines
    requires FewPosts(s.engines[s.ui.handle]) && !s.engines[s.ui.handle].ui.Ready?
    ensures x.Engine? && Enabled(s, x)
    ensures var t := Next(s, x);
      && Inv(t) && t.ui == s.ui && t.app == s.app && t.ui.handle in t.engines
      && FewPosts(t.engines[t.ui.handle]) && T.Rank(t.engines[t.ui.handle]) < T.Rank(s.engines[s.ui.handle])
  {
    var e := s.engines[s.ui.handle];
    var a := P.ByUi(T.UiProgress(e.ui));
    x := Engine(s.ui.handle, a);
    ConnectMay(s);
    assert EngineOk(s.engines, s.ui.handle);
    T.StepDescends(e, a);
    T.OwnStepsPostNothing(e, a);
    InvKept(s, x);
  }

  lemma RunCons(s: State, x: Action, run: seq<Action>)
    requires Sound(s) && Enabled(s, x) && IsRun(Next(s, x), run)
    ensures IsRun(s, [x] + run) && Final(s, [x] + run) == Final(Next(s, x), run)
  {
    assert ([x] + run)[1..] == run;
  }

  /** Freebox.connect returns: the engine's own steps are enough. */
  lemma {:induction false} ConnectReturns(s: State) returns (run: seq<Action>)
    requires Inv(s) && s.ui.Attaching? && s.ui.handle in s.engines && FewPosts(s.engines[s.ui.handle])
    ensures IsRun(s, run) && forall x :: x in run ==> x.Engine?
    ensures var t := Final(s, run); Enabled(t, FinishConnect) && t.app == s.app && Inv(t)
    decreases T.Rank(s.engines[s.ui.handle])
  {
    if s.engines[s.ui.handle].ui.Ready? {
      run := [];
    } else {
      var x := ConnectStep(s);
      var rest := ConnectReturns(Next(s, x));
      run := [x] + rest;
      RunCons(s, x, rest);
    }
  }

  lemma RunHead(s: State, run: seq<Action>) returns (t: State)
    requires run != [] && IsRun(s, run)
    ensures Sound(s) && Enabled(s, run[0]) && t == Next(s, run[0])
    ensures IsRun(t, run[1..]) && Final(s, run) == Final(t, run[1..])
  {
    t := Next(s, run[0]);
  }

  lemma ConcatCons(x: Action, rest: seq<Action>, a: seq<Action>, b: seq<Action>)
    requires a == [x] + rest
    ensures a + b == [x] + (rest + b)
  {}

  lemma {:induction false} RunConcat(s: State, a: seq<Action>, b: seq<Action>)
    requires IsRun(s, a) && IsRun(Final(s, a), b)
    ensures IsRun(s, a + b) && Final(s, a + b) == Final(Final(s, a), b)
    decreases |a|
  {
    if a == [] {
      assert a + b == b;
    } else {
      var t := RunHead(s, a);
      RunConcat(t, a[1..], b);
      RunCons(s, a[0], a[1..] + b);
      ConcatCons(a[0], a[1..], a, b);
    }
  }

  /** The labels that a handler goes through once it has begun. */
  predicate Continues(x: Action) {
    x.Engine? || x.FinishDisconnect? || x.FinishConnect?
  }

  /** The disconnection has returned, and Freebox.connect has been entered or not. */
  ghost predicate Stands(t: State) {
    && Inv(t) && (t.ui.Listening? || t.ui.Attaching?)
    && (t.ui.Attaching? ==> t.ui.handle in t.engines && FewPosts(t.engines[t.ui.handle]))
  }

  lemma ConnectionEnds(s: State) returns (run: seq<Action>)
    requires Stands(s)
    ensures IsRun(s, run) && forall x :: x in run ==> Continues(x)
    ensures Final(s, run).ui.Listening? && Final(s, run).app == s.app
  {
    if s.ui.Listening? {
      run := [];
    } else {
      var steps := ConnectReturns(s);
      RunSnoc(s, steps, FinishConnect);
      run := steps + [FinishConnect];
    }
  }

  lemma AttachStands(s: State, target: nat)
    requires Closed(s.app) && target in s.app.objs && 1 <= s.capacity
    ensures var t := Attach(s, s.app, target);
      && (t.ui.Listening? || t.ui.Attaching?)
      && (t.ui.Attaching? ==> t.ui.handle in t.engines && FewPosts(t.engines[t.ui.handle]))
  {}

  /** Where a handler stands once its disconnection has returned. */
  lemma ReturnedStands(s: State)
    requires Inv(s) && Blocked(s) && Enabled(s, FinishDisconnect) && 1 <= s.capacity
    ensures Stands(Next(s, FinishDisconnect))
  {
    InvKept(s, FinishDisconnect);
    if s.ui.Switching? {
      AttachStands(Detach(s), s.ui.target);
    }
  }

  /** The first half of a handler, up to the return of its disconnection. */
  lemma DisconnectionEnds(s: State) returns (run: seq<Action>)
    requires Inv(s) && Blocked(s) && 1 <= s.capacity
    requires ActiveHandle(s.app) in s.engines ==> FewPosts(s.engines[ActiveHandle(s.app)])
    ensures IsRun(s, run) && forall x :: x in run ==> Continues(x)
    ensures Stands(Final(s, run)) && Final(s, run).app == Returned(s)
  {
    var steps := HandlerReturns(s);
    RunKeepsInv(s, steps);
    BlockedRun(s, steps);
    ReturnIs(Final(s, steps));
    CapacityStays(s, steps);
    ReturnedStands(Final(s, steps));
    RunSnoc(s, steps, FinishDisconnect);
    run := steps + [FinishDisconnect];
  }

  lemma {:induction false} CapacityStays(s: State, run: seq<Action>)
    requires IsRun(s, run)
    ensures Final(s, run).capacity == s.capacity
    decreases |run|
  {
    if run != [] {
      CapacityStays(Next(s, run[0]), run[1..]);
    }
  }

  /** A switch of boxes, or a pause, that has begun comes to its end, up to the next event,
      and has done then what it is to do: the own steps of the engines that it destroys and
      creates are enough. */
  lemma HandlerEnds(s: State) returns (run: seq<Action>)
    requires Inv(s) && Blocked(s) && 1 <= s.capacity
    requires ActiveHandle(s.app) in s.engines ==> FewPosts(s.engines[ActiveHandle(s.app)])
    ensures IsRun(s, run) && forall x :: x in run ==> Continues(x)
    ensures Final(s, run).ui.Listening? && Final(s, run).app == Returned(s)
  {
    var first := DisconnectionEnds(s);
    var second := ConnectionEnds(Final(s, first));
    RunConcat(s, first, second);
    run := first + second;
  }

  /** Every handler, from its beginning to its end: it can come to the next event, by own
      steps of the engines alone, and has done then what it does as a whole. */
  lemma HandlerCompletes(s: State, x: Action) returns (run: seq<Action>)
    requires Inv(s) && Enabled(s, x) && IsHandler(x) && 1 <= s.capacity
    requires ActiveHandle(s.app) in s.engines ==> FewPosts(s.engines[ActiveHandle(s.app)])
    ensures Sound(Next(s, x)) && IsRun(Next(s, x), run) && forall y :: y in run ==> Continues(y)
    ensures Final(Next(s, x), run).ui.Listening? && Final(Next(s, x), run).app == Whole(s, x)
  {
    HandlerLeadsTo(s, x);
    InvKept(s, x);
    HandlerKeepsEngines(s, x);
    var h := ActiveHandle(Next(s, x).app);
    if h in s.engines {
      OnlyOne(s, h);
    }
    if Blocked(Next(s, x)) {
      run := HandlerEnds(Next(s, x));
    } else {
      run := [];
    }
  }

  lemma HandlerKeepsEngines(s: State, x: Action)
    requires Sound(s) && Enabled(s, x) && IsHandler(x)
    ensures var t := Next(s, x);
      t.engines == s.engines && t.capacity == s.capacity && (Blocked(t) || t.ui.Listening?)
  {}
}
