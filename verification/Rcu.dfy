/** Rcu.cpp in its own form: an object whose fields the callbacks and the UI calls
    update in place. The ghost field `model` is the state of the transition system;
    each method is proved to take it along the labels of its own steps, and
    Coupled() ties every concrete field to it. */
module RcuEngine {
  import opened Messages
  import opened Protocol
  import opened ProtocolInvariant
  import T = ProtocolTheorems
  import opened Pipes

  // ---- the callbacks, as compositions of labels

  /** The end of OnKeyAvailable, from the handling of the message on. */
  function Handled(s: State): State
    requires LooperEnabled(s, HandleMessage)
  {
    var handled := LooperNext(s, HandleMessage);
    if handled.looper.Deleting? then LooperNext(handled, DeleteMessage) else handled
  }

  /** OnKeyAvailable, when nothing of the other threads comes in between. */
  function KeyCallback(s: State): State
    requires LooperEnabled(s, ReadKey)
  {
    Handled(LooperNext(LooperNext(s, ReadKey), FlushPending))
  }

  /** t can be reached from s by a run. */
  ghost predicate Leads(s: State, t: State) {
    exists run :: IsRun(s, run) && Final(s, run) == t
  }

  lemma LeadsToItself(s: State)
    ensures Leads(s, s)
  {
    assert IsRun(s, []) && Final(s, []) == s;
  }

  lemma LeadsOn(s: State, t: State, a: Action)
    requires Leads(s, t) && Enabled(t, a)
    ensures Leads(s, Next(t, a))
  {
    var run :| IsRun(s, run) && Final(s, run) == t;
    T.RunSnoc(s, run, a);
  }

  lemma LeadsThroughCallback(s: State, t: State)
    requires Leads(s, t) && LooperEnabled(t, ReadKey)
    ensures Leads(s, KeyCallback(t))
  {
    var a := LooperNext(t, ReadKey);
    LeadsOn(s, t, ByLooper(ReadKey));
    var b := LooperNext(a, FlushPending);
    LeadsOn(s, a, ByLooper(FlushPending));
    LeadsOn(s, b, ByLooper(HandleMessage));
    var c := LooperNext(b, HandleMessage);
    if c.looper.Deleting? {
      LeadsOn(s, c, ByLooper(DeleteMessage));
    }
  }

  lemma DeletingKeepsInv(s: State)
    requires Inv(s) && LooperEnabled(s, DeleteMessage)
    ensures var t := LooperNext(s, DeleteMessage);
      Inv(t) && (t.looper.Exited? || t.looper.Dispatching?) && t.ui == s.ui && t.keys == s.keys
  {
    LooperKeepsInv(s, DeleteMessage);
  }

  lemma HandlingKeepsInv(s: State)
    requires Inv(s) && LooperEnabled(s, HandleMessage)
    ensures var t := Handled(s);
      Inv(t) && (t.looper.Exited? || t.looper.Dispatching?) && t.ui == s.ui && t.keys == s.keys
  {
    var t := LooperNext(s, HandleMessage);
    LooperKeepsInv(s, HandleMessage);
    LooperFrame(s, HandleMessage);
    assert t.looper.Deleting? || t.looper.Dispatching?;
    if t.looper.Deleting? {
      DeletingKeepsInv(t);
    }
  }

  lemma FlushingKeepsInv(s: State)
    requires Inv(s) && LooperEnabled(s, FlushPending)
    ensures var t := LooperNext(s, FlushPending); Inv(t) && t.looper.Flushed? && t.ui == s.ui && t.keys == s.keys
  {
    LooperKeepsInv(s, FlushPending);
    LooperFrame(s, FlushPending);
  }

  lemma ReadingKeepsInv(s: State)
    requires Inv(s) && LooperEnabled(s, ReadKey)
    ensures var t := LooperNext(s, ReadKey);
      Inv(t) && t.looper.Holding? && t.ui == s.ui && t.keys.pipe == s.keys.pipe[1..]
  {
    LooperKeepsInv(s, ReadKey);
  }

  lemma CallbackKeepsInv(s: State)
    requires Inv(s) && LooperEnabled(s, ReadKey)
    ensures var t := KeyCallback(s);
      Inv(t) && (t.looper.Exited? || t.looper.Dispatching?) && t.ui == s.ui && t.keys.pipe == s.keys.pipe[1..]
  {
    var read := LooperNext(s, ReadKey);
    ReadingKeepsInv(s);
    FlushingKeepsInv(read);
    HandlingKeepsInv(LooperNext(read, FlushPending));
  }

  // ---- the heap of messages, as C++ sees it: pointers to live objects

  function Ids(ms: seq<Message>): (ids: seq<nat>)
    ensures |ids| == |ms|
    ensures forall i :: 0 <= i < |ms| ==> ids[i] == ms[i].id
  {
    seq(|ms|, i requires 0 <= i < |ms| => ms[i].id)
  }

  function IdOf(o: Option<Message>): Option<nat> {
    if o.Some? then Some(o.value.id) else None
  }

  /** m was created, and is the message that its identity stands for. */
  ghost predicate Made(h: Heap, m: Message) {
    m.id < |h.created| && h.created[m.id] == m
  }

  /** The live objects are the created messages that were not deleted. */
  ghost predicate IsHeap(heap: map<nat, Body>, h: Heap) {
    && (forall id :: id in heap ==> id < |h.created| && heap[id] == h.created[id].body)
    && (forall id :: 0 <= id < |h.created| ==> (id in heap <==> Count(h.deleted, h.created[id]) == 0))
  }

  lemma NewInHeap(heap: map<nat, Body>, h: Heap, b: Body)
    requires IsHeap(heap, h)
    requires Count(h.deleted, h.Fresh(b)) == 0
    ensures IsHeap(heap[|h.created| := b], h.New(b))
  {}

  lemma DeletedFromHeap(heap: map<nat, Body>, h: Heap, m: Message)
    requires IsHeap(heap, h) && Numbered(h.created) && Made(h, m)
    ensures IsHeap(heap - {m.id}, h.Delete(m))
  {
    forall id | 0 <= id < |h.created|
      ensures id in heap - {m.id} <==> Count(h.Delete(m).deleted, h.created[id]) == 0
    {
      CountSnoc(h.deleted, m, h.created[id]);
    }
  }

  ghost predicate IsLive(h: Heap, m: Message) {
    Made(h, m) && Count(h.deleted, m) == 0
  }

  /** A message that a thread or a pipe holds is a live object. */
  lemma HeldIsLive(s: State, m: Message)
    requires Inv(s) && 0 < Held(s, m)
    ensures IsLive(s.heap, m)
  {
    T.HeldIsAlive(s, m);
    T.CountedWhenIn(s.heap.deleted, m);
  }

  lemma FreshWasNotDeleted(s: State, b: Body)
    requires Inv(s)
    ensures Count(s.heap.deleted, s.heap.Fresh(b)) == 0
  {
    assert Conserved(s, s.heap.Fresh(b));
    T.CountedWhenIn(s.heap.created, s.heap.Fresh(b));
  }

  /** What OnKeyAvailable relies on: the pipe is there, the message that it is about
      to read and the pending key are live objects, and they are two objects. */
  ghost predicate CallbackReady(s: State) {
    && LooperEnabled(s, ReadKey)
    && s.objects.looperPipe
    && PendingLive(s)
    && IsLive(s.heap, s.keys.pipe[0])
    && s.pending != Some(s.keys.pipe[0])
  }

  /** The pending key, if any, is a live key. */
  ghost predicate PendingLive(s: State) {
    && Numbered(s.heap.created)
    && (s.pending.Some? ==> IsLive(s.heap, s.pending.value) && s.pending.value.body.KeyBody?)
  }

  lemma PendingIsLive(s: State)
    requires Inv(s)
    ensures PendingLive(s)
  {
    if s.pending.Some? {
      HeldIsLive(s, s.pending.value);
    }
  }

  lemma CallbackIsReady(s: State)
    requires Inv(s) && LooperEnabled(s, ReadKey)
    ensures CallbackReady(s)
  {
    var m := s.keys.pipe[0];
    HeldIsLive(s, m);
    PendingIsLive(s);
    assert Conserved(s, m);
    T.CountedAtMostOnce(s.heap.created, 0, m);
  }

  class Rcu {
    // the fields of the class and its static pointer
    var looper: bool
    var hidClient: bool
    var pendingRelease: Option<nat>
    var looperPipe: Pipe?
    var statusPipe: Pipe?
    var keyPressTrigger: bool
    var keyReleaseTrigger: bool
    var current: bool
    // what the code acts on outside the object: the heap, the loop, the box
    var heap: map<nat, Body>
    var next: nat
    var exitRequested: bool
    var hid: seq<Report>
    ghost var model: State

    /** The two pipes exist when they should, and hold the pointers that they should. */
    ghost predicate PipesHold(o: Objects, keys: seq<Message>, statuses: seq<Message>)
      reads this`looperPipe, this`statusPipe, looperPipe, statusPipe
    {
      && (looperPipe != null <==> o.looperPipe)
      && (statusPipe != null <==> o.statusPipe)
      && (looperPipe != null ==>
            looperPipe.Valid() && looperPipe.contents == Ids(keys) && looperPipe != statusPipe)
      && (statusPipe != null ==> statusPipe.Valid() && statusPipe.contents == Ids(statuses))
    }

    ghost predicate FieldsMatch(o: Objects)
      reads this`looper, this`hidClient, this`keyPressTrigger, this`keyReleaseTrigger, this`current
    {
      && looper == o.ela
      && hidClient == o.hid
      && keyPressTrigger == o.pressSource
      && keyReleaseTrigger == o.releaseSource
      && current == o.current
    }

    /** The reports, the pending slot and the heap are those of s. */
    ghost predicate OutputMatches(s: State)
      reads this`hid, this`pendingRelease, this`heap
    {
      && hid == s.hid
      && pendingRelease == IdOf(s.pending)
      && IsHeap(heap, s.heap)
    }

    /** The object is in the state that s describes. */
    ghost predicate CoupledTo(s: State)
      reads this, looperPipe, statusPipe
    {
      && FieldsMatch(s.objects)
      && PipesHold(s.objects, s.keys.pipe, s.statuses.pipe)
      && OutputMatches(s)
      && exitRequested == s.exitRequested
      && next == |s.heap.created|
    }

    ghost predicate Coupled()
      reads this, looperPipe, statusPipe
    {
      CoupledTo(model)
    }

    ghost predicate Valid()
      reads this, looperPipe, statusPipe
    {
      Coupled() && Inv(model)
    }

    constructor (ghost capacity: nat)
      ensures Valid() && model == Init(capacity)
    {
      looper, hidClient, pendingRelease, looperPipe, statusPipe := false, false, None, null, null;
      keyPressTrigger, keyReleaseTrigger, current := false, false, false;
      heap, next, exitRequested, hid := map[], 0, false, [];
      model := Init(capacity);
      InitInv(capacity);
    }

    /** new Message, new Key, new Status. */
    method New(b: Body) returns (p: nat)
      requires IsHeap(heap, model.heap) && next == |model.heap.created|
      requires Count(model.heap.deleted, model.heap.Fresh(b)) == 0
      modifies this`heap, this`next
      ensures p == old(next) && next == p + 1
      ensures IsHeap(heap, model.heap.New(b))
    {
      NewInHeap(heap, model.heap, b);
      p := next;
      heap := heap[p := b];
      next := next + 1;
    }

    /** new, and Write on the looper pipe. */
    method PutKey(b: Body)
      requires Coupled() && looperPipe != null && IsPointer(next)
      requires Count(model.heap.deleted, model.heap.Fresh(b)) == 0
      modifies this`heap, this`next, looperPipe
      ensures CoupledTo(model.(keys := model.keys.Write(model.heap.Fresh(b)), heap := model.heap.New(b)))
      ensures next == old(next) + 1
    {
      var m := New(b);
      looperPipe.Write(m);
      assert Ids(model.keys.pipe + [model.heap.Fresh(b)]) == looperPipe.contents;
    }

    /** new, and Write on the status pipe. */
    method PutStatus(b: Body)
      requires Coupled() && statusPipe != null && IsPointer(next)
      requires Count(model.heap.deleted, model.heap.Fresh(b)) == 0
      modifies this`heap, this`next, statusPipe
      ensures CoupledTo(model.(statuses := model.statuses.Write(model.heap.Fresh(b)), heap := model.heap.New(b)))
      ensures next == old(next) + 1
    {
      var m := New(b);
      statusPipe.Write(m);
      assert Ids(model.statuses.pipe + [model.heap.Fresh(b)]) == statusPipe.contents;
    }

    /** delete message. */
    method Delete(p: nat, ghost m: Message)
      requires IsHeap(heap, model.heap) && Numbered(model.heap.created)
      requires Made(model.heap, m) && m.id == p
      modifies this`heap
      ensures IsHeap(heap, model.heap.Delete(m))
    {
      DeletedFromHeap(heap, model.heap, m);
      heap := heap - {p};
    }

    /** The body of OnKeyRelease. */
    method Release()
      requires OutputMatches(model) && PendingLive(model)
      modifies this`hid, this`heap, this`pendingRelease
      ensures OutputMatches(ReleasePending(model))
    {
      if pendingRelease.Some? {
        var key := heap[pendingRelease.value];
        hid := hid + [Report(key.report, 0)];
        Delete(pendingRelease.value, model.pending.value);
        pendingRelease := None;
      }
    }

    method ReleasePrevious()
      requires OutputMatches(model) && PendingLive(model)
      modifies this`hid, this`heap, this`pendingRelease
      ensures OutputMatches(ReleasePending(model))
    {
      if pendingRelease.Some? {
        Release();
      }
    }

    /** The event loop calls this when the timer fires. */
    method OnKeyRelease()
      requires Coupled() && PendingLive(model)
      modifies this`hid, this`heap, this`pendingRelease, this`model
      ensures Coupled() && model == ReleasePending(old(model))
    {
      Release();
      model := ReleasePending(model);
    }

    /** _looper_pipe->Read (). */
    method ReadLooperPipe() returns (message: nat)
      requires Coupled() && looperPipe != null && LooperEnabled(model, ReadKey)
      modifies this`model, looperPipe
      ensures Coupled() && model == LooperNext(old(model), ReadKey)
      ensures message == old(model).keys.pipe[0].id
    {
      message := looperPipe.Read();
      model := LooperNext(model, ReadKey);
    }

    /** ela_exit, at the close marker. */
    method ExitAtMarker(body: Body)
      modifies this`exitRequested
      ensures exitRequested == (old(exitRequested) || body.ClosePipe?)
    {
      if body.ClosePipe? {
        exitRequested := true;
      }
    }

    /** First half of OnKeyAvailable: ask the loop to exit at the close marker, and
        release the previous key. */
    method FlushFor(body: Body, ghost m: Message)
      requires Coupled() && PendingLive(model) && model.looper == Holding(m) && body == m.body
      modifies this`hid, this`heap, this`pendingRelease, this`exitRequested, this`model
      ensures Coupled() && model == LooperNext(old(model), FlushPending)
    {
      ExitAtMarker(body);
      ReleasePrevious();
      Flush();
    }

    /** That was the label FlushPending. */
    ghost method Flush()
      requires LooperEnabled(model, FlushPending)
      requires FieldsMatch(model.objects) && PipesHold(model.objects, model.keys.pipe, model.statuses.pipe)
      requires OutputMatches(ReleasePending(model)) && next == |model.heap.created|
      requires exitRequested == (model.exitRequested || model.looper.m.body.ClosePipe?)
      modifies this`model
      ensures Coupled() && model == LooperNext(old(model), FlushPending)
    {
      FlushResult(model);
      model := LooperNext(model, FlushPending);
    }

    /** Second half of OnKeyAvailable: send the key. The message is kept when its
        release is still to come. */
    method HandleKey(message: nat, body: Body, ghost m: Message) returns (kept: bool)
      requires Coupled() && model.looper == Flushed(m) && body == m.body && message == m.id
      requires model.pending.None?
      modifies this`hid, this`pendingRelease, this`model
      ensures Coupled() && model == LooperNext(old(model), HandleMessage)
      ensures kept == (m.body.KeyBody? && m.body.command.KeyPressRelease?)
    {
      kept := false;
      if body.KeyBody? {
        if body.command.KeyRelease? {
          hid := hid + [Report(body.report, 0)];
        } else {
          hid := hid + [Report(body.report, body.code)];
          if body.command.KeyPressRelease? {
            pendingRelease := Some(message);
            kept := true;
          }
        }
      }
      model := LooperNext(model, HandleMessage);
    }

    /** The states that OnKeyAvailable goes through. */
    static lemma CallbackSteps(s: State)
      requires CallbackReady(s)
      ensures var m := s.keys.pipe[0];
        var read := LooperNext(s, ReadKey);
        && read.looper == Holding(m) && read.heap == s.heap && PendingLive(read)
        && var flushed := LooperNext(read, FlushPending);
        && flushed.looper == Flushed(m) && flushed.pending == None
        && var handled := LooperNext(flushed, HandleMessage);
        && handled.heap.created == s.heap.created
        && handled.looper == (if m.body.KeyBody? && m.body.command.KeyPressRelease? then Dispatching else Deleting(m))
        && KeyCallback(s) == if handled.looper.Deleting? then LooperNext(handled, DeleteMessage) else handled
    {}

    static lemma FlushResult(s: State)
      requires LooperEnabled(s, FlushPending)
      ensures var t, r := LooperNext(s, FlushPending), ReleasePending(s);
        && t.objects == s.objects && t.keys == s.keys && t.statuses == s.statuses
        && t.heap == r.heap && t.hid == r.hid && t.pending == r.pending && t.heap.created == s.heap.created
        && t.exitRequested == (s.exitRequested || s.looper.m.body.ClosePipe?)
    {}

    /** The event loop calls this when the looper pipe is readable. */
    method OnKeyAvailable()
      requires Coupled() && CallbackReady(model)
      modifies this`hid, this`heap, this`pendingRelease, this`exitRequested, this`model, looperPipe
      ensures Coupled() && model == KeyCallback(old(model))
    {
      ghost var m := model.keys.pipe[0];
      CallbackSteps(model);
      var message := ReadLooperPipe();
      var body := heap[message];
      FlushFor(body, m);
      var kept := HandleKey(message, body, m);
      if !kept {
        DeleteHandled(message, m);
      }
    }

    /** The end of OnKeyAvailable. */
    method DeleteHandled(message: nat, ghost m: Message)
      requires Coupled() && model.looper == Deleting(m) && message == m.id
      requires Numbered(model.heap.created) && Made(model.heap, m)
      modifies this`heap, this`model
      ensures Coupled() && model == LooperNext(old(model), DeleteMessage)
    {
      Delete(message, m);
      model := LooperNext(model, DeleteMessage);
    }

    /** new and Pipe::Write, in SendKeyPress and SendKeyRelease. */
    method SendKey(command: Command, report: UInt8, code: UInt32)
      requires Coupled() && SendReady(model) && IsPointer(next)
      modifies this`heap, this`next, this`model, looperPipe
      ensures Coupled() && model == Sent(old(model), command, report, code)
    {
      if keyPressTrigger {
        SentResult(model, command, report, code);
        PutKey(KeyBody(command, report, code));
        model := Sent(model, command, report, code);
      }
    }

    method SendKeyPress(report: UInt8, code: UInt32, withRelease: bool)
      requires Coupled() && SendReady(model) && IsPointer(next)
      modifies this`heap, this`next, this`model, looperPipe
      ensures Coupled()
      ensures model == Sent(old(model), if withRelease then KeyPressRelease else KeyPress, report, code)
    {
      if withRelease {
        SendKey(KeyPressRelease, report, code);
      } else {
        SendKey(KeyPress, report, code);
      }
    }

    method SendKeyRelease(report: UInt8, code: UInt32)
      requires Coupled() && SendReady(model) && IsPointer(next)
      modifies this`heap, this`next, this`model, looperPipe
      ensures Coupled() && model == Sent(old(model), KeyRelease, report, code)
    {
      SendKey(KeyRelease, report, code);
    }

    /** The HID client's callback. */
    method OnStatus(state: HidState, ghost at: Caller)
      requires Coupled() && StatusReady(model, at) && IsPointer(next)
      modifies this`heap, this`next, this`model, statusPipe
      ensures Coupled() && model == StatusCallback(old(model), state, at)
      ensures next == old(next) + if current then 1 else 0
    {
      StatusResult(model, state, at);
      if current {
        PutStatus(StatusBody(state));
        model := StatusCallback(model, state, at);
      }
    }

    /** The HID client calls it once more. */
    method OneStatus(state: HidState, ghost at: Caller, ghost start: State, ghost states: seq<HidState>)
      requires Coupled() && Inv(start) && MayReport(start, at) && Reported(start, model, states) && IsPointer(next)
      requires |model.statuses.pipe| < model.capacity
      modifies this`heap, this`next, this`model, statusPipe
      ensures Coupled() && Reported(start, model, states + [state]) && next == old(next) + 1
    {
      ReportingFacts(start, model, states, state, at);
      OnStatus(state, at);
    }

    /** The HID client calls it for each of the reports. */
    method OnStatuses(reports: seq<HidState>, ghost at: Caller)
      requires Coupled() && Inv(model) && MayReport(model, at) && IsPointer(next + |reports|)
      requires |model.statuses.pipe| + |reports| <= model.capacity
      modifies this`heap, this`next, this`model, statusPipe
      ensures Coupled() && Reported(old(model), model, reports) && next == old(next) + |reports|
    {
      ghost var start := model;
      LeadsToItself(start);
      for i := 0 to |reports|
        invariant Coupled() && Reported(start, model, reports[..i]) && next == old(next) + i
      {
        assert reports[..i + 1] == reports[..i] + [reports[i]];
        OneStatus(reports[i], at, start, reports[..i]);
      }
      assert reports[..|reports|] == reports;
    }

    method ReadStatus() returns (result: string)
      requires Coupled() && ReadReady(model)
      modifies this`heap, this`model, statusPipe
      ensures Coupled()
      ensures model == ReaderNext(ReaderNext(old(model), Protocol.ReadStatus), NameStatus)
      ensures result == Name(old(model).statuses.pipe[0].body)
    {
      ghost var m := model.statuses.pipe[0];
      var message := statusPipe.Read();
      var body := heap[message];
      if body.ClosePipe? {
        result := "EXIT";
      } else {
        match body.state
        case Idle => result := "idle";
        case Connecting => result := "connecting";
        case Connected => result := "connected";
        case ResolveFailed => result := "resolve failed";
        case Dropped => result := "dropped";
      }
      Delete(message, m);
      model := ReaderNext(ReaderNext(model, Protocol.ReadStatus), NameStatus);
    }

    /** The status thread has posted what ReadStatus has returned. */
    ghost method Posted()
      requires Coupled() && ReaderEnabled(model, PostStatus)
      modifies this`model
      ensures Coupled() && model == ReaderNext(old(model), PostStatus)
    {
      model := ReaderNext(model, PostStatus);
    }

    /** The pipes of Connect ... */
    method OpenPipes()
      requires Coupled() && model.ui.New? && model.keys.pipe == [] && model.statuses.pipe == []
      requires model.objects == ObjectsAt(0)
      modifies this`current, this`looperPipe, this`statusPipe, this`model
      ensures Coupled() && model == UiNext(old(model), Protocol.OpenPipes)
      ensures fresh(looperPipe) && fresh(statusPipe)
    {
      current := true;
      looperPipe := new Pipe();
      statusPipe := new Pipe();
      assert Ids(model.keys.pipe) == [] && Ids(model.statuses.pipe) == [];
      model := UiNext(model, Protocol.OpenPipes);
    }

    /** ... and its other objects, up to the HID client. */
    method OpenSources()
      requires Coupled() && model.ui.Piped? && model.objects == ObjectsAt(1)
      modifies this`looper, this`keyPressTrigger, this`keyReleaseTrigger, this`hidClient, this`model
      ensures Coupled() && model == UiNext(UiNext(old(model), Protocol.OpenSources), OpenHid)
    {
      looper := true;
      keyPressTrigger := true;
      keyReleaseTrigger := true;
      hidClient := true;
      model := UiNext(UiNext(model, Protocol.OpenSources), OpenHid);
    }

    method Open()
      requires Coupled() && model == Init(model.capacity)
      modifies this
      ensures Coupled() && model == Opened(old(model)) && Inv(model) && next == old(next)
      ensures fresh(looperPipe) && fresh(statusPipe)
    {
      OpeningFacts(model);
      OpenPipes();
      OpenSources();
    }

    /** The statuses of the HID client before the looper thread starts. */
    method ReportInConnect(reports: seq<HidState>, ghost start: State)
      requires Coupled() && start == Init(start.capacity) && model == Opened(start) && Inv(model)
      requires |reports| <= model.capacity && IsPointer(next + |reports|)
      modifies this`heap, this`next, this`model, statusPipe
      ensures Coupled() && model.ui.HidOpen? && model.objects == ObjectsAt(3) && model.keys == start.keys
      ensures AreStatuses(model.statuses.pipe, reports) && Leads(start, UiNext(model, Protocol.StartLooper))
    {
      OnStatuses(reports, InConnect);
      StartingFacts(start, model, reports);
    }

    method Start(reports: seq<HidState>, ghost start: State)
      requires Coupled() && start == Init(start.capacity) && model == Opened(start) && Inv(model)
      requires |reports| <= model.capacity && IsPointer(next + |reports|)
      modifies this`heap, this`next, this`model, statusPipe
      ensures Coupled() && Leads(start, model) && model.ui.LooperRunning? && model.looper.Dispatching?
      ensures model.objects == ObjectsAt(4) && model.keys == start.keys && AreStatuses(model.statuses.pipe, reports)
    {
      ReportInConnect(reports, start);
      StartLooper();
    }

    /** `numeric` is whether GetFamilly and inet_pton accept the address; `reports` are
        the statuses that the HID client posts meanwhile. */
    method Connect(numeric: bool, reports: seq<HidState>)
      requires Coupled() && model == Init(model.capacity)
      requires |reports| <= model.capacity && IsPointer(next + |reports|)
      modifies this
      ensures Coupled()
      ensures !numeric ==> model == old(model) && looperPipe == null && statusPipe == null
      ensures numeric ==>
        && fresh(looperPipe) && fresh(statusPipe) && Leads(old(model), model)
        && model.ui.LooperRunning? && model.looper.Dispatching? && model.objects == ObjectsAt(4)
        && model.keys == old(model).keys && AreStatuses(model.statuses.pipe, reports)
    {
      if numeric {
        ghost var start := model;
        Open();
        Start(reports, start);
      }
    }

    /** pthread_create. */
    ghost method StartLooper()
      requires Coupled() && model.ui.HidOpen?
      modifies this`model
      ensures Coupled() && model == UiNext(old(model), Protocol.StartLooper)
    {
      model := UiNext(model, Protocol.StartLooper);
    }

    /** One turn of the event loop: it runs one of its two callbacks, or the HID client
        posts one of the statuses in `reports` that it has not posted yet. */
    method Dispatch(reports: seq<HidState>, posted: nat, ghost start: State) returns (more: nat)
      requires Coupled() && Inv(start) && Leads(start, model) && Grown(start, model, posted)
      requires model.ui.Joining? && model.looper.Dispatching? && !exitRequested
      requires posted <= |reports| && IsPointer(|start.heap.created| + |reports|)
      requires |start.statuses.pipe| + |reports| <= start.capacity
      modifies this, looperPipe, statusPipe
      ensures Coupled() && Leads(start, model) && model.ui.Joining? && more <= |reports|
      ensures model.looper == (if exitRequested then Exited else Dispatching) && Grown(start, model, more)
      ensures Work(model) + |reports| - more < Work(old(model)) + |reports| - posted
      ensures looperPipe == old(looperPipe) && statusPipe == old(statusPipe)
    {
      more := posted;
      var report, timer := *, *;
      if report && posted < |reports| {
        JoiningStatus(start, model, posted, reports[posted]);
        OnStatus(reports[posted], OnLooper);
        more := posted + 1;
      } else if timer && pendingRelease.Some? {
        JoiningRelease(start, model, posted);
        OnKeyRelease();
      } else {
        JoiningKey(start, model, posted);
        OnKeyAvailable();
      }
    }

    /** The end of the looper thread as pthread_join awaits it: the event loop runs the
        two callbacks in whatever order the timer and the pipe dictate, and the HID client
        posts the statuses in `reports` at whatever moments, or does not. */
    method JoinLooper(reports: seq<HidState>)
      requires Coupled() && Inv(model) && model.ui.Joining? && model.looper.Dispatching? && !exitRequested
      requires |model.statuses.pipe| + |reports| <= model.capacity && IsPointer(next + |reports|)
      modifies this, looperPipe, statusPipe
      ensures Coupled() && model.ui.Joined? && Leads(old(model), model)
      ensures Grown(old(model), model, |reports|)
      ensures looperPipe == old(looperPipe) && statusPipe == old(statusPipe)
    {
      LeadsToItself(model);
      ghost var start := model;
      var posted: nat := 0;
      while !exitRequested
        invariant Coupled() && Leads(start, model) && model.ui.Joining? && posted <= |reports|
        invariant model.looper == if exitRequested then Exited else Dispatching
        invariant Grown(start, model, posted)
        invariant looperPipe == old(looperPipe) && statusPipe == old(statusPipe)
        decreases Work(model) + |reports| - posted
      {
        posted := Dispatch(reports, posted, start);
      }
      LeadsOn(start, model, ByUi(Protocol.JoinLooper));
      model := UiNext(model, Protocol.JoinLooper);
    }

    /** Disconnect up to the join of the looper thread: the close marker. */
    method CloseLooperPipe()
      requires Coupled() && model.ui.Ready? && |model.keys.pipe| < model.capacity && IsPointer(next)
      requires model.objects == ObjectsAt(5)
      requires Count(model.heap.deleted, model.heap.Fresh(ClosePipe)) == 0
      modifies this`heap, this`next, this`model, looperPipe
      ensures Coupled() && model == Head(old(model)) && next == old(next) + 1
    {
      PutKey(ClosePipe);
      model := Head(model);
    }

    /** delete _looper_pipe. */
    method FreeLooperPipe()
      requires Coupled() && model.ui.Joined? && model.objects == ObjectsAt(8)
      modifies this`looperPipe, this`model
      ensures Coupled() && model == UiNext(old(model), Protocol.FreeLooperPipe) && looperPipe == null
    {
      looperPipe := null;
      model := UiNext(model, Protocol.FreeLooperPipe);
    }

    /** Then the close marker of the status pipe. */
    method CloseStatusPipe()
      requires Coupled() && model.ui.PipeFreed? && |model.statuses.pipe| < model.capacity && IsPointer(next)
      requires model.objects == ObjectsAt(9)
      requires Count(model.heap.deleted, model.heap.Fresh(ClosePipe)) == 0
      modifies this`heap, this`next, this`model, statusPipe
      ensures Coupled() && model == UiNext(UiNext(old(model), CloseStatus), WriteStatusClose)
      ensures next == old(next) + 1
    {
      PutStatus(ClosePipe);
      model := UiNext(UiNext(model, CloseStatus), WriteStatusClose);
    }

    /** Then the event sources go ... */
    method FreeSources()
      requires Coupled() && model.ui.StatusClosed? && model.objects == ObjectsAt(11)
      modifies this`keyPressTrigger, this`keyReleaseTrigger, this`model
      ensures Coupled() && model == UiNext(old(model), Protocol.FreeSources)
    {
      keyReleaseTrigger := false;
      keyPressTrigger := false;
      model := UiNext(model, Protocol.FreeSources);
    }

    /** ... and everything else but the status pipe. */
    method FreeRest()
      requires Coupled() && model.ui.SourcesFreed? && model.objects == ObjectsAt(12) && model.pending.None?
      modifies this`hidClient, this`looper, this`current, this`model
      ensures Coupled() && model == Freed(old(model))
    {
      hidClient := false;
      looper := false;
      if pendingRelease.Some? {
        assert false;  // the looper thread has left no key to clean up
      }
      current := false;
      model := Freed(model);
    }

    /** Both pipes, once the looper thread has ended. */
    method ClosePipes()
      requires Coupled() && model.ui.Joined? && |model.statuses.pipe| < model.capacity && IsPointer(next)
      requires model.objects == ObjectsAt(8)
      requires Count(model.heap.deleted, model.heap.Fresh(ClosePipe)) == 0
      modifies this`heap, this`next, this`looperPipe, this`model, statusPipe
      ensures Coupled() && model == Closed(old(model)) && looperPipe == null && next == old(next) + 1
    {
      ClosedResult(model);
      FreeLooperPipe();
      CloseStatusPipe();
    }

    /** All that Disconnect does between the join and the end of the event sources. */
    method Tear()
      requires Coupled() && model.ui.Joined? && |model.statuses.pipe| < model.capacity && IsPointer(next)
      requires model.objects == ObjectsAt(8)
      requires Count(model.heap.deleted, model.heap.Fresh(ClosePipe)) == 0
      modifies this`keyPressTrigger, this`keyReleaseTrigger
      modifies this`heap, this`next, this`looperPipe, this`model, statusPipe
      ensures Coupled() && model == Torn(old(model)) && looperPipe == null && next == old(next) + 1
    {
      ClosePipes();
      FreeSources();
    }

    /** First half of Disconnect. */
    method CloseAndJoin(reports: seq<HidState>)
      requires Coupled() && Inv(model) && model.ui.Ready? && model.looper.Dispatching?
      requires IsPointer(next + |reports| + 1) && |model.keys.pipe| < model.capacity
      requires |model.statuses.pipe| + |reports| < model.capacity
      modifies this, looperPipe, statusPipe
      ensures Coupled() && HasJoined(old(model), model)
      ensures Grown(old(model), model, |reports| + 1) && |model.statuses.pipe| <= |old(model).statuses.pipe| + |reports|
      ensures looperPipe == old(looperPipe) && statusPipe == old(statusPipe)
    {
      ghost var start := model;
      HeadFacts(start);
      CloseLooperPipe();
      JoinLooper(reports);
      JoinedFacts(start, model);
    }

    /** Second half, with the statuses that the HID client posts as it is torn down. */
    method TearDown(last: seq<HidState>, ghost start: State)
      requires Coupled() && HasJoined(start, model) && IsPointer(next + |last| + 1)
      requires |model.statuses.pipe| + 1 + |last| <= model.capacity
      modifies this, statusPipe
      ensures Coupled() && model.ui.SourcesFreed? && model.objects == ObjectsAt(12) && model.pending.None?
      ensures model.hid == Expand(model.keys.written) && Leads(start, Freed(model))
      ensures looperPipe == null && statusPipe == old(statusPipe)
    {
      ghost var joined := model;
      Tear();
      OnStatuses(last, InTeardown);
      TornFacts(start, joined, model, last);
    }

    /** Disconnect, when the box is connected and neither pipe is full. `reports` are the
        statuses that the HID client may post until the looper thread ends, `last` those
        that it posts while it is torn down. */
    method Disconnect(reports: seq<HidState>, last: seq<HidState>)
      requires Coupled() && Inv(model) && model.ui.Ready? && model.looper.Dispatching?
      requires IsPointer(next + |reports| + |last| + 2) && |model.keys.pipe| < model.capacity
      requires |model.statuses.pipe| + |reports| + 1 + |last| <= model.capacity
      modifies this, looperPipe, statusPipe
      ensures Coupled() && model.ui.Disconnected? && Leads(old(model), model)
      ensures pendingRelease.None? && looperPipe == null && statusPipe == old(statusPipe)
      ensures !hidClient && !looper && !keyPressTrigger && !keyReleaseTrigger && !current
      ensures hid == Expand(model.keys.written)
    {
      ghost var start := model;
      assert model.objects == ObjectsAt(5);
      if keyPressTrigger {
        CloseAndJoin(reports);
        TearDown(last, start);
      }
      FreeRest();
    }
  }

  /** Disconnect up to the join of the looper thread. */
  function Head(s: State): State {
    s.(ui := Joining, keys := s.keys.Write(s.heap.Fresh(ClosePipe)), heap := s.heap.New(ClosePipe))
  }

  lemma HeadFacts(s: State)
    requires Inv(s) && s.ui.Ready? && |s.keys.pipe| < s.capacity
    ensures s.objects == ObjectsAt(5)
    ensures Count(s.heap.deleted, s.heap.Fresh(ClosePipe)) == 0
    ensures Inv(Head(s)) && Leads(s, Head(s))
  {
    FreshWasNotDeleted(s, ClosePipe);
    LeadsToItself(s);
    LeadsOn(s, s, ByUi(BeginDisconnect));
    LeadsOn(s, UiNext(s, BeginDisconnect), ByUi(WriteClose));
    LeadsKeepsInv(s, Head(s));
  }

  /** Disconnect from there to the close marker of the status pipe. */
  function Closed(s: State): State {
    s.(ui := StatusClosed, objects := ObjectsAt(11),
       statuses := s.statuses.Write(s.heap.Fresh(ClosePipe)),
       closeAt := |s.statuses.written|, heap := s.heap.New(ClosePipe))
  }

  lemma ClosedResult(s: State)
    requires s.ui.Joined? && |s.statuses.pipe| < s.capacity && s.objects == ObjectsAt(8)
    ensures var t := UiNext(s, FreeLooperPipe);
      && t == s.(ui := PipeFreed, objects := ObjectsAt(9))
      && UiNext(UiNext(t, CloseStatus), WriteStatusClose) == Closed(s)
  {}

  /** Disconnect from there to the end of the event sources. */
  function Torn(s: State): State {
    s.(ui := SourcesFreed, objects := ObjectsAt(12),
       statuses := s.statuses.Write(s.heap.Fresh(ClosePipe)),
       closeAt := |s.statuses.written|, heap := s.heap.New(ClosePipe))
  }

  lemma TornLeads(s: State)
    requires s.ui.Joined? && |s.statuses.pipe| < s.capacity && s.objects == ObjectsAt(8)
    ensures Leads(s, Torn(s))
  {
    LeadsToItself(s);
    LeadsOn(s, s, ByUi(FreeLooperPipe));
    var a := UiNext(s, FreeLooperPipe);
    LeadsOn(s, a, ByUi(CloseStatus));
    var b := UiNext(a, CloseStatus);
    LeadsOn(s, b, ByUi(WriteStatusClose));
    LeadsOn(s, UiNext(b, WriteStatusClose), ByUi(FreeSources));
  }

  /** Disconnect from there to its end. */
  function Freed(s: State): State {
    s.(ui := Disconnected, objects := ObjectsAt(16))
  }

  lemma FreedLeads(s: State)
    requires s.ui.SourcesFreed? && s.pending.None? && s.objects == ObjectsAt(12)
    ensures Leads(s, Freed(s))
  {
    LeadsToItself(s);
    LeadsOn(s, s, ByUi(FreeHid));
    var b := UiNext(s, FreeHid);
    LeadsOn(s, b, ByUi(FreeLooper));
    var c := UiNext(b, FreeLooper);
    LeadsOn(s, c, ByUi(CleanPending));
    LeadsOn(s, UiNext(c, CleanPending), ByUi(ClearCurrent));
  }

  /** What Disconnect relies on once the looper thread has ended. */
  ghost predicate HasJoined(start: State, s: State) {
    && s.ui.Joined? && s.objects == ObjectsAt(8) && s.pending.None? && s.hid == Expand(s.keys.written)
    && Count(s.heap.deleted, s.heap.Fresh(ClosePipe)) == 0
    && Leads(start, Torn(s)) && Inv(Torn(s))
  }

  lemma JoinedFacts(start: State, s: State)
    requires Inv(start) && start.ui.Ready? && |start.keys.pipe| < start.capacity
    requires Leads(Head(start), s) && s.ui.Joined? && |s.statuses.pipe| < s.capacity
    ensures HasJoined(start, s)
  {
    HeadFacts(start);
    LeadsKeepsInv(Head(start), s);
    T.Drained(s);
    FreshWasNotDeleted(s, ClosePipe);
    TornLeads(s);
    LeadsThrough(start, Head(start), s);
    LeadsThrough(start, s, Torn(s));
    LeadsKeepsInv(start, Torn(s));
  }

  /** And once the HID client has posted its last statuses. */
  lemma TornFacts(start: State, s: State, t: State, states: seq<HidState>)
    requires Leads(start, Torn(s)) && Reported(Torn(s), t, states) && s.pending.None?
    ensures t.ui.SourcesFreed? && t.objects == ObjectsAt(12) && t.pending.None?
    ensures t.hid == s.hid && t.keys == s.keys
    ensures Leads(start, Freed(t))
  {
    LeadsThrough(start, Torn(s), t);
    FreedLeads(t);
    LeadsThrough(start, t, Freed(t));
  }

  lemma {:induction false} RunConcat(s: State, a: seq<Action>, b: seq<Action>)
    requires IsRun(s, a) && IsRun(Final(s, a), b)
    ensures IsRun(s, a + b) && Final(s, a + b) == Final(Final(s, a), b)
    decreases |a|
  {
    if a == [] {
      assert a + b == b;
    } else {
      RunConcat(Next(s, a[0]), a[1..], b);
      assert (a + b)[0] == a[0] && (a + b)[1..] == a[1..] + b;
    }
  }

  lemma LeadsThrough(s: State, t: State, u: State)
    requires Leads(s, t) && Leads(t, u)
    ensures Leads(s, u)
  {
    var a :| IsRun(s, a) && Final(s, a) == t;
    var b :| IsRun(t, b) && Final(t, b) == u;
    RunConcat(s, a, b);
  }

  /** t has at most n messages more in the status pipe and on the heap than s. */
  predicate Grown(s: State, t: State, n: nat) {
    && |t.statuses.pipe| <= |s.statuses.pipe| + n
    && |t.heap.created| <= |s.heap.created| + n
    && t.capacity == s.capacity
  }

  /** What the UI thread relies on to send a key: the pipe has room. */
  ghost predicate SendReady(s: State) {
    && s.ui.Ready? && |s.keys.pipe| < s.capacity
    && s.objects.looperPipe
    && forall b :: Count(s.heap.deleted, s.heap.Fresh(b)) == 0
  }

  function Sent(s: State, command: Command, report: UInt8, code: UInt32): State
    requires s.ui.Ready? && |s.keys.pipe| < s.capacity
  {
    var created := UiNext(s, SendKey(command, report, code));
    if created.ui.Sending? then UiNext(created, WriteKey) else created
  }

  lemma SentResult(s: State, command: Command, report: UInt8, code: UInt32)
    requires s.ui.Ready? && |s.keys.pipe| < s.capacity && s.objects.pressSource
    ensures var b := KeyBody(command, report, code);
      Sent(s, command, report, code) == s.(keys := s.keys.Write(s.heap.Fresh(b)), heap := s.heap.New(b))
  {}

  lemma SendIsReady(s: State)
    requires Inv(s) && s.ui.Ready? && |s.keys.pipe| < s.capacity
    ensures SendReady(s)
  {
    forall b ensures Count(s.heap.deleted, s.heap.Fresh(b)) == 0 {
      FreshWasNotDeleted(s, b);
    }
  }

  /** Where the HID client calls OnStatus from. */
  datatype Caller = InConnect | OnLooper | InTeardown

  predicate MayReport(s: State, at: Caller) {
    match at
    case InConnect => s.ui.HidOpen?
    case OnLooper => s.looper.Dispatching?
    case InTeardown => s.ui.SourcesFreed?
  }

  /** What OnStatus relies on: the static pointer leads to a status pipe with room. */
  ghost predicate StatusReady(s: State, at: Caller) {
    && MayReport(s, at) && |s.statuses.pipe| < s.capacity
    && (s.objects.current ==> s.objects.statusPipe)
    && forall b :: Count(s.heap.deleted, s.heap.Fresh(b)) == 0
  }

  /** OnStatus, when nothing of the other threads comes in between. */
  function StatusCallback(s: State, c: HidState, at: Caller): State
    requires MayReport(s, at) && |s.statuses.pipe| < s.capacity
  {
    match at
    case InConnect =>
      var created := UiNext(s, ConnectStatus(c));
      if created.ui.ConnectPosting? then UiNext(created, WriteConnectStatus) else created
    case OnLooper =>
      var created := LooperNext(s, LooperStatus(c));
      if created.looper.PostingStatus? then LooperNext(created, WriteLooperStatus) else created
    case InTeardown =>
      var created := UiNext(s, TeardownStatus(c));
      if created.ui.TeardownPosting? then UiNext(created, WriteTeardownStatus) else created
  }

  /** t is s after one status more. */
  predicate OneMore(s: State, t: State, b: Body) {
    t == s.(statuses := s.statuses.Write(s.heap.Fresh(b)), heap := s.heap.New(b),
            connectPosts := t.connectPosts, teardownPosts := t.teardownPosts)
  }

  lemma StatusResult(s: State, c: HidState, at: Caller)
    requires StatusReady(s, at)
    ensures var t := StatusCallback(s, c, at);
      if s.objects.current then OneMore(s, t, StatusBody(c)) else t == s
  {}

  /** While the HID client may report, the static pointer and the status pipe are there. */
  lemma ReportingIsInside(s: State, at: Caller)
    requires InvObjects(s) && MayReport(s, at)
    ensures s.objects.current && s.objects.statusPipe
  {}

  lemma StatusIsReady(s: State, at: Caller)
    requires Inv(s) && MayReport(s, at) && |s.statuses.pipe| < s.capacity
    ensures StatusReady(s, at) && s.objects.current
  {
    ReportingIsInside(s, at);
    forall b ensures Count(s.heap.deleted, s.heap.Fresh(b)) == 0 {
      FreshWasNotDeleted(s, b);
    }
  }

  lemma LeadsThroughStatus(start: State, s: State, c: HidState, at: Caller)
    requires Leads(start, s) && StatusReady(s, at) && s.objects.current
    ensures Leads(start, StatusCallback(s, c, at))
  {
    match at
    case InConnect =>
      LeadsOn(start, s, ByUi(ConnectStatus(c)));
      LeadsOn(start, UiNext(s, ConnectStatus(c)), ByUi(WriteConnectStatus));
    case OnLooper =>
      LeadsOn(start, s, ByLooper(LooperStatus(c)));
      LeadsOn(start, LooperNext(s, LooperStatus(c)), ByLooper(WriteLooperStatus));
    case InTeardown =>
      LeadsOn(start, s, ByUi(TeardownStatus(c)));
      LeadsOn(start, UiNext(s, TeardownStatus(c)), ByUi(WriteTeardownStatus));
  }

  /** These messages are statuses, of these states, in this order. */
  ghost predicate AreStatuses(ms: seq<Message>, states: seq<HidState>) {
    |ms| == |states| && forall i :: 0 <= i < |ms| ==> ms[i].body == StatusBody(states[i])
  }

  /** t is s after these statuses more. */
  ghost predicate Reported(s: State, t: State, states: seq<HidState>) {
    && Leads(s, t)
    && s.statuses.pipe <= t.statuses.pipe
    && AreStatuses(t.statuses.pipe[|s.statuses.pipe|..], states)
    && t == s.(statuses := t.statuses, heap := t.heap, connectPosts := t.connectPosts, teardownPosts := t.teardownPosts)
  }

  lemma OneMoreStatus(ms: seq<Message>, from: nat, states: seq<HidState>, m: Message, c: HidState)
    requires from <= |ms| && AreStatuses(ms[from..], states) && m.body == StatusBody(c)
    ensures AreStatuses((ms + [m])[from..], states + [c])
  {
    assert (ms + [m])[from..] == ms[from..] + [m];
  }

  lemma ReportingFacts(start: State, s: State, states: seq<HidState>, c: HidState, at: Caller)
    requires Inv(start) && MayReport(start, at) && Reported(start, s, states) && |s.statuses.pipe| < s.capacity
    ensures StatusReady(s, at) && Reported(start, StatusCallback(s, c, at), states + [c])
  {
    OneMoreStatus(s.statuses.pipe, |start.statuses.pipe|, states, s.heap.Fresh(StatusBody(c)), c);
    LeadsKeepsInv(start, s);
    StatusIsReady(s, at);
    LeadsThroughStatus(start, s, c, at);
    StatusResult(s, c, at);
  }

  /** What ReadStatus relies on: the status pipe is there, and so is the status or
      the close marker that it is about to read. */
  ghost predicate ReadReady(s: State) {
    && ReaderEnabled(s, ReadStatus)
    && s.objects.statusPipe
    && Numbered(s.heap.created) && IsLive(s.heap, s.statuses.pipe[0])
    && !s.statuses.pipe[0].body.KeyBody?
  }

  lemma ReadIsReady(s: State)
    requires Inv(s) && ReaderEnabled(s, ReadStatus)
    ensures ReadReady(s)
  {
    HeldIsLive(s, s.statuses.pipe[0]);
    ReadKeepsFifo(s.statuses);
  }

  /** Connect up to the HID client. */
  function Opened(s: State): State
    requires s.ui.New?
  {
    UiNext(UiNext(UiNext(s, OpenPipes), OpenSources), OpenHid)
  }

  lemma OpeningFacts(s: State)
    requires s == Init(s.capacity)
    ensures Leads(s, Opened(s)) && Inv(Opened(s)) && Opened(s).ui.HidOpen?
    ensures Opened(s) == s.(ui := HidOpen, objects := ObjectsAt(3))
  {
    InitInv(s.capacity);
    LeadsToItself(s);
    LeadsOn(s, s, ByUi(OpenPipes));
    var a := UiNext(s, OpenPipes);
    LeadsOn(s, a, ByUi(OpenSources));
    LeadsOn(s, UiNext(a, OpenSources), ByUi(OpenHid));
    LeadsKeepsInv(s, Opened(s));
  }

  lemma StartingFacts(s: State, t: State, states: seq<HidState>)
    requires s == Init(s.capacity) && Reported(Opened(s), t, states)
    ensures t.ui.HidOpen? && t.objects == ObjectsAt(3) && t.keys == s.keys && AreStatuses(t.statuses.pipe, states)
    ensures Leads(s, UiNext(t, StartLooper))
  {
    OpeningFacts(s);
    LeadsThrough(s, Opened(s), t);
    LeadsOn(s, t, ByUi(StartLooper));
    assert t.statuses.pipe[0..] == t.statuses.pipe;
  }

  /** How much the looper thread has to do before it ends. */
  function Work(s: State): nat {
    2 * |s.keys.pipe| + if s.pending.Some? then 1 else 0
  }

  lemma CallbackWorks(s: State)
    requires LooperEnabled(s, ReadKey)
    ensures Work(KeyCallback(s)) < Work(s)
  {}

  /** What JoinLooper relies on, and what each callback brings about. */
  lemma JoiningKey(start: State, s: State, n: nat)
    requires Inv(start) && Leads(start, s) && Grown(start, s, n) && s.ui.Joining? && s.looper.Dispatching?
    ensures CallbackReady(s)
    ensures var t := KeyCallback(s);
      && Leads(start, t) && Grown(start, t, n) && t.ui.Joining? && t.keys.pipe == s.keys.pipe[1..]
      && t.looper == (if t.exitRequested then Exited else Dispatching)
      && Work(t) < Work(s)
  {
    LeadsKeepsInv(start, s);
    T.MarkerIsStillThere(s);
    CallbackIsReady(s);
    LeadsThroughCallback(start, s);
    CallbackKeepsInv(s);
    CallbackLeavesStatuses(s);
    CallbackWorks(s);
  }

  lemma CallbackLeavesStatuses(s: State)
    requires LooperEnabled(s, ReadKey)
    ensures Grown(s, KeyCallback(s), 0)
  {}

  lemma JoiningRelease(start: State, s: State, n: nat)
    requires Inv(start) && Leads(start, s) && Grown(start, s, n) && s.ui.Joining? && s.looper.Dispatching?
    ensures PendingLive(s)
    ensures var t := ReleasePending(s);
      && Leads(start, t) && Grown(start, t, n) && t.ui.Joining? && t.keys == s.keys && t.pending.None?
      && t.looper.Dispatching? && !t.exitRequested
  {
    LeadsKeepsInv(start, s);
    PendingIsLive(s);
    LeadsOn(start, s, ByLooper(TimerFires));
  }

  lemma JoiningStatus(start: State, s: State, n: nat, c: HidState)
    requires Inv(start) && Leads(start, s) && Grown(start, s, n) && s.ui.Joining? && s.looper.Dispatching?
    requires |s.statuses.pipe| < s.capacity
    ensures StatusReady(s, OnLooper)
    ensures var t := StatusCallback(s, c, OnLooper);
      && Leads(start, t) && Grown(start, t, n + 1) && t.ui.Joining? && t.keys == s.keys && t.pending == s.pending
      && t.looper.Dispatching? && t.exitRequested == s.exitRequested
  {
    LeadsKeepsInv(start, s);
    StatusIsReady(s, OnLooper);
    LeadsThroughStatus(start, s, c, OnLooper);
    StatusResult(s, c, OnLooper);
  }

  /** The status thread has posted `posts` since start, and nothing else has moved. */
  ghost predicate HasPosted(start: State, s: State, posts: seq<string>) {
    Leads(start, s) && s.ui == start.ui && s.posted == start.posted + posts
  }

  /** The run method of the status thread (Freebox.connect), from the moment when the
      close marker is in the pipe: it ends, and what it has posted is what was written. */
  method StatusLoop(rcu: Rcu) returns (posts: seq<string>)
    requires rcu.Coupled() && Inv(rcu.model) && 11 <= Phase(rcu.model.ui) && rcu.model.reader.Reading?
    modifies rcu`heap, rcu`model, rcu.statusPipe
    ensures rcu.Coupled() && HasPosted(old(rcu.model), rcu.model, posts) && rcu.model.reader.Finished?
    ensures rcu.model.closeAt < |rcu.model.statuses.written|
    ensures rcu.model.posted == Names(rcu.model.statuses.written[..rcu.model.closeAt]) + ["EXIT"]
  {
    ghost var start := rcu.model;
    posts := [];
    StartOfLoop(start);
    while true
      invariant rcu.Coupled() && HasPosted(start, rcu.model, posts) && rcu.model.reader.Reading?
      invariant rcu.statusPipe == old(rcu.statusPipe)
      decreases |rcu.model.statuses.pipe|
    {
      var status := PostOne(rcu, start, posts);
      posts := posts + [status];
      if status == "EXIT" {
        break;
      }
    }
    FinishedFacts(start, rcu.model);
  }

  lemma StartOfLoop(s: State)
    ensures HasPosted(s, s, [])
  {
    LeadsToItself(s);
  }

  lemma FinishedFacts(start: State, s: State)
    requires Inv(start) && Leads(start, s) && s.reader.Finished?
    ensures s.closeAt < |s.statuses.written| && s.posted == Names(s.statuses.written[..s.closeAt]) + ["EXIT"]
  {
    LeadsKeepsInv(start, s);
    T.FinishedStream(s);
  }

  /** One turn of that loop, with the post to the UI handler. */
  method PostOne(rcu: Rcu, ghost start: State, ghost posts: seq<string>) returns (status: string)
    requires rcu.Coupled() && Inv(start) && HasPosted(start, rcu.model, posts)
    requires 11 <= Phase(start.ui) && rcu.model.reader.Reading?
    modifies rcu`heap, rcu`model, rcu.statusPipe
    ensures rcu.Coupled() && HasPosted(start, rcu.model, posts + [status])
    ensures rcu.model.reader == if status == "EXIT" then Finished else Reading
    ensures |rcu.model.statuses.pipe| < |old(rcu.model).statuses.pipe|
  {
    StatusTurn(start, rcu.model);
    status := rcu.ReadStatus();
    rcu.Posted();
  }

  /** The labels of one turn. */
  lemma StatusTurn(start: State, s: State)
    requires Inv(start) && Leads(start, s) && 11 <= Phase(s.ui) && s.reader.Reading?
    ensures ReadReady(s)
    ensures var name := Name(s.statuses.pipe[0].body);
      var read := ReaderNext(ReaderNext(s, ReadStatus), NameStatus);
      && read.reader == Posting(name)
      && var t := ReaderNext(read, PostStatus);
         && Leads(start, t) && t.ui == s.ui && t.posted == s.posted + [name]
         && t.reader == (if name == "EXIT" then Finished else Reading)
         && t.statuses.pipe == s.statuses.pipe[1..]
  {
    LeadsKeepsInv(start, s);
    T.ReaderEndsByMarker(s);
    ReadIsReady(s);
    LeadsOn(start, s, ByReader(ReadStatus));
    var a := ReaderNext(s, ReadStatus);
    LeadsOn(start, a, ByReader(NameStatus));
    LeadsOn(start, ReaderNext(a, NameStatus), ByReader(PostStatus));
  }

  lemma LeadsKeepsInv(s: State, t: State)
    requires Inv(s) && Leads(s, t)
    ensures Inv(t)
  {
    var run :| IsRun(s, run) && Final(s, run) == t;
    RunKeepsInv(s, run);
  }
}
