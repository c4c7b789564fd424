/** Freebox.java in its own form, and the native engines behind it. */
module Freeboxes {
  import opened Messages
  import opened Boxes
  import opened Apps

  /** The engines that exist, by handle. What each of them does is the business of
      RcuEngine and Protocol. */
  class Natives {
    var live: set<nat>
    var next: nat

    constructor ()
      ensures live == {} && next == 1
    {
      live, next := {}, 1;
    }

    /** jniCreateRcu. */
    method Create() returns (handle: nat)
      modifies this
      ensures handle == old(next) && next == handle + 1 && live == old(live) + {handle}
    {
      handle := next;
      next := next + 1;
      live := live + {handle};
    }

    /** jniDisconnectRcu, the join of the status thread and jniDestroyRcu; nothing at
        all for the null handle. */
    method Destroy(handle: nat)
      modifies this`live
      ensures live == old(live) - {handle}
    {
      live := live - {handle};
    }
  }

  class Freebox {
    var rcu: nat
    var address: Option<string>
    var port: int
    var hasFocus: bool
    var reachable: bool
    var color: Option<string>
    var statusLooper: bool

    ghost function Value(): Box
      reads this
    {
      Box(address, port, hasFocus, reachable, color, rcu, statusLooper)
    }

    constructor FromRecord(json: Record)
      ensures Value() == FromJson(json)
    {
      rcu, address, port, hasFocus, reachable, color, statusLooper := 0, None, 0, false, false, None, false;
      new;
      if json.port.None? { return; }
      port := json.port.value;
      if json.address.None? { return; }
      address := json.address;
      if json.focus.None? { return; }
      hasFocus := json.focus.value;
      if json.color.None? { return; }
      color := json.color;
    }

    constructor Detected(address: string, port: int)
      ensures Value() == Sniffed(address, port)
    {
      rcu, hasFocus, color, statusLooper := 0, false, None, false;
      reachable := true;
      this.address := Some(address);
      this.port := port;
    }

    predicate Equals(freebox: Freebox?)
      reads this, freebox
      ensures Equals(freebox) <==> freebox != null && Same(Value(), freebox.Value())
    {
      freebox != null && port == freebox.port && address == freebox.address
    }

    method GetJson() returns (json: Record)
      ensures json == ToJson(Value())
    {
      json := Record(Some(port), address, Some(hasFocus), color);
    }

    method Connect(natives: Natives)
      modifies this, natives
      ensures Connectable(old(Value())) ==>
        && Value() == old(Value()).(rcu := old(natives.next), statusLooper := true)
        && natives.live == old(natives.live) + {rcu} && natives.next == rcu + 1
      ensures !Connectable(old(Value())) ==>
        Value() == old(Value()) && natives.live == old(natives.live) && natives.next == old(natives.next)
    {
      if address.Some? && port != 0 {
        rcu := natives.Create();
        statusLooper := true;
      }
    }

    method Disconnect(natives: Natives)
      modifies this, natives`live
      ensures Value() == Unplug(old(Value()))
      ensures natives.live == if statusLooper then old(natives.live) - {old(rcu)} else old(natives.live)
    {
      if statusLooper {
        natives.Destroy(rcu);
        rcu := 0;
      }
    }

    method GrabFocus()
      modifies this`hasFocus
      ensures hasFocus
    {
      hasFocus := true;
    }

    method ReleaseFocus()
      modifies this`hasFocus
      ensures !hasFocus
    {
      hasFocus := false;
    }
  }

  /** Disconnecting a box a second time changes nothing: its handle is null by then. */
  method DisconnectTwice(box: Freebox, natives: Natives)
    requires 0 !in natives.live
    modifies box, natives`live
    ensures box.Value() == Unplug(old(box.Value()))
    ensures natives.live == if old(box.statusLooper) then old(natives.live) - {old(box.rcu)} else old(natives.live)
  {
    box.Disconnect(natives);
    box.Disconnect(natives);
  }

  /** The boxes behind references, for the specifications. */
  ghost function Objects(objs: set<Freebox>): map<Freebox, Box>
    reads objs
  {
    map f | f in objs :: f.Value()
  }
}
