/** Which native engines the boxes hold: the bookkeeping behind the claim that at most
    one exists. */
module Handles {
  import opened Messages
  import opened Boxes
  import opened Apps

  /** The handle of the active box: 0 when there is no active box or it has no engine. */
  function ActiveHandle<Id(==)>(a: App<Id>): nat {
    if a.active.Some? && a.active.value in a.objs then a.objs[a.active.value].rcu else 0
  }

  /** The engines that exist are that of the active box, if it has one; no other box
      holds a handle. */
  ghost predicate HandlesOk<Id>(a: App<Id>, handles: set<nat>, nextHandle: nat) {
    && handles == (if ActiveHandle(a) == 0 then {} else {ActiveHandle(a)})
    && ActiveHandle(a) < nextHandle
    && (forall id :: id in a.objs && a.active != Some(id) ==> a.objs[id].rcu == 0)
    && (forall id :: id in a.objs && a.objs[id].rcu != 0 ==> a.objs[id].statusLooper)
  }

  lemma ReleaseKeepsHandles<Id>(a: App<Id>, handles: set<nat>, nextHandle: nat)
    requires HandlesOk(a, handles, nextHandle) && Closed(a)
    ensures HandlesOk(ReleaseFocus(a), handles, nextHandle)
  {}

  /** Boxes added without a handle leave the handles alone. */
  lemma MoreBoxesKeepHandles<Id>(a: App<Id>, t: App<Id>, handles: set<nat>, nextHandle: nat)
    requires HandlesOk(a, handles, nextHandle) && Closed(a) && t.active == a.active
    requires forall id :: id in a.objs ==> id in t.objs && t.objs[id] == a.objs[id]
    requires forall id :: id in t.objs && id !in a.objs ==> t.objs[id].rcu == 0
    ensures HandlesOk(t, handles, nextHandle) && ActiveHandle(t) == ActiveHandle(a)
  {}

  lemma DetectKeepsHandles<Id>(a: App<Id>, id: Id, handles: set<nat>, nextHandle: nat)
    requires Closed(a) && HandlesOk(a, handles, nextHandle) && id in a.objs
    ensures HandlesOk(Detect(a, id).0, handles, nextHandle)
  {}

  lemma MadeKeepsHandles<Id>(a: App<Id>, id: Id, b: Box, handles: set<nat>, nextHandle: nat)
    requires Closed(a) && HandlesOk(a, handles, nextHandle) && id !in a.objs && b.rcu == 0
    ensures HandlesOk(a.(objs := a.objs[id := b]), handles, nextHandle)
  {}

  lemma DisconnectKeepsHandles<Id>(a: App<Id>, handles: set<nat>, nextHandle: nat)
    requires Closed(a) && HandlesOk(a, handles, nextHandle)
    ensures HandlesOk(Disconnect(a), {}, nextHandle)
    ensures Disconnect(a).active.None?
  {}

  lemma ActivateKeepsHandles<Id>(a: App<Id>, target: Id, nextHandle: nat)
    requires Closed(a) && a.active.None? && HandlesOk(a, {}, nextHandle) && target in a.objs
    ensures Connectable(a.objs[target]) ==>
      && 0 < nextHandle && ActiveHandle(Activate(a, target, nextHandle)) == nextHandle
      && HandlesOk(Activate(a, target, nextHandle), {nextHandle}, nextHandle + 1)
    ensures !Connectable(a.objs[target]) ==> HandlesOk(Activate(a, target, 0), {}, nextHandle)
  {}
}
