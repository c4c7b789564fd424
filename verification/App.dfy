/** The Java side on values: the Freebox objects, the registry of Home, the active
    box and the connection flag of MainActivity, the saved preferences. `Id` stands
    for object identity, so that two references may lead to one box. */
module Apps {
  import opened Messages
  import opened Boxes
  import opened Painters

  datatype App<Id(==)> = App(
    objs: map<Id, Box>,            // every Freebox object that matters
    registry: seq<Id>,             // Home.mBoxes
    active: Option<Id>,            // MainActivity.mActiveFreebox
    connected: bool,               // MainActivity.mConnected
    pool: Option<seq<Record>>,     // the "freebox_pool" preference
    table: Table)                  // Painter.mColorTable

  /** References lead to objects. */
  ghost predicate Closed<Id>(a: App<Id>) {
    && (forall id :: id in a.registry ==> id in a.objs)
    && (a.active.Some? ==> a.active.value in a.objs)
    && IsTable(a.table)
  }

  /** The boxes of the registry. */
  function Values<Id>(objs: map<Id, Box>, registry: seq<Id>): (bs: seq<Box>)
    requires forall id :: id in registry ==> id in objs
    ensures |bs| == |registry|
    ensures forall i :: 0 <= i < |registry| ==> bs[i] == objs[registry[i]]
  {
    seq(|registry|, i requires 0 <= i < |registry| => objs[registry[i]])
  }

  function ActiveBox<Id>(a: App<Id>): Option<Box>
    requires Closed(a)
  {
    if a.active.Some? then Some(a.objs[a.active.value]) else None
  }

  // ---- MainActivity.connectFreebox and disconnectFreebox

  /** Freebox.connect does something only for a box with an address and a port. */
  predicate Connectable(b: Box) {
    b.address.Some? && b.port != 0
  }

  function ReleaseFocus<Id>(a: App<Id>): App<Id>
    requires Closed(a)
  {
    if a.active.None? then a
    else a.(objs := a.objs[a.active.value := a.objs[a.active.value].(focus := false)])
  }

  /** Freebox.disconnect, once it has returned. */
  function Unplug(b: Box): Box {
    if b.statusLooper then b.(rcu := 0) else b
  }

  function Disconnect<Id>(a: App<Id>): App<Id>
    requires Closed(a)
  {
    if a.active.None? then a
    else a.(objs := a.objs[a.active.value := Unplug(a.objs[a.active.value])], active := None)
  }

  /** Freebox.grabFocus and Freebox.connect, with the handle of the new engine. */
  function Plug(b: Box, handle: nat): Box {
    if Connectable(b) then b.(focus := true, rcu := handle, statusLooper := true) else b.(focus := true)
  }

  function Activate<Id>(a: App<Id>, target: Id, handle: nat): App<Id>
    requires Closed(a) && target in a.objs
  {
    a.(objs := a.objs[target := Plug(a.objs[target], handle)], active := Some(target))
  }

  function ConnectFreebox<Id>(a: App<Id>, target: Id, handle: nat): App<Id>
    requires Closed(a) && target in a.objs
  {
    Activate(Disconnect(ReleaseFocus(a)), target, handle)
  }

  function OnStatus<Id>(a: App<Id>, status: string): App<Id> {
    a.(connected := status == "connected")
  }

  // ---- Home.onFreeboxDetected

  /** The colour that a newly detected box ends up with. */
  function NewColor(table: Table, b: Box): string {
    if b.color.Some? then b.color.value else Choose(table)
  }

  /** A detection: the object `id` has just been made by a sniffer. The result is the
      box that the listener is told about. */
  function Detect<Id>(a: App<Id>, id: Id): (App<Id>, Id)
    requires Closed(a) && id in a.objs
  {
    match Find(Values(a.objs, a.registry), a.objs[id])
    case Some(k) =>
      var known := a.registry[k];
      (a.(objs := a.objs[known := a.objs[known].(reachable := true)]), known)
    case None =>
      var color := NewColor(a.table, a.objs[id]);
      (a.(objs := a.objs[id := a.objs[id].(color := Some(color))],
          registry := a.registry + [id],
          table := if a.objs[id].color.Some? then a.table else Use(a.table, color)),
       id)
  }

  // ---- Home.save, concealBoxes, recoverSavedBoxes, discloseBoxes

  function Records(bs: seq<Box>): (rs: seq<Record>)
    ensures |rs| == |bs|
    ensures forall i :: 0 <= i < |bs| ==> rs[i] == ToJson(bs[i])
  {
    seq(|bs|, i requires 0 <= i < |bs| => ToJson(bs[i]))
  }

  function Conceal<Id>(a: App<Id>): App<Id>
    requires Closed(a)
  {
    a.(pool := Some(Records(Values(a.objs, a.registry))), registry := [])
  }

  /** Reading the pool does not meet a null colour (the painter would throw). */
  ghost predicate Recoverable(rs: seq<Record>) {
    forall i :: 0 <= i < |rs| && FromJson(rs[i]).address.Some? ==> FromJson(rs[i]).color.Some?
  }

  /** One turn of the loop of Home.recoverSavedBoxes: the box that a record becomes is
      kept if it has an address, and is the one to select if it has the focus or is the
      first. */
  function RecoverOne<Id>(a: App<Id>, focus: Option<Id>, b: Box, id: Id): (App<Id>, Option<Id>)
    requires b.address.Some? ==> b.color.Some?
  {
    if b.address.None? then (a, focus)
    else
      (a.(objs := a.objs[id := b], registry := a.registry + [id], table := Use(a.table, b.color.value)),
       if b.focus || focus.None? then Some(id) else focus)
  }

  /** That loop from record i on; `ids` are the objects it makes. */
  function RecoverFrom<Id>(a: App<Id>, rs: seq<Record>, ids: seq<Id>, i: nat, focus: Option<Id>): (App<Id>, Option<Id>)
    requires |ids| == |rs| && i <= |rs| && Recoverable(rs)
    decreases |rs| - i
  {
    if i == |rs| then (a, focus)
    else
      var (t, f) := RecoverOne(a, focus, FromJson(rs[i]), ids[i]);
      RecoverFrom(t, rs, ids, i + 1, f)
  }

  /** The loop, seen from its end. */
  lemma {:induction false} RecoverSnoc<Id>(a: App<Id>, rs: seq<Record>, ids: seq<Id>, i: nat, focus: Option<Id>,
                                           r: Record, id: Id)
    requires |ids| == |rs| && i <= |rs| && Recoverable(rs + [r])
    ensures Recoverable(rs) && (FromJson(r).address.Some? ==> FromJson(r).color.Some?)
    ensures var (t, f) := RecoverFrom(a, rs, ids, i, focus);
      RecoverFrom(a, rs + [r], ids + [id], i, focus) == RecoverOne(t, f, FromJson(r), id)
    decreases |rs| - i
  {
    assert forall k :: 0 <= k < |rs| ==> (rs + [r])[k] == rs[k];
    assert (rs + [r])[|rs|] == r;
    if i < |rs| {
      var (t, f) := RecoverOne(a, focus, FromJson(rs[i]), ids[i]);
      RecoverSnoc(t, rs, ids, i + 1, f, r, id);
    }
  }

  function SavedRecords(pool: Option<seq<Record>>): seq<Record> {
    if pool.Some? then pool.value else []
  }

  /** Home.discloseBoxes; the result is the box that the listener is told to select. */
  function Disclose<Id>(a: App<Id>, ids: seq<Id>): (App<Id>, Option<Id>)
    requires |ids| == |SavedRecords(a.pool)| && Recoverable(SavedRecords(a.pool))
  {
    RecoverFrom(a.(registry := []), SavedRecords(a.pool), ids, 0, None)
  }

  // ---- the handlers of MainActivity, from their beginning to their end

  /** connectFreebox on a reference that may be null. */
  function Connect<Id>(a: App<Id>, target: Option<Id>, handle: nat): App<Id>
    requires Closed(a) && (target.Some? ==> target.value in a.objs)
  {
    if target.None? then a else ConnectFreebox(a, target.value, handle)
  }

  /** The box at an index of the registry, if there is one. */
  function At<Id>(registry: seq<Id>, k: Option<nat>): (id: Option<Id>)
    ensures id.Some? ==> id.value in registry
  {
    if k.Some? && k.value < |registry| then Some(registry[k.value]) else None
  }

  /** onNextFreebox; handle is that of the engine that it makes, if it makes one. */
  function SelectNext<Id>(a: App<Id>, handle: nat): App<Id>
    requires Closed(a)
  {
    Connect(a, At(a.registry, NextReachable(Values(a.objs, a.registry), ActiveBox(a))), handle)
  }

  /** onPreviousFreebox. */
  function SelectPrevious<Id>(a: App<Id>, handle: nat): App<Id>
    requires Closed(a)
  {
    Connect(a, At(a.registry, PreviousReachable(Values(a.objs, a.registry), ActiveBox(a))), handle)
  }

  lemma DetectCloses<Id>(a: App<Id>, id: Id)
    requires Closed(a) && id in a.objs
    ensures var (t, told) := Detect(a, id); Closed(t) && told in t.objs && t.connected == a.connected
  {}

  /** A detection, with what onFreeboxDetected does about it. */
  ghost function TakeDetection<Id>(a: App<Id>, id: Id, handle: nat): App<Id>
    requires Closed(a) && id in a.objs
  {
    DetectCloses(a, id);
    var (t, told) := Detect(a, id);
    Connect(t, if a.connected then None else Some(told), handle)
  }

  /** onPause. */
  function PauseAll<Id>(a: App<Id>): App<Id>
    requires Closed(a)
  {
    Disconnect(Conceal(a))
  }

  /** onResume; ids are the objects that it makes. */
  ghost function ResumeAll<Id>(a: App<Id>, ids: seq<Id>, handle: nat): App<Id>
    requires RegistryOk(a) && |ids| == |SavedRecords(a.pool)| && Fresh(ids, a.objs)
  {
    DiscloseFrame(a, ids);
    DiscloseKeepsRegistry(a, ids);
    var (t, focus) := Disclose(a, ids);
    Connect(t, focus, handle)
  }

  // ---- Home does not look at what MainActivity holds

  lemma DetectIgnores<Id>(a: App<Id>, id: Id, active: Option<Id>, connected: bool)
    requires Closed(a) && id in a.objs && (active.Some? ==> active.value in a.objs)
    ensures var (t, told) := Detect(a, id);
      Detect(a.(active := active, connected := connected), id) == (t.(active := active, connected := connected), told)
  {}

  lemma {:induction false} RecoverIgnores<Id>(a: App<Id>, rs: seq<Record>, ids: seq<Id>, i: nat, focus: Option<Id>,
                                              active: Option<Id>, connected: bool)
    requires |ids| == |rs| && i <= |rs| && Recoverable(rs)
    ensures var (t, f) := RecoverFrom(a, rs, ids, i, focus);
      RecoverFrom(a.(active := active, connected := connected), rs, ids, i, focus)
      == (t.(active := active, connected := connected), f)
    decreases |rs| - i
  {
    if i < |rs| {
      var (t, f) := RecoverOne(a, focus, FromJson(rs[i]), ids[i]);
      RecoverIgnores(t, rs, ids, i + 1, f, active, connected);
    }
  }

  // ---- what the registry keeps

  /** A record that Home.save has written. */
  predicate Complete(r: Record) {
    r.port.Some? && r.address.Some? && r.focus.Some? && r.color.Some?
  }

  ghost predicate PoolOk(rs: seq<Record>) {
    && (forall i :: 0 <= i < |rs| ==> Complete(rs[i]))
    && (forall i, j :: 0 <= i < j < |rs| ==> rs[i].port != rs[j].port || rs[i].address != rs[j].address)
    && (forall i, j :: 0 <= i < j < |rs| ==> !(rs[i].focus.value && rs[j].focus.value))
  }

  /** A box of the registry has an address and a colour that the painter has counted. */
  predicate Dressed(b: Box, table: Table) {
    && b.address.Some? && b.color.Some?
    && (b.color.value in table ==> 0 < table[b.color.value])
  }

  ghost predicate RegistryOk<Id>(a: App<Id>) {
    && Closed(a)
    && Distinct(Values(a.objs, a.registry))
    && (forall id :: id in a.registry ==> Dressed(a.objs[id], a.table))
    && PoolOk(SavedRecords(a.pool))
  }

  /** Only the holder, if anyone, has the focus. */
  ghost predicate FocusOk<Id>(a: App<Id>, holder: Option<Id>) {
    forall id :: id in a.registry && id in a.objs && a.objs[id].focus ==> holder == Some(id)
  }

  /** Changing a box's focus, handle or reachability changes nothing to the registry. */
  lemma RetouchKeepsRegistry<Id>(a: App<Id>, id: Id, b: Box)
    requires RegistryOk(a) && id in a.objs
    requires Same(b, a.objs[id]) && b.color == a.objs[id].color
    ensures RegistryOk(a.(objs := a.objs[id := b]))
  {}

  lemma ReleaseKeepsRegistry<Id>(a: App<Id>)
    requires RegistryOk(a)
    ensures RegistryOk(ReleaseFocus(a))
  {}

  lemma DisconnectKeepsRegistry<Id>(a: App<Id>)
    requires RegistryOk(a)
    ensures RegistryOk(Disconnect(a))
  {}

  lemma ActivateKeepsRegistry<Id>(a: App<Id>, target: Id, handle: nat)
    requires RegistryOk(a) && target in a.objs
    ensures RegistryOk(Activate(a, target, handle))
  {}

  lemma UseCounts(t: Table, color: string, b: Box)
    requires IsTable(t)
    ensures IsTable(Use(t, color))
    ensures color in t ==> 0 < Use(t, color)[color]
    ensures Dressed(b, t) ==> Dressed(b, Use(t, color))
  {}

  /** A detection keeps the boxes apart and dressed, provided that a box that comes
      with a palette colour of its own comes with one that the painter has counted.
      The boxes that the sniffers make come with none. */
  lemma DetectKeepsRegistry<Id>(a: App<Id>, id: Id)
    requires RegistryOk(a) && id in a.objs && id !in a.registry && a.objs[id].address.Some?
    requires a.objs[id].color.Some? ==> Dressed(a.objs[id], a.table)
    ensures RegistryOk(Detect(a, id).0)
    ensures Detect(a, id).1 in Detect(a, id).0.registry
  {
    var bs := Values(a.objs, a.registry);
    match Find(bs, a.objs[id]) {
      case Some(k) =>
        RetouchKeepsRegistry(a, a.registry[k], a.objs[a.registry[k]].(reachable := true));
      case None =>
        var t := Detect(a, id).0;
        var color := NewColor(a.table, a.objs[id]);
        var cs := Values(t.objs, t.registry);
        ChoiceIsFresh(a.table);
        UseCounts(a.table, color, a.objs[id]);
        assert forall i :: 0 <= i < |bs| ==> cs[i] == bs[i];
        forall k | k in t.registry ensures Dressed(t.objs[k], t.table) {
          if k != id {
            UseCounts(a.table, color, a.objs[k]);
          }
        }
    }
  }

  /** A newly detected box shares the colour of a known one only when no colour of
      the palette is left. */
  lemma ClashOnlyOnExhaustion<Id>(a: App<Id>, id: Id, k: Id)
    requires RegistryOk(a) && id in a.objs && id !in a.registry
    requires a.objs[id].address.Some? && a.objs[id].color.None?
    requires Find(Values(a.objs, a.registry), a.objs[id]).None?
    requires k in a.registry
    ensures Detect(a, id).0.objs[id].color == a.objs[k].color ==> Exhausted(a.table)
    ensures Exhausted(a.table) ==> Detect(a, id).0.objs[id].color == Some(PALETTE[0])
  {
    ChoiceIsFresh(a.table);
  }

  lemma ConcealKeepsRegistry<Id>(a: App<Id>, holder: Option<Id>)
    requires RegistryOk(a) && FocusOk(a, holder)
    ensures RegistryOk(Conceal(a))
  {}

  // ---- the focus

  /** A detection gives the focus to nobody. */
  lemma DetectKeepsFocus<Id>(a: App<Id>, id: Id, holder: Option<Id>)
    requires Closed(a) && id in a.objs && !a.objs[id].focus && FocusOk(a, holder)
    ensures FocusOk(Detect(a, id).0, holder)
    ensures var t := Detect(a, id).0;
      && t.active == a.active && t.connected == a.connected && t.pool == a.pool
      && t.objs.Keys == a.objs.Keys
      && forall k :: k in a.objs ==> t.objs[k].focus == a.objs[k].focus
  {}

  /** connectFreebox moves it from the active box, or from its target, to its target. */
  lemma ConnectMovesFocus<Id>(a: App<Id>, target: Id, handle: nat)
    requires Closed(a) && target in a.objs && (FocusOk(a, a.active) || FocusOk(a, Some(target)))
    ensures FocusOk(ConnectFreebox(a, target, handle), Some(target))
  {}

  // ---- the handlers, pinned down field by field

  /** The k-th known box has the address and the port of the detected one, and none
      before it has. */
  ghost predicate FirstAlike<Id>(a: App<Id>, id: Id, k: nat)
    requires Closed(a) && id in a.objs
  {
    && k < |a.registry|
    && a.objs[a.registry[k]].address == a.objs[id].address && a.objs[a.registry[k]].port == a.objs[id].port
    && forall i :: 0 <= i < k ==>
         a.objs[a.registry[i]].address != a.objs[id].address || a.objs[a.registry[i]].port != a.objs[id].port
  }

  /** No known box has the address and the port of the detected one. */
  ghost predicate Unknown<Id>(a: App<Id>, id: Id)
    requires Closed(a) && id in a.objs
  {
    forall k :: k in a.registry ==> a.objs[k].address != a.objs[id].address || a.objs[k].port != a.objs[id].port
  }

  /** Everything but the boxes, the registry and the counts. */
  predicate SameRest<Id(==)>(a: App<Id>, t: App<Id>) {
    t.active == a.active && t.connected == a.connected && t.pool == a.pool
  }

  /** The detection of a known box makes it reachable, and that is all. */
  lemma KnownDetection<Id>(a: App<Id>, id: Id, k: nat)
    requires Closed(a) && id in a.objs && FirstAlike(a, id, k)
    ensures var (t, told) := Detect(a, id);
      && told == a.registry[k] && t.registry == a.registry && t.table == a.table && SameRest(a, t)
      && t.objs.Keys == a.objs.Keys && t.objs[told] == a.objs[told].(reachable := true)
      && forall o :: o in a.objs && o != told ==> t.objs[o] == a.objs[o]
  {
    var bs := Values(a.objs, a.registry);
    assert Same(a.objs[id], bs[k]);
    var found := Find(bs, a.objs[id]);
    assert found == Some(k);
  }

  /** The detection of an unknown box without a colour appends it, in a palette colour
      that was unused if any was, and counts that colour. */
  lemma NewDetection<Id>(a: App<Id>, id: Id)
    requires Closed(a) && id in a.objs && Unknown(a, id) && a.objs[id].color.None?
    ensures var (t, told) := Detect(a, id);
      && told == id && t.registry == a.registry + [id] && SameRest(a, t)
      && t.objs.Keys == a.objs.Keys && t.objs[id].color.Some?
      && t.objs[id] == a.objs[id].(color := t.objs[id].color)
      && (forall o :: o in a.objs && o != id ==> t.objs[o] == a.objs[o])
      && var c := t.objs[id].color.value;
         && c in a.table && (Unused(a.table, c) || Exhausted(a.table))
         && t.table == a.table[c := a.table[c] + 1]
  {
    assert Find(Values(a.objs, a.registry), a.objs[id]).None?;
    ChoiceIsFresh(a.table);
  }

  /** So the listener is told about a reachable box whenever the detected one is. */
  lemma ToldIsReachable<Id>(a: App<Id>, id: Id)
    requires Closed(a) && id in a.objs && a.objs[id].reachable
    ensures var (t, told) := Detect(a, id);
      && told in t.objs && t.objs[told].reachable
      && t.objs[told].address == a.objs[id].address && t.objs[told].port == a.objs[id].port
  {
    var found := Find(Values(a.objs, a.registry), a.objs[id]);
    if found.Some? {
      assert a.registry[found.value] in a.objs;
    }
  }

  /** connectFreebox on a box: it becomes the active one, takes the focus, and gets an
      engine if and only if it has an address and a port; the box that was active gives
      up the focus and its engine. */
  lemma ConnectionResult<Id>(a: App<Id>, target: Id, handle: nat)
    requires Closed(a) && target in a.objs && handle != 0
    requires a.active != Some(target) ==> a.objs[target].rcu == 0
    requires forall id :: id in a.objs && a.objs[id].rcu != 0 ==> a.objs[id].statusLooper
    ensures var t := ConnectFreebox(a, target, handle); var b := a.objs[target];
      && t.active == Some(target) && t.registry == a.registry && t.table == a.table
      && t.connected == a.connected && t.pool == a.pool && t.objs.Keys == a.objs.Keys
      && t.objs[target].focus && t.objs[target].address == b.address && t.objs[target].port == b.port
      && t.objs[target].reachable == b.reachable && t.objs[target].color == b.color
      && t.objs[target].rcu == (if b.address.Some? && b.port != 0 then handle else 0)
      && (a.active.Some? && a.active.value != target ==>
            var o := a.active.value; var c := a.objs[o];
            t.objs[o] == Box(c.address, c.port, false, c.reachable, c.color, 0, c.statusLooper))
      && (forall o :: o in a.objs && o != target && a.active != Some(o) ==> t.objs[o] == a.objs[o])
  {}

  /** Next and previous lead to the neighbour among the reachable boxes, and do nothing
      when there is none. */
  lemma NextIsNeighbour<Id>(a: App<Id>, x: nat, y: nat, handle: nat)
    requires Closed(a) && Distinct(Values(a.objs, a.registry)) && x < |a.registry| && y < |a.registry|
    requires a.active == Some(a.registry[x]) && Adjacent(Values(a.objs, a.registry), x, y)
    ensures SelectNext(a, handle).active == Some(a.registry[y])
  {
    NextIsAdjacent(Values(a.objs, a.registry), x, y);
  }

  lemma PreviousIsNeighbour<Id>(a: App<Id>, x: nat, y: nat, handle: nat)
    requires Closed(a) && Distinct(Values(a.objs, a.registry)) && x < |a.registry| && y < |a.registry|
    requires a.active == Some(a.registry[y]) && Adjacent(Values(a.objs, a.registry), x, y)
    ensures SelectPrevious(a, handle).active == Some(a.registry[x])
  {
    PreviousIsAdjacent(Values(a.objs, a.registry), x, y);
  }

  lemma NoNeighbour<Id>(a: App<Id>, x: nat, handle: nat)
    requires Closed(a) && Distinct(Values(a.objs, a.registry)) && x < |a.registry|
    requires a.active == Some(a.registry[x])
    ensures (forall y :: x < y < |a.registry| ==> !a.objs[a.registry[y]].reachable) ==> SelectNext(a, handle) == a
    ensures (forall y :: 0 <= y < x ==> !a.objs[a.registry[y]].reachable) ==> SelectPrevious(a, handle) == a
  {
    var bs := Values(a.objs, a.registry);
    NextStartsAt(bs, x, 0);
    NextIsFirstAfter(bs, Some(bs[x]), x + 1);
    PreviousIsLastBefore(bs, x, 0, None);
  }

  /** What is saved: one record a box, in order, with its four fields. */
  lemma ConcealedRecords<Id>(a: App<Id>, i: nat)
    requires Closed(a) && i < |a.registry|
    ensures Conceal(a).registry == [] && |SavedRecords(Conceal(a).pool)| == |a.registry|
    ensures var r, b := SavedRecords(Conceal(a).pool)[i], a.objs[a.registry[i]];
      r.port == Some(b.port) && r.address == b.address && r.focus == Some(b.focus) && r.color == b.color
  {}

  // ---- what recovery brings back

  /** Identities for the objects that recovery makes: new ones, all different. */
  ghost predicate Fresh<Id>(ids: seq<Id>, objs: map<Id, Box>) {
    && (forall i :: 0 <= i < |ids| ==> ids[i] !in objs)
    && (forall i, j :: 0 <= i < j < |ids| ==> ids[i] != ids[j])
  }

  /** The box that recovery selects, among the records from i on. */
  function Selected<Id>(rs: seq<Record>, ids: seq<Id>, i: nat, focus: Option<Id>): Option<Id>
    requires |ids| == |rs| && i <= |rs|
    decreases |rs| - i
  {
    if i == |rs| then focus
    else Selected(rs, ids, i + 1, if FromJson(rs[i]).focus || focus.None? then Some(ids[i]) else focus)
  }

  /** The objects, once the records from i on have been made into boxes. */
  function WithRecords<Id(==)>(objs: map<Id, Box>, rs: seq<Record>, ids: seq<Id>, i: nat): map<Id, Box>
    requires |ids| == |rs| && i <= |rs|
    decreases |rs| - i
  {
    if i == |rs| then objs else WithRecords(objs[ids[i] := FromJson(rs[i])], rs, ids, i + 1)
  }

  /** Recovery adds one box for each record, in order, and touches nothing else. */
  ghost predicate Recovered<Id>(a: App<Id>, t: App<Id>, rs: seq<Record>, ids: seq<Id>, i: nat)
    requires |ids| == |rs| && i <= |rs|
  {
    && t.registry == a.registry + ids[i..]
    && t.active == a.active && t.connected == a.connected && t.pool == a.pool
    && t.objs == WithRecords(a.objs, rs, ids, i)
  }

  /** Outside of made, the objects are the same. */
  ghost predicate OthersKept<Id>(before: map<Id, Box>, after: map<Id, Box>, made: seq<Id>) {
    && (forall id :: id in before ==> id in after)
    && (forall id :: id in after && id !in made ==> id in before && after[id] == before[id])
  }

  lemma {:induction false} WithRecordsResult<Id>(objs: map<Id, Box>, rs: seq<Record>, ids: seq<Id>, i: nat)
    requires |ids| == |rs| && i <= |rs|
    requires forall j, k :: 0 <= j < k < |ids| ==> ids[j] != ids[k]
    ensures var t := WithRecords(objs, rs, ids, i);
      && OthersKept(objs, t, ids[i..])
      && forall k :: i <= k < |rs| ==> ids[k] in t && t[ids[k]] == FromJson(rs[k])
    decreases |rs| - i
  {
    if i < |rs| {
      WithRecordsResult(objs[ids[i] := FromJson(rs[i])], rs, ids, i + 1);
    }
  }

  /** Counts only grow, and every recovered box is dressed. */
  ghost predicate Counted(before: Table, after: Table, rs: seq<Record>, i: nat)
    requires i <= |rs|
  {
    && IsTable(before) && IsTable(after)
    && (forall c :: c in before ==> before[c] <= after[c])
    && (forall k :: i <= k < |rs| ==> Dressed(FromJson(rs[k]), after))
  }

  lemma {:induction false} RecoverFromResult<Id>(a: App<Id>, rs: seq<Record>, ids: seq<Id>, i: nat, focus: Option<Id>)
    requires |ids| == |rs| && i <= |rs|
    requires (forall k :: 0 <= k < |rs| ==> Complete(rs[k])) && Recoverable(rs)
    ensures Recovered(a, RecoverFrom(a, rs, ids, i, focus).0, rs, ids, i)
    ensures RecoverFrom(a, rs, ids, i, focus).1 == Selected(rs, ids, i, focus)
    decreases |rs| - i
  {
    if i < |rs| {
      var (t, f) := RecoverOne(a, focus, FromJson(rs[i]), ids[i]);
      RecoverFromResult(t, rs, ids, i + 1, f);
      assert ids[i..] == [ids[i]] + ids[i + 1..];
    }
  }

  /** The objects of the records that have a port and an address, from record i on. */
  function Consistent<Id>(rs: seq<Record>, ids: seq<Id>, i: nat): seq<Id>
    requires |ids| == |rs| && i <= |rs|
    decreases |rs| - i
  {
    if i == |rs| then []
    else (if rs[i].port.Some? && rs[i].address.Some? then [ids[i]] else []) + Consistent(rs, ids, i + 1)
  }

  lemma OneRecovered<Id>(a: App<Id>, focus: Option<Id>, r: Record, id: Id)
    requires FromJson(r).address.Some? ==> FromJson(r).color.Some?
    ensures RecoverOne(a, focus, FromJson(r), id).0.registry ==
      a.registry + if r.port.Some? && r.address.Some? then [id] else []
  {
    FirstMissingKeyStops(r);
    assert a.registry + [] == a.registry;
  }

  /** Whatever the pool: the consistent boxes are recovered, in order, and no others. */
  lemma {:induction false} RecoveredRegistry<Id>(a: App<Id>, rs: seq<Record>, ids: seq<Id>, i: nat, focus: Option<Id>)
    requires |ids| == |rs| && i <= |rs| && Recoverable(rs)
    ensures RecoverFrom(a, rs, ids, i, focus).0.registry == a.registry + Consistent(rs, ids, i)
    decreases |rs| - i
  {
    if i < |rs| {
      var (t, f) := RecoverOne(a, focus, FromJson(rs[i]), ids[i]);
      var one := if rs[i].port.Some? && rs[i].address.Some? then [ids[i]] else [];
      RecoveredRegistry(t, rs, ids, i + 1, f);
      OneRecovered(a, focus, rs[i], ids[i]);
      Associate(a.registry, one, Consistent(rs, ids, i + 1));
    }
  }

  lemma {:induction false} RecoverFromCounts<Id>(a: App<Id>, rs: seq<Record>, ids: seq<Id>, i: nat, focus: Option<Id>)
    requires |ids| == |rs| && i <= |rs| && IsTable(a.table)
    requires (forall k :: 0 <= k < |rs| ==> Complete(rs[k])) && Recoverable(rs)
    ensures Counted(a.table, RecoverFrom(a, rs, ids, i, focus).0.table, rs, i)
    decreases |rs| - i
  {
    if i < |rs| {
      var (t, f) := RecoverOne(a, focus, FromJson(rs[i]), ids[i]);
      RecoverFromCounts(t, rs, ids, i + 1, f);
    }
  }

  /** None of the records has the focus. */
  ghost predicate NoFocus(rs: seq<Record>) {
    forall k :: 0 <= k < |rs| ==> !FromJson(rs[k]).focus
  }

  /** The focused record if there is one, or else the first. */
  lemma {:induction false} SelectedIsFocused<Id>(rs: seq<Record>, ids: seq<Id>, i: nat, focus: Option<Id>)
    requires |ids| == |rs| && i <= |rs| && PoolOk(rs)
    ensures forall k :: i <= k < |rs| && FromJson(rs[k]).focus ==> Selected(rs, ids, i, focus) == Some(ids[k])
    ensures (forall k :: i <= k < |rs| ==> !FromJson(rs[k]).focus) ==>
      Selected(rs, ids, i, focus) == (if focus.Some? || i == |rs| then focus else Some(ids[i]))
    ensures i < |rs| ==> Selected(rs, ids, i, focus).Some?
    decreases |rs| - i
  {
    if i < |rs| {
      SelectedIsFocused(rs, ids, i + 1, if FromJson(rs[i]).focus || focus.None? then Some(ids[i]) else focus);
    }
  }

  /** Recovery as a whole. */
  lemma DiscloseParts<Id>(a: App<Id>, ids: seq<Id>)
    requires IsTable(a.table) && PoolOk(SavedRecords(a.pool)) && |ids| == |SavedRecords(a.pool)|
    ensures Recoverable(SavedRecords(a.pool))
    ensures var rs := SavedRecords(a.pool); var (t, focus) := Disclose(a, ids);
      && t.registry == ids && t.active == a.active && t.connected == a.connected && t.pool == a.pool
      && t.objs == WithRecords(a.objs, rs, ids, 0)
      && Counted(a.table, t.table, rs, 0)
      && focus == Selected(rs, ids, 0, None)
  {
    var rs := SavedRecords(a.pool);
    RecoverFromResult(a.(registry := []), rs, ids, 0, None);
    RecoverFromCounts(a.(registry := []), rs, ids, 0, None);
  }

  /** Recovery makes one box for each record, in order, and touches no other object;
      the listener is told to select the focused one if there is one. */
  lemma DiscloseResult<Id>(a: App<Id>, ids: seq<Id>)
    requires IsTable(a.table) && PoolOk(SavedRecords(a.pool))
    requires |ids| == |SavedRecords(a.pool)| && Fresh(ids, a.objs)
    ensures Recoverable(SavedRecords(a.pool))
    ensures var rs := SavedRecords(a.pool); var (t, focus) := Disclose(a, ids);
      && OthersKept(a.objs, t.objs, ids)
      && t.active == a.active && t.connected == a.connected && t.pool == a.pool
      && (forall k :: 0 <= k < |rs| ==> ids[k] in t.objs && t.objs[ids[k]] == FromJson(rs[k]))
      && Counted(a.table, t.table, rs, 0)
      && t.registry == ids
      && (focus.Some? <==> rs != [])
      && (focus.Some? ==> focus.value in ids)
      && (forall k :: 0 <= k < |rs| && FromJson(rs[k]).focus ==> focus == Some(ids[k]))
      && (NoFocus(rs) && rs != [] ==> focus == Some(ids[0]))
  {
    DiscloseParts(a, ids);
    SelectionFacts(SavedRecords(a.pool), ids);
    WithRecordsResult(a.objs, SavedRecords(a.pool), ids, 0);
  }

  lemma SelectionFacts<Id>(rs: seq<Record>, ids: seq<Id>)
    requires |ids| == |rs| && PoolOk(rs)
    ensures var focus := Selected(rs, ids, 0, None);
      && (focus.Some? <==> rs != [])
      && (focus.Some? ==> focus.value in ids)
      && (forall k :: 0 <= k < |rs| && FromJson(rs[k]).focus ==> focus == Some(ids[k]))
      && (NoFocus(rs) && rs != [] ==> focus == Some(ids[0]))
  {
    SelectedIsFocused(rs, ids, 0, None);
  }

  /** What resuming brings: new boxes for the saved ones, everything else unchanged. */
  lemma DiscloseFrame<Id>(a: App<Id>, ids: seq<Id>)
    requires RegistryOk(a) && |ids| == |SavedRecords(a.pool)| && Fresh(ids, a.objs)
    ensures Recoverable(SavedRecords(a.pool))
    ensures var (t, focus) := Disclose(a, ids);
      && t.registry == ids && t.active == a.active && t.connected == a.connected
      && (forall id :: id in a.objs ==> id in t.objs && t.objs[id] == a.objs[id])
      && (forall id :: id in t.objs ==> id in a.objs || id in ids)
      && (forall id :: id in ids ==> id in t.objs && t.objs[id].rcu == 0)
      && (focus.Some? ==> focus.value in ids) && (focus.None? ==> ids == [])
  {
    DiscloseResult(a, ids);
    var t := Disclose(a, ids).0;
    forall id | id in ids ensures id in t.objs && t.objs[id].rcu == 0 {
      var k :| 0 <= k < |ids| && ids[k] == id;
    }
  }

  lemma RecordsMakeRegistry<Id>(t: App<Id>, rs: seq<Record>)
    requires Closed(t) && PoolOk(rs) && |t.registry| == |rs| && rs == SavedRecords(t.pool)
    requires forall k :: 0 <= k < |rs| ==> t.objs[t.registry[k]] == FromJson(rs[k])
    requires forall k :: 0 <= k < |rs| ==> Dressed(FromJson(rs[k]), t.table)
    ensures RegistryOk(t)
  {}

  /** Recovery keeps the boxes apart and dressed, and at most the selected one has the
      focus. */
  lemma DiscloseKeepsRegistry<Id>(a: App<Id>, ids: seq<Id>)
    requires RegistryOk(a) && |ids| == |SavedRecords(a.pool)| && Fresh(ids, a.objs)
    ensures Recoverable(SavedRecords(a.pool))
    ensures var (t, focus) := Disclose(a, ids); RegistryOk(t) && FocusOk(t, focus)
  {
    DiscloseResult(a, ids);
    var rs := SavedRecords(a.pool);
    var (t, focus) := Disclose(a, ids);
    RecordsMakeRegistry(t, rs);
    forall id | id in t.registry && id in t.objs && t.objs[id].focus ensures focus == Some(id) {
      var k :| 0 <= k < |ids| && ids[k] == id;
      assert t.objs[ids[k]] == FromJson(rs[k]);
    }
  }

  /** Pausing and resuming gives back the same boxes, in the same order, with the same
      focus and colour, all unreachable and unplugged; and the box that had the focus
      is the one that is selected, or else the first. */
  lemma PauseResumeRoundTrip<Id>(a: App<Id>, holder: Option<Id>, ids: seq<Id>)
    requires RegistryOk(a) && FocusOk(a, holder)
    requires |ids| == |a.registry| && Fresh(ids, a.objs)
    ensures RegistryOk(Conceal(a)) && Recoverable(SavedRecords(Conceal(a).pool))
    ensures var (t, focus) := Disclose(Conceal(a), ids);
      && t.registry == ids
      && (forall i :: 0 <= i < |ids| ==>
            var b := a.objs[a.registry[i]];
            && ids[i] in t.objs
            && t.objs[ids[i]] == Box(b.address, b.port, b.focus, false, b.color, 0, false)
            && (b.focus ==> focus == Some(ids[i])))
      && ((forall id :: id in a.registry ==> !a.objs[id].focus) ==>
            focus == if ids == [] then None else Some(ids[0]))
  {
    ConcealKeepsRegistry(a, holder);
    var rs := SavedRecords(Conceal(a).pool);
    DiscloseResult(Conceal(a), ids);
    forall i | 0 <= i < |ids|
      ensures var b := a.objs[a.registry[i]];
        FromJson(rs[i]) == Box(b.address, b.port, b.focus, false, b.color, 0, false)
    {
      JsonRoundTrip(a.objs[a.registry[i]]);
    }
    if forall id :: id in a.registry ==> !a.objs[id].focus {
      assert forall i :: 0 <= i < |ids| ==> a.registry[i] in a.registry;
      assert NoFocus(rs);
    }
  }

  /** A whole pause and then a whole resume: the active box is a new object with the
      address, the port and the colour of the box that was active, unreachable, with the
      focus, and with an engine of its own if it has a port. */
  lemma PauseThenResume<Id>(a: App<Id>, x: nat, ids: seq<Id>, handle: nat)
    requires RegistryOk(a) && x < |a.registry| && a.active == Some(a.registry[x])
    requires FocusOk(a, a.active) && a.objs[a.registry[x]].focus && handle != 0
    requires |ids| == |a.registry| && Fresh(ids, a.objs)
    ensures RegistryOk(PauseAll(a)) && |SavedRecords(PauseAll(a).pool)| == |ids| && Fresh(ids, PauseAll(a).objs)
    ensures PauseAll(a).registry == [] && PauseAll(a).active.None?
    ensures var t := ResumeAll(PauseAll(a), ids, handle); var b := a.objs[a.registry[x]];
      && t.registry == ids && t.active == Some(ids[x]) && ids[x] in t.objs
      && t.objs[ids[x]] == Box(b.address, b.port, true, false, b.color, if b.port != 0 then handle else 0, b.port != 0)
  {
    PausedFacts(a, ids);
    PauseResumeRoundTrip(a, a.active, ids);
    var p := PauseAll(a);
    DiscloseIgnoresObjects(Conceal(a), p, ids);
    assert a.registry[x] in a.registry;
    DiscloseFrame(p, ids);
  }

  lemma PausedFacts<Id>(a: App<Id>, ids: seq<Id>)
    requires RegistryOk(a) && FocusOk(a, a.active) && Fresh(ids, a.objs)
    ensures var p := PauseAll(a);
      && RegistryOk(p) && p.registry == [] && p.active.None? && Fresh(ids, p.objs)
      && p.pool == Conceal(a).pool && p.table == a.table && p.connected == a.connected
  {
    ConcealKeepsRegistry(a, a.active);
    DisconnectKeepsRegistry(Conceal(a));
  }

  /** What recovery makes depends on the saved pool alone. */
  lemma DiscloseIgnoresObjects<Id>(a: App<Id>, p: App<Id>, ids: seq<Id>)
    requires IsTable(a.table) && IsTable(p.table) && p.pool == a.pool && PoolOk(SavedRecords(a.pool))
    requires |ids| == |SavedRecords(a.pool)| && Fresh(ids, a.objs) && Fresh(ids, p.objs)
    ensures Recoverable(SavedRecords(a.pool))
    ensures Disclose(a, ids).1 == Disclose(p, ids).1
    ensures forall i :: 0 <= i < |ids| ==>
      ids[i] in Disclose(a, ids).0.objs && ids[i] in Disclose(p, ids).0.objs
      && Disclose(a, ids).0.objs[ids[i]] == Disclose(p, ids).0.objs[ids[i]]
  {
    DiscloseParts(a, ids);
    DiscloseParts(p, ids);
    DiscloseResult(a, ids);
    DiscloseResult(p, ids);
  }

  // ---- what the counts of the painter count

  /** The boxes that wear a colour, those included that the registry has dropped. */
  function Wearers<Id(==)>(objs: map<Id, Box>, color: string): set<Id> {
    set id | id in objs && objs[id].color == Some(color)
  }

  /** The count of a colour is the number of boxes ever made that wear it. */
  ghost predicate Tallied<Id>(a: App<Id>) {
    forall c :: c in a.table ==> a.table[c] == |Wearers(a.objs, c)|
  }

  /** Boxes that change, but not in colour, and a new box without a colour leave the
      tally as it is. */
  lemma SameColorsKeepTally<Id>(a: App<Id>, t: App<Id>)
    requires Tallied(a) && t.table == a.table
    requires forall id :: id in a.objs ==> id in t.objs && t.objs[id].color == a.objs[id].color
    requires forall id :: id in t.objs && id !in a.objs ==> t.objs[id].color.None?
    ensures Tallied(t)
  {
    forall c | c in t.table ensures t.table[c] == |Wearers(t.objs, c)| {
      assert Wearers(t.objs, c) == Wearers(a.objs, c);
    }
  }

  lemma OneMoreWearer<Id>(objs: map<Id, Box>, id: Id, b: Box, color: string)
    requires id in objs ==> objs[id].color.None?
    ensures |Wearers(objs[id := b], color)| == |Wearers(objs, color)| + if b.color == Some(color) then 1 else 0
  {
    if b.color == Some(color) {
      assert Wearers(objs[id := b], color) == Wearers(objs, color) + {id};
    } else {
      assert Wearers(objs[id := b], color) == Wearers(objs, color);
    }
  }

  /** A box that gets a colour, which is counted. */
  lemma DressingKeepsTally<Id>(a: App<Id>, t: App<Id>, id: Id, b: Box)
    requires Tallied(a) && b.color.Some? && (id in a.objs ==> a.objs[id].color.None?)
    requires t.objs == a.objs[id := b] && t.table == Use(a.table, b.color.value)
    ensures Tallied(t)
  {
    forall c | c in t.table ensures t.table[c] == |Wearers(t.objs, c)| {
      OneMoreWearer(a.objs, id, b, c);
    }
  }

  lemma DetectKeepsTally<Id>(a: App<Id>, id: Id)
    requires Closed(a) && Tallied(a) && id in a.objs && a.objs[id].color.None?
    ensures Tallied(Detect(a, id).0)
  {
    var t := Detect(a, id).0;
    match Find(Values(a.objs, a.registry), a.objs[id])
    case Some(_) => SameColorsKeepTally(a, t);
    case None => DressingKeepsTally(a, t, id, t.objs[id]);
  }

  lemma {:induction false} RecoverKeepsTally<Id>(a: App<Id>, rs: seq<Record>, ids: seq<Id>, i: nat, focus: Option<Id>)
    requires |ids| == |rs| && i <= |rs| && Tallied(a)
    requires (forall k :: 0 <= k < |rs| ==> Complete(rs[k])) && Recoverable(rs)
    requires forall k :: i <= k < |ids| ==> ids[k] !in a.objs
    requires forall j, k :: 0 <= j < k < |ids| ==> ids[j] != ids[k]
    ensures Tallied(RecoverFrom(a, rs, ids, i, focus).0)
    decreases |rs| - i
  {
    if i < |rs| {
      var (t, f) := RecoverOne(a, focus, FromJson(rs[i]), ids[i]);
      DressingKeepsTally(a, t, ids[i], FromJson(rs[i]));
      RecoverKeepsTally(t, rs, ids, i + 1, f);
    }
  }

  lemma DiscloseKeepsTally<Id>(a: App<Id>, ids: seq<Id>)
    requires PoolOk(SavedRecords(a.pool)) && Tallied(a)
    requires |ids| == |SavedRecords(a.pool)| && Fresh(ids, a.objs)
    ensures Recoverable(SavedRecords(a.pool)) && Tallied(Disclose(a, ids).0)
  {
    SameColorsKeepTally(a, a.(registry := []));
    RecoverKeepsTally(a.(registry := []), SavedRecords(a.pool), ids, 0, None);
  }

  lemma ReleaseKeepsTally<Id>(a: App<Id>)
    requires Closed(a) && Tallied(a)
    ensures Tallied(ReleaseFocus(a))
  {
    SameColorsKeepTally(a, ReleaseFocus(a));
  }

  lemma SwitchKeepsTally<Id>(a: App<Id>, target: Id, handle: nat)
    requires Closed(a) && Tallied(a)
    ensures Tallied(Disconnect(a))
    ensures target in a.objs ==> Tallied(Activate(Disconnect(a), target, handle))
  {
    SameColorsKeepTally(a, Disconnect(a));
    if target in a.objs {
      SameColorsKeepTally(Disconnect(a), Activate(Disconnect(a), target, handle));
    }
  }
}
