/** MainActivity.java in its own form: the handlers that update the active box and the
    connection flag. Each is proved to do to the application what Apps says it does from
    its beginning to its end; SessionHandlers proves the same of the handlers in the runs
    of Sessions. */
module Activities {
  import opened Messages
  import opened Boxes
  import opened Painters
  import opened Apps
  import opened Handles
  import opened Freeboxes
  import opened Homes
  import opened Macros

  class MainActivity {
    var activeFreebox: Freebox?      // mActiveFreebox
    var connected: bool              // mConnected
    var multiClicker: MultiClicker?  // mMultiClicker, null until the first onResume
    const home: Home                 // mHome
    const natives: Natives
    ghost var objs: set<Freebox>     // the boxes that have ever been in the registry

    ghost function View(): App<Freebox>
      reads this`activeFreebox, this`connected, this`objs, home, home.painter, objs
    {
      App(Objects(objs), home.boxes, Home.OptionOf(activeFreebox), connected, home.pool, home.painter.colorTable)
    }

    /** The registry is sound, and the engines are those that the boxes hold. */
    ghost predicate Sound()
      reads this`activeFreebox, this`connected, this`objs, home, home.painter, objs, natives
    {
      && home.Valid()
      && RegistryOk(View())
      && HandlesOk(View(), natives.live, natives.next)
      && 0 < natives.next
    }

    /** And only the active box of the registry has the focus. */
    ghost predicate Valid()
      reads this`activeFreebox, this`connected, this`objs, home, home.painter, objs, natives
    {
      Sound() && FocusOk(View(), Home.OptionOf(activeFreebox))
    }

    constructor (pool: Option<seq<Record>>)
      requires PoolOk(SavedRecords(pool))
      ensures Valid() && View() == App(map[], [], None, false, pool, Blank())
      ensures fresh(home) && fresh(home.painter) && fresh(natives)
    {
      activeFreebox, connected, multiClicker, objs := null, false, null, {};
      home := new Home(pool);
      natives := new Natives();
    }

    /** disconnectFreebox. */
    method DisconnectFreebox()
      requires Closed(View())
      modifies this`activeFreebox, objs, natives`live
      ensures View() == Disconnect(old(View())) && objs == old(objs)
      ensures natives.live == old(natives.live) - old(Released())
    {
      if activeFreebox != null {
        ghost var before := Objects(objs);
        activeFreebox.Disconnect(natives);
        assert Objects(objs) == before[activeFreebox := Unplug(before[activeFreebox])];
        activeFreebox := null;
      }
    }

    /** First half of connectFreebox: the active box gives up the focus and its engine. */
    method ReleaseFreebox()
      requires Closed(View())
      modifies this`activeFreebox, objs, natives`live
      ensures View() == Disconnect(ReleaseFocus(old(View()))) && objs == old(objs)
      ensures natives.live == old(natives.live) - old(Released())
    {
      if activeFreebox != null {
        ghost var before := View();
        activeFreebox.ReleaseFocus();
        assert Objects(objs) == before.objs[activeFreebox := before.objs[activeFreebox].(focus := false)];
        DisconnectFreebox();
      }
    }

    /** Second half of connectFreebox: the new active box takes them. */
    method AttachFreebox(freebox: Freebox)
      requires Closed(View()) && freebox in objs
      modifies this`activeFreebox, freebox, natives
      ensures View() == Activate(old(View()), freebox, old(natives.next)) && objs == old(objs)
      ensures if Connectable(old(freebox.Value()))
              then natives.live == old(natives.live) + {old(natives.next)} && natives.next == old(natives.next) + 1
              else natives.live == old(natives.live) && natives.next == old(natives.next)
    {
      ghost var before := View();
      activeFreebox := freebox;
      activeFreebox.GrabFocus();
      activeFreebox.Connect(natives);
      assert Objects(objs) == before.objs[freebox := Plug(before.objs[freebox], old(natives.next))];
    }

    /** connectFreebox on a box, and what becomes of the engines. */
    method SwitchFreebox(freebox: Freebox)
      requires Closed(View()) && freebox in objs
      modifies this`activeFreebox, objs, natives
      ensures objs == old(objs) && View() == Apps.ConnectFreebox(old(View()), freebox, old(natives.next))
      ensures var left := old(natives.live) - old(Released());
        if old(Connects(freebox))
        then natives.live == left + {old(natives.next)} && natives.next == old(natives.next) + 1
        else natives.live == left && natives.next == old(natives.next)
    {
      ghost var connects := Connects(freebox);
      ReleaseFreebox();
      assert View().objs[freebox] == freebox.Value();
      AttachFreebox(freebox);
    }

    /** The engine that a disconnection destroys. */
    ghost function Released(): set<nat>
      reads this`activeFreebox, activeFreebox
    {
      if activeFreebox != null && activeFreebox.statusLooper then {activeFreebox.rcu} else {}
    }

    /** The box will get an engine, once the active box is disconnected. */
    ghost predicate Connects(freebox: Freebox)
      reads this`activeFreebox, this`connected, this`objs, home, home.painter, objs
      requires Closed(View()) && freebox in objs
    {
      Connectable(Disconnect(ReleaseFocus(View())).objs[freebox])
    }

    method ConnectFreebox(freebox: Freebox?)
      requires Sound() && (freebox != null ==> freebox in objs)
      requires FocusOk(View(), Home.OptionOf(activeFreebox)) || FocusOk(View(), Home.OptionOf(freebox))
      modifies this`activeFreebox, objs, natives
      ensures Valid() && objs == old(objs)
      ensures Closed(old(View())) && View() == Apps.Connect(old(View()), Home.OptionOf(freebox), old(natives.next))
    {
      if freebox != null {
        ConnectKeeps(View(), freebox, natives.live, natives.next);
        ConnectMovesFocus(View(), freebox, natives.next);
        SwitchFreebox(freebox);
      }
    }

    /** onFreeboxStatus. */
    method OnFreeboxStatus(status: string)
      requires Valid()
      modifies this`connected
      ensures Valid() && View() == Apps.OnStatus(old(View()), status)
    {
      connected := status == "connected";
      assert Values(View().objs, View().registry) == Values(old(View()).objs, old(View()).registry);
    }

    /** Home.paintBoxButtons asks for the colour of the active box, and throws when there
        is none. */
    method PaintBoxButtons() returns (threw: bool)
      ensures threw <==> View().active.None?
    {
      var right := home.GetNextReachable(activeFreebox);
      var left := home.GetPreviousReachable(activeFreebox);
      threw := activeFreebox == null;
    }

    /** onFreeboxSelected. */
    method OnFreeboxSelected(freebox: Freebox?) returns (threw: bool)
      requires Sound() && (freebox != null ==> freebox in objs)
      requires FocusOk(View(), Home.OptionOf(activeFreebox)) || FocusOk(View(), Home.OptionOf(freebox))
      modifies this`activeFreebox, objs, natives
      ensures Valid() && objs == old(objs)
      ensures Closed(old(View())) && View() == Apps.Connect(old(View()), Home.OptionOf(freebox), old(natives.next))
      ensures threw <==> View().active.None?
    {
      ConnectFreebox(freebox);
      threw := PaintBoxButtons();
    }

    method OnNextFreebox() returns (threw: bool)
      requires Valid() && multiClicker != null
      modifies this`activeFreebox, objs, natives
      ensures Valid() && objs == old(objs) && Closed(old(View()))
      ensures View() == if multiClicker.Stopped() then SelectNext(old(View()), old(natives.next)) else old(View())
      ensures threw <==> multiClicker.Stopped() && View().active.None?
    {
      threw := false;
      if multiClicker.Stopped() {
        var next := home.GetNextReachable(activeFreebox);
        ValuesAgree();
        threw := OnFreeboxSelected(next);
      }
    }

    method OnPreviousFreebox() returns (threw: bool)
      requires Valid() && multiClicker != null
      modifies this`activeFreebox, objs, natives
      ensures Valid() && objs == old(objs) && Closed(old(View()))
      ensures View() == if multiClicker.Stopped() then SelectPrevious(old(View()), old(natives.next)) else old(View())
      ensures threw <==> multiClicker.Stopped() && View().active.None?
    {
      threw := false;
      if multiClicker.Stopped() {
        var previous := home.GetPreviousReachable(activeFreebox);
        ValuesAgree();
        threw := OnFreeboxSelected(previous);
      }
    }

    /** The boxes as Home sees them are those of the application. */
    lemma ValuesAgree()
      requires Closed(View())
      ensures Values(View().objs, View().registry) == home.Values()
      ensures ActiveBox(View()) == Home.ValueOf(activeFreebox)
    {}

    /** Home.onFreeboxDetected up to the listener call, on an object that a sniffer has
        just made. */
    method Discover(freebox: Freebox) returns (told: Freebox)
      requires home.Valid() && Closed(View()) && freebox !in objs
      modifies this`objs, home, home.painter, objs, freebox
      ensures home.Valid() && objs == old(objs) + {freebox}
      ensures Closed(old(Discovered(freebox)))
      ensures (View(), told) == Detect(old(Discovered(freebox)), freebox)
    {
      objs := objs + {freebox};
      assert Objects(objs) == old(Objects(objs))[freebox := freebox.Value()];
      DetectIgnores(home.View(objs), freebox, Home.OptionOf(activeFreebox), connected);
      told := home.OnFreeboxDetected(freebox, objs);
    }

    /** With it, the registry and the engines stay sound, and the focus stays where it is. */
    method DetectFreebox(freebox: Freebox) returns (told: Freebox)
      requires Valid() && freebox !in objs
      requires freebox.address.Some? && freebox.Value() == Sniffed(freebox.address.value, freebox.port)
      modifies this`objs, home, home.painter, objs, freebox
      ensures Valid() && objs == old(objs) + {freebox} && told in objs
      ensures Closed(old(Discovered(freebox)))
      ensures (View(), told) == Detect(old(Discovered(freebox)), freebox)
    {
      DetectKeeps(View(), freebox, freebox.Value(), natives.live, natives.next);
      told := Discover(freebox);
    }

    /** onFreeboxDetected up to the painting. */
    method ConnectDetected(told: Freebox)
      requires Valid() && told in objs
      modifies this`activeFreebox, objs, natives
      ensures Valid() && objs == old(objs) && Closed(old(View()))
      ensures View() == Apps.Connect(old(View()), if connected then None else Some(told), old(natives.next))
    {
      if !connected {
        ConnectFreebox(told);
      }
    }

    /** Home.onFreeboxDetected with the listener call at its end. */
    method OnFreeboxDetected(freebox: Freebox) returns (threw: bool)
      requires Valid() && freebox !in objs
      requires freebox.address.Some? && freebox.Value() == Sniffed(freebox.address.value, freebox.port)
      modifies this`activeFreebox, this`objs, home, home.painter, objs, freebox, natives
      ensures Valid() && objs == old(objs) + {freebox}
      ensures Closed(old(Discovered(freebox)))
      ensures View() == TakeDetection(old(Discovered(freebox)), freebox, old(natives.next))
      ensures threw <==> View().active.None?
    {
      var told := DetectFreebox(freebox);
      ConnectDetected(told);
      threw := PaintBoxButtons();
    }

    /** The application once the sniffer has made the object. */
    ghost function Discovered(freebox: Freebox): App<Freebox>
      reads this`activeFreebox, this`connected, this`objs, home, home.painter, objs, freebox
    {
      View().(objs := Objects(objs)[freebox := freebox.Value()])
    }

    static lemma DetectKeeps(a: App<Freebox>, f: Freebox, b: Box, handles: set<nat>, nextHandle: nat)
      requires RegistryOk(a) && HandlesOk(a, handles, nextHandle) && f !in a.objs
      requires b.address.Some? && b == Sniffed(b.address.value, b.port)
      ensures var made := a.(objs := a.objs[f := b]);
        && Closed(made) && RegistryOk(Detect(made, f).0) && HandlesOk(Detect(made, f).0, handles, nextHandle)
        && Detect(made, f).1 in Detect(made, f).0.registry
        && Detect(made, f).0.objs.Keys == made.objs.Keys
        && (FocusOk(a, a.active) ==> FocusOk(Detect(made, f).0, a.active)) && Detect(made, f).0.active == a.active
    {
      var made := a.(objs := a.objs[f := b]);
      if FocusOk(a, a.active) {
        DetectKeepsFocus(made, f, a.active);
      }
      MadeKeepsHandles(a, f, b, handles, nextHandle);
      DetectKeepsRegistry(made, f);
      DetectKeepsHandles(made, f, handles, nextHandle);
    }

    /** Home.concealBoxes keeps the registry and the engines sound. */
    method ConcealBoxes()
      requires Valid()
      modifies home
      ensures Valid() && Closed(old(View())) && View() == Conceal(old(View()))
    {
      ConcealKeepsRegistry(View(), Home.OptionOf(activeFreebox));
      home.ConcealBoxes(objs);
    }

    /** And so does disconnectFreebox. */
    method DropFreebox()
      requires Sound()
      modifies this`activeFreebox, objs, natives`live
      ensures Sound() && View() == Disconnect(old(View())) && objs == old(objs)
    {
      DisconnectKeepsRegistry(View());
      DisconnectKeepsHandles(View(), natives.live, natives.next);
      DisconnectFreebox();
    }

    /** onPause up to the disconnection, without Wifi and the logger. */
    method ConcealAndStop()
      requires Valid() && multiClicker != null
      modifies home, multiClicker
      ensures Valid() && Closed(old(View())) && View() == Conceal(old(View()))
      ensures multiClicker.Value() == Stopping(old(multiClicker.Value()))
    {
      ConcealBoxes();
      multiClicker.Stop();
    }

    method OnPause()
      requires Valid() && multiClicker != null
      modifies this`activeFreebox, home, objs, natives`live, multiClicker
      ensures Valid() && objs == old(objs) && Closed(old(View()))
      ensures View() == PauseAll(old(View()))
      ensures multiClicker.Value() == Stopping(old(multiClicker.Value()))
    {
      ConcealAndStop();
      DropFreebox();
    }

    /** Home.discloseBoxes keeps the registry and the engines sound. */
    method DiscloseBoxes() returns (focus: Freebox?, ghost made: seq<Freebox>)
      requires Sound()
      modifies this`objs, home, home.painter
      ensures Sound() && home.pool == old(home.pool) && (focus != null ==> focus in objs)
      ensures FocusOk(View(), Home.OptionOf(focus))
      ensures RegistryOk(old(View())) && fresh(made) && fresh(objs - old(objs))
      ensures |made| == |SavedRecords(home.pool)| && Fresh(made, old(View()).objs)
      ensures Recoverable(SavedRecords(home.pool))
      ensures (View(), Home.OptionOf(focus)) == Disclose(old(View()), made)
    {
      ghost var before := View();
      focus, made := Recover();
      DiscloseKeeps(before, made, natives.live, natives.next);
    }

    /** onResume, without the player, the sniffers and Wifi; made are the boxes that it
        recovers. With nothing to select, nothing is painted. */
    method DiscloseAndSelect() returns (threw: bool, ghost made: seq<Freebox>)
      requires Valid()
      modifies this`activeFreebox, this`objs, home, home.painter, objs, natives
      ensures Valid() && home.pool == old(home.pool) && RegistryOk(old(View()))
      ensures |made| == |SavedRecords(home.pool)| && Fresh(made, old(View()).objs)
      ensures View() == ResumeAll(old(View()), made, old(natives.next))
      ensures !threw
    {
      var focus;
      focus, made := DiscloseBoxes();
      threw := false;
      if focus != null {
        threw := OnFreeboxSelected(focus);
      }
    }

    method OnResume(now: nat) returns (threw: bool, ghost made: seq<Freebox>)
      requires Valid()
      modifies this`activeFreebox, this`objs, this`multiClicker, home, home.painter, objs, natives
      ensures Valid() && home.pool == old(home.pool) && RegistryOk(old(View()))
      ensures |made| == |SavedRecords(home.pool)| && Fresh(made, old(View()).objs)
      ensures View() == ResumeAll(old(View()), made, old(natives.next))
      ensures fresh(multiClicker) && multiClicker.Value() == Unstarted(now)
      ensures !threw
    {
      threw, made := DiscloseAndSelect();
      multiClicker := new MultiClicker(now);
    }

    /** Home.discloseBoxes up to the listener call. */
    method Recover() returns (focus: Freebox?, ghost made: seq<Freebox>)
      requires home.Valid() && Recoverable(SavedRecords(home.pool))
      modifies this`objs, home, home.painter
      ensures home.Valid() && fresh(made) && |made| == |SavedRecords(home.pool)| && home.pool == old(home.pool)
      ensures forall i, j :: 0 <= i < j < |made| ==> made[i] != made[j]
      ensures fresh(objs - old(objs))
      ensures (View(), Home.OptionOf(focus)) == Disclose(old(View()), made)
    {
      ghost var all;
      ghost var before := home.View(objs).(registry := []);
      focus, made, all := home.DiscloseBoxes(objs);
      RecoverIgnores(before, SavedRecords(home.pool), made, 0, None, Home.OptionOf(activeFreebox), connected);
      objs := all;
    }

    static lemma DiscloseKeeps(a: App<Freebox>, ids: seq<Freebox>, handles: set<nat>, nextHandle: nat)
      requires RegistryOk(a) && HandlesOk(a, handles, nextHandle)
      requires |ids| == |SavedRecords(a.pool)| && Fresh(ids, a.objs)
      ensures Recoverable(SavedRecords(a.pool))
      ensures var (t, focus) := Disclose(a, ids);
        && RegistryOk(t) && HandlesOk(t, handles, nextHandle) && FocusOk(t, focus)
        && (focus.Some? ==> focus.value in t.objs)
    {
      DiscloseKeepsRegistry(a, ids);
      DiscloseFrame(a, ids);
      MoreBoxesKeepHandles(a, Disclose(a, ids).0, handles, nextHandle);
    }

    /** What connectFreebox does to the registry and to the handles. */
    static lemma ConnectKeeps(a: App<Freebox>, target: Freebox, handles: set<nat>, nextHandle: nat)
      requires RegistryOk(a) && HandlesOk(a, handles, nextHandle) && target in a.objs && 0 < nextHandle
      ensures RegistryOk(Apps.ConnectFreebox(a, target, nextHandle))
      ensures var b, t := Disconnect(ReleaseFocus(a)), Apps.ConnectFreebox(a, target, nextHandle);
        if Connectable(b.objs[target]) then HandlesOk(t, {nextHandle}, nextHandle + 1) else HandlesOk(t, {}, nextHandle)
      ensures handles == {} || (a.active.Some? && a.objs[a.active.value].statusLooper && handles == {a.objs[a.active.value].rcu})
    {
      ReleaseKeepsRegistry(a);
      ReleaseKeepsHandles(a, handles, nextHandle);
      DisconnectKeepsRegistry(ReleaseFocus(a));
      DisconnectKeepsHandles(ReleaseFocus(a), handles, nextHandle);
      ActivateKeepsRegistry(Disconnect(ReleaseFocus(a)), target, nextHandle);
      ActivateKeepsHandles(Disconnect(ReleaseFocus(a)), target, nextHandle);
    }
  }
}
