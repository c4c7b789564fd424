/** Home.java in its own form: the registry of boxes, its painter and its preference. */
module Homes {
  import opened Messages
  import opened Boxes
  import opened Painters
  import opened Apps
  import opened Freeboxes

  class Home {
    var boxes: seq<Freebox>           // mBoxes
    const painter: Painter            // mPainter
    var pool: Option<seq<Record>>     // mPreferences, "freebox_pool"

    ghost predicate Valid()
      reads this, painter
    {
      painter.Valid()
    }

    /** The part of the application that Home holds; objs are the boxes that matter. */
    ghost function View(objs: set<Freebox>): App<Freebox>
      reads this, painter, objs
    {
      App(Objects(objs), boxes, None, false, pool, painter.colorTable)
    }

    constructor (pool: Option<seq<Record>>)
      ensures Valid() && fresh(painter) && boxes == [] && this.pool == pool && painter.colorTable == Blank()
    {
      painter := new Painter();
      this.boxes := [];
      this.pool := pool;
    }

    ghost function Values(): (bs: seq<Box>)
      reads this, boxes
      ensures |bs| == |boxes| && forall i :: 0 <= i < |bs| ==> bs[i] == boxes[i].Value()
    {
      seq(|boxes|, i requires 0 <= i < |boxes| reads this, boxes => boxes[i].Value())
    }

    static ghost function ValueOf(of: Freebox?): Option<Box>
      reads of
    {
      if of == null then None else Some(of.Value())
    }

    method GetNextReachable(of: Freebox?) returns (next: Freebox?)
      ensures match NextReachable(Values(), ValueOf(of))
        case None => next == null
        case Some(k) => k < |boxes| && next == boxes[k]
      ensures next != null ==> next in boxes
    {
      var found := false;
      for i := 0 to |boxes|
        invariant NextReachable(Values(), ValueOf(of)) == NextFrom(Values(), ValueOf(of), i, found)
      {
        var box := boxes[i];
        if found && box.reachable {
          return box;
        }
        if box.Equals(of) {
          found := true;
        }
      }
      return null;
    }

    method GetPreviousReachable(of: Freebox?) returns (previous: Freebox?)
      ensures match PreviousReachable(Values(), ValueOf(of))
        case None => previous == null
        case Some(k) => k < |boxes| && previous == boxes[k]
      ensures previous != null ==> previous in boxes
    {
      previous := null;
      ghost var at: Option<nat> := None;
      var i := 0;
      while i < |boxes|
        invariant i <= |boxes|
        invariant PreviousReachable(Values(), ValueOf(of)) == PreviousFrom(Values(), ValueOf(of), i, at)
        invariant if at.None? then previous == null else at.value < |boxes| && previous == boxes[at.value]
      {
        var box := boxes[i];
        if box.Equals(of) {
          break;
        }
        if box.reachable {
          previous := box;
          at := Some(i);
        }
        i := i + 1;
      }
    }

    /** A box that the registry does not know gets a colour and joins it. */
    method Adopt(freebox: Freebox, ghost objs: set<Freebox>)
      requires Valid() && freebox in objs
      modifies this`boxes, painter, freebox`color
      ensures Valid()
      ensures var a := old(View(objs));
        var color := NewColor(a.table, a.objs[freebox]);
        View(objs) == a.(objs := a.objs[freebox := a.objs[freebox].(color := Some(color))],
                         registry := a.registry + [freebox],
                         table := if a.objs[freebox].color.Some? then a.table else Use(a.table, color))
    {
      ghost var before := Objects(objs);
      if freebox.color.None? {
        var color := painter.GetColor();
        freebox.color := Some(color);
      }
      boxes := boxes + [freebox];
      assert Objects(objs) == before[freebox := freebox.Value()];
    }

    /** freebox.detected (). */
    method Redetect(box: Freebox, ghost objs: set<Freebox>)
      requires Valid() && box in boxes && box in objs
      modifies box`reachable
      ensures Valid()
      ensures var a := old(View(objs)); View(objs) == a.(objs := a.objs[box := a.objs[box].(reachable := true)])
    {
      ghost var before := Objects(objs);
      box.reachable := true;
      assert Objects(objs) == before[box := before[box].(reachable := true)];
    }

    /** The result is the box that the listener is told about. */
    method OnFreeboxDetected(freebox: Freebox, ghost objs: set<Freebox>) returns (told: Freebox)
      requires Valid() && freebox in objs && forall b :: b in boxes ==> b in objs
      modifies this`boxes, painter, boxes, freebox
      ensures Valid() && told in boxes
      ensures Closed(old(View(objs))) && (View(objs), told) == Detect(old(View(objs)), freebox)
    {
      ghost var before := View(objs);
      assert Apps.Values(before.objs, before.registry) == Values();
      for i := 0 to |boxes|
        invariant Find(Values(), freebox.Value()) == Find(Values(), freebox.Value(), i)
      {
        var box := boxes[i];
        if freebox.Equals(box) {
          Redetect(box, objs);
          return box;
        }
      }
      Adopt(freebox, objs);
      return freebox;
    }

    /** concealBoxes, without the sniffers. */
    method ConcealBoxes(ghost objs: set<Freebox>)
      requires Valid() && forall b :: b in boxes ==> b in objs
      modifies this`boxes, this`pool
      ensures Valid() && Closed(old(View(objs))) && View(objs) == Conceal(old(View(objs)))
    {
      var records: seq<Record> := [];
      for i := 0 to |boxes|
        invariant boxes == old(boxes) && pool == old(pool)
        invariant records == Records(Values()[..i])
      {
        var json := boxes[i].GetJson();
        records := records + [json];
      }
      assert Values()[..|boxes|] == Values();
      assert Apps.Values(View(objs).objs, boxes) == Values();
      pool := Some(records);
      boxes := [];
    }

    static ghost function OptionOf(f: Freebox?): Option<Freebox> {
      if f == null then None else Some(f)
    }

    /** One turn of the loop of recoverSavedBoxes, on the object that it has made; all
        are the boxes that matter from then on. */
    method RecoverBox(freebox: Freebox, focus: Freebox?, ghost objs: set<Freebox>)
      returns (newFocus: Freebox?, ghost all: set<Freebox>)
      requires Valid() && (freebox.address.Some? ==> freebox.color.Some?)
      modifies this`boxes, painter
      ensures Valid() && pool == old(pool)
      ensures all == if freebox.address.Some? then objs + {freebox} else objs
      ensures (View(all), OptionOf(newFocus)) == RecoverOne(old(View(objs)), OptionOf(focus), freebox.Value(), freebox)
    {
      newFocus, all := focus, objs;
      if freebox.address.Some? {
        painter.UseColor(freebox.color.value);
        boxes := boxes + [freebox];
        if freebox.hasFocus || focus == null {
          newFocus := freebox;
        }
        all := objs + {freebox};
        assert Objects(all) == old(Objects(objs))[freebox := freebox.Value()];
      }
    }

    /** discloseBoxes, without the sniffers. The result is the box that the listener is
        told to select; made are the objects that the loop makes, all the boxes that
        matter from then on. */
    method DiscloseBoxes(ghost objs: set<Freebox>)
      returns (focus: Freebox?, ghost made: seq<Freebox>, ghost all: set<Freebox>)
      requires Valid() && Recoverable(SavedRecords(pool))
      modifies this`boxes, painter
      ensures Valid() && |made| == |SavedRecords(pool)| && pool == old(pool)
      ensures objs <= all && fresh(made) && fresh(all - objs)
      ensures forall i, j :: 0 <= i < j < |made| ==> made[i] != made[j]
      ensures (View(all), OptionOf(focus)) == Disclose(old(View(objs)), made)
    {
      ghost var start := View(objs).(registry := []);
      boxes := [];
      focus, made, all := null, [], objs;
      if pool.Some? {
        var records := pool.value;
        for i := 0 to |records|
          invariant Valid() && |made| == i && objs <= all && fresh(made) && fresh(all - objs)
          invariant forall j, k :: 0 <= j < k < |made| ==> made[j] != made[k]
          invariant Recoverable(records[..i])
          invariant unchanged(objs)
          invariant (View(all), OptionOf(focus)) == RecoverFrom(start, records[..i], made, 0, None)
        {
          assert records[..i + 1] == records[..i] + [records[i]];
          var freebox := new Freebox.FromRecord(records[i]);
          RecoverSnoc(start, records[..i], made, 0, None, records[i], freebox);
          focus, all := RecoverBox(freebox, focus, all);
          made := made + [freebox];
        }
        assert records[..|records|] == records;
      }
    }
  }
}
