/** Painter.java: how many boxes wear each colour of the palette. */
module Painters {
  const PALETTE: seq<string> := ["yellow", "green", "blue", "red"]

  /** The hash table of the painter: a count for each colour of the palette. */
  type Table = map<string, nat>

  predicate IsTable(t: Table) {
    t.Keys == set c | c in PALETTE
  }

  function Blank(): (t: Table)
    ensures IsTable(t) && forall c :: c in t ==> t[c] == 0
  {
    map c | c in PALETTE :: 0
  }

  /** A colour outside the palette is not counted. */
  function Use(t: Table, color: string): Table {
    if color in t then t[color := t[color] + 1] else t
  }

  predicate Unused(t: Table, color: string) {
    color in t && t[color] == 0
  }

  /** No colour of the palette is left. */
  predicate Exhausted(t: Table) {
    forall c :: c in PALETTE ==> !Unused(t, c)
  }

  /** The last unused colour among the first n, or else the first of all. */
  function Pick(t: Table, n: nat): string
    requires n <= |PALETTE|
  {
    if n == 0 then PALETTE[0]
    else if Unused(t, PALETTE[n - 1]) then PALETTE[n - 1]
    else Pick(t, n - 1)
  }

  function Choose(t: Table): string {
    Pick(t, |PALETTE|)
  }

  lemma {:induction false} PickIsUnused(t: Table, n: nat)
    requires n <= |PALETTE|
    ensures Pick(t, n) in PALETTE
    ensures (exists i :: 0 <= i < n && Unused(t, PALETTE[i])) ==> Unused(t, Pick(t, n))
    ensures (forall i :: 0 <= i < n ==> !Unused(t, PALETTE[i])) ==> Pick(t, n) == PALETTE[0]
  {
    if n != 0 && !Unused(t, PALETTE[n - 1]) {
      PickIsUnused(t, n - 1);
    }
  }

  /** The colour handed out is one that nobody wears, unless all are worn; then it
      is always the first of the palette. */
  lemma ChoiceIsFresh(t: Table)
    ensures Choose(t) in PALETTE
    ensures Unused(t, Choose(t)) <==> !Exhausted(t)
    ensures Exhausted(t) ==> Choose(t) == PALETTE[0]
  {
    PickIsUnused(t, |PALETTE|);
    if !Exhausted(t) {
      var c :| c in PALETTE && Unused(t, c);
      var i :| 0 <= i < |PALETTE| && PALETTE[i] == c;
    } else {
      assert forall i :: 0 <= i < |PALETTE| ==> PALETTE[i] in PALETTE;
    }
  }

  /** Of the palette colours that nobody wears it is the last one. */
  lemma {:induction false} PickIsLast(t: Table, n: nat, i: nat)
    requires i < n <= |PALETTE| && Unused(t, PALETTE[i])
    ensures exists j ::
      && i <= j < n && Pick(t, n) == PALETTE[j] && Unused(t, PALETTE[j])
      && forall k :: j < k < n ==> !Unused(t, PALETTE[k])
  {
    if !Unused(t, PALETTE[n - 1]) {
      PickIsLast(t, n - 1, i);
    }
  }

  lemma ChoiceIsLast(t: Table, i: nat)
    requires i < |PALETTE| && Unused(t, PALETTE[i])
    ensures Choose(t) == PALETTE[i] <==> forall k :: i < k < |PALETTE| ==> !Unused(t, PALETTE[k])
  {
    PickIsLast(t, |PALETTE|, i);
  }

  /** The colours that a new painter hands out, one after the other, and then for ever. */
  lemma FirstColors(t: Table)
    ensures Choose(Blank()) == "red"
    ensures Choose(Use(Blank(), "red")) == "blue"
    ensures Choose(Use(Use(Blank(), "red"), "blue")) == "green"
    ensures Choose(Use(Use(Use(Blank(), "red"), "blue"), "green")) == "yellow"
    ensures Exhausted(t) ==> Choose(t) == "yellow"
  {
    ColorsDiffer();
    ChoiceIsFresh(t);
    ChoiceIsLast(Blank(), 3);
    ChoiceIsLast(Use(Blank(), "red"), 2);
    ChoiceIsLast(Use(Use(Blank(), "red"), "blue"), 1);
    ChoiceIsLast(Use(Use(Use(Blank(), "red"), "blue"), "green"), 0);
  }

  lemma ColorsDiffer()
    ensures |PALETTE| == 4
    ensures PALETTE[0] == "yellow" && PALETTE[1] == "green" && PALETTE[2] == "blue" && PALETTE[3] == "red"
    ensures forall i, j :: 0 <= i < j < 4 ==> PALETTE[i] != PALETTE[j]
    ensures forall i :: 0 <= i < 4 ==> PALETTE[i] in PALETTE
  {
    assert "yellow"[0] == 'y' && "green"[0] == 'g' && "blue"[0] == 'b' && "red"[0] == 'r';
  }

  class Painter {
    var colorTable: Table

    ghost predicate Valid()
      reads this
    {
      IsTable(colorTable)
    }

    constructor ()
      ensures Valid() && colorTable == Blank()
    {
      colorTable := map[];
      new;
      for i := 0 to |PALETTE|
        invariant colorTable == map c | c in PALETTE[..i] :: 0
      {
        colorTable := colorTable[PALETTE[i] := 0];
        assert PALETTE[..i + 1] == PALETTE[..i] + [PALETTE[i]];
      }
      assert PALETTE[..|PALETTE|] == PALETTE;
    }

    method UseColor(color: string)
      requires Valid()
      modifies this
      ensures Valid() && colorTable == Use(old(colorTable), color)
    {
      if color in colorTable {
        var count := colorTable[color];
        count := count + 1;
        colorTable := colorTable[color := count];
      }
    }

    method GetColor() returns (bestColor: string)
      requires Valid()
      modifies this
      ensures Valid()
      ensures bestColor == Choose(old(colorTable))
      ensures colorTable == Use(old(colorTable), bestColor)
    {
      var lowestValue := 0;
      bestColor := PALETTE[0];
      for i := 0 to |PALETTE|
        invariant lowestValue == 0 && bestColor == Pick(colorTable, i)
      {
        var currentValue := colorTable[PALETTE[i]];
        if currentValue <= lowestValue {
          lowestValue := currentValue;
          bestColor := PALETTE[i];
        }
      }
      UseColor(bestColor);
    }
  }
}
