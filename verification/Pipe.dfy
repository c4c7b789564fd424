/** Pipe.cpp: message pointers framed as fixed-size records of a byte stream. */
module Pipes {
  import opened Messages

  /** sizeof (Message *). */
  const WIDTH: nat := 8

  function Power(n: nat): (p: nat)
    ensures 0 < p
  {
    if n == 0 then 1 else 0x100 * Power(n - 1)
  }

  /** A pointer fits in WIDTH bytes. */
  ghost predicate IsPointer(p: nat) {
    p < Power(WIDTH)
  }

  /** The n bytes of an object representation, least significant first. */
  function Encode(p: nat, n: nat): (bytes: seq<UInt8>)
    ensures |bytes| == n
  {
    if n == 0 then [] else [p % 0x100] + Encode(p / 0x100, n - 1)
  }

  function Decode(bytes: seq<UInt8>): nat {
    if bytes == [] then 0 else bytes[0] + 0x100 * Decode(bytes[1..])
  }

  lemma {:induction false} DecodeEncode(p: nat, n: nat)
    requires p < Power(n)
    ensures Decode(Encode(p, n)) == p
  {
    if n != 0 {
      DecodeEncode(p / 0x100, n - 1);
    }
  }

  /** The byte stream that a sequence of pointers leaves in the pipe. */
  function Frames(ps: seq<nat>): seq<UInt8> {
    if ps == [] then [] else Encode(ps[0], WIDTH) + Frames(ps[1..])
  }

  lemma {:induction false} FramesSnoc(ps: seq<nat>, p: nat)
    ensures Frames(ps + [p]) == Frames(ps) + Encode(p, WIDTH)
  {
    if ps == [] {
      assert Frames([p]) == Encode(p, WIDTH) + [];
    } else {
      FramesSnoc(ps[1..], p);
      assert (ps + [p])[0] == ps[0] && (ps + [p])[1..] == ps[1..] + [p];
      Associate(Encode(ps[0], WIDTH), Frames(ps[1..]), Encode(p, WIDTH));
    }
  }

  /** The framing loses nothing: a byte stream is the framing of at most one
      sequence of pointers. */
  lemma {:induction false} FramesInjective(ps: seq<nat>, qs: seq<nat>)
    requires forall p :: p in ps ==> IsPointer(p)
    requires forall q :: q in qs ==> IsPointer(q)
    requires Frames(ps) == Frames(qs)
    ensures ps == qs
  {
    if ps == [] || qs == [] {
      assert |Frames(ps)| == |Frames(qs)|;
    } else {
      assert IsPointer(ps[0]) && IsPointer(qs[0]);
      DecodeEncode(ps[0], WIDTH);
      DecodeEncode(qs[0], WIDTH);
      assert Frames(qs)[WIDTH..] == Frames(qs[1..]);
      FramesInjective(ps[1..], qs[1..]);
    }
  }

  /** A pipe whose two descriptors are open. Its bytes are what the kernel holds. */
  class Pipe {
    var bytes: seq<UInt8>
    ghost var contents: seq<nat>  // the pointers in the pipe, oldest first

    ghost predicate Valid()
      reads this
    {
      && bytes == Frames(contents)
      && forall p :: p in contents ==> IsPointer(p)
    }

    constructor ()
      ensures Valid() && contents == []
    {
      bytes, contents := [], [];
    }

    method Write(p: nat)
      requires Valid() && IsPointer(p)
      modifies this
      ensures Valid() && contents == old(contents) + [p]
    {
      bytes := bytes + Encode(p, WIDTH);
      FramesSnoc(contents, p);
      contents := contents + [p];
    }

    // A read of an empty pipe blocks; it returns when a record is there.
    method Read() returns (p: nat)
      requires Valid() && contents != []
      modifies this
      ensures Valid() && p == old(contents)[0] && contents == old(contents)[1..]
    {
      p := Decode(bytes[..WIDTH]);
      assert IsPointer(contents[0]);
      DecodeEncode(contents[0], WIDTH);
      bytes := bytes[WIDTH..];
      contents := contents[1..];
    }
  }
}
