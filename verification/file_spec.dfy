/** What a positional write does to the bytes of a file. */
module FileSpec {
  import opened Base

  function Zeros(n: nat): (r: seq<byte>)
    ensures |r| == n
  {
    seq(n, _ => 0)
  }

  /** `data` placed at `offset`; a gap before it reads as zeros, and writing nothing changes nothing. */
  function Overlay(file: seq<byte>, offset: nat, data: seq<byte>): seq<byte> {
    if data == [] then file
    else if offset <= |file| then
      file[..offset] + data + (if offset + |data| <= |file| then file[offset + |data|..] else [])
    else
      file + Zeros(offset - |file|) + data
  }

  lemma OverlayAtEnd(file: seq<byte>, data: seq<byte>)
    ensures Overlay(file, |file|, data) == file + data
  {
  }

  /** Two adjacent windows written one after the other are one window. */
  lemma OverlayAdjacent(file: seq<byte>, offset: nat, a: seq<byte>, b: seq<byte>)
    ensures Overlay(Overlay(file, offset, a), offset + |a|, b) == Overlay(file, offset, a + b)
  {
    if a == [] {
      assert a + b == b;
    } else if b == [] {
      assert a + b == a;
    } else if offset > |file| {
      var zeros := Zeros(offset - |file|);
      var once := file + zeros + a;
      assert Overlay(file, offset, a) == once;
      assert |once| == offset + |a|;
      assert once[..|once|] == once;
      assert once + b + [] == file + zeros + (a + b);
    } else {
      var once := Overlay(file, offset, a);
      assert once[..offset + |a|] == file[..offset] + a;
      assert file[..offset] + a + b == file[..offset] + (a + b);
    }
  }

  /** No byte outside the window changes, and the window holds exactly the data. */
  lemma OverlayWindow(file: seq<byte>, offset: nat, data: seq<byte>, i: nat)
    ensures var r := Overlay(file, offset, data);
            && (offset <= i < offset + |data| ==> i < |r| && r[i] == data[i - offset])
            && (i < |file| && !(offset <= i < offset + |data|) ==> i < |r| && r[i] == file[i])
            && (|file| <= i < offset && data != [] ==> i < |r| && r[i] == 0)
            && |r| == if data == [] || offset + |data| <= |file| then |file| else offset + |data|
  {
  }
}
