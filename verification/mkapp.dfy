/** The boot-image packer `h7-mkapp`: it takes a firmware image whose first word is the
    boot address in little-endian order, rewrites that word in big-endian order, keeps
    the rest of the image, and appends the big-endian CRC-32/MPEG-2 of the rewritten
    image.

    Reading the input file and writing the output file are not modelled: the input is
    the byte sequence read, and the output the array that would be written. */
module MkApp {
  import opened Wrappers
  import opened ByteOrder
  import opened Crc32Mpeg2

  /** The image with its boot-address word rewritten from little-endian to big-endian. */
  function Body(input: seq<bv8>): (body: seq<bv8>)
    requires |input| >= 4
    ensures |body| == |input|
  {
    ToBeBytes(FromLeBytes(input[0], input[1], input[2], input[3])) + input[4..]
  }

  /** The packed image, or `None` where the packer refuses an input too short to hold a
      boot address. */
  function Pack(input: seq<bv8>): (r: Option<seq<bv8>>)
    ensures r.None? <==> |input| < 4
    ensures r.Some? ==> |r.value| == |input| + 4
    ensures r.Some? ==> r.value[..4] == [input[3], input[2], input[1], input[0]]
    ensures r.Some? ==> r.value[4..|input|] == input[4..]
    ensures r.Some? ==> r.value[|input|..] == ToBeBytes(Checksum(r.value[..|input|]))
  {
    if |input| < 4 then None
    else
      var body := Body(input);
      LeToBeReverses(input[0], input[1], input[2], input[3]);
      assert (body + ToBeBytes(Checksum(body)))[..|input|] == body;
      Some(body + ToBeBytes(Checksum(body)))
  }

  /** What a loader recovers from a packed image: `None` unless the image has room for a
      boot address and a checksum and its trailer is the checksum of what precedes it;
      otherwise the original image, boot address back in little-endian order. */
  function Unpack(image: seq<bv8>): (r: Option<seq<bv8>>)
    ensures r.Some? ==> |r.value| + 4 == |image|
  {
    if |image| < 8 then None
    else
      var n := |image| - 4;
      if image[n..] != ToBeBytes(Checksum(image[..n])) then None
      else Some([image[3], image[2], image[1], image[0]] + image[4..n])
  }

  /** Unpacking a packed image gives back the input. */
  lemma UnpackPack(input: seq<bv8>)
    requires |input| >= 4
    ensures Unpack(Pack(input).value) == Some(input)
  {
    var out := Pack(input).value;
    assert out[..4] == [input[3], input[2], input[1], input[0]];
    assert [out[3], out[2], out[1], out[0]] == input[..4];
    assert out[4..|out| - 4] == input[4..];
    assert input[..4] + input[4..] == input;
  }

  /** A packed image checks to zero as a whole: a loader can run the same CRC over the
      image and its trailer and compare with zero. */
  lemma PackedImageChecksZero(input: seq<bv8>)
    requires |input| >= 4
    ensures Checksum(Pack(input).value) == 0
  {
    var out := Pack(input).value;
    assert out == out[..|input|] + out[|input|..];
    AppendedChecksumLeavesZero(out[..|input|]);
  }

  /** `a[at..at + 4] := bytes`, one `copy_from_slice` of a four-byte word. */
  method CopyWord(a: array<bv8>, at: nat, bytes: seq<bv8>)
    requires |bytes| == 4 && at + 4 <= a.Length
    modifies a
    ensures a[..] == old(a[..at]) + bytes + old(a[at + 4..])
  {
    a[at], a[at + 1], a[at + 2], a[at + 3] := bytes[0], bytes[1], bytes[2], bytes[3];
  }

  /** `a[from..to] := src[from..to]`, the `copy_from_slice` of the image body. */
  method CopyRegion(a: array<bv8>, src: seq<bv8>, from: nat, to: nat)
    requires from <= to <= |src| && to <= a.Length
    modifies a
    ensures a[..] == old(a[..from]) + src[from..to] + old(a[to..])
  {
    var i := from;
    while i < to
      invariant from <= i <= to
      invariant forall j :: 0 <= j < a.Length ==> a[j] == if from <= j < i then src[j] else old(a[j])
    {
      a[i] := src[i];
      i := i + 1;
    }
    assert a[..] == old(a[..from]) + src[from..to] + old(a[to..]) by {
      assert forall j :: 0 <= j < a.Length ==> a[..][j] == (old(a[..from]) + src[from..to] + old(a[to..]))[j];
    }
  }

  /** The packer's `main` from reading the input to writing the output: it refuses an input
      shorter than four bytes, then fills a zeroed output array of four more bytes in three
      regions, in place. */
  method Build(input: seq<bv8>) returns (output: Option<array<bv8>>)
    ensures output.None? <==> |input| < 4
    ensures output.Some? ==> fresh(output.value) && Pack(input) == Some(output.value[..])
  {
    if |input| < 4 {
      return None;
    }
    var len := |input|;
    var bootAddress := FromLeBytes(input[0], input[1], input[2], input[3]);
    var out := new bv8[len + 4](_ => 0);
    CopyWord(out, 0, ToBeBytes(bootAddress));
    CopyRegion(out, input, 4, len);
    assert out[..len] == Body(input);
    var crc := Checksum(out[..len]);
    CopyWord(out, len, ToBeBytes(crc));
    assert out[..] == Body(input) + ToBeBytes(crc);
    return Some(out);
  }
}
