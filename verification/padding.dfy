/** The padding strip of the decryption utility. It reads the last byte as the
    pad length and cuts that many bytes off the end with Python slice
    semantics, without checking the pad bytes, so it accepts more than the
    padding of section 6.3 of RFC 5652 allows. */
module Padding {
  import opened Base

  /** The cipher's block length in bytes. */
  const BlockSize: nat := 16

  /** `d[:stop]` for a Python sequence: a negative stop counts from the end,
      and a stop beyond either end is clamped. */
  function PySliceTo<T>(d: seq<T>, stop: int): (r: seq<T>)
    ensures |r| <= |d| && r == d[..|r|]
    ensures 0 <= stop <= |d| ==> |r| == stop
    ensures -|d| <= stop < 0 ==> |r| == |d| + stop
    ensures stop > |d| ==> r == d
    ensures stop < -|d| ==> r == []
  {
    if stop >= 0 then d[..Min(stop, |d|)]
    else if |d| + stop >= 0 then d[..|d| + stop]
    else []
  }

  /** Indexing the last byte of an empty buffer raises `IndexError`. */
  datatype StripError = IndexError

  /** The strip: `d[:-d[-1]]`. */
  function StripPadding(d: seq<byte>): (r: Result<seq<byte>, StripError>)
    ensures r.Failure? <==> d == []
    ensures r.Success? ==> |r.value| <= |d| && r.value == d[..|r.value|]
  {
    if d == [] then Failure(IndexError)
    else
      var p := d[|d| - 1] as int;
      if 0 < p <= |d| then Success(d[..|d| - p]) else Success([])
  }

  /** The strip is exactly Python's slice with stop `-p`, including the
      cases the padding scheme never produces: a zero pad byte, where `-0`
      is `0` and the whole buffer goes, and a pad byte longer than the
      buffer. */
  lemma StripIsPythonSlice(d: seq<byte>)
    requires d != []
    ensures StripPadding(d) == Success(PySliceTo(d, -(d[|d| - 1] as int)))
    ensures d[|d| - 1] == 0 ==> StripPadding(d) == Success([])
    ensures d[|d| - 1] as int > |d| ==> StripPadding(d) == Success([])
    ensures 0 < d[|d| - 1] as int <= |d| ==> |StripPadding(d).value| == |d| - d[|d| - 1] as int
  {
  }

  /** The padding of section 6.3 of RFC 5652: `n` bytes of value `n`, where
      `n` brings the length up to the next multiple of the block length. */
  function Pad(x: seq<byte>): (r: seq<byte>)
    ensures |r| % BlockSize == 0 && |x| < |r| <= |x| + BlockSize
    ensures r[..|x|] == x
  {
    var n := BlockSize - |x| % BlockSize;
    x + seq(n, _ => n as byte)
  }

  /** What section 6.3 of RFC 5652 accepts: a whole number of blocks whose
      last byte `n` is between 1 and the block length and whose last `n`
      bytes all equal `n`. */
  predicate IsPadded(d: seq<byte>) {
    && d != []
    && |d| % BlockSize == 0
    && 1 <= d[|d| - 1] as int <= BlockSize
    && forall i :: |d| - d[|d| - 1] as int <= i < |d| ==> d[i] == d[|d| - 1]
  }

  /** Padding then stripping gives back the plaintext. */
  lemma StripPad(x: seq<byte>)
    ensures IsPadded(Pad(x))
    ensures StripPadding(Pad(x)) == Success(x)
  {
    var r := Pad(x);
    var n := BlockSize - |x| % BlockSize;
    assert r[|r| - 1] as int == n;
  }

  /** On correctly padded input the loose strip agrees with a strict one:
      padding what it returns rebuilds the input. */
  lemma PadStrip(d: seq<byte>)
    requires IsPadded(d)
    ensures StripPadding(d).Success? && Pad(StripPadding(d).value) == d
  {
    var n := d[|d| - 1] as int;
    var x := d[..|d| - n];
    assert |x| % BlockSize == BlockSize - n by {
      assert |x| == |d| - n;
    }
    var r := Pad(x);
    assert |r| == |d|;
    forall i | 0 <= i < |d|
      ensures r[i] == d[i]
    {
      if i >= |x| {
        assert r[i] == n as byte;
      }
    }
  }

  /** A zero pad byte is not valid padding, yet the strip accepts it and
      returns nothing. */
  lemma ZeroPadAccepted()
    ensures !IsPadded([0x41, 0x00]) && StripPadding([0x41, 0x00]) == Success([])
  {
  }

  /** A pad byte longer than the buffer is not valid padding either, and the
      strip again returns nothing rather than failing. */
  lemma OverlongPadAccepted()
    ensures !IsPadded([0x05]) && StripPadding([0x05]) == Success([])
  {
  }

  /** Pad bytes that do not all equal the pad length are accepted too. */
  lemma MixedPadAccepted()
    ensures var d := seq(15, _ => 0x41 as byte) + [0x02];
      !IsPadded(d) && StripPadding(d) == Success(seq(14, _ => 0x41 as byte))
  {
    var d := seq(15, _ => 0x41 as byte) + [0x02];
    assert d[14] != d[15];
    assert d[..14] == seq(14, _ => 0x41 as byte);
  }
}
