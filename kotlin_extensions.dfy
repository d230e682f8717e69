/** `KotlinByteArray.toData()`: the Swift side's copy of a Kotlin frame into
    the unsigned bytes written to the characteristic. */
module KotlinExtensions {
  import opened Bytes

  /** Allocates `size` zero bytes and fills index i from input index i,
      reinterpreting each signed byte's bit pattern. */
  method ToData(kotlinBytes: seq<Int8>) returns (data: seq<UInt8>)
    ensures |data| == |kotlinBytes|
    ensures forall i :: 0 <= i < |kotlinBytes| ==> data[i] == BitPattern(kotlinBytes[i])
    ensures data == Unsigned(kotlinBytes)
  {
    var size := |kotlinBytes|;
    var bytes := new UInt8[size](_ => 0);
    for i := 0 to size
      invariant forall j :: 0 <= j < i ==> bytes[j] == BitPattern(kotlinBytes[j])
    {
      bytes[i] := BitPattern(kotlinBytes[i]);
    }
    data := bytes[..];
  }
}
