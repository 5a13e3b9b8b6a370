/** The machine-integer ranges of the source, as subset types of the unbounded integers. */
module Numbers {

  const TWO_32: nat := 0x1_0000_0000
  const TWO_64: nat := 0x1_0000_0000_0000_0000
  const TWO_128: nat := 0x1_0000_0000_0000_0000_0000_0000_0000_0000

  type U8 = n: nat | n < 256
  type U32 = n: nat | n < TWO_32
  type U64 = n: nat | n < TWO_64
  type U128 = n: nat | n < TWO_128

  /** A byte string whose length fits the length word written in front of it. */
  type Blob = b: seq<U8> | |b| < TWO_64

  /** `[u8; 32]` */
  type Bytes32 = b: seq<U8> | |b| == 32 witness seq(32, _ => 0)
}
