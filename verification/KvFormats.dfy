/** How cached rows are stored. */
module KvFormats {
  datatype KvFormat = F32 | BF16 | INT8 | INT4

  /** Elements of one cached row of one head: two values share a byte in INT4. */
  function RowSize(f: KvFormat, headDim: nat): nat {
    if f.INT4? then headDim / 2 else headDim
  }

  /** Scales of one cached row of one head: one in INT8, one per group of 32 in INT4. */
  function ScalesPerRow(f: KvFormat, headDim: nat): nat {
    match f
    case INT8 => 1
    case INT4 => headDim / 32
    case _ => 0
  }
}
