/** Shared value types for frames: a raster image is only carried around,
    never inspected, by the decision logic. */
module Frames {
  /** A 3-channel raster of `rows` x `cols` pixels. */
  datatype Image = Image(rows: nat, cols: nat, pixels: seq<int>)
}
