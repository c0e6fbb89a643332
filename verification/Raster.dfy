/** Where the picture units are: NES pixels and lines derived from the VGA counters. */
module Raster {

  /** NES pixels of one VGA line: 800 VGA pixels, two to a NES pixel. */
  const WIDTH: nat := 400

  /** x is a 10-bit difference halved, so a line starts 32 pixels before x 0. */
  function NesX(p: nat): nat { if p < 32 then 480 + p else p - 32 }

  /** A frame has 521 VGA lines, two to a NES line. */
  function NextLine(v: nat): nat { if v == 520 then 0 else v + 1 }

  function LineY(v: nat): nat { v / 2 }

  function LineAfter(v: nat, n: nat): nat
    decreases n
  {
    if n == 0 then v else LineAfter(NextLine(v), n - 1)
  }
}
