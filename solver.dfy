/** The challenge-offset solver: compare the top band of the challenge image
    with the bottom band pixel by pixel, and report the column of the last
    mismatch in x-major scan order, shifted by a calibration constant. */
module PixelSolver {
  import opened Wrappers

  /** Per-channel difference at or above which two pixels differ. */
  const Threshold := 60
  /** Subtracted from the last mismatching column to give the offset. */
  const Calibration := 50

  type Channel = c: int | 0 <= c < 256

  datatype Pixel = Pixel(r: Channel, g: Channel, b: Channel)

  function Abs(n: int): nat {
    if n < 0 then -n else n
  }

  /** Two pixels match when each of R, G and B differs by less than the threshold. */
  function ComparePixel(p1: Pixel, p2: Pixel): (same: bool)
    ensures same <==> (-Threshold < p1.r - p2.r < Threshold && -Threshold < p1.g - p2.g < Threshold
                       && -Threshold < p1.b - p2.b < Threshold)
    ensures p1 == p2 ==> same
  {
    Abs(p1.r - p2.r) < Threshold && Abs(p1.g - p2.g) < Threshold && Abs(p1.b - p2.b) < Threshold
  }

  /** A decoded challenge image: `rows[y][x]` is the pixel at column x, row y.
      Band 1 is rows [0, band1Height); band 3 starts at row band3Start. The
      band rows are what the image library derives from the height; they are
      taken as given. */
  datatype Raster = Raster(width: nat, height: nat, rows: seq<seq<Pixel>>, band1Height: nat, band3Start: nat)
  {
    predicate WellFormed() {
      && |rows| == height
      && (forall y :: 0 <= y < |rows| ==> |rows[y]| == width)
      && band3Start + band1Height <= height
    }
  }

  /** An image whose rows all have the full width and whose band 3 is at least
      as tall as band 1. */
  type Image = r: Raster | r.WellFormed() witness Raster(0, 0, [], 0, 0)

  /** Pixel (x, y) of band 1. */
  function Band1(img: Image, x: nat, y: nat): Pixel
    requires x < img.width && y < img.band1Height
  {
    img.rows[y][x]
  }

  /** Pixel (x, y) of band 3. */
  function Band3(img: Image, x: nat, y: nat): Pixel
    requires x < img.width && y < img.band1Height
  {
    img.rows[img.band3Start + y][x]
  }

  datatype Coord = Coord(x: nat, y: nat)

  /** Scan order: x ascending on the outside, y ascending inside. */
  predicate ScanLt(a: Coord, b: Coord) {
    a.x < b.x || (a.x == b.x && a.y < b.y)
  }

  predicate ScanLe(a: Coord, b: Coord) {
    a.x < b.x || (a.x == b.x && a.y <= b.y)
  }

  /** A coordinate inside band 1 where bands 1 and 3 do not match. */
  predicate IsMismatch(img: Image, c: Coord) {
    c.x < img.width && c.y < img.band1Height && !ComparePixel(Band1(img, c.x, c.y), Band3(img, c.x, c.y))
  }

  ghost predicate IsEarliestMismatch(img: Image, c: Coord) {
    IsMismatch(img, c) && forall d :: IsMismatch(img, d) ==> ScanLe(c, d)
  }

  ghost predicate IsLatestMismatch(img: Image, c: Coord) {
    IsMismatch(img, c) && forall d :: IsMismatch(img, d) ==> ScanLe(d, c)
  }

  /** A point the scan can stand at: (x, y) with y still to be visited in
      column x, or the end of the scan. */
  predicate ScanPoint(img: Image, x: nat, y: nat) {
    (x < img.width && y <= img.band1Height) || (x == img.width && y == 0)
  }

  /** The first mismatch scanned before the scan reaches (x, y). */
  function FirstBefore(img: Image, x: nat, y: nat): Option<Coord>
    requires ScanPoint(img, x, y)
    decreases x, y
  {
    if y > 0 then
      var f := FirstBefore(img, x, y - 1);
      if f.Some? then f
      else if IsMismatch(img, Coord(x, y - 1)) then Some(Coord(x, y - 1))
      else None
    else if x == 0 then None
    else FirstBefore(img, x - 1, img.band1Height)
  }

  /** The last mismatch scanned before the scan reaches (x, y). */
  function LastBefore(img: Image, x: nat, y: nat): Option<Coord>
    requires ScanPoint(img, x, y)
    decreases x, y
  {
    if y > 0 then
      if IsMismatch(img, Coord(x, y - 1)) then Some(Coord(x, y - 1)) else LastBefore(img, x, y - 1)
    else if x == 0 then None
    else LastBefore(img, x - 1, img.band1Height)
  }

  /** The `first` of `_get_code`'s scan. */
  function FirstMismatch(img: Image): (r: Option<Coord>)
    ensures r.Some? ==> IsEarliestMismatch(img, r.value)
    ensures r.None? <==> forall d :: !IsMismatch(img, d)
  {
    FirstBeforeSpec(img, img.width, 0);
    FirstBefore(img, img.width, 0)
  }

  /** The `last` of `_get_code`'s scan. */
  function LastMismatch(img: Image): (r: Option<Coord>)
    ensures r.Some? ==> IsLatestMismatch(img, r.value)
    ensures r.None? <==> forall d :: !IsMismatch(img, d)
  {
    LastBeforeSpec(img, img.width, 0);
    LastBefore(img, img.width, 0)
  }

  /** The offset the solver reports, or None where the source raises. */
  function Offset(img: Image): (k: Option<int>)
    ensures k.None? <==> forall d :: !IsMismatch(img, d)
    ensures k.Some? ==> exists c :: IsLatestMismatch(img, c) && k.value == c.x - Calibration
  {
    match LastMismatch(img)
    case Some(c) => Some(c.x - Calibration)
    case None => None
  }

  lemma {:induction false} FirstBeforeSpec(img: Image, x: nat, y: nat)
    requires ScanPoint(img, x, y)
    ensures match FirstBefore(img, x, y)
      case Some(c) =>
        && IsMismatch(img, c) && ScanLt(c, Coord(x, y))
        && forall d :: IsMismatch(img, d) && ScanLt(d, Coord(x, y)) ==> ScanLe(c, d)
      case None => forall d :: IsMismatch(img, d) ==> !ScanLt(d, Coord(x, y))
    decreases x, y
  {
    if y > 0 {
      FirstBeforeSpec(img, x, y - 1);
    } else if x > 0 {
      FirstBeforeSpec(img, x - 1, img.band1Height);
    }
  }

  lemma {:induction false} LastBeforeSpec(img: Image, x: nat, y: nat)
    requires ScanPoint(img, x, y)
    ensures match LastBefore(img, x, y)
      case Some(c) =>
        && IsMismatch(img, c) && ScanLt(c, Coord(x, y))
        && forall d :: IsMismatch(img, d) && ScanLt(d, Coord(x, y)) ==> ScanLe(d, c)
      case None => forall d :: IsMismatch(img, d) ==> !ScanLt(d, Coord(x, y))
    decreases x, y
  {
    if y > 0 {
      if !IsMismatch(img, Coord(x, y - 1)) {
        LastBeforeSpec(img, x, y - 1);
      }
    } else if x > 0 {
      LastBeforeSpec(img, x - 1, img.band1Height);
    }
  }

  /** `first` is the earliest mismatch in scan order, and there is none exactly
      when the bands match everywhere. */
  lemma FirstMismatchIsEarliest(img: Image, c: Coord)
    ensures FirstMismatch(img) == Some(c) <==> IsEarliestMismatch(img, c)
    ensures FirstMismatch(img) == None <==> forall d :: !IsMismatch(img, d)
  {
    FirstBeforeSpec(img, img.width, 0);
  }

  /** `last` is the mismatch with the largest x, and the largest y among
      those; there is none exactly when the bands match everywhere. */
  lemma LastMismatchIsLatest(img: Image, c: Coord)
    ensures LastMismatch(img) == Some(c) <==> IsLatestMismatch(img, c)
    ensures LastMismatch(img) == None <==> forall d :: !IsMismatch(img, d)
  {
    LastBeforeSpec(img, img.width, 0);
  }

  /** The scan of `_get_code`: the first and the last mismatch between band 1
      and band 3, x ascending outside and y ascending inside. */
  method ScanBands(img: Image) returns (first: Option<Coord>, last: Option<Coord>)
    ensures first == FirstMismatch(img) && last == LastMismatch(img)
  {
    first, last := None, None;
    var x := 0;
    while x < img.width
      invariant x <= img.width
      invariant first == FirstBefore(img, x, 0) && last == LastBefore(img, x, 0)
    {
      var y := 0;
      while y < img.band1Height
        invariant y <= img.band1Height
        invariant first == FirstBefore(img, x, y) && last == LastBefore(img, x, y)
      {
        if !ComparePixel(Band1(img, x, y), Band3(img, x, y)) {
          if first.None? {
            first := Some(Coord(x, y));
          }
          last := Some(Coord(x, y));
        }
        y := y + 1;
      }
      x := x + 1;
    }
  }

  lemma ComparePixelSymmetric(p1: Pixel, p2: Pixel)
    ensures ComparePixel(p1, p2) == ComparePixel(p2, p1)
  {
  }

  lemma ComparePixelReflexive(p: Pixel)
    ensures ComparePixel(p, p)
  {
  }

  /** Two pixels differ exactly when one channel differs by the threshold or more. */
  lemma ComparePixelMeansClose(p1: Pixel, p2: Pixel)
    ensures !ComparePixel(p1, p2) <==>
      (p1.r - p2.r >= Threshold || p2.r - p1.r >= Threshold ||
       p1.g - p2.g >= Threshold || p2.g - p1.g >= Threshold ||
       p1.b - p2.b >= Threshold || p2.b - p1.b >= Threshold)
  {
  }

  /** The reported offset is the column of the latest mismatch minus the
      calibration; this names, for a given mismatch, a fact `Offset` already
      ensures. */
  lemma OffsetOfLatestMismatch(img: Image, c: Coord)
    requires IsLatestMismatch(img, c)
    ensures Offset(img) == Some(c.x - Calibration)
  {
    LastMismatchIsLatest(img, c);
  }

  /** With no mismatching pixel there is no offset (the source raises); this
      names a fact `Offset` already ensures. */
  lemma NoMismatchNoOffset(img: Image)
    ensures Offset(img) == None <==> forall d :: !IsMismatch(img, d)
  {
  }

  /** Bands that are pixel-identical give no offset, never -50. */
  lemma IdenticalBandsHaveNoOffset(img: Image)
    requires forall x: nat, y: nat :: x < img.width && y < img.band1Height ==> Band1(img, x, y) == Band3(img, x, y)
    ensures Offset(img) == None
  {
    forall d: Coord | d.x < img.width && d.y < img.band1Height
      ensures !IsMismatch(img, d)
    {
      ComparePixelReflexive(Band1(img, d.x, d.y));
    }
    NoMismatchNoOffset(img);
  }

  /** When every mismatch lies at or left of column b and column b holds one
      (an anomaly strip whose right edge is b), the offset is b - 50; a right
      edge at x = 120 gives 70. */
  lemma OffsetIsRightEdge(img: Image, b: nat, y0: nat)
    requires IsMismatch(img, Coord(b, y0))
    requires forall d :: IsMismatch(img, d) ==> d.x <= b
    ensures Offset(img) == Some(b - Calibration)
  {
    LastBeforeSpec(img, img.width, 0);
    var c := LastMismatch(img).value;
    assert ScanLe(Coord(b, y0), c);
  }
}
