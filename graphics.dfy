/** Values shared by the views: the colours they name and the coordinates they store.
    Coordinates (CGPoint, CGSize) are only stored and compared with zero, never computed
    with, so integers stand in for CGFloat. */
module Graphics {

  /** The SwiftUI colours the views use, as abstract tokens. */
  datatype Color = Black | Pink | Red | Orange | Yellow | Green | Mint | Cyan | Blue | Indigo | Purple | Brown | White

  /** The swatches of the colour picker, in the order they are shown. */
  function Palette(): seq<Color>
  {
    [Black, Pink, Red, Orange, Yellow, Green, Mint, Cyan, Blue, Indigo, Purple, Brown]
  }

  /** The swatches are the identities of a ForEach (`id: \.self`), so they must be
      pairwise distinct; black, the initial selection, is among them and white is not. */
  lemma PaletteIsDistinct()
    ensures |Palette()| == 12 && Black in Palette() && White !in Palette()
    ensures forall i, j :: 0 <= i < j < |Palette()| ==> Palette()[i] != Palette()[j]
  {
  }

  /** A location in view-local space (CGPoint). */
  datatype Point = Point(x: int, y: int)

  /** A displacement (CGSize), such as a drag's cumulative translation. */
  datatype Size = Size(width: int, height: int)

  /** `.zero`: the translation of a drag's first sample, and of any later sample that
      lies exactly on the drag's starting point. */
  const Zero: Size := Size(0, 0)
}
