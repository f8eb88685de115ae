/**
 * The grid layout of ImageTileAdapter: how many tiles there are and which kind
 * of tile sits at each adapter position. Everything here is a pure function of
 * the selection mode, the two leading-tile flags and the size of the image list.
 */
module TileLayout {

  /** The kinds of tile the grid can show. */
  datatype ViewType = Camera | Gallery | Image | Dummy | BottomSpace

  /** The integer view-type constant the adapter hands to RecyclerView. */
  function ViewTypeCode(t: ViewType): (code: int)
    ensures 101 <= code <= 105
  {
    match t
    case Camera => 101
    case Gallery => 102
    case Image => 103
    case Dummy => 104
    case BottomSpace => 105
  }

  /** Distinct kinds get distinct constants, so onCreateViewHolder can tell them apart. */
  lemma ViewTypeCodesDistinct(s: ViewType, t: ViewType)
    ensures ViewTypeCode(s) == ViewTypeCode(t) ==> s == t
  {
  }

  /** The configuration an adapter is constructed with; it never changes afterwards. */
  datatype Layout = Layout(isMultiSelect: bool, showCameraTile: bool, showGalleryTile: bool)

  function Indicator(b: bool): nat
  {
    if b then 1 else 0
  }

  /** Number of leading pseudo-tiles (camera, gallery) before the first image tile. */
  function NonListItemCount(l: Layout): (n: nat)
    ensures l.isMultiSelect ==> n == 0
    ensures !l.isMultiSelect ==> n == Indicator(l.showCameraTile) + Indicator(l.showGalleryTile)
  {
    if l.isMultiSelect then 0
    else if l.showCameraTile && l.showGalleryTile then 2
    else if l.showCameraTile || l.showGalleryTile then 1
    else 0
  }

  /** Total number of tiles: the leading pseudo-tiles, one per image, and in multi-select mode the bottom spacer. */
  function ItemCount(l: Layout, listSize: nat): (n: nat)
    ensures n == NonListItemCount(l) + listSize + Indicator(l.isMultiSelect)
  {
    if !l.isMultiSelect then NonListItemCount(l) + listSize
    else listSize + 1
  }

  /**
   * The kind of tile at a position. Like the adapter, it is defined for every
   * integer; only positions in [0, ItemCount) are ever asked for.
   */
  function ViewTypeAt(l: Layout, listSize: nat, position: int): (t: ViewType)
    ensures t != Dummy
    ensures t == BottomSpace <==> l.isMultiSelect && position == ItemCount(l, listSize) - 1
    ensures t == Image && 0 <= position < ItemCount(l, listSize) ==>
              0 <= position - NonListItemCount(l) < listSize
  {
    if !l.isMultiSelect then
      if position == 0 then
        if l.showCameraTile then Camera
        else if l.showGalleryTile then Gallery
        else Image
      else if position == 1 then
        if l.showCameraTile && l.showGalleryTile then Gallery else Image
      else Image
    else if position == ItemCount(l, listSize) - 1 then BottomSpace
    else Image
  }

  /**
   * Single-select mode: exactly the first NonListItemCount positions are
   * pseudo-tiles; the camera tile comes first when shown, the gallery tile
   * after it.
   */
  lemma SingleSelectLeadingTiles(l: Layout, listSize: nat, position: int)
    requires !l.isMultiSelect && 0 <= position
    ensures ViewTypeAt(l, listSize, position) != Image <==> position < NonListItemCount(l)
    ensures position == 0 && l.showCameraTile ==> ViewTypeAt(l, listSize, position) == Camera
    ensures position == 0 && !l.showCameraTile && l.showGalleryTile ==> ViewTypeAt(l, listSize, position) == Gallery
    ensures position == 1 && NonListItemCount(l) == 2 ==> ViewTypeAt(l, listSize, position) == Gallery
  {
  }

  /**
   * Multi-select mode: one tile per image followed by the bottom spacer; with
   * an empty list the spacer is the only tile.
   */
  lemma MultiSelectTiles(l: Layout, listSize: nat, position: int)
    requires l.isMultiSelect && 0 <= position < ItemCount(l, listSize)
    ensures ItemCount(l, listSize) == listSize + 1
    ensures ViewTypeAt(l, listSize, position) == if position == listSize then BottomSpace else Image
  {
  }

  /** Every list element has an image tile, at its index shifted by the pseudo-tiles. */
  lemma ImageTileOfEveryElement(l: Layout, listSize: nat, index: int)
    requires 0 <= index < listSize
    ensures 0 <= index + NonListItemCount(l) < ItemCount(l, listSize)
    ensures ViewTypeAt(l, listSize, index + NonListItemCount(l)) == Image
  {
  }

  /**
   * Within the grid, a position holds an image tile exactly when shifting it
   * back by the pseudo-tiles gives an index of the list: position and index
   * are in one-to-one correspondence.
   */
  lemma ImageTilesAreExactlyTheList(l: Layout, listSize: nat, position: int)
    requires 0 <= position < ItemCount(l, listSize)
    ensures ViewTypeAt(l, listSize, position) == Image <==> 0 <= position - NonListItemCount(l) < listSize
  {
  }
}
