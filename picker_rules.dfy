/**
 * The decision rules of BSImagePicker that do not depend on views: how many
 * loaded images reach the grid, when the empty view replaces it, and what the
 * multi-select bottom bar says and whether its Done button is enabled.
 */
module PickerRules {
  import opened TileLayout

  /** How many of `rowCount` loaded rows are displayed under the cap `maximumDisplayingImages`. */
  function DisplayCount(rowCount: nat, maximumDisplayingImages: int): (n: nat)
    ensures n <= rowCount
    ensures maximumDisplayingImages >= 0 ==> n <= maximumDisplayingImages
    ensures maximumDisplayingImages <= 0 ==> n == 0
    ensures maximumDisplayingImages >= 0 ==> n == rowCount || n == maximumDisplayingImages
    ensures n < rowCount ==> n == maximumDisplayingImages || maximumDisplayingImages < 0
  {
    if maximumDisplayingImages <= 0 then 0
    else if rowCount <= maximumDisplayingImages then rowCount
    else maximumDisplayingImages
  }

  /**
   * The loop of onLoadFinished: walks the cursor rows in order and keeps at
   * most `maximumDisplayingImages` of them. Each row is given by the URI built
   * from its id.
   */
  method LoadImageList<Uri>(rows: seq<Uri>, maximumDisplayingImages: int) returns (uriList: seq<Uri>)
    ensures |uriList| == DisplayCount(|rows|, maximumDisplayingImages)
    ensures uriList == rows[..|uriList|]
  {
    uriList := [];
    var index := 0;
    while index < |rows| && index < maximumDisplayingImages
      invariant 0 <= index <= |rows|
      invariant index <= DisplayCount(|rows|, maximumDisplayingImages)
      invariant uriList == rows[..index]
    {
      uriList := uriList + [rows[index]];
      index := index + 1;
    }
  }

  /** The empty view is shown when nothing was loaded and neither pseudo-tile is shown. */
  predicate EmptyViewVisible(loadedCount: nat, showCameraTile: bool, showGalleryTile: bool): (r: bool)
    ensures r <==> ItemCount(Layout(false, showCameraTile, showGalleryTile), loadedCount) == 0
  {
    loadedCount < 1 && !showCameraTile && !showGalleryTile
  }

  /**
   * The empty view appears exactly when the grid has no tile a user could
   * tap: no tile at all in single-select mode, only the bottom spacer in
   * multi-select mode (where the pseudo-tiles are always off).
   */
  lemma EmptyViewExactlyWhenNoTiles(l: Layout, loadedCount: nat)
    requires l.isMultiSelect ==> !l.showCameraTile && !l.showGalleryTile
    ensures EmptyViewVisible(loadedCount, l.showCameraTile, l.showGalleryTile) <==>
              ItemCount(l, loadedCount) == (if l.isMultiSelect then 1 else 0)
  {
  }

  /** The text of the bottom bar, one case per string resource, with its number argument. */
  datatype BarMessage =
    | NotEnoughSingular
    | NotEnoughPlural(needed: int)
    | EnoughSingular
    | EnoughPlural(selected: int)
    | OverSelectMessage(maximum: int)

  /** The number the message reports; the singular forms stand for 1. */
  function ReportedNumber(m: BarMessage): int
  {
    match m
    case NotEnoughSingular => 1
    case NotEnoughPlural(n) => n
    case EnoughSingular => 1
    case EnoughPlural(n) => n
    case OverSelectMessage(n) => n
  }

  predicate IsSingular(m: BarMessage)
  {
    m.NotEnoughSingular? || m.EnoughSingular?
  }

  predicate IsNotEnough(m: BarMessage)
  {
    m.NotEnoughSingular? || m.NotEnoughPlural?
  }

  /** The state of the multi-select bottom bar. */
  datatype BottomBar = BottomBar(message: BarMessage, doneEnabled: bool)

  /**
   * updateSelectCount: below the minimum, Done is disabled and the message says
   * how many more are needed; from the minimum on, Done is enabled and the
   * message says how many are selected. The singular form is used exactly
   * when the reported number is 1.
   */
  function SelectCountBar(newCount: int, minimum: int): (b: BottomBar)
    ensures b.doneEnabled <==> newCount >= minimum
    ensures IsNotEnough(b.message) <==> !b.doneEnabled
    ensures !b.message.OverSelectMessage?
    ensures ReportedNumber(b.message) == if newCount < minimum then minimum - newCount else newCount
    ensures IsSingular(b.message) <==> ReportedNumber(b.message) == 1
  {
    if newCount < minimum then
      BottomBar(if minimum - newCount == 1 then NotEnoughSingular else NotEnoughPlural(minimum - newCount), false)
    else
      BottomBar(if newCount == 1 then EnoughSingular else EnoughPlural(newCount), true)
  }

  /**
   * setupBottomBar: Done starts disabled, and the message asks for the
   * minimum, in the singular when the minimum is 1.
   */
  function InitialBar(minimum: int): (b: BottomBar)
    ensures !b.doneEnabled && IsNotEnough(b.message)
    ensures ReportedNumber(b.message) == minimum
    ensures IsSingular(b.message) <==> minimum == 1
  {
    BottomBar(if minimum == 1 then NotEnoughSingular else NotEnoughPlural(minimum), false)
  }

  /** The initial bar is what a count of 0 would show, for every minimum the Builder admits. */
  lemma InitialBarIsEmptySelectionBar(minimum: int)
    requires minimum >= 1
    ensures InitialBar(minimum) == SelectCountBar(0, minimum)
  {
  }

  /** showOverSelectMessage: the message names the maximum; Done keeps its state. */
  function OverSelectBar(bar: BottomBar, maximum: int): (b: BottomBar)
    ensures b.doneEnabled == bar.doneEnabled
    ensures b.message.OverSelectMessage? && ReportedNumber(b.message) == maximum
  {
    bar.(message := OverSelectMessage(maximum))
  }
}
