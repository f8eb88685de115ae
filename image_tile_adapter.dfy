/**
 * ImageTileAdapter: the RecyclerView adapter of the picker grid. It keeps the
 * image list, the ordered multi-select selection and the selection maximum,
 * and turns taps on image tiles into selection changes and listener calls.
 */
module ImageTiles {
  import opened Common
  import opened TileLayout
  import opened Selection

  /** What the adapter reports after a tap on an image tile. */
  datatype TapNotification<Uri> =
    /** Single-select: the tile's image goes to the image tile click listener. */
    | ImageTileClick(uri: Uri)
      /** Multi-select: the tile at `position` is redrawn and the count listener gets the new size. */
    | SelectionChanged(position: int, currentCount: nat)
      /** Multi-select: the tap was rejected and the over-select listener is called. */
    | OverSelect

  class ImageTileAdapter<Uri(==)> {
    const isMultiSelect: bool
    const showCameraTile: bool
    const showGalleryTile: bool
    const nonListItemCount: nat
    var imageList: seq<Uri>
    var selectedFiles: seq<Uri>
    var maximumSelectionCount: int

    /** The fixed layout configuration this adapter was constructed with. */
    function Config(): Layout
    {
      Layout(isMultiSelect, showCameraTile, showGalleryTile)
    }

    /** The leading-tile count computed at construction matches the layout. */
    ghost predicate Valid()
    {
      nonListItemCount == NonListItemCount(Config())
    }

    constructor (isMultiSelect: bool, showCameraTile: bool, showGalleryTile: bool)
      ensures Valid()
      ensures this.isMultiSelect == isMultiSelect
      ensures this.showCameraTile == showCameraTile && this.showGalleryTile == showGalleryTile
      ensures imageList == [] && selectedFiles == [] && maximumSelectionCount == IntMaxValue
    {
      this.isMultiSelect := isMultiSelect;
      this.showCameraTile := showCameraTile;
      this.showGalleryTile := showGalleryTile;
      nonListItemCount := NonListItemCount(Layout(isMultiSelect, showCameraTile, showGalleryTile));
      imageList := [];
      selectedFiles := [];
      maximumSelectionCount := IntMaxValue;
    }

    /** getItemCount: pseudo-tiles in single-select mode, the bottom spacer in multi-select mode, plus one tile per image. */
    function GetItemCount(): (n: nat)
      reads this
      ensures Valid() ==> n == nonListItemCount + |imageList| + (if isMultiSelect then 1 else 0)
    {
      ItemCount(Config(), |imageList|)
    }

    /** getItemViewType: never Dummy, and an in-range Image tile always indexes the image list. */
    function GetItemViewType(position: int): (t: ViewType)
      reads this
      ensures t != Dummy
      ensures Valid() && t == Image && 0 <= position < GetItemCount() ==>
                0 <= position - nonListItemCount < |imageList|
    {
      ViewTypeAt(Config(), |imageList|, position)
    }

    /** The current selection, in the order the images were selected. */
    method GetSelectedFiles() returns (files: seq<Uri>)
      ensures files == selectedFiles
    {
      files := selectedFiles;
    }

    /**
     * Restores a selection wholesale. Nothing is checked against the maximum;
     * the count listener is told the new size.
     */
    method SetSelectedFiles(files: seq<Uri>) returns (currentCount: nat)
      modifies this
      ensures selectedFiles == files && currentCount == |files|
      ensures imageList == old(imageList) && maximumSelectionCount == old(maximumSelectionCount)
    {
      selectedFiles := files;
      currentCount := |selectedFiles|;
    }

    /** Replaces the image list wholesale; the selection is left as it is. */
    method SetImageList(list: seq<Uri>)
      modifies this
      ensures imageList == list
      ensures selectedFiles == old(selectedFiles) && maximumSelectionCount == old(maximumSelectionCount)
    {
      imageList := list;
    }

    method SetMaximumSelectionCount(maximum: int)
      modifies this
      ensures maximumSelectionCount == maximum
      ensures imageList == old(imageList) && selectedFiles == old(selectedFiles)
    {
      maximumSelectionCount := maximum;
    }

    /**
     * Binding an image tile: the tile at `position` shows the list element
     * `position - nonListItemCount` (always a valid index) and is darkened and
     * ticked exactly when that image is selected.
     */
    method Bind(position: int) returns (imageFile: Uri, isSelected: bool)
      requires Valid()
      requires 0 <= position < GetItemCount() && GetItemViewType(position) == Image
      ensures imageFile in imageList
      ensures imageFile == imageList[position - nonListItemCount]
      ensures isSelected <==> imageFile in selectedFiles
    {
      imageFile := imageList[position - nonListItemCount];
      isSelected := imageFile in selectedFiles;
    }

    /**
     * A tap on the image tile at `position`. In single-select mode the image is
     * handed on unchanged. In multi-select mode the image is toggled: removed
     * when selected, otherwise rejected when the selection size equals the
     * maximum, otherwise appended; every accepted change reports the new count.
     */
    method OnImageTileClick(position: int) returns (n: TapNotification<Uri>)
      requires Valid()
      requires 0 <= position < GetItemCount() && GetItemViewType(position) == Image
      modifies this
      ensures imageList == old(imageList) && maximumSelectionCount == old(maximumSelectionCount)
      ensures !isMultiSelect ==>
                selectedFiles == old(selectedFiles) &&
                n == ImageTileClick(old(imageList)[position - nonListItemCount])
      ensures isMultiSelect ==>
                selectedFiles == Toggle(old(selectedFiles), maximumSelectionCount, old(imageList)[position])
      ensures isMultiSelect ==>
                n == if ToggleOutcome(old(selectedFiles), maximumSelectionCount, old(imageList)[position]) == OverSelected
                     then OverSelect
                     else SelectionChanged(position, |selectedFiles|)
    {
      if !isMultiSelect {
        n := ImageTileClick(imageList[position - nonListItemCount]);
        return;
      }
      var thisFile := imageList[position];
      if thisFile in selectedFiles {
        selectedFiles := RemoveFirst(selectedFiles, thisFile);
      } else {
        if |selectedFiles| == maximumSelectionCount {
          n := OverSelect;
          return;
        } else {
          selectedFiles := selectedFiles + [thisFile];
        }
      }
      n := SelectionChanged(position, |selectedFiles|);
    }
  }

  /** Multi-select, maximum 2, images [a, b, c]: select a, select b, c is rejected, deselect a. */
  method MultiSelectScenario<Uri(==)>(a: Uri, b: Uri, c: Uri)
    requires a != b && b != c && a != c
  {
    MaximumTwoScenario(a, b, c);
    var adapter := new ImageTileAdapter<Uri>(true, false, false);
    adapter.SetMaximumSelectionCount(2);
    adapter.SetImageList([a, b, c]);
    assert adapter.GetItemCount() == 4 && adapter.GetItemViewType(3) == BottomSpace;
    var n := adapter.OnImageTileClick(0);
    assert adapter.selectedFiles == [a] && n == SelectionChanged(0, 1);
    n := adapter.OnImageTileClick(1);
    assert adapter.selectedFiles == [a, b] && n == SelectionChanged(1, 2);
    n := adapter.OnImageTileClick(2);
    assert adapter.selectedFiles == [a, b] && n == OverSelect;
    n := adapter.OnImageTileClick(0);
    assert adapter.selectedFiles == [b] && n == SelectionChanged(0, 1);
  }

  /** Single-select with both pseudo-tiles over images [x, y]: four tiles, images at 2 and 3. */
  method SingleSelectScenario<Uri(==)>(x: Uri, y: Uri)
  {
    var adapter := new ImageTileAdapter<Uri>(false, true, true);
    adapter.SetImageList([x, y]);
    assert adapter.GetItemCount() == 4;
    assert adapter.GetItemViewType(0) == Camera && adapter.GetItemViewType(1) == Gallery;
    var shown, selected := adapter.Bind(2);
    assert shown == x && !selected;
    shown, selected := adapter.Bind(3);
    assert shown == y && !selected;
    var n := adapter.OnImageTileClick(3);
    assert n == ImageTileClick(y) && adapter.selectedFiles == [];
  }
}
