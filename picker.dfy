/**
 * BSImagePicker as far as its state goes: the configuration read from the
 * Builder's bundle, the adapter it creates, the multi-select bottom bar and
 * the empty view. The listener wiring of setupRecyclerView is modelled by
 * OnImageTileTap, which forwards the adapter's notifications.
 */
module Picker {
  import opened Common
  import opened TileLayout
  import opened Selection
  import opened ImageTiles
  import opened PickerConfig
  import opened PickerRules

  class BSImagePicker<Uri(==)> {
    const config: Config
    const adapter: ImageTileAdapter<Uri>
    /** Whether the multi-select bottom bar has been inflated. */
    var hasBottomBar: bool
    var bar: BottomBar
    var bottomBarVisible: bool
    var emptyViewVisible: bool

    /**
     * The adapter mirrors the configuration, and while the bottom bar exists,
     * Done is enabled exactly when the selection has reached the minimum.
     */
    ghost predicate Valid()
      reads this, adapter
    {
      && adapter.Valid()
      && adapter.isMultiSelect == config.isMultiSelect
      && adapter.showCameraTile == config.showCameraTile
      && adapter.showGalleryTile == config.showGalleryTile
      && adapter.maximumSelectionCount == config.maximumMultiSelectCount
      && config.minimumMultiSelectCount >= 1
      && (hasBottomBar ==> config.isMultiSelect)
      && (hasBottomBar ==> (bar.doneEnabled <==> |adapter.selectedFiles| >= config.minimumMultiSelectCount))
    }

    /**
     * onCreate (loadConfigFromBuilder), setupRecyclerView (the adapter) and
     * onActivityCreated (the bottom bar in multi-select mode, then the saved
     * selection if any). The bundle, when present, was written by the Builder.
     */
    constructor (arguments: Option<Config>, peekHeightPx: int, gridSpacingPx: int, savedSelection: Option<seq<Uri>>)
      requires arguments.Some? ==> arguments.value.minimumMultiSelectCount >= 1
      ensures Valid() && fresh(adapter)
      ensures config == LoadConfig(DefaultConfig(peekHeightPx, gridSpacingPx), arguments)
      ensures adapter.imageList == []
      ensures adapter.selectedFiles == if savedSelection.Some? then savedSelection.value else []
      ensures hasBottomBar == config.isMultiSelect
      ensures bottomBarVisible == config.isMultiSelect && !emptyViewVisible
      ensures hasBottomBar ==> bar == SelectCountBar(|adapter.selectedFiles|, config.minimumMultiSelectCount)
    {
      var c := LoadConfig(DefaultConfig(peekHeightPx, gridSpacingPx), arguments);
      config := c;
      adapter := new ImageTileAdapter<Uri>(c.isMultiSelect, c.showCameraTile, c.showGalleryTile);
      hasBottomBar := false;
      bar := InitialBar(c.minimumMultiSelectCount);
      bottomBarVisible := false;
      emptyViewVisible := false;
      new;
      adapter.SetMaximumSelectionCount(config.maximumMultiSelectCount);
      if config.isMultiSelect {
        hasBottomBar := true;
        bottomBarVisible := true;
        bar := InitialBar(config.minimumMultiSelectCount);
        InitialBarIsEmptySelectionBar(config.minimumMultiSelectCount);
      }
      if savedSelection.Some? {
        var count := adapter.SetSelectedFiles(savedSelection.value);
        if config.isMultiSelect {
          UpdateSelectCount(count);
        }
      }
    }

    /** updateSelectCount: only acts once the bottom bar exists. */
    method UpdateSelectCount(newCount: int)
      modifies this
      ensures bar == if old(hasBottomBar) then SelectCountBar(newCount, config.minimumMultiSelectCount) else old(bar)
      ensures hasBottomBar == old(hasBottomBar)
      ensures bottomBarVisible == old(bottomBarVisible) && emptyViewVisible == old(emptyViewVisible)
    {
      if hasBottomBar {
        bar := SelectCountBar(newCount, config.minimumMultiSelectCount);
      }
    }

    /** showOverSelectMessage: only acts once the bottom bar exists. */
    method ShowOverSelectMessage()
      modifies this
      ensures bar == if old(hasBottomBar) then OverSelectBar(old(bar), config.maximumMultiSelectCount) else old(bar)
      ensures hasBottomBar == old(hasBottomBar)
      ensures bottomBarVisible == old(bottomBarVisible) && emptyViewVisible == old(emptyViewVisible)
    {
      if hasBottomBar {
        bar := OverSelectBar(bar, config.maximumMultiSelectCount);
      }
    }

    /**
     * onLoadFinished: the capped list replaces the adapter's images; the empty
     * view and the bottom bar trade places. A missing cursor changes nothing.
     */
    method OnLoadFinished(cursor: Option<seq<Uri>>)
      requires Valid()
      modifies this, adapter
      ensures Valid()
      ensures adapter.selectedFiles == old(adapter.selectedFiles)
      ensures hasBottomBar == old(hasBottomBar) && bar == old(bar)
      ensures cursor.None? ==>
                adapter.imageList == old(adapter.imageList) &&
                emptyViewVisible == old(emptyViewVisible) && bottomBarVisible == old(bottomBarVisible)
      ensures cursor.Some? ==>
                adapter.imageList == cursor.value[..DisplayCount(|cursor.value|, config.maximumDisplayingImages)]
      ensures cursor.Some? ==>
                emptyViewVisible == EmptyViewVisible(|adapter.imageList|, config.showCameraTile, config.showGalleryTile)
      ensures cursor.Some? ==>
                bottomBarVisible == if hasBottomBar then !emptyViewVisible else old(bottomBarVisible)
    {
      if cursor.Some? {
        var uriList := LoadImageList(cursor.value, config.maximumDisplayingImages);
        adapter.SetImageList(uriList);
        if EmptyViewVisible(|uriList|, config.showCameraTile, config.showGalleryTile) {
          emptyViewVisible := true;
          if hasBottomBar {
            bottomBarVisible := false;
          }
        } else {
          emptyViewVisible := false;
          if hasBottomBar {
            bottomBarVisible := true;
          }
        }
      }
    }

    /** onLoaderReset: the grid loses its images; the selection stays. */
    method OnLoaderReset()
      requires Valid()
      modifies adapter
      ensures Valid()
      ensures adapter.imageList == [] && adapter.selectedFiles == old(adapter.selectedFiles)
    {
      adapter.SetImageList([]);
    }

    /**
     * A tap on an image tile, through the listeners setupRecyclerView installs.
     * Single-select: the image goes to the caller, and the dialog is dismissed
     * when so configured. Multi-select: the selection is toggled and the bottom
     * bar follows the new count, or shows the over-select message when enabled.
     */
    method OnImageTileTap(position: int) returns (picked: Option<Uri>, dismiss: bool)
      requires Valid()
      requires 0 <= position < adapter.GetItemCount() && adapter.GetItemViewType(position) == Image
      modifies this, adapter
      ensures Valid()
      ensures adapter.imageList == old(adapter.imageList) && hasBottomBar == old(hasBottomBar)
      ensures bottomBarVisible == old(bottomBarVisible) && emptyViewVisible == old(emptyViewVisible)
      ensures !hasBottomBar ==> bar == old(bar)
      ensures !config.isMultiSelect ==>
                adapter.selectedFiles == old(adapter.selectedFiles) &&
                picked == Some(old(adapter.imageList)[position - adapter.nonListItemCount]) &&
                dismiss == config.dismissOnSelect
      ensures config.isMultiSelect ==>
                picked == None && !dismiss &&
                adapter.selectedFiles ==
                  Toggle(old(adapter.selectedFiles), config.maximumMultiSelectCount, old(adapter.imageList)[position])
      ensures hasBottomBar ==>
                var outcome := ToggleOutcome(old(adapter.selectedFiles), config.maximumMultiSelectCount, old(adapter.imageList)[position]);
                bar == if outcome != OverSelected
                       then SelectCountBar(|adapter.selectedFiles|, config.minimumMultiSelectCount)
                       else if config.showOverSelectMessage
                       then OverSelectBar(old(bar), config.maximumMultiSelectCount)
                       else old(bar)
    {
      var n := adapter.OnImageTileClick(position);
      picked, dismiss := None, false;
      match n {
        case ImageTileClick(uri) =>
          picked := Some(uri);
          dismiss := config.dismissOnSelect;
        case SelectionChanged(_, count) =>
          if config.isMultiSelect {
            UpdateSelectCount(count);
          }
        case OverSelect =>
          if config.isMultiSelect && config.showOverSelectMessage {
            ShowOverSelectMessage();
          }
      }
    }

    /**
     * Nothing checks the minimum against the maximum: when the minimum exceeds
     * it, a selection within the maximum leaves Done disabled.
     */
    lemma DoneUnreachableAboveMaximum()
      requires Valid() && hasBottomBar
      requires config.minimumMultiSelectCount > config.maximumMultiSelectCount
      requires |adapter.selectedFiles| <= config.maximumMultiSelectCount
      ensures !bar.doneEnabled
    {
    }

    /**
     * The Done button, clickable only while enabled: the caller receives the
     * selection, which then holds at least the minimum number of images.
     */
    method OnDoneClick() returns (uriList: seq<Uri>)
      requires Valid() && hasBottomBar && bar.doneEnabled
      ensures uriList == adapter.selectedFiles
      ensures |uriList| >= config.minimumMultiSelectCount
    {
      uriList := adapter.GetSelectedFiles();
    }
  }
}
