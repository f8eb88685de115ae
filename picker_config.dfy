/**
 * The configuration of BSImagePicker: the argument bundle its Builder writes,
 * the Builder's validating setters, and how the fragment reads the bundle back
 * (loadConfigFromBuilder), hiding the pseudo-tiles in multi-select mode.
 */
module PickerConfig {
  import opened Common

  /** The configuration values that reach the selection logic, as stored in the argument bundle. */
  datatype Config = Config(
    isMultiSelect: bool,
    dismissOnSelect: bool,
    maximumDisplayingImages: int,
    minimumMultiSelectCount: int,
    maximumMultiSelectCount: int,
    showCameraTile: bool,
    showGalleryTile: bool,
    peekHeight: int,
    spanCount: int,
    gridSpacing: int,
    showOverSelectMessage: bool)

  /**
   * The defaults shared by the Builder and the fragment's own fields.
   * peekHeightPx and gridSpacingPx are 360dp and 2dp converted to pixels on the device.
   */
  function DefaultConfig(peekHeightPx: int, gridSpacingPx: int): (c: Config)
    ensures !c.isMultiSelect && c.dismissOnSelect && c.showOverSelectMessage
    ensures c.showCameraTile && c.showGalleryTile
    ensures c.maximumDisplayingImages == IntMaxValue && c.maximumMultiSelectCount == IntMaxValue
    ensures c.minimumMultiSelectCount == 1 && c.spanCount == 3
    ensures c.peekHeight == peekHeightPx && c.gridSpacing == gridSpacingPx
  {
    Config(false, true, IntMaxValue, 1, IntMaxValue, true, true, peekHeightPx, 3, gridSpacingPx, true)
  }

  /** What the Builder's argument checks guarantee about every bundle it builds. */
  ghost predicate ArgumentsValid(c: Config)
  {
    && c.minimumMultiSelectCount >= 1
    && c.maximumMultiSelectCount >= 0
    && c.gridSpacing >= 0
    && c.peekHeight >= 0
    && c.spanCount >= 0
  }

  /** The values other than the two tile flags agree. */
  ghost predicate SameExceptTiles(c: Config, d: Config)
  {
    c == d.(showCameraTile := c.showCameraTile, showGalleryTile := c.showGalleryTile)
  }

  /**
   * loadConfigFromBuilder: every value is read from the bundle, except that in
   * multi-select mode the camera and gallery tiles are forced off whatever the
   * bundle says. Without a bundle (the read fails and the exception is
   * swallowed) the current values stay.
   */
  function LoadConfig(current: Config, arguments: Option<Config>): (c: Config)
    ensures arguments.None? ==> c == current
    ensures arguments.Some? ==> SameExceptTiles(c, arguments.value)
    ensures arguments.Some? && c.isMultiSelect ==> !c.showCameraTile && !c.showGalleryTile
    ensures arguments.Some? && !c.isMultiSelect ==>
              c.showCameraTile == arguments.value.showCameraTile &&
              c.showGalleryTile == arguments.value.showGalleryTile
  {
    match arguments
    case None => current
    case Some(a) =>
      if a.isMultiSelect then a.(showCameraTile := false, showGalleryTile := false)
      else a
  }

  /** Loading keeps the guarantees of the Builder. */
  lemma LoadConfigKeepsValidity(current: Config, arguments: Option<Config>)
    requires ArgumentsValid(current)
    requires arguments.Some? ==> ArgumentsValid(arguments.value)
    ensures ArgumentsValid(LoadConfig(current, arguments))
  {
  }

  /** Result of a validating setter: Kotlin's require throws IllegalArgumentException with a message. */
  datatype SetResult = Accepted | IllegalArgument(message: string)

  class Builder {
    var settings: Config

    ghost predicate Valid()
      reads this
    {
      ArgumentsValid(settings)
    }

    constructor (peekHeightPx: int, gridSpacingPx: int)
      requires peekHeightPx >= 0 && gridSpacingPx >= 0
      ensures Valid() && settings == DefaultConfig(peekHeightPx, gridSpacingPx)
    {
      settings := DefaultConfig(peekHeightPx, gridSpacingPx);
    }

    method IsMultiSelect()
      requires Valid()
      modifies this
      ensures Valid() && settings == old(settings).(isMultiSelect := true)
    {
      settings := settings.(isMultiSelect := true);
    }

    method DismissOnSelect(dismiss: bool)
      requires Valid()
      modifies this
      ensures Valid() && settings == old(settings).(dismissOnSelect := dismiss)
    {
      settings := settings.(dismissOnSelect := dismiss);
    }

    /** Not checked: any value, negative ones included, is stored. */
    method SetMaximumDisplayingImages(maximumDisplayingImages: int)
      requires Valid()
      modifies this
      ensures Valid() && settings == old(settings).(maximumDisplayingImages := maximumDisplayingImages)
    {
      settings := settings.(maximumDisplayingImages := maximumDisplayingImages);
    }

    /** Rejects values below 1. */
    method SetMinimumMultiSelectCount(minimumMultiSelectCount: int) returns (r: SetResult)
      requires Valid()
      modifies this
      ensures Valid()
      ensures r == Accepted <==> minimumMultiSelectCount >= 1
      ensures r == Accepted ==> settings == old(settings).(minimumMultiSelectCount := minimumMultiSelectCount)
      ensures r != Accepted ==>
                settings == old(settings) && r == IllegalArgument("Minimum Multi Select Count must be >= 1")
    {
      if !(minimumMultiSelectCount > 0) {
        return IllegalArgument("Minimum Multi Select Count must be >= 1");
      }
      settings := settings.(minimumMultiSelectCount := minimumMultiSelectCount);
      r := Accepted;
    }

    /** Rejects negative values but accepts 0 (its message says "> 0"). */
    method SetMaximumMultiSelectCount(maximumMultiSelectCount: int) returns (r: SetResult)
      requires Valid()
      modifies this
      ensures Valid()
      ensures r == Accepted <==> maximumMultiSelectCount >= 0
      ensures r == Accepted ==> settings == old(settings).(maximumMultiSelectCount := maximumMultiSelectCount)
      ensures r != Accepted ==>
                settings == old(settings) && r == IllegalArgument("Maximum Multi Select Count must be > 0")
    {
      if !(maximumMultiSelectCount >= 0) {
        return IllegalArgument("Maximum Multi Select Count must be > 0");
      }
      settings := settings.(maximumMultiSelectCount := maximumMultiSelectCount);
      r := Accepted;
    }

    method SetGridSpacing(gridSpacing: int) returns (r: SetResult)
      requires Valid()
      modifies this
      ensures Valid()
      ensures r == Accepted <==> gridSpacing >= 0
      ensures r == Accepted ==> settings == old(settings).(gridSpacing := gridSpacing)
      ensures r != Accepted ==> settings == old(settings) && r == IllegalArgument("Grid spacing must be >= 0")
    {
      if !(gridSpacing >= 0) {
        return IllegalArgument("Grid spacing must be >= 0");
      }
      settings := settings.(gridSpacing := gridSpacing);
      r := Accepted;
    }

    method SetPeekHeight(peekHeight: int) returns (r: SetResult)
      requires Valid()
      modifies this
      ensures Valid()
      ensures r == Accepted <==> peekHeight >= 0
      ensures r == Accepted ==> settings == old(settings).(peekHeight := peekHeight)
      ensures r != Accepted ==> settings == old(settings) && r == IllegalArgument("Peek Height must be >= 0")
    {
      if !(peekHeight >= 0) {
        return IllegalArgument("Peek Height must be >= 0");
      }
      settings := settings.(peekHeight := peekHeight);
      r := Accepted;
    }

    /** Rejects negative values but accepts 0 (its message says "> 0"). */
    method SetSpanCount(spanCount: int) returns (r: SetResult)
      requires Valid()
      modifies this
      ensures Valid()
      ensures r == Accepted <==> spanCount >= 0
      ensures r == Accepted ==> settings == old(settings).(spanCount := spanCount)
      ensures r != Accepted ==> settings == old(settings) && r == IllegalArgument("Span Count must be > 0")
    {
      if !(spanCount >= 0) {
        return IllegalArgument("Span Count must be > 0");
      }
      settings := settings.(spanCount := spanCount);
      r := Accepted;
    }

    method HideCameraTile()
      requires Valid()
      modifies this
      ensures Valid() && settings == old(settings).(showCameraTile := false)
    {
      settings := settings.(showCameraTile := false);
    }

    method HideGalleryTile()
      requires Valid()
      modifies this
      ensures Valid() && settings == old(settings).(showGalleryTile := false)
    {
      settings := settings.(showGalleryTile := false);
    }

    method DisableOverSelectionMessage()
      requires Valid()
      modifies this
      ensures Valid() && settings == old(settings).(showOverSelectMessage := false)
    {
      settings := settings.(showOverSelectMessage := false);
    }

    /** The argument bundle handed to the new fragment. */
    method Build() returns (arguments: Config)
      requires Valid()
      ensures arguments == settings
      ensures ArgumentsValid(arguments)
    {
      arguments := settings;
    }
  }
}
