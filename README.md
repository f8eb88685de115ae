# BSImagePicker selection core in Dafny

A Dafny model of the selection logic of BSImagePicker, an Android bottom-sheet image picker.

The centre is `ImageTileAdapter`, the grid adapter. It owns:

- the list of image URIs;
- the ordered multi-select selection;
- the selection maximum;
- the number of leading pseudo-tiles (camera, gallery).

It decides which kind of tile sits at each position. A tap on an image tile either hands the image on (single-select) or toggles it in or out of the selection (multi-select). A tap that would go past the maximum is rejected and reported instead.

Around the adapter, `BSImagePicker` contributes:

- the Builder's argument checks;
- the rule that multi-select mode hides the camera and gallery tiles;
- the loop that caps how many loaded images are shown;
- the empty-view condition;
- the bottom bar's "not enough / enough" message and its Done button.

Files and modules:

- `common.dfy` (`Common`): an `Option` type and Kotlin's `Int.MAX_VALUE`.
- `tile_layout.dfy` (`TileLayout`): `init`, `getItemCount` and `getItemViewType` as pure functions of the mode, the two tile flags and the list size. Also the lemmas that image tiles and list indices correspond one to one.
- `selection.dfy` (`Selection`): the multi-select tap as a function on value sequences. `RemoveFirst` is `ArrayList.remove(Object)`. Lemmas cover duplicates, the bound, double taps and the quirks of the `==` guard.
- `image_tile_adapter.dfy` (`ImageTiles`): the class `ImageTileAdapter`. Its fields are the ones the source mutates, and its methods are proved against `Selection` and `TileLayout`. Two client methods replay the scenarios "multi-select, maximum 2, [a, b, c]" and "single-select with both pseudo-tiles, [x, y]".
- `picker_config.dfy` (`PickerConfig`): the argument bundle, `loadConfigFromBuilder` and the class `Builder` with its validating setters.
- `picker_rules.dfy` (`PickerRules`): the capping loop of `onLoadFinished`, the empty-view condition, and the bottom-bar messages of `updateSelectCount`, `setupBottomBar` and `showOverSelectMessage`.
- `picker.dfy` (`Picker`): the class `BSImagePicker`. It holds the configuration, the adapter, the bottom bar and the empty view. Its invariant is that while the bottom bar exists, Done is enabled exactly when the selection has reached the minimum. So the multi-select result handed to the caller always has at least the minimum number of images.

Behaviour kept as the code has it:

- The over-selection guard compares with `==`, so a restored selection larger than the maximum keeps growing (`Selection.OversizedSelectionKeepsGrowing`).
- `setSelectedFiles` checks nothing.
- `VIEW_TYPE_DUMMY` is never produced.
- `setMaximumMultiSelectCount` and `setSpanCount` accept 0, although their messages say "> 0".
- With a maximum of 0, the empty selection rejects every tap.
- Nothing compares the minimum with the maximum (`Picker.BSImagePicker.DoneUnreachableAboveMaximum`).

On double taps: tapping an image twice restores the selection exactly when the image was unselected, whatever the selection and the maximum (`Selection.ToggleTwiceFromUnselected`). When it was selected, the second tap re-appends it at the end. On a duplicate-free selection within the maximum, the selection then comes back as a multiset, not as a sequence (`Selection.ToggleTwice`). A restored selection above the maximum does not come back at all: with maximum 1, [a, b] becomes [b] after the first tap on a, and the second tap is rejected (`Selection.OversizedSelectionLosesDoubleTap`).

## Model

| member | source | states |
|---|---|---|
| `TileLayout.ViewTypeCode` | bsimagepicker/src/main/java/com/asksira/bsimagepicker/ImageTileAdapter.kt:210-216 | each tile kind has its own constant between 101 and 105 |
| `TileLayout.ViewTypeCodesDistinct` | bsimagepicker/src/main/java/com/asksira/bsimagepicker/ImageTileAdapter.kt:46-70 | distinct tile kinds have distinct constants, so the view-holder dispatch can recover the kind |
| `TileLayout.NonListItemCount` | bsimagepicker/src/main/java/com/asksira/bsimagepicker/ImageTileAdapter.kt:218-230 | 0 leading pseudo-tiles in multi-select mode; in single-select mode, one for each of the camera and gallery tiles that is shown |
| `TileLayout.ItemCount` | bsimagepicker/src/main/java/com/asksira/bsimagepicker/ImageTileAdapter.kt:77-83 | tile count = leading pseudo-tiles + list size + 1 spacer in multi-select mode (so `nonListItemCount + size` single, `size + 1` multi) |
| `TileLayout.ViewTypeAt` | bsimagepicker/src/main/java/com/asksira/bsimagepicker/ImageTileAdapter.kt:85-106 | never Dummy; BottomSpace exactly at the last position in multi-select mode; an in-range Image position always maps to a valid list index |
| `TileLayout.SingleSelectLeadingTiles` | bsimagepicker/src/main/java/com/asksira/bsimagepicker/ImageTileAdapter.kt:86-101 | single-select: a position is non-Image exactly when it is below the pseudo-tile count; camera first, gallery second when both are shown |
| `TileLayout.MultiSelectTiles` | bsimagepicker/src/main/java/com/asksira/bsimagepicker/ImageTileAdapter.kt:102-105 | multi-select: size + 1 tiles, Image everywhere except BottomSpace at position size; an empty list gives one BottomSpace tile |
| `TileLayout.ImageTileOfEveryElement` | bsimagepicker/src/main/java/com/asksira/bsimagepicker/ImageTileAdapter.kt:171-172 | every list element has an in-range Image tile at index + nonListItemCount |
| `TileLayout.ImageTilesAreExactlyTheList` | bsimagepicker/src/main/java/com/asksira/bsimagepicker/ImageTileAdapter.kt:171-172 | an in-range position is an Image tile if and only if position − nonListItemCount indexes the list |
| `Selection.RemoveFirst` | bsimagepicker/src/main/java/com/asksira/bsimagepicker/ImageTileAdapter.kt:186 | removal leaves an absent item's list unchanged, shortens by one otherwise, and removes exactly one copy of the item from the multiset |
| `Selection.RemoveFirstOccurrence` | bsimagepicker/src/main/java/com/asksira/bsimagepicker/ImageTileAdapter.kt:186 | removal deletes the first occurrence and keeps the other items in order |
| `Selection.RemoveFirstKeepsNoDuplicates` | bsimagepicker/src/main/java/com/asksira/bsimagepicker/ImageTileAdapter.kt:186 | removal keeps a duplicate-free selection duplicate-free |
| `Selection.Toggle` | bsimagepicker/src/main/java/com/asksira/bsimagepicker/ImageTileAdapter.kt:184-196 | a selected item is removed (size −1, one copy fewer); an unselected item is appended at the end unless the size equals the maximum, in which case the selection is unchanged |
| `Selection.ToggleKeepsNoDuplicates` | bsimagepicker/src/main/java/com/asksira/bsimagepicker/ImageTileAdapter.kt:185-195 | a tap keeps the selection duplicate-free |
| `Selection.ToggleKeepsBound` | bsimagepicker/src/main/java/com/asksira/bsimagepicker/ImageTileAdapter.kt:188-195 | a tap keeps a selection within the maximum within it |
| `Selection.ToggleMembership` | bsimagepicker/src/main/java/com/asksira/bsimagepicker/ImageTileAdapter.kt:184-196 | on a duplicate-free selection, the tapped item is selected afterwards exactly when it was unselected and accepted; every other item keeps its membership |
| `Selection.ToggleTwice` | bsimagepicker/src/main/java/com/asksira/bsimagepicker/ImageTileAdapter.kt:183-200 | on a duplicate-free selection within the maximum, two taps on one item restore the selection's multiset, and the exact sequence when the item started unselected |
| `Selection.ToggleTwiceFromUnselected` | bsimagepicker/src/main/java/com/asksira/bsimagepicker/ImageTileAdapter.kt:183-200 | for any selection and any maximum, two taps on an unselected item give back exactly the original selection |
| `Selection.OversizedSelectionKeepsGrowing` | bsimagepicker/src/main/java/com/asksira/bsimagepicker/ImageTileAdapter.kt:189 | the `==` guard lets a selection larger than the maximum keep accepting new items |
| `Selection.OversizedSelectionLosesDoubleTap` | bsimagepicker/src/main/java/com/asksira/bsimagepicker/ImageTileAdapter.kt:185-191 | with maximum 1, the restored selection [a, b] becomes [b] after one tap on a, and stays [b] after a second tap, which is rejected |
| `Selection.ZeroMaximumRejectsEveryAdd` | bsimagepicker/src/main/java/com/asksira/bsimagepicker/ImageTileAdapter.kt:189-191 | with maximum 0 the empty selection rejects a tap and stays empty |
| `Selection.MaximumTwoScenario` | bsimagepicker/src/main/java/com/asksira/bsimagepicker/ImageTileAdapter.kt:183-200 | maximum 2: select a → [a], select b → [a, b], c rejected, deselect a → [b] |
| `ImageTiles.ImageTileAdapter.constructor` | bsimagepicker/src/main/java/com/asksira/bsimagepicker/ImageTileAdapter.kt:16-28 | empty list and selection, maximum Int.MAX_VALUE, pseudo-tile count fixed from mode and flags |
| `ImageTiles.ImageTileAdapter.GetSelectedFiles` | bsimagepicker/src/main/java/com/asksira/bsimagepicker/ImageTileAdapter.kt:44 | returns the selection in selection order |
| `ImageTiles.ImageTileAdapter.SetSelectedFiles` | bsimagepicker/src/main/java/com/asksira/bsimagepicker/ImageTileAdapter.kt:108-112 | replaces the selection with no check against the maximum and reports its size; list and maximum unchanged |
| `ImageTiles.ImageTileAdapter.SetImageList` | bsimagepicker/src/main/java/com/asksira/bsimagepicker/ImageTileAdapter.kt:114-117 | replaces the list wholesale; selection and maximum unchanged |
| `ImageTiles.ImageTileAdapter.SetMaximumSelectionCount` | bsimagepicker/src/main/java/com/asksira/bsimagepicker/ImageTileAdapter.kt:135-137 | stores any maximum; list and selection unchanged |
| `ImageTiles.ImageTileAdapter.Bind` | bsimagepicker/src/main/java/com/asksira/bsimagepicker/ImageTileAdapter.kt:171-177 | an Image tile shows the list element at position − nonListItemCount, and is marked exactly when that element is selected |
| `ImageTiles.ImageTileAdapter.OnImageTileClick` | bsimagepicker/src/main/java/com/asksira/bsimagepicker/ImageTileAdapter.kt:179-200 | single-select: the tile's image is passed on and the selection is untouched; multi-select: the selection becomes `Toggle` of the old one, and the listeners get the new count, or only the over-select call when rejected |
| `ImageTiles.ImageTileAdapter.GetItemCount` | bsimagepicker/src/main/java/com/asksira/bsimagepicker/ImageTileAdapter.kt:77-83 | the leading pseudo-tiles, one tile per image, and one bottom spacer in multi-select mode |
| `ImageTiles.ImageTileAdapter.GetItemViewType` | bsimagepicker/src/main/java/com/asksira/bsimagepicker/ImageTileAdapter.kt:85-106 | no position yields the Dummy kind; an in-range Image tile's position, less the leading pseudo-tiles, indexes the image list |
| `Selection.ToggleOutcome` | bsimagepicker/src/main/java/com/asksira/bsimagepicker/ImageTileAdapter.kt:185-191 | a tap deselects exactly when the image is already selected; it is rejected exactly when the image is unselected and the selection size equals the maximum (never when the size is below or above it) |
| `PickerConfig.DefaultConfig` | bsimagepicker/src/main/java/com/asksira/bsimagepicker/BSImagePicker.kt:562-578 | defaults: single-select, dismiss on select, both tiles shown, caps Int.MAX_VALUE, minimum 1, span 3 |
| `PickerConfig.LoadConfig` | bsimagepicker/src/main/java/com/asksira/bsimagepicker/BSImagePicker.kt:367-395 | every value comes from the bundle, except that multi-select forces both tiles off; single-select keeps the bundle's flags; no bundle keeps the current values |
| `PickerConfig.LoadConfigKeepsValidity` | bsimagepicker/src/main/java/com/asksira/bsimagepicker/BSImagePicker.kt:367-395 | loading a Builder bundle keeps the Builder's guarantees |
| `PickerConfig.Builder.constructor` | bsimagepicker/src/main/java/com/asksira/bsimagepicker/BSImagePicker.kt:560-578 | starts from the defaults, which satisfy the argument checks |
| `PickerConfig.Builder.IsMultiSelect` | bsimagepicker/src/main/java/com/asksira/bsimagepicker/BSImagePicker.kt:580-583 | sets multi-select and nothing else |
| `PickerConfig.Builder.DismissOnSelect` | bsimagepicker/src/main/java/com/asksira/bsimagepicker/BSImagePicker.kt:585-588 | stores the flag and nothing else |
| `PickerConfig.Builder.SetMaximumDisplayingImages` | bsimagepicker/src/main/java/com/asksira/bsimagepicker/BSImagePicker.kt:590-593 | stores any value, unchecked |
| `PickerConfig.Builder.SetMinimumMultiSelectCount` | bsimagepicker/src/main/java/com/asksira/bsimagepicker/BSImagePicker.kt:595-599 | accepted exactly when the value is ≥ 1, then stored; otherwise an IllegalArgument result and no change |
| `PickerConfig.Builder.SetMaximumMultiSelectCount` | bsimagepicker/src/main/java/com/asksira/bsimagepicker/BSImagePicker.kt:601-605 | accepted exactly when the value is ≥ 0 (0 included), then stored; otherwise an IllegalArgument result and no change |
| `PickerConfig.Builder.SetGridSpacing` | bsimagepicker/src/main/java/com/asksira/bsimagepicker/BSImagePicker.kt:607-611 | accepted and stored exactly when ≥ 0; otherwise an IllegalArgument result and no change |
| `PickerConfig.Builder.SetPeekHeight` | bsimagepicker/src/main/java/com/asksira/bsimagepicker/BSImagePicker.kt:638-642 | accepted and stored exactly when ≥ 0; otherwise an IllegalArgument result and no change |
| `PickerConfig.Builder.HideCameraTile` | bsimagepicker/src/main/java/com/asksira/bsimagepicker/BSImagePicker.kt:644-647 | turns the camera tile off and nothing else |
| `PickerConfig.Builder.HideGalleryTile` | bsimagepicker/src/main/java/com/asksira/bsimagepicker/BSImagePicker.kt:649-652 | turns the gallery tile off and nothing else |
| `PickerConfig.Builder.DisableOverSelectionMessage` | bsimagepicker/src/main/java/com/asksira/bsimagepicker/BSImagePicker.kt:654-657 | turns the over-select message off and nothing else |
| `PickerConfig.Builder.SetSpanCount` | bsimagepicker/src/main/java/com/asksira/bsimagepicker/BSImagePicker.kt:659-663 | accepted and stored exactly when ≥ 0 (0 included); otherwise an IllegalArgument result and no change |
| `PickerConfig.Builder.Build` | bsimagepicker/src/main/java/com/asksira/bsimagepicker/BSImagePicker.kt:670-693 | the bundle carries the Builder's values and satisfies every argument check |
| `PickerRules.DisplayCount` | bsimagepicker/src/main/java/com/asksira/bsimagepicker/BSImagePicker.kt:340 | never more than the rows, and never more than a non-negative cap; fewer than the rows only when the cap is reached (0 for a non-positive cap) |
| `PickerRules.EmptyViewVisible` | bsimagepicker/src/main/java/com/asksira/bsimagepicker/BSImagePicker.kt:349 | the empty-view message shows exactly when the single-select grid of the loaded images and enabled pseudo-tiles would have no tiles at all |
| `PickerRules.LoadImageList` | bsimagepicker/src/main/java/com/asksira/bsimagepicker/BSImagePicker.kt:336-347 | the list handed to the adapter is the first min(rows, cap) rows in cursor order |
| `PickerRules.EmptyViewExactlyWhenNoTiles` | bsimagepicker/src/main/java/com/asksira/bsimagepicker/BSImagePicker.kt:349-359 | the empty view is shown exactly when the grid has no tappable tile: none at all in single-select, only the spacer in multi-select |
| `PickerRules.SelectCountBar` | bsimagepicker/src/main/java/com/asksira/bsimagepicker/BSImagePicker.kt:537-545 | Done enabled iff count ≥ minimum; below it a "not enough" message reporting minimum − count, otherwise an "enough" message reporting count; singular exactly when the number is 1 |
| `PickerRules.InitialBar` | bsimagepicker/src/main/java/com/asksira/bsimagepicker/BSImagePicker.kt:462-474 | Done starts disabled with a "not enough" message reporting the minimum, singular exactly when it is 1 |
| `PickerRules.InitialBarIsEmptySelectionBar` | bsimagepicker/src/main/java/com/asksira/bsimagepicker/BSImagePicker.kt:462-474 | for every minimum ≥ 1 the initial bar equals the bar for a count of 0 |
| `PickerRules.OverSelectBar` | bsimagepicker/src/main/java/com/asksira/bsimagepicker/BSImagePicker.kt:549-554 | the over-select message reports the maximum and leaves Done as it was |
| `Picker.BSImagePicker.constructor` | bsimagepicker/src/main/java/com/asksira/bsimagepicker/BSImagePicker.kt:238-249 | the configuration is the loaded bundle; the adapter mirrors it; the restored selection is taken as is; in multi-select the bar matches the selection size, and Done is enabled iff the size reaches the minimum; the empty view starts hidden and the bottom bar starts visible exactly in multi-select |
| `Picker.BSImagePicker.UpdateSelectCount` | bsimagepicker/src/main/java/com/asksira/bsimagepicker/BSImagePicker.kt:533-547 | once the bar exists it shows `SelectCountBar` of the new count; before that nothing changes |
| `Picker.BSImagePicker.ShowOverSelectMessage` | bsimagepicker/src/main/java/com/asksira/bsimagepicker/BSImagePicker.kt:549-554 | once the bar exists it shows the over-select message; Done is unchanged |
| `Picker.BSImagePicker.OnLoadFinished` | bsimagepicker/src/main/java/com/asksira/bsimagepicker/BSImagePicker.kt:336-361 | the adapter receives the capped rows; the empty view follows the empty-view rule and an existing bottom bar shows exactly when it does not; the selection is kept; a null cursor changes nothing |
| `Picker.BSImagePicker.OnLoaderReset` | bsimagepicker/src/main/java/com/asksira/bsimagepicker/BSImagePicker.kt:363-365 | the adapter's list becomes empty and the selection is kept |
| `Picker.BSImagePicker.OnImageTileTap` | bsimagepicker/src/main/java/com/asksira/bsimagepicker/BSImagePicker.kt:432-449 | single-select: the tile's image is handed to the caller and dismissal follows the flag; multi-select: the selection is toggled, and the bar follows the new count or shows the over-select message if enabled; the invariant "Done iff count ≥ minimum" is kept; the image list and the visibility of the bottom bar and the empty view are unchanged, and without a bottom bar the bar state is unchanged |
| `Picker.BSImagePicker.DoneUnreachableAboveMaximum` | bsimagepicker/src/main/java/com/asksira/bsimagepicker/BSImagePicker.kt:595-605 | the minimum is never checked against the maximum, so in a picker whose minimum exceeds its maximum, a selection within the maximum leaves Done disabled |
| `Picker.BSImagePicker.OnDoneClick` | bsimagepicker/src/main/java/com/asksira/bsimagepicker/BSImagePicker.kt:469-474 | the caller receives the selection, which holds at least the minimum number of images |

## Left out

- Fragment and dialog lifecycle: `onAttach`, `onCreateView`, `onCreateDialog`, `onCancel`, `onSaveInstanceState`, the bottom-sheet callbacks and the discovery of listeners by runtime type checks. These are Android framework glue. The constructor of `BSImagePicker` stands for the steps of `onCreate`, `setupRecyclerView` and `onActivityCreated` that set up the state.
- A listener the caller did not register is not modelled: every notification reaches its listener. The guards on a detached fragment (`context == null`) are left out too: `updateSelectCount` returning early (BSImagePicker.kt:534) and `showOverSelectMessage` doing nothing (BSImagePicker.kt:550).
- Permission flows, camera and gallery intents, `launchCamera`, `createImageFile`, `notifyGallery`, `onActivityResult` and the camera/gallery tile click handlers. These are platform calls, the clock and the file system.
- The media query and `Uri.withAppendedPath`. The cursor is a sequence of the URIs its rows yield, and `moveToPosition(-1)` has no effect on the model.
- View inflation, view visibility and alpha, colours, `imageLoaderDelegate.loadImage`, and RecyclerView's `notifyDataSetChanged`. Only the `notifyItemChanged` position is kept (in `SelectionChanged`). Strings become message kinds with their number. Done's alpha of 0.4 or 1 simply follows `doneEnabled`.
- `Utils.dp2px`, the slide alpha and `FitWidthImageView`. These are floating-point measurement code. The pixel defaults for peek height and grid spacing are constructor parameters.
- The Builder's colour setters, `setTag`, `useFrontCamera` and the provider authority. These only store values that no modelled decision reads.
- `MainActivity.java`, a demo activity with no library logic.
- The aliasing between the adapter's `selectedFiles` and the caller's list. Selections are value sequences.
- Kotlin's 32-bit `Int` range. Counts and positions are unbounded integers; only `Int.MAX_VALUE` appears, as the default caps.
- The initial visibility of the empty view comes from a layout resource. The model starts it hidden.
- Picker.BSImagePicker.constructor: requires that a bundle's minimum is at least 1. The fragment itself reads any bundle, but bundles only come from `Builder.Build`, which guarantees this.
- PickerConfig.Builder.constructor: requires the pixel defaults to be non-negative. They are the pixel sizes of 360dp and 2dp, which cannot be negative.
