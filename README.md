# igv.js track core, modelled in Dafny

This project models the track-level UI logic of igv.js, a genome browser:

- how a track's configuration object is normalised into track properties (`igv.configTrack`);
- the label and colour setters;
- the range axis painted beside range-scaled tracks (`igv.paintAxis` and its `prettyPrint`);
- the track "gear" menu (`igv.trackMenuItemList`, its broken twin `igv.BROKEN_trackMenuItemList`, `igv.trackMenuItem`), together with the commit handlers of its name, height and remove dialogs;
- the right-click popup list (`igv.trackPopupMenuItemList`);
- the `DataRangeDialog` class, which edits a track view's data range.

JavaScript values are modelled explicitly, in `js_values.dfy` and `js_numbers.dfy`:

- Configuration properties are `JsVal`s: undefined, null, booleans, numbers, strings and objects.
- `||` and `if (x)` follow JavaScript truthiness.
- A number is a `JsNumber`: a finite real, ±Infinity or NaN. The relational operators and `Math.min` and `Math.max` treat NaN as JavaScript does.
- `Number(string)` follows the StringToNumber grammar of section 7.1.4.1.1 of ECMA-262. `parseFloat` follows section 19.2.4 of ECMA-262. Both are scanners over the characters, in `numeric_strings.dfy`.

Objects whose fields the source updates in place are Dafny classes: the configuration, the track and the dialog. Each class has a `State()` snapshot. Each method is proved to leave `State()` equal to a pure specification function of the old state, and the properties are proved as lemmas about those functions.

Everything outside the modelled logic is recorded as an abstract event on the track:

- the view's `repaint`, `update` and `setTrackHeight`;
- `popover.hide`;
- the browser's `removeTrack`.

Drawing is a trace of draw commands.

## Model

| member | source | states |
|---|---|---|
| TrackConfiguration.Normalize | js/trackCore.js:37-72 | The name precedence is name, then label, then `localFile.name`, then url. `id` defaults to the name. `color` defaults to the default colour. `removable` is true only when undefined. `height` falls back to 50 for `'wig'` and 100 otherwise. The legacy `autoheight` key is read only when `autoHeight` is undefined. `visibilityWindow` is copied only when truthy. `type` is kept when the track already has one. A truthy `minHeight` or `maxHeight` is taken as given. The configuration object itself changes only in `name` and `autoHeight`. |
| TrackConfiguration.DefaultBounds | js/trackCore.js:64-65 | Without truthy explicit bounds, minHeight is the smaller of 50 and the height and maxHeight the larger of 500 and the height; a NaN height gives NaN bounds. |
| TrackConfiguration.HeightsBracketed | js/trackCore.js:59-65 | With no explicit minHeight or maxHeight and a height that converts to a number, `minHeight <= height <= maxHeight`, `minHeight <= 50` and `maxHeight >= 500`. |
| TrackConfiguration.AutoHeightFollowsHeightKey | js/trackCore.js:61-63 | With neither autoHeight key, autoHeight is true exactly when the config has no `height` key. |
| TrackConfiguration.ZeroHeightFallsBack | js/trackCore.js:59-65 | `height: 0` gives height 100 with autoHeight false and bounds 50 and 500. |
| TrackConfiguration.ConfigTrack | js/trackCore.js:37-72 | Sets `track.config` and leaves both objects exactly as `Normalize` says. |
| TrackConfiguration.ConfigTrackName | js/trackCore.js:39-52 | The config link, url, the coalesced config name, the track name and id. |
| TrackConfiguration.ConfigTrackAppearance | js/trackCore.js:54-57 | Order, colour with its default, and removable with its default. |
| TrackConfiguration.ConfigTrackHeights | js/trackCore.js:59-65 | Height, the legacy autoheight write-back, autoHeight, minHeight and maxHeight. |
| TrackConfiguration.ConfigTrackExtent | js/trackCore.js:67-71 | visibilityWindow only when truthy, and type only when the track has none. |
| TrackConfiguration.SetTrackLabel | js/trackCore.js:74-85 | The name is replaced and the view repainted. Nothing else changes. |
| TrackConfiguration.SetTrackColor | js/trackCore.js:87-97 | The colour is replaced. The view, if any, is repainted. |
| Axis.PrettyPrint | js/trackCore.js:146-160 | Gives the literal "0" exactly for 0. Otherwise gives `toFixed(k)` of the value with k at most 2. |
| Axis.DecimalsByMagnitude | js/trackCore.js:146-160 | For finite nonzero x: no decimals when abs(x) is at least 10, one when it is at least 1, two below 1. |
| Axis.NonFiniteFormats | js/trackCore.js:146-160 | NaN takes two decimals. ±Infinity take none. |
| Axis.DecimalsNonIncreasing | js/trackCore.js:146-160 | A larger magnitude never gets more decimals. |
| Axis.PrettyPrintExamples | js/trackCore.js:146-160 | 0 gives "0". 15.2 gets 0 decimals, 3.456 gets 1, and 0.456 and -0.004 get 2. |
| Axis.PaintAxis | js/trackCore.js:99-144 | Draws nothing exactly when `dataRange`, its `max` or its `min` is undefined. Otherwise it issues six calls. |
| Axis.AxisShape | js/trackCore.js:119-142 | The calls are: a white fill of the surface, the top tick, the max label, the bottom tick, the min label, then the line joining the ticks' right ends. That is three strokes and two texts. |
| Axis.AxisGeometry | js/trackCore.js:121-136 | The ticks are 8 pixels long and end at 95% of the width. They sit at 1% and 99% of the height. The axis line is vertical and runs between the two insets, at an x inside a surface of nonnegative width. The ticks start inside the surface once it is at least 160/19 wide. |
| Axis.AxisExample | js/trackCore.js:99-144 | The exact trace for range 0.456 to 15.2 on a 200×100 surface. |
| GearMenu.TrackMenuItem | js/trackCore.js:421-451 | A fresh entry with the given text and action, and no init. It has the top border only for a strict `true`. |
| GearMenu.TrackMenuItemList | js/trackCore.js:199-309 | The built list equals `Menu` for the track's name, height, removable flag and contributed items. |
| GearMenu.BrokenTrackMenuItemList | js/trackCore.js:311-409 | The built list equals `Menu` with no contributions, whatever the hook returns. |
| GearMenu.MenuEntryAt | js/trackCore.js:204-306 | The entry at every position, and the length `2 + n + (removable !== false ? 1 : 0)`. |
| GearMenu.MenuLayout | js/trackCore.js:204-306 | The order is name, height, the contributed items in order with their click and init carried over, then "Remove track". |
| GearMenu.MenuBorders | js/trackCore.js:255-270 | When no prebuilt element arrives bordered, the top border is exactly on the first contributed entry and on the remove entry. |
| GearMenu.StaleBorderPersists | js/trackCore.js:264-270 | A prebuilt element that is already bordered stays bordered at any position. |
| GearMenu.BrokenMenuHasNoContributions | js/trackCore.js:392 | The broken list is the list of a track without contributions. It is shorter than the working list by the number of items. |
| GearMenu.HeightCommitted | js/trackCore.js:229-240 | autoHeight becomes false. maxHeight is unchanged. minHeight becomes the number when it is below minHeight or above maxHeight. NaN changes neither bound. |
| GearMenu.HeightAboveMaximumRaisesMinimum | js/trackCore.js:236-238 | A height above both bounds leaves minHeight above maxHeight. |
| GearMenu.BlankHeightTurnsOffAutoHeight | js/trackCore.js:229-240 | Blank input parses to NaN. It keeps both bounds but still turns autoHeight off. |
| GearMenu.WigTrackResized | js/trackCore.js:59-65 | A `'wig'` track without a height gets height 50, bounds 50 and 500, and autoHeight on. Committing "30" then gives minHeight 30 and autoHeight off. |
| GearMenu.CommitTrackName | js/trackCore.js:204-223 | The track is renamed to the sanitised input, then repainted, then updated. |
| GearMenu.CommitTrackHeight | js/trackCore.js:225-244 | The track becomes `HeightCommitted` of `parseFloat(input)`, and `setTrackHeight` is sent. |
| GearMenu.ConfirmRemoveTrack | js/trackCore.js:301-304 | The popover is hidden, then the track removal is requested. The track is unchanged. |
| GearMenu.TrackPopupMenuItemList | js/trackCore.js:172-192 | Gives the hook's list for the request built from its arguments, or undefined when the track has no hook. |
| TrackNames.ParseAlphanumeric | js/trackCore.js:215-221 | The result is never empty and contains only `[a-zA-Z0-9 ]`. |
| TrackNames.LetterAheadIsLookahead | js/trackCore.js:217 | The recursive look-ahead is the same as the regular expression's `(?=.*[a-zA-Z].*)`. |
| TrackNames.FirstMatchIsLeftmost | js/trackCore.js:217-218 | The scan finds the leftmost position where the expression matches, or proves there is none. |
| TrackNames.ParseAlphanumericMatches | js/trackCore.js:215-221 | No match gives "untitled". Otherwise the result is the maximal name-character run at the leftmost match. |
| TrackNames.RunWithoutLetter | js/trackCore.js:217 | "12-ab" gives "12": the run itself need not hold a letter. |
| TrackNames.LookaheadStopsAtLineBreak | js/trackCore.js:217 | "1\nab" gives "ab". |
| TrackNames.FallbackIsAmbiguous | js/trackCore.js:220 | "--" and "untitled" both give "untitled". |
| NumericStringFacts.BlankStrings | js/ui/dataRangeDialog.js:112-113 | An empty or whitespace-only string converts to 0 under `Number`. `parseFloat` gives NaN for it. |
| NumericStringFacts.DigitStringRoundTrip | js/trackCore.js:229 | Both conversions read every nonempty digit string, leading zeros included, as its value. |
| NumericStringFacts.DecimalStringRoundTrip | js/trackCore.js:229 | Both conversions read the decimal spelling of every natural number back as that number. |
| NumericStringFacts.NonNumericIsNaN | js/ui/dataRangeDialog.js:112-114 | Text that cannot begin a numeric literal converts to NaN. |
| NumericStringFacts.ParseFloatAgreesWithNumber | js/trackCore.js:229 | Where `Number` of a decimal string is not NaN, `parseFloat` gives the same value. |
| JsNumbers.MinIsLowerBound | js/trackCore.js:64 | `Math.min` of two non-NaN numbers is at most each of them. |
| JsNumbers.MaxIsUpperBound | js/trackCore.js:65 | `Math.max` of two non-NaN numbers is at least each of them. |
| RangeDialog.Preloaded | js/ui/dataRangeDialog.js:86-87 | null and undefined clear the input. A number is shown as itself. A string is stored as is. |
| RangeDialog.PreloadConvertsBack | js/ui/dataRangeDialog.js:86-87 | A preloaded null, number or string reads back as its own ToNumber. |
| RangeDialog.PreloadedBooleanIsNaN | js/ui/dataRangeDialog.js:86-87 | A preloaded boolean reads back as NaN, not as 0 or 1. |
| RangeDialog.Initial | js/ui/dataRangeDialog.js:7-71 | After construction the inputs are empty, the offset is (0,0) and the dialog is hidden. No handler is bound and nothing has been sent. |
| RangeDialog.ProcessOutcome | js/ui/dataRangeDialog.js:112-118 | A NaN on either side gives exactly one alert and no commit. Otherwise there is exactly one `setDataRange(min, max)` in the typed order and no alert. |
| RangeDialog.Resets | js/ui/dataRangeDialog.js:120-123 | Processing, cancelling and closing each clear both inputs, reset the offset to (0,0) and hide the dialog (lines 19-24, 60-65 and 120-123). Cancel and close send nothing. |
| RangeDialog.EmptyInputCommitsZero | js/ui/dataRangeDialog.js:112-117 | Blank inputs commit the range 0 to 0 rather than alerting. |
| RangeDialog.ConfigurePreloads | js/ui/dataRangeDialog.js:75-87 | Preloads the view's min and max, or 0 and 100. Visibility and what has been sent are unchanged. A missing bound reads back as 0. |
| RangeDialog.Bindings | js/ui/dataRangeDialog.js:89-106 | After any run, each handler list is exactly `[last configured view]`, or unchanged if nothing was configured. |
| RangeDialog.StepBindings | js/ui/dataRangeDialog.js:89-106 | Only `configure` changes the bindings, and it rebinds all three to its view. |
| RangeDialog.DispatchKeepsBindings | js/ui/dataRangeDialog.js:110-124 | Processing never changes the bindings. |
| RangeDialog.LastConfiguredOfTail | js/ui/dataRangeDialog.js:73-107 | The last configure of a run is the tail's last configure, or else the head's. |
| RangeDialog.EnterProcessesOnce | js/ui/dataRangeDialog.js:90-106 | Once configured, Enter in either input or an OK click processes exactly once, for the last configured view. Other keys do nothing. |
| RangeDialog.StepVisibility | js/ui/dataRangeDialog.js:126-133 | A step ends visible only if the dialog was visible before it or the step was `present`. |
| RangeDialog.DispatchHides | js/ui/dataRangeDialog.js:110-124 | Running any bound handler leaves the dialog hidden. |
| RangeDialog.VisibleOnlyAfterPresent | js/ui/dataRangeDialog.js:126-133 | After a run the dialog is visible only if it already was or the run contained `present`. |
| RangeDialog.HiddenUntilPresented | js/ui/dataRangeDialog.js:70 | From construction, the dialog is visible only after some `present`. |
| RangeDialog.TypeThenOk | js/ui/dataRangeDialog.js:104-106 | Typing both inputs and clicking OK processes the typed text for the bound view. |
| RangeDialog.NonNumericAlerts | js/ui/dataRangeDialog.js:112-123 | "abc" and "10" then OK give one alert, no commit, and a hidden dialog with cleared inputs. |
| RangeDialog.NumericCommits | js/ui/dataRangeDialog.js:112-117 | "5" and "10" commit 5 to 10. "10" and "5" commit 10 to 5, uncorrected. |
| RangeDialog.DataRangeDialog.constructor | js/ui/dataRangeDialog.js:7-71 | The state after construction is `Initial()`. |
| RangeDialog.DataRangeDialog.CloseHeader | js/ui/dataRangeDialog.js:19-24 | The new state is `Dismissed` of the old one. |
| RangeDialog.DataRangeDialog.Cancel | js/ui/dataRangeDialog.js:60-65 | The new state is `Dismissed` of the old one. |
| RangeDialog.DataRangeDialog.Configure | js/ui/dataRangeDialog.js:73-107 | The new state is `Configured` of the old one. |
| RangeDialog.DataRangeDialog.ProcessResults | js/ui/dataRangeDialog.js:110-124 | The new state is `Processed` of the old one. |
| RangeDialog.DataRangeDialog.Present | js/ui/dataRangeDialog.js:126-133 | Moves the dialog to the given offset and shows it. |
| RangeDialog.DataRangeDialog.Dispatch | js/ui/dataRangeDialog.js:89-106 | Runs each bound handler in order. The result equals `Dispatched`. |
| RangeDialog.DataRangeDialog.KeyUpMinimum | js/ui/dataRangeDialog.js:90-94 | Enter runs the minimum input's handlers. Other keys do nothing. |
| RangeDialog.DataRangeDialog.KeyUpMaximum | js/ui/dataRangeDialog.js:97-101 | Enter runs the maximum input's handlers. Other keys do nothing. |
| RangeDialog.DataRangeDialog.ClickOk | js/ui/dataRangeDialog.js:104-106 | Runs the OK button's handlers. |

## Left out

- The DOM and jQuery plumbing are not modelled. This covers element creation, CSS classes other than the top border, the track label's HTML, `makeDraggable`, and the internals of `igv.dialog`, the popover and the colour picker. Their effects appear only as abstract events or as entry fields.
- Arithmetic is exact. Numbers are exact reals, with no IEEE rounding, no overflow to Infinity and no negative zero. The same holds for the axis coordinates.
- `toFixed` and the conversion of numbers to text are not modelled. A label is the value with its number of decimals. A number preloaded into a dialog input is kept as the number itself.
- RangeDialog.Preloaded: an object is stored as the text "[object Object]", which ignores any `toString` of its own.
- RangeDialog.DataRangeDialog.Present: the offset computed from `$parent.offset()`, `scrollTop` and the widths is passed in as two numbers. Only the move and the show are modelled.
- The alert UI is not modelled. Alerts are counted.
- `setDataRange` calls are recorded, not performed.
- The browser's global default colour is passed to the normaliser as a parameter.
- The gear menu takes the contributor's items as a value. It does not model aliasing of the contributor's element: `addClass` on it is kept only as the entry's border flag. `StaleBorderPersists` states its visible effect. The broken builder's side effects on contributed elements are also not modelled: the same `addClass`, and the binding of `click` to the element. Its returned list is modelled exactly.
- The hook's result is `Some(items)`; a hook that returns undefined is taken as no items, which is what `_.size` makes of it.
- An item with neither a truthy `name` nor an `object` is not modelled. At index 0 the source throws when it calls `addClass` on the missing object. At a later index it pushes an entry whose object is undefined.
- TrackConfiguration.SetTrackLabel: requires the track to have a view. Without one the source throws a TypeError when it reads the first viewport. It also throws when the view has no viewports, after the name has already been written. Its only caller, the name handler, always has a view.
- JsValues.ToNumber: every object converts to NaN, as a plain object does. Arrays and objects with their own `valueOf` or `toString` convert otherwise (`[5]` converts to 5). This affects `Math.min` and `Math.max` in the height defaults and the comparisons in the height handler.
- The dialog label callbacks ("Track Name", "Track Height", "Remove <name>") are not modelled. Neither is the act of opening `igv.dialog`. An entry's action names the dialog and the value it is prefilled with.
- `igv.dataRangeMenuItem` and `igv.colorPickerMenuItem` are not modelled. They only open other dialogs, and they are not part of the gear menu list built here.
- Axis.PaintAxis: `dataRange.min` and `max` are numbers. A `null` data range, which makes the source throw, is not modelled. Neither are non-number bounds.
- GearMenu.CommitTrackHeight: the view's response to `setTrackHeight` is not modelled. That includes any write it makes to `track.height`, and anything it reads while `autoHeight` still has its old value. The call is only recorded as an event. The state contract covers only the handler's own writes at lines 231-240. So `height`, `maxHeight` and every other property the view might change are stated as unchanged only as far as the handler itself is concerned.
- GearMenu.HeightCommitted: the line 237 assignment to `minHeight` is kept as written, because it is the observable behaviour. The lemma `HeightAboveMaximumRaisesMinimum` exhibits its consequence.
- TrackNames.ParseAlphanumericMatches: the result is "untitled" when nothing matches. The converse does not hold, because the input "untitled" matches and gives "untitled" too (`FallbackIsAmbiguous`). So "untitled" does not tell a failed parse apart.
