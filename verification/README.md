# sw-python-common, core helpers, in Dafny

This project models four helper modules of the Python package `sw-python-common`, with proofs about each model:

- **npy.py**: numpy helpers.
  - `add_to_front` and `add_to_back` shift a fixed-length buffer in place.
  - `is_coherent` tests whether a sequence counts up by one.
  - `sort` reorders several arrays together by the first, and `sort_rows` does the same for the rows of a 2-D array.
  - `groups_of_same_number` finds the runs of one number.
- **plotting.py**: matplotlib helpers.
  - `axes` lays out y-axes on both sides of a host axes.
  - `legend` combines the legend entries of several axes.
  - `Event`, `register_event` and `unregister_event` wrap matplotlib's callback registry.
  - `add_mouse_tracking_vertical_line` draws a vertical line under the mouse on a set of axes. Its module-level dictionaries hold the callback ids and the lines of each canvas.
- **cprint.py**: the `Color` enum, with its RGB values and `#rrggbb` strings, and the colour-aware `print`.
- **timing.py**:
  - `time_string` and `get_elapsed` pick a unit for the elapsed time.
  - `progress_data` and `progress_string` give elapsed-time and progress text.

Each module maps to one file:

| file | Dafny module | what it holds |
|---|---|---|
| `common.dfy` | `Common` | `Option`, `Result` and the Python exceptions that the modelled code can raise. |
| `npy_buffer.dfy` | `NpyBuffer` | The buffer pushes as methods on an `array`, specified by `ShiftedFront` and `ShiftedBack`. |
| `npy_coherent.dfy` | `NpyCoherent` | The two branches of `is_coherent`. |
| `npy_sort.dfy` | `NpySort` | `np.argsort` as a stable insertion order, `np.flip`, `np.take`, `sort` and `sort_rows`. |
| `npy_groups.dfy` | `NpyGroups` | The numpy pipeline of `groups_of_same_number`, proved equal to a direct scan for maximal runs. |
| `plot_axes.dfy` | `PlotAxes` | The y-axis layout of `axes`. |
| `plot_legend.dfy` | `PlotLegend` | `LegendLocation` and `legend`. |
| `plot_events.dfy` | `PlotEvents` | `Event`, `register_event` and `unregister_event`, over a class `Figures`. |
| `mouse_tracking.dfy` | `MouseTracking` | `add_mouse_tracking_vertical_line` and its closures, as a class `Tracker` whose fields are the two module-level dictionaries. |
| `cprint.dfy` | `CPrint` | Colours, hex strings, and the text `print` writes. |
| `timing.dfy` | `Timing` | The unit ladder; the reference time `t0` as a class `Timer`; the elapsed-time decomposition and the progress text. |

`Figures` stands in for matplotlib:

- It holds the connected callbacks, the drawn lines and the redraw requests.
- Canvases, axes, lines and callback ids are bare identities.
- `mpl_connect` and `axvline` hand out fresh ids.

Where the documentation and the code disagree, the model follows the code:

- `axes` returns an empty list when no y-label is given (plotting.py:172-220). The docstring says the host is always the first entry.
- `add_mouse_tracking_vertical_line` with an empty iterable of axes still registers both callbacks, with an empty line dictionary (plotting.py:574-581).
- `progress_string` separates the milliseconds with `.`, not `:` (timing.py:166). The docstring says "HH:MM:SS:mmm".

## Model

| member | source | states |
|---|---|---|
| NpyBuffer.AddToFront | npy.py:79-99 | Returns the same buffer, now holding the values at the front followed by the old contents shifted right, the oldest dropped. An empty collection changes nothing. Two or more values that do not fit give ValueError, and a scalar into an empty buffer gives IndexError. In both error cases the buffer is unchanged. A one-item collection into an empty buffer succeeds and changes nothing, because numpy broadcasts it into the empty slice. |
| NpyBuffer.AddToBack | npy.py:102-122 | The mirror image: the old contents shift left and the values fill the end. The error and broadcast cases are the same as for the front. |
| NpyBuffer.FrontIsRepeatedScalarPush | npy.py:90-97 | Pushing a collection to the front equals pushing its items as scalars one at a time, last item first. |
| NpyBuffer.BackIsRepeatedScalarPush | npy.py:113-120 | Pushing a collection to the back equals pushing its items as scalars one at a time, first item first. |
| NpyBuffer.FullPushReplacesAll | npy.py:90-94 | A collection as long as the buffer replaces the buffer's whole contents, at either end. |
| NpyBuffer.FrontPushUndoesBackPush | npy.py:79-122 | Pushing the discarded values back onto the front undoes a push to the back. |
| NpyCoherent.IsCoherent | npy.py:129-130 | The ndarray branch holds iff every element is the first plus its index; arrays of length 0 or 1 are coherent. |
| NpyCoherent.CoherentIsCounting | npy.py:130 | `all(diff(s) == 1)` holds exactly when `s` counts up by one from its first element. |
| NpyCoherent.IsCoherentListAsWritten | npy.py:131-132 | The list branch as written: IndexError on an empty list, and otherwise always False, because a list never equals a `range`. |
| NpyCoherent.ListBranchRejectsCoherentList | npy.py:132 | The coherent list [1, 2, 3] is reported as not coherent by the branch as written. |
| NpyCoherent.IsCoherentList | npy.py:131-132 | The corrected list branch: IndexError on an empty list, otherwise the same answer as the ndarray branch. |
| NpyCoherent.ListComparisonIsCoherence | npy.py:132 | Comparing the values with `range(s[0], s[-1] + 1)` is exactly the coherence test. |
| NpySort.Argsort | npy.py:145 | The index order is a permutation of the indices under which the key reads in non-decreasing order. |
| NpySort.InsertKeepsOrder | npy.py:145 | Inserting an index into a key-sorted index list keeps it sorted. |
| NpySort.ArgsortPrefixPermutes | npy.py:145 | The first n inserted indices are exactly 0 .. n - 1, each once. |
| NpySort.Order | npy.py:144-148 | After the flip with `reverse`, the order is still a permutation and the key reads in non-increasing order; without it, in non-decreasing order. |
| NpySort.TakePermutes | npy.py:150 | Taking an array of the key's length by that order rearranges it: the same multiset. |
| NpySort.Sort | npy.py:136-152 | IndexError with no arrays, and also when an array is shorter than the key. Otherwise one output per input, each as long as the key. The first comes out ordered and a rearrangement of the key. A single array comes back bare rather than in a tuple. |
| NpySort.SortMovesTogether | npy.py:145-150 | Every array is reordered by one and the same permutation of the key's indices. |
| NpySort.SortPermutesEachArray | npy.py:150 | Each array as long as the key comes out as a rearrangement of itself. |
| NpySort.SortOfOneArray | npy.py:152 | One array comes back bare, sorted, and a rearrangement of itself. |
| NpySort.SortOfIndexPermutation | npy.py:209-211 | As the tests expect, any arrangement of 0 .. n - 1 sorts to 0 .. n - 1. |
| NpySort.SortOfIndexPermutationReversed | npy.py:212-213 | As the tests expect, with `reverse` any arrangement of 0 .. n - 1 sorts to n - 1 .. 0. |
| NpySort.SortedIsUnique | npy.py:209-213 | Two non-decreasing sequences with the same elements are equal, so the sorted result is determined by the input's elements. |
| NpySort.ColumnIndex | npy.py:167 | A Python column index is accepted iff -width <= column < width, and then names the column counted from either end. |
| NpySort.SortRows | npy.py:155-172 | IndexError for an out-of-range column. Otherwise the rows are rearranged, still rectangular, with the chosen column non-decreasing, or non-increasing with `reverse`. |
| NpyGroups.RunEnd | npy.py:184-186 | The first index at or after i that does not hold the number; every index before it does. |
| NpyGroups.RunsFromAreMaximal | npy.py:184-186 | The scanned runs are maximal runs of the number (non-empty, not extendable at either end), listed left to right. |
| NpyGroups.RunsFromCover | npy.py:184-186 | Every occurrence of the number lies in one of the scanned runs. |
| NpyGroups.Indicator | npy.py:189 | The padded indicator is 1 exactly at the positions that hold the number, with a 0 added at each end. |
| NpyGroups.AbsDiff | npy.py:190 | Element k is the absolute difference of elements k + 1 and k. |
| NpyGroups.ChangesAt | npy.py:189-190 | The differenced indicator is 1 exactly where the array switches between holding and not holding the number. |
| NpyGroups.PairUpFlatten | npy.py:192 | The `reshape(-1, 2)` of a run table read row by row gives the table back. |
| NpyGroups.ChangesPairUpIntoRuns | npy.py:189-192 | The indices where the difference is 1 have even count, and paired up they are exactly the scanned runs. |
| NpyGroups.BoundariesAreRunEnds | npy.py:190-192 | From any position outside a run, the ones of the difference are the start and end of each later run, in order. |
| NpyGroups.GroupsOfSameNumber | npy.py:175-194 | Each returned row is a maximal run of the number. The rows are in order and are exactly the scanned runs. |
| NpyGroups.GroupsCoverEveryOccurrence | npy.py:175-194 | Every occurrence of the number lies in one returned row. |
| PlotAxes.LeftLabels | plotting.py:176-185 | A string is one left label and a collection is one label per element. `None` or an empty collection gives none. |
| PlotAxes.RightLabels | plotting.py:199-201 | A non-empty string is one right label and a collection is one label per element. `None` or an empty string gives none. |
| PlotAxes.Axes | plotting.py:131-235 | Left axes first, then right axes, with one entry per label in order. The host is the first left axis and appears nowhere else; all axes are distinct. A lone left string changes no spine. Spine positions are `-(n - i - 1) * offset` on the left and `1 + j * offset` on the right. Every left axis except the innermost has its frame re-enabled, and so does every right axis except the first. |
| PlotAxes.LeftAxes | plotting.py:176-197 | Entry k is the host for k = 0 and otherwise twin k - 1, with its spine, frame setting and label. |
| PlotAxes.RightAxes | plotting.py:199-218 | Right entry j is a fresh twin numbered after the left twins, with its spine, frame setting and label. |
| PlotAxes.LeftSpinesMoveOutward | plotting.py:190 | For a positive offset the left spines lie strictly further out the further left they are, and the innermost is at 0. |
| PlotAxes.RightSpinesMoveOutward | plotting.py:211 | For a positive offset the right spines lie strictly further out, starting at 1. |
| PlotLegend.ValuesAreDistinct | plotting.py:265-278 | No two legend locations share a value. |
| PlotLegend.ResolveLoc | plotting.py:310 | A `LegendLocation` is passed on as its value, and anything else as it is. |
| PlotLegend.Legend | plotting.py:282-311 | IndexError iff no axes are given. Otherwise a single legend call on the first axes, with all handles and labels in axes order and the resolved location. |
| PlotLegend.HandlesKeepAxisBlocks | plotting.py:306-309 | Each axes' handles appear as one contiguous block, placed after the handles of the axes before it. |
| PlotLegend.LabelsStayPaired | plotting.py:306-309 | If every axes reports as many labels as handles, so does the combined legend. |
| PlotEvents.EventValuesAreDistinct | plotting.py:439-470 | Each event names a different matplotlib event. |
| PlotEvents.RegisterEvent | plotting.py:474-486 | Connects the callback to the event's name on the canvas under a fresh id and returns that id. Nothing else changes. |
| PlotEvents.UnregisterEvent | plotting.py:489-497 | Disconnects the id from the given canvas only: an id that canvas does not hold, including one connected to another canvas, is ignored. Nothing else changes. |
| PlotEvents.RegisterThenUnregister | plotting.py:474-497 | Registering and then unregistering leaves the registry as it was. |
| MouseTracking.TrackedAxes | plotting.py:565-574 | `None` tracks no axes, one axes tracks itself, and an iterable tracks its non-`None` members. |
| MouseTracking.Tracker.constructor | plotting.py:500-503 | Both dictionaries start empty. |
| MouseTracking.Tracker.RemoveLines | plotting.py:524-532 | Every line held for the canvas is removed from the figure, and every tracked axes keeps its key with no line. |
| MouseTracking.Tracker.OnMouseMove | plotting.py:535-549 | The canvas's old lines are removed. Outside the axes nothing is drawn or redrawn. Otherwise every tracked axes gets one new line at the converted x, in the call's style, and the canvas is marked for one redraw. |
| MouseTracking.Tracker.DrawLines | plotting.py:546-547 | Every tracked axes of the canvas gets a fresh line at x, and existing lines are untouched. |
| MouseTracking.Tracker.OnClose | plotting.py:551-560 | An untracked canvas is left as it is. A tracked one loses both callbacks, both dictionary entries and all its lines. Afterwards no tracking callback is connected to it. |
| MouseTracking.Tracker.StopTracking | plotting.py:554-560 | Unregisters both callbacks, removes the lines and deletes both dictionary entries of a tracked canvas. |
| MouseTracking.Unsubscribing | plotting.py:555-557 | Disconnecting a canvas's two callbacks and deleting its ids keeps every other canvas subscribed and leaves no tracking callback on it. |
| MouseTracking.Tracker.AddMouseTrackingVerticalLine | plotting.py:506-581 | Any earlier tracking on the canvas is torn down first: its two callbacks are disconnected and its lines removed. With `None` the canvas is left untracked. Otherwise the chosen axes are tracked with no lines, and the mouse-move and close callbacks are connected under two fresh ids with the call's converter and style. The new callback map is given exactly: every other callback, of the user or of another canvas, stays connected unchanged. Other canvases' dictionary entries are left alone. |
| MouseTracking.Tracker.StartTracking | plotting.py:574-581 | Adds the axes dictionary and the two fresh callback ids for the canvas. Lines and redraws are unchanged. |
| MouseTracking.Subscribing | plotting.py:577-581 | Connecting both callbacks of an untracked canvas under fresh ids keeps every canvas subscribed. |
| MouseTracking.Tracker.Dispatch | plotting.py:535-560 | matplotlib calling any connected callback keeps the tracker's invariant: every held line is drawn, and every tracked canvas has its callbacks connected. |
| CPrint.RgbOf | cprint.py:257-284 | The default style has no RGB value; every other colour has one with each component in 0..255. |
| CPrint.RgbIsInjective | cprint.py:266-284 | No two colours share an RGB value. |
| CPrint.ColorHex | cprint.py:286-298 | The empty string exactly for the default style; otherwise `#` followed by six lower-case hex digits. |
| CPrint.FormatRgbRoundTrip | cprint.py:296 | Parsing the `#rrggbb` form of any byte triple gives the triple back. |
| CPrint.ParseHexRoundTrip | cprint.py:296 | Any string that parses as `#rrggbb` is the formatted form of its value. |
| CPrint.ColorHexRoundTrip | cprint.py:286-298 | Parsing a colour's hex string gives its RGB value, for every colour. |
| CPrint.ColorHexIsInjective | cprint.py:286-298 | Different colours have different hex strings. |
| CPrint.HexByteRoundTrip | cprint.py:296 | `{:02x}` of a byte reads back as the byte. |
| CPrint.Join | cprint.py:330 | One argument is written alone and no arguments give nothing. |
| CPrint.Print | cprint.py:309-330 | With a colour, its code and then exactly what `builtins.print` writes for the arguments; with `None`, only the latter. |
| CPrint.NoSeparatorAfterCode | cprint.py:325-330 | The first argument directly follows the colour code, with no separator between them. |
| CPrint.PlainCallResetsFirst | cprint.py:312 | A call with no colour argument starts with the default style's code and ends with a newline. |
| Timing.UnitFor | timing.py:44-73 | The unit is ns below 1e-6 s, µs below 1e-3, ms below 1, s below 60, m below 3600 and h otherwise, with each range tested as an if-and-only-if. |
| Timing.UnitForIsMonotone | timing.py:44-73 | A longer time never gets a smaller unit. |
| Timing.ScaledIsInRange | timing.py:44-73 | In the chosen unit a non-negative time reads below 1000 (ns, µs, ms) or below 60 (s, m), and at least 1 except for ns. |
| Timing.FormatDelta | timing.py:75 | The text is the scaled value with the unit's decimals, a space, then the unit's name. |
| Timing.Timer.constructor | timing.py:190 | Importing the module sets `t0` to the current time. |
| Timing.Timer.Reset | timing.py:10-19 | `t0` becomes the current time. |
| Timing.Timer.TimeString | timing.py:22-75 | The end time, or now, minus the start time, or `t0`, formatted with the chosen unit. |
| Timing.TimeStringAfterReset | timing.py:10-19 | After `reset`, `time_string()` with no arguments measures from the moment of the reset. |
| Timing.GetElapsed | timing.py:78-91 | The text is "Took ", then the elapsed time from the start to the end time (or now) in its unit, then " for " and the message. |
| Timing.GetElapsedWrapsTimeString | timing.py:78-91 | The result is "Took ", then the time string of the same times, then " for " and the message. |
| Timing.Trunc | timing.py:125 | Python's `int` of a real truncates toward zero. |
| Timing.Decompose | timing.py:123-128 | Hours, minutes and seconds recombine to the whole seconds, with minutes and seconds in 0..59. Milliseconds are in 0..999 for a non-negative time and in -999..0 for a negative one. |
| Timing.MillisAreTruncated | timing.py:125 | For a non-negative time, the milliseconds are the fraction of a second truncated to thousandths. |
| Timing.ProgressData | timing.py:109-138 | ZeroDivisionError exactly when both counts are given and the total is 0. The elapsed time is present iff a start time is given, and then it is the decomposition. The progress is present iff both counts are given, and then progress * total == 100 * (iteration + 1). |
| Timing.ProgressIsPercentage | timing.py:132-134 | For an iteration index in [0, total) the progress is in (0, 100], and it is exactly 100 at the last index. |
| Timing.ZeroPadRoundTrip | timing.py:164-166 | A zero-padded field reads back as its number. |
| Timing.ClockLayout | timing.py:164 | For under 100 hours the clock is eight characters, `HH:MM:SS`, whose fields read back as the hours, minutes and seconds. |
| Timing.ProgressString | timing.py:141-178 | ZeroDivisionError exactly when `progress_data` raises. Otherwise the text is the concatenation of the parts. |
| Timing.AssembleParts | timing.py:162-178 | Building the parts list and joining it gives exactly the text of the time part, separator, progress part and postfix rules. |
| Timing.TimeParts | timing.py:162-166 | Appends the clock, and the milliseconds when asked for, iff there is an elapsed time. |
| Timing.AppendProgress | timing.py:168-172 | With a non-zero progress: the separator when parts precede it and the separator is truthy, then the progress text. Otherwise nothing. |
| Timing.AppendPostfix | timing.py:174-176 | Appends a truthy postfix only when some part precedes it. |
| Timing.EmptyWithoutParts | timing.py:162-178 | The text is empty exactly when there is neither an elapsed time nor a non-zero progress. |
| Timing.NoSeparatorWithoutTime | timing.py:168-176 | Without an elapsed time, no separator is written: only the progress text and a truthy postfix. |

## Findings

| source | as written | input that shows it | evidently intended | confidence | as-written member | corrected member |
|---|---|---|---|---|---|---|
| npy.py:132 | `sequence == range(sequence[0], sequence[-1] + 1)` compares a list or tuple with a `range` object. In Python these are never equal, so the branch is False for every non-empty input. | `is_coherent([1, 2, 3])` gives False, while `is_coherent(np.array([1, 2, 3]))` gives True. | Compare the values with the range, e.g. `list(sequence) == list(range(...))`, which agrees with the ndarray branch. | not executed | NpyCoherent.IsCoherentListAsWritten, NpyCoherent.ListBranchRejectsCoherentList | NpyCoherent.IsCoherentList, NpyCoherent.ListComparisonIsCoherence |

## Left out

- numpy dtypes and IEEE floating point: arrays hold mathematical integers (`sort`, `sort_rows`, `groups_of_same_number`, `is_coherent`), and times and percentages are exact reals.
- The `ndarray` subclass of npy.py (lines 15-49) only attaches `comment` and `original_array` attributes to a view of an existing array. `IgnoreWarnings` (lines 52-76) only switches numpy's floating-point warnings off and back on. Neither changes any value the modelled functions compute.
- NpyBuffer.AddToFront and NpyBuffer.AddToBack: a `str` value is a `Collection` to the source's `isinstance` test but a single scalar to numpy's slice assignment; the model has no separate case for it. Values that numpy cannot convert to the buffer's dtype, and collections of collections, are not modelled either.
- NpySort.SortRows: models two-dimensional arrays (rows of equal width). The N-dimensional case, where `array.T[column]` selects a sub-array, is not modelled.
- PlotEvents: callback ids come from one counter shared by all canvases, while matplotlib numbers them per canvas. Every connection and disconnection names its canvas, so only the ids handed out differ, and no modelled behaviour depends on their values.
- NpySort.Sort: companion arrays are integer arrays, like the key. For an array longer than the key, only the result length is stated; the multiset claim covers arrays of the key's length.
- `np.argsort` is modelled as a stable sort. numpy's default quicksort may order equal keys differently. Every property stated depends only on the keys, except SortMovesTogether, which names this order.
- matplotlib itself: figures, canvases, axes and lines are identities in `Figures`. Tight layout, grid, label positions, tick positions and the scientific-notation formatter in `axes` are not modelled, and neither are the `*args`/`**kwargs` passed on by `legend`, `fancybox` and `framealpha`.
- `axes` `x_label` and the host's label setting: only the y-axis list that `axes` returns is modelled.
- Dictionary order: the line dictionary is a map, so the order `remove_lines` leaves by deleting and re-inserting keys is not modelled. No result depends on it.
- MouseTracking.Tracker.OnMouseMove: it requires the canvas to be tracked, so the `KeyError` of a callback on an untracked canvas is left out. Tracker.Dispatch shows that a connected tracking callback is always on a tracked canvas.
- `on_close` unregisters the ids of the stored 2-tuple in a loop; the model makes the two calls in turn.
- The `close` event object built from `fig.canvas` is modelled by the canvas alone.
- Python's float formatting (`{:.3f}`, `{:.6f}`, `{:.1f}`) is a function parameter of the model (`fixed`, `fixed1`). Integer fields (`{:02d}`, `{:03d}`, `str`) are modelled exactly.
- `time.perf_counter()` is the parameter `now`, and `print_elapsed` (console output plus a new clock reading) is not modelled. Console output, `flush` and `file` in cprint.py are not modelled either: `Print` returns the text written.
- The ANSI escape codes from colorama behind each `Color` are a function parameter `code`. The `_Fore`/`Fore`/`_Back`/`Back`/`_Style`/`Style` enums, `reset`, the `colorama.init` set-up and the `_test*` functions of cprint.py are not modelled.
- `_test_get_elapsed` in timing.py sleeps and prints, and is not modelled.
