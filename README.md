# Graylog time-range and bar-chart logic, modelled in Dafny

This project models the small pieces of logic in Graylog's web interface and
server that can be stated precisely:

- **`RelativeRange`** (`TimeRanges`): the time range "the last `range`
  seconds". Its constructor rejects a negative range with
  `InvalidRangeParametersException`. It reports its type as `RELATIVE`. It
  renders itself as the single query parameter `range`. The decimal rendering
  of Java's `String.valueOf` is written out and shown to be a bijection onto
  canonical numerals, so the parameter always reads back as the range.
- **The `latest` pivot series** (`PivotSeries`): `literal()`, and the AutoValue
  builder whose `build()` assigns the id `latest(<field>)` in place when none
  was set. The builder is a class. What `build()` returns and leaves behind is
  specified by pure functions over the builder's state. The generated code's
  own failures (reading an unset `field()`, `autoBuild()` with a required
  property unset) are modelled as error results.
- **Bar-chart data shaping** (`BarVisualization`): the single-date-bucket
  width rule, multi-level pivot label rewriting (split on the key separator,
  map each segment with its pivot field, join with the human separator), the
  series generator, the colour look-up and assignment helpers, and the
  appending of the event series. These are pure functions over `seq<Series>`.
  Time stamps are integer milliseconds and widths are `real`.
- **The time-range picker** (`SearchBar`): `TimeRangeInput` holds the `show`
  flag. `TimeRangeDropdownButton` is mounted inside it and calls its
  handlers. Both are classes. Every call they make into the outside world is
  appended to a `Trace`: telemetry, `onChange`, the form's `submitForm`, and
  blurring the button. The object invariant says that the telemetry records
  alternate `showing: true` / `showing: false` from a hidden start. It also
  says that the current flag is the `showing` of the last record. Every
  handler preserves it.

An empty allow-list is not the same as no allow-list. In `TimeRangeInput.tsx`
the check is `validTypes && ...`, and `[]` is truthy. So an empty list rejects
every value that has a type. The model follows the code
(`SearchBar.EmptyAllowListRejectsTypedValues`).

## Model

| member | source | states |
|---|---|---|
| `TimeRanges.Create` | app/lib/timeranges/RelativeRange.java:31-37 | construction succeeds exactly when the range is not negative (0 is accepted); a negative range yields the exception and no object; the stored range equals the argument |
| `TimeRanges.GetType` | app/lib/timeranges/RelativeRange.java:39-41 | the type of a relative range is always `RELATIVE` |
| `TimeRanges.GetQueryParams` | app/lib/timeranges/RelativeRange.java:44-47 | the map has exactly the key `"range"`; its value is a canonical decimal numeral with no minus sign that parses back to the stored range |
| `TimeRanges.Decimal` | app/lib/timeranges/RelativeRange.java:46 | `String.valueOf` of a non-negative int is a non-empty string of digits with no leading zero, starting with '0' only for 0 |
| `TimeRanges.DecimalRoundTrip` | app/lib/timeranges/RelativeRange.java:46 | parsing the rendering of a number gives the number back |
| `TimeRanges.CanonicalIsDecimal` | app/lib/timeranges/RelativeRange.java:46 | every canonical numeral is the rendering of its value (the other direction of the round trip) |
| `TimeRanges.DecimalInjective` | app/lib/timeranges/RelativeRange.java:46 | distinct ranges give distinct query values |
| `PivotSeries.Literal` | graylog2-server/src/main/java/org/graylog/plugins/views/search/searchtypes/pivot/series/Latest.java:45-47 | the literal is the type, '(', the field (empty when null), ')'; the field can be cut back out of it |
| `PivotSeries.InitialBuilder` | graylog2-server/src/main/java/org/graylog/plugins/views/search/searchtypes/pivot/series/Latest.java:49-51 | a new builder has type "latest" and no id or field |
| `PivotSeries.WithDefaultId` | graylog2-server/src/main/java/org/graylog/plugins/views/search/searchtypes/pivot/series/Latest.java:71-77 | an unset id becomes "latest(<field>)", a set id is untouched, and with neither id nor field nothing is assigned; type and field never change |
| `PivotSeries.AutoBuild` | graylog2-server/src/main/java/org/graylog/plugins/views/search/searchtypes/pivot/series/Latest.java:69 | the generated `autoBuild()` succeeds exactly when type, id and field are all set, and copies them; otherwise its one error names every unset property and no set one, in the order type, id, field |
| `PivotSeries.BuildResult` | graylog2-server/src/main/java/org/graylog/plugins/views/search/searchtypes/pivot/series/Latest.java:71-77 | `build()` succeeds exactly when type and field are set; with neither id nor field it fails on reading `field()` |
| `PivotSeries.BuildDefaultsId` | graylog2-server/src/main/java/org/graylog/plugins/views/search/searchtypes/pivot/series/Latest.java:73-75 | without an id, the built series has id "latest(<field>)" |
| `PivotSeries.BuildKeepsId` | graylog2-server/src/main/java/org/graylog/plugins/views/search/searchtypes/pivot/series/Latest.java:73-76 | with an id set, the built series keeps it |
| `PivotSeries.BuiltFromInitial` | graylog2-server/src/main/java/org/graylog/plugins/views/search/searchtypes/pivot/series/Latest.java:49-58 | every series built from `builder()`/`create()` with a field has type "latest" and a non-null field |
| `PivotSeries.DefaultIdIsLiteral` | graylog2-server/src/main/java/org/graylog/plugins/views/search/searchtypes/pivot/series/Latest.java:72-75 | a series built without an id has `id() == literal()` |
| `PivotSeries.Builder.constructor` | graylog2-server/src/main/java/org/graylog/plugins/views/search/searchtypes/pivot/series/Latest.java:49-51 | `builder()` presets the type to "latest" |
| `PivotSeries.Builder.Create` | graylog2-server/src/main/java/org/graylog/plugins/views/search/searchtypes/pivot/series/Latest.java:55-58 | `create()` returns a fresh builder in the same state as `builder()` |
| `PivotSeries.Builder.SetId` | graylog2-server/src/main/java/org/graylog/plugins/views/search/searchtypes/pivot/series/Latest.java:61-62 | sets the id and nothing else |
| `PivotSeries.Builder.SetField` | graylog2-server/src/main/java/org/graylog/plugins/views/search/searchtypes/pivot/series/Latest.java:64-65 | sets the field and nothing else |
| `PivotSeries.Builder.Build` | graylog2-server/src/main/java/org/graylog/plugins/views/search/searchtypes/pivot/series/Latest.java:71-77 | the builder is left in the default-id state and the result is that of `BuildResult` on the old state |
| `BarVisualization.SingleBucketWidth` | graylog2-web-interface/src/views/components/visualizations/bar/BarVisualization.tsx:66-72 | the width is the larger of 30 and 3% of the span in milliseconds |
| `BarVisualization.DefineSingleDateBarWidth` | graylog2-web-interface/src/views/components/visualizations/bar/BarVisualization.tsx:56-78 | same length and order; the input is returned as is unless there is exactly one row pivot and it is a date pivot; then a series with one x value gets `width = [max(30, 0.03 * span)]` and no other field changes, and every other series is returned as is |
| `BarVisualization.WidthAtLeastMinimum` | graylog2-web-interface/src/views/components/visualizations/bar/BarVisualization.tsx:64-73 | any series the rule changes gets exactly one width, of at least 30 |
| `BarVisualization.OneDayExample` | graylog2-web-interface/src/views/components/visualizations/bar/BarVisualization.tsx:56-78 | one date bucket over a one-day span (86 400 000 ms) gets width 2 592 000 |
| `BarVisualization.Split` | graylog2-web-interface/src/views/components/visualizations/bar/BarVisualization.tsx:103 | splitting yields at least one piece and no piece contains the separator |
| `BarVisualization.JoinSplit` | graylog2-web-interface/src/views/components/visualizations/bar/BarVisualization.tsx:103-105 | joining the pieces of a split with the same separator restores the string |
| `BarVisualization.SplitJoin` | graylog2-web-interface/src/views/components/visualizations/bar/BarVisualization.tsx:103-105 | splitting a join of separator-free pieces gives the pieces back |
| `BarVisualization.RowPivotFields` | graylog2-web-interface/src/views/components/visualizations/bar/BarVisualization.tsx:101 | the flattened field list is as long as all row pivots' fields together |
| `BarVisualization.FieldOfPivot` | graylog2-web-interface/src/views/components/visualizations/bar/BarVisualization.tsx:101 | field `j` of row pivot `k` sits at position `Offset(k) + j` of the flattened list (the fields of the pivots before `k`, then `j`), so pivot order and field order are kept |
| `BarVisualization.MapKeys` | graylog2-web-interface/src/views/components/visualizations/bar/BarVisualization.tsx:102-106 | one output label per input label, and output label `k` is input label `k` split on the key separator, each segment `i` mapped with field `i`, joined with the human separator, for every mapping |
| `BarVisualization.MapKeysSegments` | graylog2-web-interface/src/views/components/visualizations/bar/BarVisualization.tsx:102-106 | when no mapped value contains the human separator, splitting an output label on it gives back, in order, segment `i` of the input label mapped with field `i`, for every segment |
| `BarVisualization.SegmentMappedWithPivotField` | graylog2-web-interface/src/views/components/visualizations/bar/BarVisualization.tsx:101-106 | with the widget's own row pivots, the segment at field `j` of pivot `k`'s position is mapped with that field in the output label |
| `BarVisualization.MapKeysIdentity` | graylog2-web-interface/src/views/components/visualizations/bar/BarVisualization.tsx:102-106 | with a mapping that changes nothing and equal separators, labels come back unchanged |
| `BarVisualization.SeriesGenerator` | graylog2-web-interface/src/views/components/visualizations/bar/BarVisualization.tsx:108-115 | type, name, original name and `y = values` are copied; x is `MapKeys` of the labels over the fields of the widget's row pivots, one value per label; the opacity is the configured one, or 1.0 when none is configured |
| `BarVisualization.FirstNamed` | graylog2-web-interface/src/views/components/visualizations/bar/BarVisualization.tsx:49 | `find` yields the first series with that name, or none when no series has it |
| `BarVisualization.GetChartColor` | graylog2-web-interface/src/views/components/visualizations/bar/BarVisualization.tsx:48-52 | the marker colour of the first series with that name; undefined when none matches |
| `BarVisualization.SetChartColor` | graylog2-web-interface/src/views/components/visualizations/bar/BarVisualization.tsx:54 | the colour is the mapper's colour for the original name, falling back to the name |
| `BarVisualization.ColorFollowsOriginalName` | graylog2-web-interface/src/views/components/visualizations/bar/BarVisualization.tsx:54 | series with the same original name get the same colour whatever their displayed names |
| `BarVisualization.WithEventSeries` | graylog2-web-interface/src/views/components/visualizations/bar/BarVisualization.tsx:122 | the event series, when present, comes after all data series, which keep their order |
| `BarVisualization.PlotData` | graylog2-web-interface/src/views/components/visualizations/bar/BarVisualization.tsx:117-128 | the plotted list is the data series in order then the event series, each changed at most in its width |
| `SearchBar.CheckValidTypes` | graylog2-web-interface/src/views/components/searchbar/TimeRangeInput.tsx:73-75 | the render fails exactly when an allow-list is given and the value has a type outside it; untyped values and a missing allow-list never fail |
| `SearchBar.EmptyAllowListRejectsTypedValues` | graylog2-web-interface/src/views/components/searchbar/TimeRangeInput.tsx:73 | an empty allow-list rejects every typed value |
| `SearchBar.ToggleSendsOneRecord` | graylog2-web-interface/src/views/components/searchbar/TimeRangeInput.tsx:77-88 | a toggle negates `show` and sends exactly one `input_button_toggle` record whose `showing` is the new value |
| `SearchBar.ToggleTwice` | graylog2-web-interface/src/views/components/searchbar/TimeRangeInput.tsx:77-88 | two toggles restore `show` and send two records with opposite `showing` |
| `SearchBar.HideIdempotent` | graylog2-web-interface/src/views/components/searchbar/TimeRangeInput.tsx:90 | hiding when hidden changes nothing and sends nothing; hiding when shown hides and sends `showing: false`; hiding twice equals hiding once |
| `SearchBar.ToggledMatches` | graylog2-web-interface/src/views/components/searchbar/TimeRangeInput.tsx:71-88 | a toggle keeps the telemetry alternating and in step with `show` |
| `SearchBar.NonTelemetryKeepsMatch` | graylog2-web-interface/src/views/components/searchbar/TimeRangeDropdownButton.tsx:59-70 | blurring, applying a range and submitting leave the telemetry in step with `show` |
| `SearchBar.TimeRangeInput.constructor` | graylog2-web-interface/src/views/components/searchbar/TimeRangeInput.tsx:71 | `show` starts false and nothing has been sent |
| `SearchBar.TimeRangeInput.ToggleShow` | graylog2-web-interface/src/views/components/searchbar/TimeRangeInput.tsx:77-88 | the state after is `Toggled` of the state before, and the invariant holds |
| `SearchBar.TimeRangeInput.HideTimeRangeDropDown` | graylog2-web-interface/src/views/components/searchbar/TimeRangeInput.tsx:90 | the state after is `Hidden` of the state before, and the invariant holds |
| `SearchBar.TimeRangeDropdownButton.constructor` | graylog2-web-interface/src/views/components/searchbar/TimeRangeInput.tsx:95-100 | the button is wired to the input's handlers |
| `SearchBar.TimeRangeDropdownButton.OnClick` | graylog2-web-interface/src/views/components/searchbar/TimeRangeDropdownButton.tsx:59-62 | the button is blurred, then `toggleShow` runs exactly once |
| `SearchBar.TimeRangeDropdownButton.SelectRelativeTimeRangePreset` | graylog2-web-interface/src/views/components/searchbar/TimeRangeDropdownButton.tsx:64-70 | exactly one `setCurrentTimeRange` with the normalised range; then exactly one `submitForm` if the form is valid, none otherwise; `show` is untouched |
| `SearchBar.TimeRangeDropdownButton.OnPresetSelectToggle` | graylog2-web-interface/src/views/components/searchbar/TimeRangeDropdownButton.tsx:72-76 | opening the preset menu runs `onPresetSelectOpen` (the input's hide) once; closing it has no effect |

## Left out

- Rendering: JSX, styled-components, the `Overlay` positioning, `TimeRangeDropdown` (the editor), `TimeRangeDisplay`, and the `showDropdownButton`, `showPresetDropdown` and `disabled` switches. Handlers run one after another. React's batched and stale-closure `setShow` semantics are not modelled.
- `SearchBar.CheckValidTypes`: a value whose `type` key is present but `undefined` is not representable. A value either has a type or has none.
- Date parsing: `from` and `to` are integer milliseconds, and widths are exact `real`s, not IEEE floats. The source produces `NaN` for a missing or unparsable time range. That case is not modelled.
- `useChartData`, `retrieveChartData` and `useEvents`: how result rows become series, and the event shapes merged into the layout. The series and the optional event series are inputs. The `barmode` layout assignment is render-local and not modelled.
- `ColorMapper`: it is a pure function from name to colour. Any colour assignment it does in place is not captured.
- `useMapKeys` is an arbitrary function parameter. `keySeparator` and `humanSeparator` (from `views/Constants`, which is not part of this model) are single-character parameters.
- `DateType` (from the `Pivot` module, which is not part of this model) is one constructor of a two-valued pivot type.
- `BarVisualizationConfig.empty()` is not part of this model. The configured opacity is an `Option<real>` parameter.
- `normalizeIfAllMessagesRange` is a function parameter of the button. Formik's `isValid` is a parameter of the preset handler. `submitForm`, `sendTelemetry` and `onChange` are trace entries.
- The preset list from `useSearchConfiguration` only decides what the menu shows. It is not modelled.
- Jackson deserialisation of `Latest` beyond `create()`, and the `type` setter of `SeriesSpecBuilder` (not part of this model). The generated setters' null checks are not modelled: setters take non-null strings.
- `TimeRange.Type` is not part of this model. Its three kinds are taken as absolute, relative and keyword.
- `DatanodeInstance.java`, `UserSyncSettings.jsx`, `RuleBlockForm.test.tsx`, `InputGroup.jsx` and the preflight component index. They hold container setup, form wiring, tests and re-exports, with no logic to state.
