/** The data shaping of the bar-chart widget (`BarVisualization.tsx`): how
    aggregation rows become plotted series, how multi-level pivot labels are
    made readable, how a lone date bucket gets a visible width, and how series
    colours are looked up and assigned. */
module BarVisualization {
  import opened Wrappers

  // ---- Data model ----

  /** A y value; the widget passes them through untouched. */
  datatype Value = Number(n: real) | Text(s: string) | Empty

  /** `marker` of a plotted series. */
  datatype Marker = Marker(color: Option<string>)

  /** A plotted series (`ChartDefinition`, read as a `ChartConfig` by the colour
      helpers). `traceType` is the record's `type`; `width` is only present once
      the single-bucket rule has set it. */
  datatype Series = Series(
    traceType: string,
    name: string,
    originalName: Option<string>,
    x: Option<seq<string>>,
    y: Option<seq<Value>>,
    opacity: Option<real>,
    width: Option<seq<real>>,
    marker: Option<Marker>)

  /** What a row pivot groups by; only date pivots matter here. */
  datatype PivotType = DateType | ValuesType

  datatype Pivot = Pivot(pivotType: PivotType, fields: seq<string>)

  /** The part of `AggregationWidgetConfig` the widget reads. */
  datatype WidgetConfig = WidgetConfig(rowPivots: seq<Pivot>)

  /** `barWidth`: the share of the time span one lone bar covers. */
  const BarWidth: real := 0.03

  /** `minXUnits`: the narrowest bar, in x-axis units (milliseconds). */
  const MinXUnits: real := 30.0

  // ---- Single date bucket width ----

  /** `Math.max(minXUnits, timeRangeMS * barWidth)` for a span given as two
      instants in milliseconds: the larger of the two, never below 30. */
  function SingleBucketWidth(fromMs: int, toMs: int): (w: real)
    ensures w >= MinXUnits && w >= BarWidth * (toMs - fromMs) as real
    ensures w == MinXUnits || w == BarWidth * (toMs - fromMs) as real
  {
    var widthXUnits := BarWidth * (toMs - fromMs) as real;
    if MinXUnits >= widthXUnits then MinXUnits else widthXUnits
  }

  /** The widget has exactly one row pivot and it groups by date. */
  predicate IsSingleDatePivot(config: WidgetConfig) {
    |config.rowPivots| == 1 && config.rowPivots[0].pivotType == DateType
  }

  /** `data?.x?.length === 1`. */
  predicate HasSingleX(s: Series) {
    s.x.Some? && |s.x.value| == 1
  }

  /** `defineSingleDateBarWidth`: with one date row pivot, every series with a
      single x value gets `width = [SingleBucketWidth]` and nothing else about
      it changes; every other series, and the whole list when the pivot
      condition fails, is returned as it was, in the same order. */
  function DefineSingleDateBarWidth(data: seq<Series>, config: WidgetConfig, fromMs: int, toMs: int): (r: seq<Series>)
    ensures |r| == |data|
    ensures !IsSingleDatePivot(config) ==> r == data
    ensures forall i :: 0 <= i < |data| ==> r[i].(width := data[i].width) == data[i]
    ensures forall i :: 0 <= i < |data| && IsSingleDatePivot(config) && HasSingleX(data[i]) ==>
      r[i].width == Some([SingleBucketWidth(fromMs, toMs)])
    ensures forall i :: 0 <= i < |data| && !(IsSingleDatePivot(config) && HasSingleX(data[i])) ==> r[i] == data[i]
  {
    if !IsSingleDatePivot(config) then
      data
    else
      seq(|data|, i requires 0 <= i < |data| =>
        if HasSingleX(data[i]) then data[i].(width := Some([SingleBucketWidth(fromMs, toMs)])) else data[i])
  }

  /** Whenever the rule changes a series, it gives it one width of at least
      30 units. */
  lemma WidthAtLeastMinimum(data: seq<Series>, config: WidgetConfig, fromMs: int, toMs: int, i: int)
    requires 0 <= i < |data|
    requires DefineSingleDateBarWidth(data, config, fromMs, toMs)[i] != data[i]
    ensures var w := DefineSingleDateBarWidth(data, config, fromMs, toMs)[i].width;
      w.Some? && |w.value| == 1 && w.value[0] >= MinXUnits
  {
  }

  /** One day, 2024-01-01T00:00:00Z to 2024-01-02T00:00:00Z (86 400 000 ms),
      with one date bucket: the bar is 2 592 000 ms wide. */
  lemma OneDayExample(s: Series)
    requires s.x == Some(["2024-01-01"])
    ensures DefineSingleDateBarWidth([s], WidgetConfig([Pivot(DateType, ["timestamp"])]), 1704067200000, 1704153600000)[0].width
      == Some([2592000.0])
  {
  }

  // ---- Pivot label rewriting ----

  /** `s.split(sep)` for a one-character separator: the pieces between
      separators, at least one, none containing the separator. */
  function Split(s: string, sep: char): (parts: seq<string>)
    ensures |parts| >= 1
    ensures forall i :: 0 <= i < |parts| ==> sep !in parts[i]
  {
    if |s| == 0 then [""]
    else
      var rest := Split(s[1..], sep);
      if s[0] == sep then [""] + rest else [[s[0]] + rest[0]] + rest[1..]
  }

  /** `parts.join(sep)`. */
  function Join(parts: seq<string>, sep: string): string {
    if |parts| == 0 then ""
    else if |parts| == 1 then parts[0]
    else parts[0] + sep + Join(parts[1..], sep)
  }

  /** Joining the pieces of a split puts the string back together. */
  lemma {:induction false} JoinSplit(s: string, sep: char)
    ensures Join(Split(s, sep), [sep]) == s
  {
    if |s| > 0 {
      var rest := Split(s[1..], sep);
      JoinSplit(s[1..], sep);
      if s[0] == sep {
        assert ([""] + rest)[1..] == rest;
      } else {
        var parts := [[s[0]] + rest[0]] + rest[1..];
        assert parts[1..] == rest[1..];
        if |rest| > 1 {
          assert Join(rest, [sep]) == rest[0] + [sep] + Join(rest[1..], [sep]);
        }
        assert s == [s[0]] + s[1..];
      }
    }
  }

  /** Splitting a string that starts with a separator-free piece `p` glues
      `p` to the first piece of the rest. */
  lemma {:induction false} SplitAfterPiece(p: string, t: string, sep: char)
    requires sep !in p
    ensures Split(p + t, sep) == [p + Split(t, sep)[0]] + Split(t, sep)[1..]
  {
    if |p| == 0 {
      var parts := Split(t, sep);
      assert p + t == t;
      assert p + parts[0] == parts[0];
      assert [parts[0]] + parts[1..] == parts;
    } else {
      SplitAfterPiece(p[1..], t, sep);
      assert (p + t)[1..] == p[1..] + t;
      assert [p[0]] + (p[1..] + Split(t, sep)[0]) == p + Split(t, sep)[0];
    }
  }

  /** Splitting a join of separator-free pieces gives the pieces back. */
  lemma {:induction false} SplitJoin(parts: seq<string>, sep: char)
    requires |parts| >= 1
    requires forall i :: 0 <= i < |parts| ==> sep !in parts[i]
    ensures Split(Join(parts, [sep]), sep) == parts
  {
    if |parts| == 1 {
      SplitAfterPiece(parts[0], "", sep);
      assert parts[0] + "" == parts[0];
    } else {
      var rest := Join(parts[1..], [sep]);
      SplitJoin(parts[1..], sep);
      assert Split([sep] + rest, sep) == [""] + parts[1..] by {
        assert ([sep] + rest)[1..] == rest;
      }
      SplitAfterPiece(parts[0], [sep] + rest, sep);
      assert parts[0] + [sep] + rest == parts[0] + ([sep] + rest);
      assert parts[0] + "" == parts[0];
    }
  }

  /** `rowPivotFields[i]`: undefined past the end of the list. */
  function FieldAt(fields: seq<string>, i: nat): Option<string> {
    if i < |fields| then Some(fields[i]) else None
  }

  /** Where the fields of row pivot `k` start in the flattened field list:
      the number of fields of the pivots before it. */
  function Offset(rowPivots: seq<Pivot>, k: nat): nat
    requires k <= |rowPivots|
  {
    if k == 0 then 0 else |rowPivots[0].fields| + Offset(rowPivots[1..], k - 1)
  }

  /** `config.rowPivots.flatMap((pivot) => pivot.fields)`: the fields of all
      row pivots, in pivot order; `FieldOfPivot` says where each one sits. */
  function RowPivotFields(rowPivots: seq<Pivot>): (r: seq<string>)
    ensures |r| == Offset(rowPivots, |rowPivots|)
  {
    if |rowPivots| == 0 then [] else rowPivots[0].fields + RowPivotFields(rowPivots[1..])
  }

  /** Field `j` of row pivot `k` sits at position `Offset(rowPivots, k) + j`
      of the flattened list, so that is the segment of a label it maps. */
  lemma {:induction false} FieldOfPivot(rowPivots: seq<Pivot>, k: nat, j: nat)
    requires k < |rowPivots| && j < |rowPivots[k].fields|
    ensures Offset(rowPivots, k) + j < |RowPivotFields(rowPivots)|
    ensures RowPivotFields(rowPivots)[Offset(rowPivots, k) + j] == rowPivots[k].fields[j]
    ensures FieldAt(RowPivotFields(rowPivots), Offset(rowPivots, k) + j) == Some(rowPivots[k].fields[j])
  {
    var r := RowPivotFields(rowPivots);
    if k > 0 {
      var tail := rowPivots[1..];
      FieldOfPivot(tail, k - 1, j);
      assert tail[k - 1] == rowPivots[k];
      assert r == rowPivots[0].fields + RowPivotFields(tail);
      OffsetWithin(rowPivots, k);
    }
  }

  /** A pivot's fields end within the flattened list. */
  lemma {:induction false} OffsetWithin(rowPivots: seq<Pivot>, k: nat)
    requires k < |rowPivots|
    ensures Offset(rowPivots, k) + |rowPivots[k].fields| <= Offset(rowPivots, |rowPivots|)
  {
    if k > 0 {
      OffsetWithin(rowPivots[1..], k - 1);
      assert rowPivots[1..][k - 1] == rowPivots[k];
    }
  }

  /** The `.map((l, i) => mapKeys(l, rowPivotFields[i]))` step: segment `i`
      is mapped with the field of row pivot level `i`. */
  function MapSegments(segments: seq<string>, fields: seq<string>, mapKeys: (string, Option<string>) -> string): (r: seq<string>)
    ensures |r| == |segments|
    ensures forall i :: 0 <= i < |segments| ==> r[i] == mapKeys(segments[i], FieldAt(fields, i))
  {
    seq(|segments|, i requires 0 <= i < |segments| => mapKeys(segments[i], FieldAt(fields, i)))
  }

  /** `_mapKeys`: each label is split on the key separator, its segments are
      mapped level by level, and the results are joined with the human
      separator. `keySeparator` and `humanSeparator` are passed in; `mapKeys`
      (the `useMapKeys` hook) is an arbitrary function. */
  function MapKeys(labels: seq<string>, fields: seq<string>, mapKeys: (string, Option<string>) -> string,
                   keySeparator: char, humanSeparator: char): (r: seq<string>)
    ensures |r| == |labels|
    ensures forall k :: 0 <= k < |labels| ==>
      r[k] == Join(MapSegments(Split(labels[k], keySeparator), fields, mapKeys), [humanSeparator])
  {
    seq(|labels|, k requires 0 <= k < |labels| =>
      Join(MapSegments(Split(labels[k], keySeparator), fields, mapKeys), [humanSeparator]))
  }

  /** Splitting an output label on the human separator recovers, in order,
      one piece per key segment of the input label, piece `i` being segment
      `i` mapped with field `i` (as long as no mapped piece contains the human
      separator itself). */
  lemma MapKeysSegments(labels: seq<string>, fields: seq<string>, mapKeys: (string, Option<string>) -> string,
                        keySeparator: char, humanSeparator: char, k: int)
    requires 0 <= k < |labels|
    requires forall l, f :: humanSeparator !in mapKeys(l, f)
    ensures var segments := Split(labels[k], keySeparator);
      var pieces := Split(MapKeys(labels, fields, mapKeys, keySeparator, humanSeparator)[k], humanSeparator);
      |pieces| == |segments| &&
      forall i :: 0 <= i < |segments| ==> pieces[i] == mapKeys(segments[i], FieldAt(fields, i))
  {
    var mapped := MapSegments(Split(labels[k], keySeparator), fields, mapKeys);
    SplitJoin(mapped, humanSeparator);
  }

  /** With a key mapping that changes nothing and the same separator on both
      sides, the labels come back unchanged. */
  lemma MapKeysIdentity(labels: seq<string>, fields: seq<string>, mapKeys: (string, Option<string>) -> string, sep: char)
    requires forall l, f :: mapKeys(l, f) == l
    ensures MapKeys(labels, fields, mapKeys, sep, sep) == labels
  {
    forall k | 0 <= k < |labels|
      ensures MapKeys(labels, fields, mapKeys, sep, sep)[k] == labels[k]
    {
      var segments := Split(labels[k], sep);
      assert MapSegments(segments, fields, mapKeys) == segments;
      JoinSplit(labels[k], sep);
    }
  }

  /** For the widget's own row pivots: in every label, the segment at the
      position of field `j` of row pivot `k` is mapped with that field. */
  lemma SegmentMappedWithPivotField(labels: seq<string>, rowPivots: seq<Pivot>, mapKeys: (string, Option<string>) -> string,
                                    keySeparator: char, humanSeparator: char, l: nat, k: nat, j: nat)
    requires l < |labels| && k < |rowPivots| && j < |rowPivots[k].fields|
    requires Offset(rowPivots, k) + j < |Split(labels[l], keySeparator)|
    ensures var segments := Split(labels[l], keySeparator);
      var mapped := MapSegments(segments, RowPivotFields(rowPivots), mapKeys);
      var p := Offset(rowPivots, k) + j;
      MapKeys(labels, RowPivotFields(rowPivots), mapKeys, keySeparator, humanSeparator)[l] == Join(mapped, [humanSeparator]) &&
      mapped[p] == mapKeys(segments[p], Some(rowPivots[k].fields[j]))
  {
    FieldOfPivot(rowPivots, k, j);
  }

  // ---- Series generation ----

  /** What the chart-data hook hands the generator for one series. */
  datatype SeriesRow = SeriesRow(traceType: string, name: string, labels: seq<string>, values: seq<Value>, originalName: Option<string>)

  /** `_seriesGenerator`: type, names and values are copied as given, the
      labels become readable x values one for one (`_mapKeys` over the fields
      of the widget's row pivots), and the opacity comes from
      the visualization config, 1.0 when it sets none. */
  function SeriesGenerator(row: SeriesRow, configuredOpacity: Option<real>, config: WidgetConfig,
                           mapKeys: (string, Option<string>) -> string, keySeparator: char, humanSeparator: char): (s: Series)
    ensures s.traceType == row.traceType && s.name == row.name && s.originalName == row.originalName
    ensures s.y == Some(row.values)
    ensures s.x == Some(MapKeys(row.labels, RowPivotFields(config.rowPivots), mapKeys, keySeparator, humanSeparator))
    ensures |s.x.value| == |row.labels|
    ensures configuredOpacity.Some? ==> s.opacity == configuredOpacity
    ensures configuredOpacity.None? ==> s.opacity == Some(1.0)
    ensures s.width.None? && s.marker.None?
    ensures |row.labels| == |row.values| ==> |s.x.value| == |s.y.value|
  {
    Series(row.traceType, row.name, row.originalName,
           Some(MapKeys(row.labels, RowPivotFields(config.rowPivots), mapKeys, keySeparator, humanSeparator)),
           Some(row.values),
           Some(configuredOpacity.GetOr(1.0)), None, None)
  }

  // ---- Colours ----

  /** `fullData.find((d) => d.name === name)`, as an index. */
  function FirstNamed(data: seq<Series>, name: string): (r: Option<nat>)
    ensures r.Some? ==>
      r.value < |data| && data[r.value].name == name && forall j :: 0 <= j < r.value ==> data[j].name != name
    ensures r.None? ==> forall j :: 0 <= j < |data| ==> data[j].name != name
  {
    if |data| == 0 then None
    else if data[0].name == name then Some(0)
    else match FirstNamed(data[1..], name)
      case None => None
      case Some(i) => Some(i + 1)
  }

  /** `data?.marker?.color`. */
  function MarkerColor(s: Series): Option<string> {
    if s.marker.Some? then s.marker.value.color else None
  }

  /** `getChartColor`: the marker colour of the first series with that name;
      undefined when no series has it. */
  function GetChartColor(data: seq<Series>, name: string): (c: Option<string>)
    ensures (forall j :: 0 <= j < |data| ==> data[j].name != name) ==> c.None?
    ensures forall i :: 0 <= i < |data| && data[i].name == name && (forall j :: 0 <= j < i ==> data[j].name != name) ==>
      c == MarkerColor(data[i])
  {
    match FirstNamed(data, name)
    case None => None
    case Some(i) => MarkerColor(data[i])
  }

  /** `setChartColor`: a marker coloured by the colour mapper for the series'
      original name, or for its name when it has no original name. */
  function SetChartColor(chart: Series, colors: string -> string): (m: Marker)
    ensures chart.originalName.Some? ==> m == Marker(Some(colors(chart.originalName.value)))
    ensures chart.originalName.None? ==> m == Marker(Some(colors(chart.name)))
  {
    Marker(Some(colors(chart.originalName.GetOr(chart.name))))
  }

  /** Two series with the same original name get the same colour, however
      their displayed names were mapped. */
  lemma ColorFollowsOriginalName(a: Series, b: Series, colors: string -> string)
    requires a.originalName.Some? && a.originalName == b.originalName
    ensures SetChartColor(a, colors) == SetChartColor(b, colors)
  {
  }

  // ---- Assembling the plotted data ----

  /** `eventChartData ? [..._chartDataResult, eventChartData] : _chartDataResult`. */
  function WithEventSeries(data: seq<Series>, event: Option<Series>): (r: seq<Series>)
    ensures event.None? ==> r == data
    ensures event.Some? ==> |r| == |data| + 1 && r[..|data|] == data && r[|data|] == event.value
  {
    if event.Some? then data + [event.value] else data
  }

  /** The data handed to the plot: the generated series in order, the event
      series (when there is one) after all of them, then the single-bucket
      width rule over the lot. */
  function PlotData(series: seq<Series>, event: Option<Series>, config: WidgetConfig, fromMs: int, toMs: int): (r: seq<Series>)
    ensures |r| == |series| + (if event.Some? then 1 else 0)
    ensures forall i :: 0 <= i < |series| ==> r[i].(width := series[i].width) == series[i]
    ensures event.Some? ==> r[|series|].(width := event.value.width) == event.value
  {
    DefineSingleDateBarWidth(WithEventSeries(series, event), config, fromMs, toMs)
  }
}
