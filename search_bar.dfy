/** The time-range picker of the search bar: `TimeRangeInput`, which owns
    whether the time-range dropdown is shown and checks the value's type
    against an allow-list, and `TimeRangeDropdownButton`, the button and
    preset menu in front of it. What the handlers do to the outside world
    (telemetry, `onChange`, the form's `submitForm`, blurring the button) is
    recorded, in order, in a trace. */
module SearchBar {
  import opened Wrappers

  // ---- Values ----

  /** `TimeRangeType`. */
  datatype TimeRangeType = Relative | Absolute | Keyword

  /** `TimeRange | NoTimeRangeOverride`. The empty object `{}` that stands for
      "no override" has no `type`; a time range carries its type and its
      remaining properties, which these components only pass on. */
  datatype TimeRange = NoOverride | Range(rangeType: TimeRangeType, properties: map<string, string>)

  /** The `Error` thrown for a value of a type outside the allow-list; it
      names the type and the list. */
  datatype InvalidTimeRangeType = InvalidTimeRangeType(valueType: TimeRangeType, validTypes: seq<TimeRangeType>)

  /** The check made on every render: it fails exactly when an allow-list is
      given and the value has a type that is not in it. A value without a type
      (including the default `{}`) and a missing allow-list never fail. */
  function CheckValidTypes(value: TimeRange, validTypes: Option<seq<TimeRangeType>>): (o: Outcome<InvalidTimeRangeType>)
    ensures o.Fail? <==> validTypes.Some? && value.Range? && value.rangeType !in validTypes.value
    ensures o.Fail? ==> o.error == InvalidTimeRangeType(value.rangeType, validTypes.value)
  {
    if validTypes.Some? && value.Range? && value.rangeType !in validTypes.value then
      Fail(InvalidTimeRangeType(value.rangeType, validTypes.value))
    else
      Pass
  }

  /** An empty allow-list is still given (`[]` is truthy), so it rejects every
      value that has a type. */
  lemma EmptyAllowListRejectsTypedValues(value: TimeRange)
    requires value.Range?
    ensures CheckValidTypes(value, Some([])).Fail?
  {
  }

  // ---- Effects ----

  /** A telemetry record as `sendTelemetry` receives it. */
  datatype TelemetryEvent = TelemetryEvent(eventType: string, appPathname: string, appSection: string,
                                           appActionValue: string, showing: bool)

  /** One call into the outside world. */
  datatype Effect =
    | Telemetry(event: TelemetryEvent)      // sendTelemetry(...)
    | ChangeTimeRange(range: TimeRange)     // setCurrentTimeRange / onChange(range)
    | SubmitForm                            // the form's submitForm()
    | BlurButton                            // e.currentTarget.blur()

  /** The record `toggleShow` sends, carrying the new visibility. */
  function ToggleTelemetry(showing: bool): Effect {
    Telemetry(TelemetryEvent("input_button_toggle", "search", "search-bar", "time-range-dropdown", showing))
  }

  /** The `showing` flags of the telemetry records of a trace, in order: one
      per record, so none exactly when the trace holds no telemetry, and the
      last one is that of the last record. */
  function Showings(effects: seq<Effect>): (r: seq<bool>)
    ensures |r| <= |effects|
    ensures r == [] <==> forall i :: 0 <= i < |effects| ==> !effects[i].Telemetry?
  {
    if |effects| == 0 then []
    else
      var last := effects[|effects| - 1];
      Showings(effects[..|effects| - 1]) + (if last.Telemetry? then [last.event.showing] else [])
  }

  lemma {:induction false} ShowingsAppend(a: seq<Effect>, b: seq<Effect>)
    ensures Showings(a + b) == Showings(a) + Showings(b)
  {
    if |b| > 0 {
      ShowingsAppend(a, b[..|b| - 1]);
      assert (a + b)[..|a + b| - 1] == a + b[..|b| - 1];
    } else {
      assert a + b == a;
    }
  }

  /** What the telemetry of a dropdown that started hidden looks like: the
      records alternate `showing: true`, `showing: false`, ..., and the
      dropdown is shown exactly when an odd number of them were sent, so the
      last record always tells the current visibility. */
  ghost predicate TelemetryMatches(show: bool, effects: seq<Effect>) {
    var s := Showings(effects);
    (forall k :: 0 <= k < |s| ==> s[k] == (k % 2 == 0)) && show == (|s| % 2 == 1)
  }

  // ---- TimeRangeInput's visibility, as values ----

  /** The visibility flag together with everything sent out so far. */
  datatype InputState = InputState(show: bool, effects: seq<Effect>)

  /** `toggleShow`: flip the flag and report the new value. */
  function Toggled(st: InputState): InputState {
    InputState(!st.show, st.effects + [ToggleTelemetry(!st.show)])
  }

  /** `hideTimeRangeDropDown`: toggle only when shown. */
  function Hidden(st: InputState): InputState {
    if st.show then Toggled(st) else st
  }

  /** Each toggle sends exactly one record, whose `showing` is the new flag. */
  lemma ToggleSendsOneRecord(st: InputState)
    ensures Toggled(st).show == !st.show
    ensures Toggled(st).effects == st.effects + [ToggleTelemetry(Toggled(st).show)]
  {
  }

  /** Two toggles restore the flag and send two records with opposite
      `showing` values. */
  lemma ToggleTwice(st: InputState)
    ensures Toggled(Toggled(st)).show == st.show
    ensures Toggled(Toggled(st)).effects == st.effects + [ToggleTelemetry(!st.show), ToggleTelemetry(st.show)]
  {
  }

  /** Hiding leaves the dropdown hidden; when it already was, nothing at all
      happens; hiding twice is hiding once. */
  lemma HideIdempotent(st: InputState)
    ensures !Hidden(st).show
    ensures !st.show ==> Hidden(st) == st
    ensures st.show ==> Hidden(st).effects == st.effects + [ToggleTelemetry(false)]
    ensures Hidden(Hidden(st)) == Hidden(st)
  {
  }

  /** A toggle keeps the telemetry matching the flag. */
  lemma ToggledMatches(st: InputState)
    requires TelemetryMatches(st.show, st.effects)
    ensures TelemetryMatches(Toggled(st).show, Toggled(st).effects)
  {
    ShowingsAppend(st.effects, [ToggleTelemetry(!st.show)]);
    assert Showings([ToggleTelemetry(!st.show)]) == [!st.show];
  }

  /** Effects other than telemetry leave the record of visibility as it was. */
  lemma NonTelemetryKeepsMatch(show: bool, effects: seq<Effect>, more: seq<Effect>)
    requires TelemetryMatches(show, effects)
    requires forall i :: 0 <= i < |more| ==> !more[i].Telemetry?
    ensures TelemetryMatches(show, effects + more)
  {
    ShowingsAppend(effects, more);
  }

  // ---- The components ----

  /** Where the effects go: the telemetry transport, the parent's `onChange`,
      the form and the DOM, seen as one ordered record of calls. */
  class Trace {
    var events: seq<Effect>

    constructor ()
      ensures events == []
    {
      events := [];
    }

    method Emit(e: Effect)
      modifies this
      ensures events == old(events) + [e]
    {
      events := events + [e];
    }
  }

  /** `TimeRangeInput`: the `show` state and the handlers it hands down. */
  class TimeRangeInput {
    var show: bool
    const trace: Trace

    ghost predicate Valid()
      reads this, trace
    {
      TelemetryMatches(show, trace.events)
    }

    function State(): InputState
      reads this, trace
    {
      InputState(show, trace.events)
    }

    /** A mounted input: `useState(false)`, nothing sent yet. */
    constructor ()
      ensures Valid() && fresh(trace)
      ensures State() == InputState(false, [])
    {
      show := false;
      trace := new Trace();
    }

    /** `toggleShow`. */
    method ToggleShow()
      requires Valid()
      modifies this, trace
      ensures Valid()
      ensures State() == Toggled(old(State()))
    {
      ToggledMatches(State());
      show := !show;
      trace.Emit(ToggleTelemetry(show));
    }

    /** `hideTimeRangeDropDown`: `show && toggleShow()`. */
    method HideTimeRangeDropDown()
      requires Valid()
      modifies this, trace
      ensures Valid()
      ensures State() == Hidden(old(State()))
    {
      if show {
        ToggleShow();
      }
    }
  }

  /** The effects of choosing a preset: the normalised range is applied, and
      the form is submitted afterwards only if it is valid. */
  function PresetEffects(range: TimeRange, isValid: bool): seq<Effect> {
    [ChangeTimeRange(range)] + (if isValid then [SubmitForm] else [])
  }

  /** `TimeRangeDropdownButton`, mounted inside `input`: `toggleShow` is the
      input's `ToggleShow`, `onPresetSelectOpen` its `HideTimeRangeDropDown`,
      and `setCurrentTimeRange` the input's `onChange`. `normalize` stands for
      `normalizeIfAllMessagesRange`. */
  class TimeRangeDropdownButton {
    const input: TimeRangeInput
    const normalize: TimeRange -> TimeRange

    constructor (input: TimeRangeInput, normalize: TimeRange -> TimeRange)
      ensures this.input == input && this.normalize == normalize
    {
      this.input := input;
      this.normalize := normalize;
    }

    /** `_onClick`: blur the button, then toggle exactly once. */
    method OnClick()
      requires input.Valid()
      modifies input, input.trace
      ensures input.Valid()
      ensures input.State() == Toggled(old(input.State()).(effects := old(input.trace.events) + [BlurButton]))
    {
      input.trace.Emit(BlurButton);
      NonTelemetryKeepsMatch(input.show, old(input.trace.events), [BlurButton]);
      input.ToggleShow();
    }

    /** `selectRelativeTimeRangePreset`: apply the normalised range exactly
        once, then submit exactly once if the form is valid; visibility is
        untouched. */
    method SelectRelativeTimeRangePreset(timerange: TimeRange, isValid: bool)
      requires input.Valid()
      modifies input.trace
      ensures input.Valid()
      ensures input.trace.events == old(input.trace.events) + PresetEffects(normalize(timerange), isValid)
    {
      input.trace.Emit(ChangeTimeRange(normalize(timerange)));
      if isValid {
        input.trace.Emit(SubmitForm);
      }
      NonTelemetryKeepsMatch(input.show, old(input.trace.events), PresetEffects(normalize(timerange), isValid));
    }

    /** `_onPresetSelectToggle`: opening the preset menu hides the dropdown;
        closing it does nothing. */
    method OnPresetSelectToggle(open: bool)
      requires input.Valid()
      modifies input, input.trace
      ensures input.Valid()
      ensures input.State() == if open then Hidden(old(input.State())) else old(input.State())
    {
      if open {
        input.HideTimeRangeDropDown();
      }
    }
  }
}
