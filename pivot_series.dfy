/** The `latest` pivot series (`Latest.java`): a series spec that reports the
    most recent value of a field, and the AutoValue builder that fills in its
    id when none is given. */
module PivotSeries {
  import opened Wrappers

  /** `Latest.NAME`. */
  const Name: string := "latest"

  /** A built `Latest`. `type` and `id` are required AutoValue properties and so
      never null; `field` is required as well, but `literal()` still guards it
      with `Strings.nullToEmpty`, so it is kept nullable here and the builder is
      shown to always fill it. */
  datatype Latest = Latest(typ: string, id: string, field: Option<string>)

  /** `literal()`: the type, then the field (empty when null) in parentheses.
      The field can be read back from the literal. */
  function Literal(l: Latest): (r: string)
    ensures |r| == |l.typ| + |l.field.GetOr("")| + 2
    ensures r[..|l.typ|] == l.typ && r[|l.typ|] == '(' && r[|r| - 1] == ')'
    ensures r[|l.typ| + 1..|r| - 1] == l.field.GetOr("")
  {
    l.typ + "(" + l.field.GetOr("") + ")"
  }

  /** The exceptions the generated builder raises: reading `field()` before it
      was set, and `autoBuild()` finding required properties unset, all of
      which it names in one message. */
  datatype BuildError = PropertyNotSet(property: string) | MissingRequiredProperties(properties: seq<string>)

  /** Where a required property comes in the order `autoBuild()` checks them. */
  function Rank(property: string): nat {
    if property == "type" then 0 else if property == "id" then 1 else 2
  }

  /** What an AutoValue builder holds: each property is unset (None) or set. */
  datatype BuilderState = BuilderState(typ: Option<string>, id: Option<string>, field: Option<string>)

  /** The state `Latest.builder()` returns and `Builder.create()` hands to
      Jackson: only `type` is preset, to "latest". */
  function InitialBuilder(): (b: BuilderState)
    ensures b.typ == Some(Name) && b.id.None? && b.field.None?
  {
    BuilderState(Some(Name), None, None)
  }

  /** The id `build()` assigns when none was set. */
  function DefaultId(field: string): string {
    Name + "(" + field + ")"
  }

  /** The builder's state once `build()` ran its default-id step: an unset id
      becomes "latest(<field>)"; a set id is left alone; with neither set, the
      call to `field()` throws before anything is assigned. */
  function WithDefaultId(b: BuilderState): (b': BuilderState)
    ensures b'.typ == b.typ && b'.field == b.field
    ensures b.id.Some? ==> b'.id == b.id
    ensures b.id.None? && b.field.Some? ==> b'.id == Some(DefaultId(b.field.value))
    ensures b.id.None? && b.field.None? ==> b'.id.None?
  {
    if b.id.None? && b.field.Some? then b.(id := Some(DefaultId(b.field.value))) else b
  }

  /** `autoBuild()`: every required property must be set; otherwise it fails
      naming each unset one, in the order type, id, field. */
  function AutoBuild(b: BuilderState): (r: Result<Latest, BuildError>)
    ensures r.Success? <==> b.typ.Some? && b.id.Some? && b.field.Some?
    ensures r.Success? ==> Some(r.value.typ) == b.typ && Some(r.value.id) == b.id && r.value.field == b.field
    ensures r.Failure? ==> r.error.MissingRequiredProperties?
    ensures r.Failure? ==> var ps := r.error.properties;
      ("type" in ps <==> b.typ.None?) && ("id" in ps <==> b.id.None?) && ("field" in ps <==> b.field.None?) &&
      (forall i :: 0 <= i < |ps| - 1 ==> Rank(ps[i]) < Rank(ps[i + 1]))
  {
    var missing := (if b.typ.None? then ["type"] else []) + (if b.id.None? then ["id"] else [])
                   + (if b.field.None? then ["field"] else []);
    if |missing| > 0 then Failure(MissingRequiredProperties(missing))
    else Success(Latest(b.typ.value, b.id.value, b.field))
  }

  /** `Builder.build()`: the default-id step, then `autoBuild()`. */
  function BuildResult(b: BuilderState): (r: Result<Latest, BuildError>)
    ensures r.Success? <==> b.typ.Some? && b.field.Some?
    ensures b.typ.Some? && b.id.None? && b.field.None? ==> r == Failure(PropertyNotSet("field"))
  {
    if b.id.None? && b.field.None? then Failure(PropertyNotSet("field"))
    else AutoBuild(WithDefaultId(b))
  }

  /** A builder that did not set an id builds a series whose id is
      "latest(<field>)". */
  lemma BuildDefaultsId(b: BuilderState, f: string)
    requires b.typ.Some? && b.id.None? && b.field == Some(f)
    ensures BuildResult(b).Success? && BuildResult(b).value.id == Name + "(" + f + ")"
  {
  }

  /** A builder that set an id keeps it. */
  lemma BuildKeepsId(b: BuilderState, id: string)
    requires b.typ.Some? && b.id == Some(id) && b.field.Some?
    ensures BuildResult(b).Success? && BuildResult(b).value.id == id
  {
  }

  /** Every series built from a builder that started as `builder()` or
      `create()` has type "latest" and a non-null field. */
  lemma {:induction false} BuiltFromInitial(id: Option<string>, f: string)
    ensures var r := BuildResult(InitialBuilder().(id := id, field := Some(f)));
      r.Success? && r.value.typ == Name && r.value.field == Some(f)
  {
  }

  /** For a series built without an explicit id, the id equals the literal. */
  lemma DefaultIdIsLiteral(f: string)
    ensures var r := BuildResult(InitialBuilder().(field := Some(f)));
      r.Success? && r.value.id == Literal(r.value)
  {
  }

  /** `Latest.Builder`, whose setters and `build()` update it in place. */
  class Builder {
    var typ: Option<string>
    var id: Option<string>
    var field: Option<string>

    function State(): BuilderState
      reads this
    {
      BuilderState(typ, id, field)
    }

    /** `Latest.builder()`. */
    constructor ()
      ensures State() == InitialBuilder()
    {
      typ := Some(Name);
      id := None;
      field := None;
    }

    /** `Builder.create()`, the entry point Jackson uses: the same initial
        builder as `Latest.builder()`. */
    static method Create() returns (b: Builder)
      ensures fresh(b) && b.State() == InitialBuilder()
    {
      b := new Builder();
    }

    /** `id(String)`. */
    method SetId(value: string)
      modifies this
      ensures State() == old(State()).(id := Some(value))
    {
      id := Some(value);
    }

    /** `field(String)`. */
    method SetField(value: string)
      modifies this
      ensures State() == old(State()).(field := Some(value))
    {
      field := Some(value);
    }

    /** `build()`: assigns the default id in place when none was set, then
        builds. */
    method Build() returns (r: Result<Latest, BuildError>)
      modifies this
      ensures State() == WithDefaultId(old(State()))
      ensures r == BuildResult(old(State()))
    {
      if id.None? {
        if field.None? {
          return Failure(PropertyNotSet("field"));
        }
        id := Some(DefaultId(field.value));
      }
      assert State() == WithDefaultId(old(State()));
      var missing: seq<string> := [];
      if typ.None? {
        missing := missing + ["type"];
      }
      if id.None? {
        missing := missing + ["id"];
      }
      if field.None? {
        missing := missing + ["field"];
      }
      assert missing == (if typ.None? then ["type"] else []) + (if id.None? then ["id"] else [])
                        + (if field.None? then ["field"] else []);
      if |missing| > 0 {
        return Failure(MissingRequiredProperties(missing));
      }
      r := Success(Latest(typ.value, id.value, field));
    }
  }
}
