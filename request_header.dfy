/** The `RequestHeader` attribute (app/Docs/RequestHeader.php): an immutable
    descriptor of one header a middleware expects, and its `dump()`
    projection into an OpenAPI parameter object. */
module Docs {
  import opened Values

  /** A value-shape descriptor (`SchemaInterface`). The schema classes are
      not part of this model: a schema is known only through the fragment
      its own `dump()` returns. */
  datatype Schema = Schema(dumped: Fragment)

  /** The readonly constructor fields; the three flags default to false,
      as the constructor's default arguments do. */
  datatype RequestHeader = RequestHeader(
    name: string,
    description: string,
    schema: Schema,
    required: bool := false,
    deprecated: bool := false,
    shouldMask: bool := false)

  /** The placeholder published instead of a sensitive example. */
  function Mask(): (m: string)
    ensures m == "<masked>"
  {
    "<masked>"
  }

  /** The keys every dump carries. */
  const DumpKeys: set<string> :=
    {"name", "description", "required", "deprecated", "example", "in", "schema", "x-masked"}

  /** `dump()`: the OpenAPI parameter object describing this header. */
  function Dump(h: RequestHeader): (d: Fragment)
    ensures d.Keys == DumpKeys
    ensures d["in"] == Str("header")
    ensures d["name"] == Str(h.name) && d["description"] == Str(h.description)
    ensures d["required"] == Bool(h.required) && d["deprecated"] == Bool(h.deprecated)
    ensures d["schema"] == Obj(h.schema.dumped)
    ensures d["x-masked"] == Bool(h.shouldMask)
    // masking: the example is the placeholder exactly when the flag is set, and is
    // otherwise empty, so no real value ever reaches the document
    ensures d["x-masked"] == Bool(true) <==> d["example"] == Str(Mask())
    ensures d["example"] == Null || d["example"] == Str(Mask())
  {
    map[
      "name" := Str(h.name),
      "description" := Str(h.description),
      "required" := Bool(h.required),
      "deprecated" := Bool(h.deprecated),
      "example" := if h.shouldMask then Str(Mask()) else Null,
      "in" := Str("header"),
      "schema" := Obj(h.schema.dumped),
      "x-masked" := Bool(h.shouldMask)
    ]
  }

  /** Reads a descriptor back from a dumped parameter object; `None` when
      the fragment is not shaped like a dump. */
  function Undump(d: Fragment): Option<RequestHeader> {
    if DumpKeys <= d.Keys
       && d["name"].Str? && d["description"].Str?
       && d["required"].Bool? && d["deprecated"].Bool?
       && d["schema"].Obj? && d["x-masked"].Bool?
    then
      Some(RequestHeader(d["name"].s, d["description"].s, Schema(d["schema"].fields),
                         d["required"].b, d["deprecated"].b, d["x-masked"].b))
    else
      None
  }

  /** Nothing the descriptor holds is lost by `dump()`: every field is
      copied unchanged, the mask flag through `x-masked`. */
  lemma DumpRoundTrip(h: RequestHeader)
    ensures Undump(Dump(h)) == Some(h)
  {
    var d := Dump(h);
    assert DumpKeys <= d.Keys;
  }

  /** Two descriptors with the same dump are the same descriptor. */
  lemma DumpInjective(h1: RequestHeader, h2: RequestHeader)
    requires Dump(h1) == Dump(h2)
    ensures h1 == h2
  {
    DumpRoundTrip(h1);
    DumpRoundTrip(h2);
  }

  /** A descriptor built with the constructor's defaults is optional,
      current and unmasked, and its dump carries a null example. */
  lemma DefaultsDump(name: string, description: string, schema: Schema)
    ensures var d := Dump(RequestHeader(name, description, schema));
      && d["required"] == Bool(false)
      && d["deprecated"] == Bool(false)
      && d["x-masked"] == Bool(false)
      && d["example"] == Null
  {
  }
}
