/** The tool codec: how a client's tool object survives decoding, JSON-RPC hops and rebuilding. */
module ToolCodec {
  import opened Wrappers
  import opened Json
  import opened Overlay

  datatype FunctionTool = FunctionTool(name: string, description: string, parameters: Option<Json>)

  datatype CustomTool = CustomTool(name: string, description: string, input: Option<Json>)

  datatype Tool = Tool(typ: string, function_: Option<FunctionTool>, custom: Option<CustomTool>, raw: Option<Json>)

  /** A raw message: present even when it is null. */
  function Raw(fields: Fields, key: string): Option<Json> {
    if key in fields then Some(fields[key]) else None
  }

  function DecodeFunction(j: Json): Option<FunctionTool> {
    var f :- AsFields(j);
    var name :- AsString(Field(f, "name"));
    var description :- AsString(Field(f, "description"));
    Some(FunctionTool(name, description, Raw(f, "parameters")))
  }

  function DecodeCustom(j: Json): Option<CustomTool> {
    var f :- AsFields(j);
    var name :- AsString(Field(f, "name"));
    var description :- AsString(Field(f, "description"));
    Some(CustomTool(name, description, Raw(f, "input")))
  }

  /** UnmarshalJSON on a fresh Tool; a type that is not a string is ignored. */
  function Unmarshal(j: Json): Option<Tool> {
    var m :- AsFields(j);
    var raw := if "raw" in m then m["raw"] else j;
    var typ := if "type" in m && m["type"].Str? then m["type"].s else "";
    if "function" in m && DecodeFunction(m["function"]).None? then None
    else if "custom" in m && DecodeCustom(m["custom"]).None? then None
    else
      Some(Tool(
             typ,
             if "function" in m then DecodeFunction(m["function"]) else None,
             if "custom" in m then DecodeCustom(m["custom"]) else None,
             Some(raw)))
  }

  /** Adds an entry unless it is empty. */
  function With(fields: Fields, key: string, value: Option<Json>): Fields {
    if value.Some? then fields[key := value.value] else fields
  }

  function NonEmpty(s: string): Option<Json> { if s == "" then None else Some(Str(s)) }

  function FunctionMap(f: FunctionTool): Fields {
    With(With(map["name" := Str(f.name)], "description", NonEmpty(f.description)), "parameters", f.parameters)
  }

  function CustomMap(c: CustomTool): Fields {
    With(With(With(map[], "name", NonEmpty(c.name)), "description", NonEmpty(c.description)), "input", c.input)
  }

  function ObjOf(f: Option<Fields>): Option<Json> { if f.Some? then Some(Obj(f.value)) else None }

  function FunctionField(t: Tool): Option<Fields> {
    if t.function_.Some? then Some(FunctionMap(t.function_.value)) else None
  }

  function CustomField(t: Tool): Option<Fields> {
    if t.custom.Some? then Some(CustomMap(t.custom.value)) else None
  }

  /** MarshalJSON; the struct tags of FunctionTool and CustomTool omit the same fields the two maps leave out. */
  function Marshal(t: Tool): Json {
    Obj(With(With(With(With(map[], "type", NonEmpty(t.typ)),
                       "function", ObjOf(FunctionField(t))),
                  "custom", ObjOf(CustomField(t))),
             "raw", t.raw))
  }

  /** Lays canonical fields over one nested object, or puts them there when it is none. */
  function Nest(out: Fields, key: string, canonical: Option<Fields>): Fields {
    if canonical.None? then out
    else if key in out && out[key].Obj? then out[key := Obj(Over(out[key].fields, canonical.value))]
    else out[key := Obj(canonical.value)]
  }

  function RawFields(t: Tool): Fields {
    if t.raw.Some? && t.raw.value.Obj? then t.raw.value.fields else map[]
  }

  function Upstream(t: Tool): Fields {
    Nest(Nest(With(RawFields(t), "type", NonEmpty(t.typ)), "function", FunctionField(t)), "custom", CustomField(t))
  }

  /** UpstreamObject, with the in-place overlay of module Overlay. */
  method UpstreamObject(t: Tool) returns (out: Fields)
    ensures out == Upstream(t)
  {
    out := map[];
    if t.raw.Some? && t.raw.value.Obj? {
      out := t.raw.value.fields;
    }
    if t.typ != "" {
      out := out["type" := Str(t.typ)];
    }
    if t.function_.Some? {
      var fn := FunctionMap(t.function_.value);
      if "function" in out && out["function"].Obj? {
        var existing := new JsonMap(out["function"].fields);
        existing.DeepOverlay(fn);
        out := out["function" := Obj(existing.fields)];
      } else {
        out := out["function" := Obj(fn)];
      }
    }
    if t.custom.Some? {
      var cu := CustomMap(t.custom.value);
      if "custom" in out && out["custom"].Obj? {
        var existing := new JsonMap(out["custom"].fields);
        existing.DeepOverlay(cu);
        out := out["custom" := Obj(existing.fields)];
      } else {
        out := out["custom" := Obj(cu)];
      }
    }
  }

  /** One entry laid over another. */
  function LaidOn(d: Option<Json>, s: Option<Json>): Option<Json> {
    if s.None? then d
    else if s.value.Obj? && d.Some? && d.value.Obj? then Some(Obj(Over(d.value.fields, s.value.fields)))
    else s
  }

  /**
   * Key by key: a type that is not empty replaces the raw one, function and custom part are laid over
   * the raw ones, and everything else is the raw form's.
   */
  lemma UpstreamByKey(t: Tool, key: string)
    ensures var raw := if t.raw.Some? && t.raw.value.Obj? then Raw(t.raw.value.fields, key) else None;
            Raw(Upstream(t), key)
            == if key == "type" && t.typ != "" then Some(Str(t.typ))
               else if key == "function" then LaidOn(raw, ObjOf(FunctionField(t)))
               else if key == "custom" then LaidOn(raw, ObjOf(CustomField(t)))
               else raw
  {
  }

  // ---- hops ------------------------------------------------------------------------------------

  lemma FunctionHop(f: FunctionTool)
    ensures DecodeFunction(Obj(FunctionMap(f))) == Some(f)
  {
  }

  lemma CustomHop(c: CustomTool)
    ensures DecodeCustom(Obj(CustomMap(c))) == Some(c)
  {
  }

  /** One JSON-RPC hop changes nothing about a tool that carries its raw form. */
  lemma HopIsIdentity(t: Tool)
    requires t.raw.Some?
    ensures Unmarshal(Marshal(t)) == Some(t)
  {
    var m := Marshal(t).fields;
    if t.function_.Some? {
      FunctionHop(t.function_.value);
    }
    if t.custom.Some? {
      CustomHop(t.custom.value);
    }
    assert "raw" in m && m["raw"] == t.raw.value;
    assert Raw(m, "type") == NonEmpty(t.typ);
    assert Raw(m, "function") == ObjOf(FunctionField(t)) && Raw(m, "custom") == ObjOf(CustomField(t));
  }

  /** The tool after `n` encodings and decodings. */
  function Hops(t: Tool, n: nat): Option<Tool>
    decreases n
  {
    if n == 0 then Some(t)
    else
      var once :- Unmarshal(Marshal(t));
      Hops(once, n - 1)
  }

  lemma {:induction false} HopsAreIdentity(t: Tool, n: nat)
    requires t.raw.Some?
    ensures Hops(t, n) == Some(t)
  {
    HopIsIdentity(t);
    if n > 0 {
      HopsAreIdentity(t, n - 1);
    }
  }

  // ---- fidelity ----------------------------------------------------------------------------------

  /** The tool objects that are rebuilt exactly. */
  predicate Faithful(o: Fields) {
    && "raw" !in o
    && ("function" in o ==> o["function"].Obj? && "name" in o["function"].fields && o["function"].fields["name"].Str?)
    && ("custom" in o ==> o["custom"].Obj?)
  }

  lemma FunctionWithin(o: Fields, f: FunctionTool)
    requires DecodeFunction(Obj(o)) == Some(f)
    ensures "name" in o && o["name"].Str? <==> Within(FunctionMap(f), o)
  {
  }

  lemma CustomWithin(o: Fields, c: CustomTool)
    requires DecodeCustom(Obj(o)) == Some(c)
    ensures Within(CustomMap(c), o)
  {
  }

  lemma FaithfulIsRebuilt(o: Fields, t: Tool)
    requires Unmarshal(Obj(o)) == Some(t) && Faithful(o)
    ensures Upstream(t) == o
  {
    var typed := With(o, "type", NonEmpty(t.typ));
    assert typed == o;
    if "function" in o {
      var fn := o["function"].fields;
      assert o["function"] == Obj(fn);
      FunctionWithin(fn, t.function_.value);
      OverlayWithin(fn, FunctionMap(t.function_.value));
    }
    if "custom" in o {
      var cu := o["custom"].fields;
      assert o["custom"] == Obj(cu);
      CustomWithin(cu, t.custom.value);
      OverlayWithin(cu, CustomMap(t.custom.value));
    }
  }

  lemma RebuiltIsFaithful(o: Fields, t: Tool)
    requires Unmarshal(Obj(o)) == Some(t) && Upstream(t) == o
    ensures Faithful(o)
  {
    assert "raw" in o ==> "raw" in RawFields(t) && RawFields(t)["raw"] == o["raw"];
    if "raw" in o {
      NoObjectContainsItself(RawFields(t), "raw");
    }
    if "function" in o {
      assert o["function"].Obj?;
      var fn := o["function"].fields;
      var m := FunctionMap(t.function_.value);
      assert o["function"] == Obj(fn) && "name" in m && m["name"].Str?;
      assert fn == Over(fn, m);
    }
  }

  lemma NoObjectContainsItself(f: Fields, k: string)
    requires k in f
    ensures f[k] != Obj(f)
  {
  }

  /**
   * A tool object that decodes is, after any number of hops, sent upstream exactly as the
   * client wrote it, if and only if it has no `raw` key of its own, its function is an
   * object with a string name, and its custom part is an object.
   */
  lemma {:induction false} ToolFidelity(o: Fields, n: nat)
    requires Unmarshal(Obj(o)).Some?
    ensures Hops(Unmarshal(Obj(o)).value, n).Some?
    ensures Upstream(Hops(Unmarshal(Obj(o)).value, n).value) == o <==> Faithful(o)
  {
    var t := Unmarshal(Obj(o)).value;
    HopsAreIdentity(t, n);
    if Faithful(o) {
      FaithfulIsRebuilt(o, t);
    }
    if Upstream(t) == o {
      RebuiltIsFaithful(o, t);
    }
  }

  /** Which tool objects decode at all. */
  lemma DecodesIff(o: Fields)
    ensures Unmarshal(Obj(o)).Some?
            <==> (forall key :: key in {"function", "custom"} && key in o ==>
                    && (o[key].Null? || o[key].Obj?)
                    && (o[key].Obj? ==> AsString(Field(o[key].fields, "name")).Some? &&
                                        AsString(Field(o[key].fields, "description")).Some?))
  {
  }
}
