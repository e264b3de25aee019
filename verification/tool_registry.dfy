/** The tool registry of `src/bub/tools/registry.py`: a map from tool name
    to descriptor with an optional allow-set, the listings and texts derived
    from it, the conversion of command names to model tool names, and the
    argument rendering of the call log.

    The republic `Tool` handle is an opaque library object; it is reduced
    here to the fields the registry reads. */
module ToolRegistry {
  import opened Base
  import opened Json
  import opened Text
  import opened Order

  /** The library tool handle: its name, description, parameter schema, the
      dict `schema()` returns, and whether it takes a context argument. */
  datatype Tool = Tool(
    name: string,
    description: string,
    parameters: Json,
    schema: map<string, Json>,
    context: bool)

  /** `ToolDescriptor`. */
  datatype Descriptor = Descriptor(
    name: string,
    shortDescription: string,
    detail: string,
    tool: Tool,
    source: string)

  /** The registry's fields: `_tools` and `_allowed_tools`. */
  datatype State = State(tools: map<string, Descriptor>, allowed: Option<set<string>>)

  /** Every stored descriptor is stored under its own name, as `register`
      stores `_tools[name] = ToolDescriptor(name=name, ...)`. */
  predicate Keyed(st: State) {
    forall n :: n in st.tools ==> st.tools[n].name == n
  }

  type Registry = st: State | Keyed(st) witness State(map[], None)

  /** What `execute` and `detail` raise: `KeyError(name)` for an unknown
      tool, `ValueError` for two tools with one model name. */
  datatype RegistryError = UnknownTool(name: string) | DuplicateModelName(name: string)

  // ---------------------------------------------------------------------
  // Text helpers
  // ---------------------------------------------------------------------

  /** `_shorten_text`: at most `width` characters, cut anywhere, the cut
      marked by `placeholder`; when the placeholder alone does not fit, the
      placeholder is the whole result. */
  function ShortenText(text: string, width: int, placeholder: string): (r: string)
    ensures |text| <= width ==> r == text
    ensures |text| > width && width - |placeholder| <= 0 ==> r == placeholder
    ensures |text| > width && width - |placeholder| > 0 ==>
      && |r| == width
      && EndsWith(r, placeholder)
      && r[..width - |placeholder|] == text[..width - |placeholder|]
    ensures |r| <= |text| || r == placeholder
  {
    if |text| <= width then text
    else
      var available := width - |placeholder|;
      if available <= 0 then placeholder
      else text[..available] + placeholder
  }

  /** One closing step of `_log_tool_call`: a value that opens with `open`
      and does not end with `close` gets `close` appended. */
  function CloseWith(s: string, open: char, close: char): (r: string)
    ensures r == s || r == s + [close]
    ensures |s| > 0 && s[0] == open ==> r[|r| - 1] == close
    ensures r != s <==> |s| > 0 && s[0] == open && s[|s| - 1] != close
  {
    if |s| > 0 && s[0] == open && !EndsWith(s, [close]) then s + [close] else s
  }

  /** The three closing steps in the source's order: quote, brace, bracket. */
  function Balance(s: string): (r: string)
    ensures s <= r && |r| <= |s| + 1
    ensures |s| > 0 && s[0] == '"' ==> r[|r| - 1] == '"'
    ensures |s| > 0 && s[0] == '{' ==> r[|r| - 1] == '}'
    ensures |s| > 0 && s[0] == '[' ==> r[|r| - 1] == ']'
    ensures (|s| == 0 || (s[0] != '"' && s[0] != '{' && s[0] != '[')) ==> r == s
  {
    CloseWith(CloseWith(CloseWith(s, '"', '"'), '{', '}'), '[', ']')
  }

  /** The rendering of one keyword argument in the call log: its JSON text
      (`repr()` when JSON refuses it), cut to 60 characters, then closed. */
  function LogValue(c: Codec, v: Json): (r: string)
    ensures |r| <= 61
    ensures |r| > 0 && r[0] == '"' ==> r[|r| - 1] == '"'
    ensures |r| > 0 && r[0] == '{' ==> r[|r| - 1] == '}'
    ensures |r| > 0 && r[0] == '[' ==> r[|r| - 1] == ']'
    ensures Serializable(v) && |c.dumps(v)| <= 60 ==> c.dumps(v) <= r
    ensures !Serializable(v) && |c.repr(v)| <= 60 ==> c.repr(v) <= r
  {
    var rendered := if Serializable(v) then c.dumps(v) else c.repr(v);
    Balance(ShortenText(rendered, 60, "..."))
  }

  /** The keyword arguments the handler logs: all but `context`, in order. */
  function CallKwargs(kwargs: seq<(string, Json)>): (r: seq<(string, Json)>)
    ensures |r| <= |kwargs|
    ensures forall p :: p in r <==> p in kwargs && p.0 != "context"
    decreases |kwargs|
  {
    if |kwargs| == 0 then []
    else if kwargs[0].0 == "context" then CallKwargs(kwargs[1..])
    else [kwargs[0]] + CallKwargs(kwargs[1..])
  }

  /** The filter keeps the order: filtering a concatenation filters each
      half in place. */
  lemma {:induction false} CallKwargsAppend(a: seq<(string, Json)>, b: seq<(string, Json)>)
    ensures CallKwargs(a + b) == CallKwargs(a) + CallKwargs(b)
    decreases |a|
  {
    if |a| == 0 {
      assert a + b == b;
    } else {
      assert (a + b)[0] == a[0];
      assert (a + b)[1..] == a[1..] + b;
      CallKwargsAppend(a[1..], b);
    }
  }

  /** One `key=value` entry of the log line. */
  function LogPair(c: Codec, p: (string, Json)): string {
    p.0 + "=" + LogValue(c, p.1)
  }

  /** The `key=value, ...` part of the `tool.call.start` log line: every
      argument but `context` is shown, and nothing is shown when there is
      no other argument. */
  function LogParams(c: Codec, kwargs: seq<(string, Json)>): (r: string)
    ensures forall k :: 0 <= k < |kwargs| && kwargs[k].0 != "context" ==> Contains(r, LogPair(c, kwargs[k]))
    ensures (forall k :: 0 <= k < |kwargs| ==> kwargs[k].0 == "context") ==> r == ""
  {
    var ck := CallKwargs(kwargs);
    var parts := seq(|ck|, i requires 0 <= i < |ck| => LogPair(c, ck[i]));
    LogParamsShown(c, kwargs, ck, parts);
    Join(", ", parts)
  }

  lemma LogParamsShown(c: Codec, kwargs: seq<(string, Json)>, ck: seq<(string, Json)>, parts: seq<string>)
    requires ck == CallKwargs(kwargs)
    requires |parts| == |ck| && forall i :: 0 <= i < |ck| ==> parts[i] == LogPair(c, ck[i])
    ensures forall k :: 0 <= k < |kwargs| && kwargs[k].0 != "context" ==> Contains(Join(", ", parts), LogPair(c, kwargs[k]))
    ensures (forall k :: 0 <= k < |kwargs| ==> kwargs[k].0 == "context") ==> parts == []
  {
    forall k | 0 <= k < |kwargs| && kwargs[k].0 != "context"
      ensures Contains(Join(", ", parts), LogPair(c, kwargs[k]))
    {
      assert kwargs[k] in ck;
      var i :| 0 <= i < |ck| && ck[i] == kwargs[k];
      JoinContainsPart(", ", parts, i);
    }
    if |parts| > 0 && forall k :: 0 <= k < |kwargs| ==> kwargs[k].0 == "context" {
      assert ck[0] in kwargs;
    }
  }

  // ---------------------------------------------------------------------
  // Model names
  // ---------------------------------------------------------------------

  /** `to_model_name`: every `.` becomes `_`. */
  function ToModelName(name: string): (r: string)
    ensures |r| == |name|
    ensures forall i :: 0 <= i < |r| ==> r[i] != '.'
    ensures forall i :: 0 <= i < |name| && name[i] != '.' ==> r[i] == name[i]
  {
    seq(|name|, i requires 0 <= i < |name| => if name[i] == '.' then '_' else name[i])
  }

  /** The conversion is `name.replace(".", "_")`. */
  lemma {:induction false} ToModelNameIsReplace(name: string)
    ensures ToModelName(name) == ReplaceAll(name, ".", "_")
    decreases |name|
  {
    if |name| > 0 {
      ToModelNameIsReplace(name[1..]);
      assert ToModelName(name) == [ToModelName(name)[0]] + ToModelName(name[1..]);
      assert "." <= name <==> name[0] == '.';
    }
  }

  lemma ToModelNameIdempotent(name: string)
    ensures ToModelName(ToModelName(name)) == ToModelName(name)
  {
  }

  // ---------------------------------------------------------------------
  // Registration and lookup
  // ---------------------------------------------------------------------

  /** The allow gate of `register`: no allow-set, or the case-folded name or
      case-folded model name is in it. The set's own entries are compared
      as they are. */
  predicate Admitted(allowed: Option<set<string>>, name: string) {
    allowed.None? || CaseFold(name) in allowed.value || CaseFold(ToModelName(name)) in allowed.value
  }

  /** `ToolRegistry.register(...)(func)`: `detail` and `doc` are the
      `detail` argument and `func.__doc__`; `parameters` and `schema` are
      what the library derives for the wrapped handler. */
  function Register(
    reg: Registry, name: string, shortDescription: string,
    detail: Option<string>, doc: Option<string>,
    parameters: Json, schema: map<string, Json>, context: bool, source: string
  ): (r: (Registry, Option<Descriptor>))
    ensures r.1.None? <==> !Admitted(reg.allowed, name)
    ensures r.1.None? ==> r.0 == reg
    ensures r.0.allowed == reg.allowed
    ensures r.1.Some? ==>
      && name in r.0.tools && r.0.tools[name] == r.1.value
      && r.0.tools.Keys == reg.tools.Keys + {name}
      && (forall n :: n in reg.tools && n != name ==> r.0.tools[n] == reg.tools[n])
    ensures r.1.Some? ==>
      var d := r.1.value;
      && d.name == name && d.shortDescription == shortDescription && d.source == source
      && d.tool.name == name && d.tool.description == shortDescription && d.tool.context == context
      && (Given(detail) ==> d.detail == detail.value)
      && (!Given(detail) && Given(doc) ==> d.detail == doc.value)
      && (!Given(detail) && !Given(doc) ==> d.detail == "")
  {
    var toolDetail := if Given(detail) then detail.value else if Given(doc) then doc.value else "";
    if !Admitted(reg.allowed, name) then (reg, None)
    else
      var d := Descriptor(name, shortDescription, toolDetail, Tool(name, shortDescription, parameters, schema, context), source);
      (reg.(tools := reg.tools[name := d]), Some(d))
  }

  /** Registering a name again replaces the first registration entirely. */
  lemma RegisterLastWriteWins(
    reg: Registry, name: string,
    s1: string, dt1: Option<string>, doc1: Option<string>, p1: Json, sc1: map<string, Json>, c1: bool, src1: string,
    s2: string, dt2: Option<string>, doc2: Option<string>, p2: Json, sc2: map<string, Json>, c2: bool, src2: string)
    ensures var mid := Register(reg, name, s1, dt1, doc1, p1, sc1, c1, src1).0;
      Register(mid, name, s2, dt2, doc2, p2, sc2, c2, src2) == Register(reg, name, s2, dt2, doc2, p2, sc2, c2, src2)
  {
    var mid := Register(reg, name, s1, dt1, doc1, p1, sc1, c1, src1).0;
    if Admitted(reg.allowed, name) {
      var d2 := Register(reg, name, s2, dt2, doc2, p2, sc2, c2, src2).1.value;
      assert mid.tools == reg.tools[name := mid.tools[name]];
      assert mid.tools[name := d2] == reg.tools[name := d2];
    }
  }

  /** An allow-set entry holding an upper-case letter admits nothing: the
      candidate names are case-folded, the entries are not. */
  lemma UpperCaseEntriesAdmitNothing(allowed: set<string>, name: string)
    requires forall a :: a in allowed ==> exists i :: 0 <= i < |a| && 'A' <= a[i] <= 'Z'
    ensures !Admitted(Some(allowed), name)
  {
    forall x | x == CaseFold(name) || x == CaseFold(ToModelName(name))
      ensures x !in allowed
    {
      assert forall i :: 0 <= i < |x| ==> !('A' <= x[i] <= 'Z');
    }
  }

  /** `has`: some stored descriptor carries the name. */
  predicate Has(reg: Registry, name: string): (r: bool)
    ensures r <==> exists d :: d in reg.tools.Values && d.name == name
  {
    assert name in reg.tools ==> reg.tools[name] in reg.tools.Values;
    name in reg.tools
  }

  /** `get`. */
  function Get(reg: Registry, name: string): (r: Option<Descriptor>)
    ensures r.Some? <==> Has(reg, name)
    ensures r.Some? ==> r.value.name == name && r.value == reg.tools[name]
  {
    if name in reg.tools then Some(reg.tools[name]) else None
  }

  // ---------------------------------------------------------------------
  // Listings
  // ---------------------------------------------------------------------

  function Names(ds: seq<Descriptor>): (r: seq<string>)
    ensures |r| == |ds|
  {
    seq(|ds|, i requires 0 <= i < |ds| => ds[i].name)
  }

  /** The descriptors in ascending name order. */
  ghost function Listed(reg: Registry): seq<Descriptor> {
    var ks := SortedListing(reg.tools.Keys);
    seq(|ks|, i requires 0 <= i < |ks| => reg.tools[ks[i]])
  }

  /** `descriptors()`: every stored descriptor once, sorted strictly by name. */
  method Descriptors(reg: Registry) returns (ds: seq<Descriptor>)
    ensures |ds| == |reg.tools|
    ensures StrictlySorted(Names(ds))
    ensures forall i :: 0 <= i < |ds| ==> ds[i].name in reg.tools && reg.tools[ds[i].name] == ds[i]
    ensures forall n :: n in reg.tools ==> reg.tools[n] in ds
    ensures ds == Listed(reg)
  {
    var ks := SortedKeys(reg.tools);
    ds := seq(|ks|, i requires 0 <= i < |ks| => reg.tools[ks[i]]);
    assert Names(ds) == ks;
    forall n | n in reg.tools
      ensures reg.tools[n] in ds
    {
      var i :| 0 <= i < |ks| && ks[i] == n;
      assert ds[i] == reg.tools[n];
    }
  }

  /** The name a row or a detail shows: the model name in model mode. */
  function DisplayName(d: Descriptor, forModel: bool): string {
    if forModel then ToModelName(d.name) else d.name
  }

  /** One row of `compact_rows`. */
  function Row(d: Descriptor, forModel: bool): (r: string)
    ensures DisplayName(d, forModel) + " " <= r || DisplayName(d, forModel) + ":" <= r
    ensures EndsWith(r, ": " + d.shortDescription)
    ensures var shown := DisplayName(d, forModel);
      (r == shown + " (command: " + d.name + "): " + d.shortDescription <==> forModel && shown != d.name)
      && (r == shown + ": " + d.shortDescription <==> !(forModel && shown != d.name))
  {
    var shown := DisplayName(d, forModel);
    if forModel && shown != d.name then shown + " (command: " + d.name + "): " + d.shortDescription
    else shown + ": " + d.shortDescription
  }

  /** `compact_rows(for_model=...)`: one row per descriptor, in name order. */
  method CompactRows(reg: Registry, forModel: bool) returns (rows: seq<string>)
    ensures |rows| == |reg.tools|
    ensures forall i :: 0 <= i < |rows| ==> rows[i] == Row(Listed(reg)[i], forModel)
    ensures !forModel ==> forall i :: 0 <= i < |rows| ==> rows[i] == Listed(reg)[i].name + ": " + Listed(reg)[i].shortDescription
  {
    var ds := Descriptors(reg);
    rows := seq(|ds|, i requires 0 <= i < |ds| => Row(ds[i], forModel));
  }

  /** The schema `detail` shows in model mode: a copy whose `function.name`
      is the display name when `function` is a dict. */
  function ModelSchema(schema: map<string, Json>, shown: string): (r: map<string, Json>)
    ensures r.Keys == schema.Keys
    ensures forall k :: k in schema && k != "function" ==> r[k] == schema[k]
    ensures "function" in schema && schema["function"].Obj? ==>
      && r["function"].Obj?
      && r["function"].fields.Keys == schema["function"].fields.Keys + {"name"}
      && r["function"].fields["name"] == Str(shown)
      && (forall k :: k in schema["function"].fields && k != "name" ==> r["function"].fields[k] == schema["function"].fields[k])
    ensures !("function" in schema && schema["function"].Obj?) ==> r == schema
  {
    if "function" in schema && schema["function"].Obj? then
      schema["function" := Obj(schema["function"].fields["name" := Str(shown)])]
    else schema
  }

  /** `detail(name, for_model=...)`: `KeyError` for an unknown name,
      otherwise the text laid out by `DetailShape`. */
  function Detail(c: Codec, reg: Registry, name: string, forModel: bool): (r: Result<string, RegistryError>)
    ensures r.Failure? <==> !Has(reg, name)
    ensures r.Failure? ==> r.error == UnknownTool(name)
  {
    if name !in reg.tools then Failure(UnknownTool(name))
    else
      var d := reg.tools[name];
      var shown := DisplayName(d, forModel);
      var schema := if forModel then ModelSchema(d.tool.schema, shown) else d.tool.schema;
      var head := "name: " + shown + "\n";
      var commandLine := if forModel && shown != d.name then "command_name: " + d.name + "\n" else "";
      var middle := "source: " + d.source + "\n" + "description: " + d.shortDescription;
      var tail := "\ndetail: " + d.detail + "\nschema: " + c.show(Obj(schema));
      Success(head + commandLine + middle + tail)
  }

  lemma ConcatFour(a: string, b: string, m: string, t: string)
    ensures a <= a + b + m + t
    ensures (a + b + m + t)[|a|..] == b + m + t
    ensures EndsWith(a + b + m + t, t)
  {
    assert a + b + m + t == a + (b + m + t);
    assert a + b + m + t == (a + b + m) + t;
  }

  lemma PrefixThrough(x: string, y: string, z: string, w: string)
    requires y <= z
    ensures x + y <= x + z + w
  {
    assert (x + z + w)[..|x + y|] == x + y;
  }

  /** The layout of a `detail` text: the name line (the model name in model
      mode), the `command_name:` line exactly when model mode changes the
      name, the source line, and last the detail and the `str()` of the
      schema, which in model mode is the renamed copy. */
  lemma DetailShape(c: Codec, reg: Registry, name: string, forModel: bool)
    requires Has(reg, name)
    ensures var r := Detail(c, reg, name, forModel).value;
      var d := reg.tools[name];
      var shown := DisplayName(d, forModel);
      var head := "name: " + shown + "\n";
      && head <= r
      && (forModel && shown != name ==> "command_name: " + name + "\n" + "source: " <= r[|head|..])
      && (!(forModel && shown != name) ==> "source: " <= r[|head|..])
      && EndsWith(r, "\ndetail: " + d.detail + "\nschema: "
           + c.show(Obj(if forModel then ModelSchema(d.tool.schema, shown) else d.tool.schema)))
  {
    var d := reg.tools[name];
    var shown := DisplayName(d, forModel);
    var schema := if forModel then ModelSchema(d.tool.schema, shown) else d.tool.schema;
    var head := "name: " + shown + "\n";
    var commandLine := if forModel && shown != d.name then "command_name: " + d.name + "\n" else "";
    var middle := "source: " + d.source + "\n" + "description: " + d.shortDescription;
    var tail := "\ndetail: " + d.detail + "\nschema: " + c.show(Obj(schema));
    assert Detail(c, reg, name, forModel).value == head + commandLine + middle + tail;
    ConcatFour(head, commandLine, middle, tail);
    assert "source: " <= middle;
    PrefixThrough(commandLine, "source: ", middle, tail);
  }

  /** The tool handed to the model: the stored tool renamed to its model name. */
  datatype ModelTool = ModelTool(name: string, description: string, parameters: Json, context: bool)

  function AsModelTool(d: Descriptor): ModelTool {
    ModelTool(ToModelName(d.name), d.tool.description, d.tool.parameters, d.tool.context)
  }

  /** Two stored names that convert to one model name. */
  predicate Collide(tools: map<string, Descriptor>) {
    exists a, b :: a in tools && b in tools && a != b && ToModelName(a) == ToModelName(b)
  }

  /** Two descriptors of a strictly sorted listing with one model name are
      two stored names that collide. */
  lemma SharedModelNameCollides(reg: Registry, ds: seq<Descriptor>, k: nat, i: nat)
    requires StrictlySorted(Names(ds))
    requires forall j :: 0 <= j < |ds| ==> ds[j].name in reg.tools
    requires k < i < |ds| && ToModelName(ds[k].name) == ToModelName(ds[i].name)
    ensures ds[k].name != ds[i].name
    ensures Collide(reg.tools)
  {
    assert Below(Names(ds)[k], Names(ds)[i]);
    BelowIrreflexive(ds[i].name);
  }

  /** A listing of every stored name whose model names are pairwise
      distinct leaves no collision. */
  lemma DistinctModelNamesNoCollision(reg: Registry, ds: seq<Descriptor>)
    requires forall n :: n in reg.tools ==> reg.tools[n] in ds
    requires forall k, l :: 0 <= k < l < |ds| ==> ToModelName(ds[k].name) != ToModelName(ds[l].name)
    ensures !Collide(reg.tools)
  {
    forall a, b | a in reg.tools && b in reg.tools && a != b
      ensures ToModelName(a) != ToModelName(b)
    {
      var p :| 0 <= p < |ds| && ds[p] == reg.tools[a];
      var q :| 0 <= q < |ds| && ds[q] == reg.tools[b];
      assert p != q;
    }
  }

  /** The loop of `model_tools` over a listing: the renamed tools, or the
      first model name met twice. */
  method RenameListing(ds: seq<Descriptor>) returns (r: Result<seq<ModelTool>, RegistryError>)
    ensures r.Failure? ==>
      exists k, i :: && 0 <= k < i < |ds|
                     && ToModelName(ds[k].name) == ToModelName(ds[i].name)
                     && r.error == DuplicateModelName(ToModelName(ds[i].name))
                     && forall a, b :: 0 <= a < b < i ==> ToModelName(ds[a].name) != ToModelName(ds[b].name)
    ensures r.Success? ==> |r.value| == |ds|
    ensures r.Success? ==> forall k :: 0 <= k < |ds| ==> r.value[k] == AsModelTool(ds[k])
    ensures r.Success? ==> forall k, l :: 0 <= k < l < |ds| ==> ToModelName(ds[k].name) != ToModelName(ds[l].name)
  {
    var tools: seq<ModelTool> := [];
    var seen: set<string> := {};
    var i := 0;
    while i < |ds|
      invariant 0 <= i <= |ds|
      invariant |tools| == i
      invariant forall k :: 0 <= k < i ==> tools[k] == AsModelTool(ds[k])
      invariant seen == set k | 0 <= k < i :: ToModelName(ds[k].name)
      invariant forall k, l :: 0 <= k < l < i ==> ToModelName(ds[k].name) != ToModelName(ds[l].name)
    {
      var m := ToModelName(ds[i].name);
      if m in seen {
        return Failure(DuplicateModelName(m));
      }
      seen := seen + {m};
      tools := tools + [AsModelTool(ds[i])];
      i := i + 1;
    }
    return Success(tools);
  }

  /** `model_tools()`: `ValueError` when two stored names share a model name;
      otherwise one renamed tool per descriptor, in name order, with
      pairwise distinct names. */
  method ModelTools(reg: Registry) returns (r: Result<seq<ModelTool>, RegistryError>)
    ensures r.Failure? <==> Collide(reg.tools)
    ensures r.Failure? ==>
      && r.error.DuplicateModelName?
      && exists a, b :: a in reg.tools && b in reg.tools && a != b
           && ToModelName(a) == r.error.name && ToModelName(b) == r.error.name
    ensures r.Success? ==> |r.value| == |reg.tools|
    ensures r.Success? ==> forall i :: 0 <= i < |r.value| ==> r.value[i] == AsModelTool(Listed(reg)[i])
    ensures r.Success? ==> forall i, j :: 0 <= i < j < |r.value| ==> r.value[i].name != r.value[j].name
  {
    var ds := Descriptors(reg);
    r := RenameListing(ds);
    if r.Failure? {
      var k, i :| 0 <= k < i < |ds| && ToModelName(ds[k].name) == ToModelName(ds[i].name)
        && r.error == DuplicateModelName(ToModelName(ds[i].name));
      SharedModelNameCollides(reg, ds, k, i);
      assert ds[k].name in reg.tools && ds[i].name in reg.tools;
    } else {
      DistinctModelNamesNoCollision(reg, ds);
    }
  }

  /** `execute(name, kwargs=..., context=...)` up to running the tool: the
      keyword arguments the tool is run with, `context` added exactly when
      the tool takes one. `context` is the `ToolContext` (an `Opaque`
      value, or `Null` for None). */
  function Execute(reg: Registry, name: string, kwargs: map<string, Json>, context: Json): (r: Result<map<string, Json>, RegistryError>)
    ensures r.Failure? <==> !Has(reg, name)
    ensures r.Failure? ==> r.error == UnknownTool(name)
    ensures r.Success? ==> forall k :: k != "context" ==> (k in r.value <==> k in kwargs)
    ensures r.Success? ==> forall k :: k in kwargs && k != "context" ==> r.value[k] == kwargs[k]
    ensures r.Success? && reg.tools[name].tool.context ==> "context" in r.value && r.value["context"] == context
    ensures r.Success? && !reg.tools[name].tool.context ==> r.value == kwargs
  {
    if name !in reg.tools then Failure(UnknownTool(name))
    else if reg.tools[name].tool.context then Success(kwargs["context" := context])
    else Success(kwargs)
  }
}
