/** The tape compiler of `src/bub/tape/context.py`: `_select_messages` folds
    an ordered list of tape entries (`message`, `tool_call`, `tool_result`)
    into the role-tagged messages a model call consumes, keeping a buffer of
    pending tool calls so that results are paired with calls by position,
    and repairing malformed `function.arguments` on the way. */
module TapeContext {
  import opened Base
  import opened Json

  /** A tape entry: its kind tag and its payload. */
  datatype Entry = Entry(kind: string, payload: Json)

  /** A derived message, a tool call and a tool-call function are dicts. */
  type Message = map<string, Json>
  type Call = map<string, Json>

  /** What makes `_select_messages` raise: `payload.get` on a payload that is
      not a dict (AttributeError), or `json.dumps` on dict arguments holding
      an object it cannot encode (TypeError). */
  datatype Failure = PayloadNotMapping | ArgumentsNotSerializable

  /** The fold's state: messages emitted so far and the pending calls. */
  datatype State = State(messages: seq<Message>, pending: seq<Call>)

  // ---------------------------------------------------------------------
  // Reading tool calls
  // ---------------------------------------------------------------------

  /** `call.get("function")` when it is a dict. */
  function FunctionOf(call: Call): Option<map<string, Json>> {
    var fn := Get(call, "function");
    if fn.Obj? then Some(fn.fields) else None
  }

  /** `call["id"]` when it is a non-empty string. */
  function CallId(call: Call): Option<string> {
    match Get(call, "id")
    case Str(s) => if s != "" then Some(s) else None
    case _ => None
  }

  /** `call["function"]["name"]` when the function is a dict and the name a
      non-empty string. */
  function CallName(call: Call): Option<string> {
    match FunctionOf(call)
    case None => None
    case Some(fn) =>
      match Get(fn, "name")
      case Str(s) => if s != "" then Some(s) else None
      case _ => None
  }

  /** `b` is `a` with at most `function.arguments` changed (or added). */
  predicate OnlyArgumentsDiffer(a: Call, b: Call) {
    && a - {"function"} == b - {"function"}
    && match FunctionOf(a)
       case None => a == b
       case Some(fa) => FunctionOf(b).Some? && FunctionOf(b).value - {"arguments"} == fa - {"arguments"}
  }

  lemma OnlyArgumentsDifferKeepsIdentity(a: Call, b: Call)
    requires OnlyArgumentsDiffer(a, b)
    ensures CallId(a) == CallId(b) && CallName(a) == CallName(b)
  {
    assert Get(a, "id") == Get(b, "id") by {
      assert "id" in a <==> "id" in a - {"function"};
      assert "id" in b <==> "id" in b - {"function"};
    }
    if FunctionOf(a).Some? {
      var fa, fb := FunctionOf(a).value, FunctionOf(b).value;
      assert Get(fa, "name") == Get(fb, "name") by {
        assert "name" in fa <==> "name" in fa - {"arguments"};
        assert "name" in fb <==> "name" in fb - {"arguments"};
      }
    }
  }

  // ---------------------------------------------------------------------
  // `_sanitize_tool_call`
  // ---------------------------------------------------------------------

  /** The call with `function.arguments` replaced by `a`. */
  function WithArguments(call: Call, fn: map<string, Json>, a: Json): Call {
    call["function" := Obj(fn["arguments" := a])]
  }

  /** Makes `function.arguments` a JSON string: dict arguments are encoded,
      a string `json.loads` rejects and a missing or `None` value become
      `"{}"`, and every other shape is left as it is. */
  function SanitizeToolCall(c: Codec, call: Call): (r: Result<Call, Failure>)
    ensures FunctionOf(call).None? ==> r == Success(call)
    ensures r.Success? ==> OnlyArgumentsDiffer(call, r.value)
    ensures FunctionOf(call).Some? ==>
      var a := Get(FunctionOf(call).value, "arguments");
      && (r.Failure? <==> a.Obj? && !Serializable(a))
      && (r.Success? ==> var a' := Get(FunctionOf(r.value).value, "arguments");
           && (a.Obj? ==> a' == Str(c.dumps(a)))
           && (a.Str? ==> a' == if c.loads(a.s) then a else Str("{}"))
           && (a.Null? ==> a' == Str("{}"))
           && (!a.Obj? && !a.Str? && !a.Null? ==> r.value == call))
  {
    match FunctionOf(call)
    case None => Success(call)
    case Some(fn) =>
      var a := Get(fn, "arguments");
      match a
      case Obj(_) =>
        if Serializable(a) then Success(WithArguments(call, fn, Str(c.dumps(a))))
        else Failure(ArgumentsNotSerializable)
      case Str(s) =>
        if c.loads(s) then Success(call) else Success(WithArguments(call, fn, Str("{}")))
      case Null => Success(WithArguments(call, fn, Str("{}")))
      case _ => Success(call)
  }

  /** `function.arguments` is as the sanitizer leaves it: a string that
      `json.loads` accepts, or a shape the sanitizer does not touch. */
  predicate ArgumentsSettled(c: Codec, call: Call) {
    match FunctionOf(call)
    case None => true
    case Some(fn) =>
      match Get(fn, "arguments")
      case Str(s) => c.loads(s)
      case Obj(_) => false
      case Null => false
      case _ => true
  }

  /** One pass settles the arguments. */
  lemma SanitizeSettles(c: Codec, call: Call)
    requires Sound(c)
    requires SanitizeToolCall(c, call).Success?
    ensures ArgumentsSettled(c, SanitizeToolCall(c, call).value)
  {
  }

  /** The sanitizer's fixed points are exactly the settled calls. */
  lemma SettledIffFixed(c: Codec, call: Call)
    requires Sound(c)
    ensures SanitizeToolCall(c, call) == Success(call) <==> ArgumentsSettled(c, call)
  {
    if FunctionOf(call).Some? && SanitizeToolCall(c, call) == Success(call) {
      var a := Get(FunctionOf(call).value, "arguments");
      assert a == Get(FunctionOf(SanitizeToolCall(c, call).value).value, "arguments");
    }
  }

  /** Sanitizing twice is sanitizing once. */
  lemma SanitizeIdempotent(c: Codec, call: Call)
    requires Sound(c)
    requires SanitizeToolCall(c, call).Success?
    ensures var once := SanitizeToolCall(c, call).value;
      SanitizeToolCall(c, once) == Success(once)
  {
    var once := SanitizeToolCall(c, call).value;
    SanitizeSettles(c, call);
    SettledIffFixed(c, once);
  }

  // ---------------------------------------------------------------------
  // `_normalize_tool_calls`
  // ---------------------------------------------------------------------

  /** The dict items of a list, in order: every kept call comes from a
      dict item, and nothing is kept exactly when the list holds no dict.
      That every dict item is kept, in its place, is `MappingsKeepsDicts`. */
  function Mappings(items: seq<Json>): (r: seq<Call>)
    ensures |r| <= |items|
    ensures forall k :: 0 <= k < |r| ==> Obj(r[k]) in items
    ensures r == [] <==> forall i :: 0 <= i < |items| ==> !items[i].Obj?
    decreases |items|
  {
    if |items| == 0 then []
    else
      assert forall i :: 1 <= i < |items| ==> items[1..][i - 1] == items[i];
      (if items[0].Obj? then [items[0].fields] else []) + Mappings(items[1..])
  }

  /** The filter keeps the order: the dict items of a concatenation are
      those of each half, in place. */
  lemma {:induction false} MappingsAppend(a: seq<Json>, b: seq<Json>)
    ensures Mappings(a + b) == Mappings(a) + Mappings(b)
    decreases |a|
  {
    if |a| == 0 {
      assert a + b == b;
    } else {
      assert (a + b)[0] == a[0];
      assert (a + b)[1..] == a[1..] + b;
      MappingsAppend(a[1..], b);
    }
  }

  /** Every dict item is kept, right after the dict items before it. */
  lemma MappingsKeepsDicts(items: seq<Json>, i: int)
    requires 0 <= i < |items| && items[i].Obj?
    ensures var before := |Mappings(items[..i])|;
      && before < |Mappings(items)|
      && Mappings(items)[before] == items[i].fields
    ensures items[i].fields in Mappings(items)
  {
    assert items == items[..i] + items[i..];
    MappingsAppend(items[..i], items[i..]);
    assert items[i..][0] == items[i];
  }

  /** Sanitizes every call of `ms`, in order; the first failure is raised. */
  function SanitizeAll(c: Codec, ms: seq<Call>): (r: Result<seq<Call>, Failure>)
    ensures r.Failure? <==> exists k :: 0 <= k < |ms| && SanitizeToolCall(c, ms[k]).Failure?
    ensures r.Success? ==>
      && |r.value| == |ms|
      && forall k :: 0 <= k < |ms| ==> SanitizeToolCall(c, ms[k]) == Success(r.value[k])
    decreases |ms|
  {
    if |ms| == 0 then Success([])
    else
      match SanitizeToolCall(c, ms[0])
      case Failure(f) => Failure(f)
      case Success(call) =>
        var rest := SanitizeAll(c, ms[1..]);
        assert forall k :: 1 <= k < |ms| ==> ms[k] == ms[1..][k - 1];
        match rest
        case Failure(f) => Failure(f)
        case Success(calls) => Success([call] + calls)
  }

  /** Sanitizes every dict item of `items`, dropping the other items. */
  function NormalizeItems(c: Codec, items: seq<Json>): (r: Result<seq<Call>, Failure>)
    ensures r.Failure? <==>
      exists k :: 0 <= k < |Mappings(items)| && SanitizeToolCall(c, Mappings(items)[k]).Failure?
    ensures r.Success? ==>
      && |r.value| == |Mappings(items)|
      && forall k :: 0 <= k < |r.value| ==> SanitizeToolCall(c, Mappings(items)[k]) == Success(r.value[k])
  {
    SanitizeAll(c, Mappings(items))
  }

  /** `_normalize_tool_calls`: a value that is not a list gives no calls. */
  function NormalizeToolCalls(c: Codec, value: Json): (r: Result<seq<Call>, Failure>)
    ensures !value.Arr? ==> r == Success([])
    ensures value.Arr? ==> (r.Failure? <==>
      exists k :: 0 <= k < |Mappings(value.items)| && SanitizeToolCall(c, Mappings(value.items)[k]).Failure?)
    ensures r.Success? && value.Arr? ==>
      && |r.value| == |Mappings(value.items)|
      && forall k :: 0 <= k < |r.value| ==> SanitizeToolCall(c, Mappings(value.items)[k]) == Success(r.value[k])
  {
    if value.Arr? then NormalizeItems(c, value.items) else Success([])
  }

  /** The dict items of `payload["calls"]`, before sanitizing. */
  function CallMappings(calls: Json): seq<Call> {
    if calls.Arr? then Mappings(calls.items) else []
  }

  // ---------------------------------------------------------------------
  // Messages
  // ---------------------------------------------------------------------

  /** The assistant message that replays a non-empty list of calls. */
  function ToolCallMessage(calls: seq<Call>): Message {
    map["role" := Str("assistant"), "content" := Str(""),
        "tool_calls" := Arr(seq(|calls|, i requires 0 <= i < |calls| => Obj(calls[i])))]
  }

  /** `_render_tool_result`: a string is kept, anything else is JSON
      encoded, and what `json.dumps` refuses falls back to `str()`. */
  function RenderToolResult(c: Codec, result: Json): (r: string)
    ensures result.Str? ==> r == result.s
    ensures !result.Str? && Serializable(result) ==> r == c.dumps(result)
    ensures Sound(c) && !result.Str? && Serializable(result) ==> c.loads(r)
    ensures !Serializable(result) ==> r == c.show(result)
  {
    if result.Str? then result.s
    else if Serializable(result) then c.dumps(result)
    else c.show(result)
  }

  /** `_build_tool_result_message`: a `tool` message for result number
      `index`, named after the pending call at that position, if any. */
  function BuildToolResultMessage(c: Codec, result: Json, pending: seq<Call>, index: nat): (m: Message)
    ensures "role" in m && m["role"] == Str("tool")
    ensures "content" in m && m["content"] == Str(RenderToolResult(c, result))
    ensures "tool_call_id" in m <==> index < |pending| && CallId(pending[index]).Some?
    ensures "tool_call_id" in m ==> m["tool_call_id"] == Str(CallId(pending[index]).value)
    ensures "name" in m <==> index < |pending| && CallName(pending[index]).Some?
    ensures "name" in m ==> m["name"] == Str(CallName(pending[index]).value)
    ensures forall k :: k in m ==> k in {"role", "content", "tool_call_id", "name"}
  {
    var base := map["role" := Str("tool"), "content" := Str(RenderToolResult(c, result))];
    if index >= |pending| then base
    else
      var call := pending[index];
      var withId := match CallId(call) case Some(id) => base["tool_call_id" := Str(id)] case None => base;
      match CallName(call)
      case Some(name) => withId["name" := Str(name)]
      case None => withId
  }

  /** The messages of a `tool_result` entry: one per item when `results`
      is a list, none otherwise. */
  function ToolResultMessages(c: Codec, pending: seq<Call>, results: Json): seq<Message> {
    if results.Arr? then
      seq(|results.items|, i requires 0 <= i < |results.items| =>
        BuildToolResultMessage(c, results.items[i], pending, i))
    else []
  }

  // ---------------------------------------------------------------------
  // `_select_messages`
  // ---------------------------------------------------------------------

  /** The entry makes `_select_messages` raise. */
  predicate EntryFails(c: Codec, e: Entry) {
    || ((e.kind == "tool_call" || e.kind == "tool_result") && !e.payload.Obj?)
    || (e.kind == "tool_call" && e.payload.Obj? &&
        var ms := CallMappings(Get(e.payload.fields, "calls"));
        exists k :: 0 <= k < |ms| && SanitizeToolCall(c, ms[k]).Failure?)
  }

  /** How many messages an entry contributes; it depends on the entry alone,
      never on the pending calls. */
  function EmitCount(e: Entry): nat {
    if e.kind == "message" then (if e.payload.Obj? then 1 else 0)
    else if e.kind == "tool_call" then
      (if e.payload.Obj? && |CallMappings(Get(e.payload.fields, "calls"))| > 0 then 1 else 0)
    else if e.kind == "tool_result" then
      (if e.payload.Obj? && Get(e.payload.fields, "results").Arr?
       then |Get(e.payload.fields, "results").items| else 0)
    else 0
  }

  /** One iteration of the loop over entries. */
  function Step(c: Codec, st: State, e: Entry): (r: Result<State, Failure>)
    ensures r.Failure? <==> EntryFails(c, e)
    ensures r.Success? ==>
      && st.messages <= r.value.messages
      && |r.value.messages| == |st.messages| + EmitCount(e)
    ensures r.Success? && e.kind == "tool_result" ==> r.value.pending == []
    ensures r.Success? && e.kind != "tool_call" && e.kind != "tool_result" ==> r.value.pending == st.pending
  {
    if e.kind == "message" then
      Success(State(st.messages + (if e.payload.Obj? then [e.payload.fields] else []), st.pending))
    else if e.kind == "tool_call" then
      if !e.payload.Obj? then Failure(PayloadNotMapping)
      else
        var calls := Get(e.payload.fields, "calls");
        match NormalizeToolCalls(c, calls)
        case Failure(f) =>
          assert calls.Arr? && CallMappings(calls) == Mappings(calls.items);
          Failure(f)
        case Success(sanitized) =>
          Success(State(st.messages + (if |sanitized| > 0 then [ToolCallMessage(sanitized)] else []), sanitized))
    else if e.kind == "tool_result" then
      if !e.payload.Obj? then Failure(PayloadNotMapping)
      else Success(State(st.messages + ToolResultMessages(c, st.pending, Get(e.payload.fields, "results")), []))
    else Success(st)
  }

  /** The loop over `entries` from state `st`. */
  function Run(c: Codec, st: State, entries: seq<Entry>): Result<State, Failure>
    decreases |entries|
  {
    if |entries| == 0 then Success(st)
    else
      match Step(c, st, entries[0])
      case Failure(f) => Failure(f)
      case Success(next) => Run(c, next, entries[1..])
  }

  /** `_select_messages`: it raises exactly when one of the entries does,
      and otherwise emits as many messages as the entries contribute one by
      one. */
  function SelectMessages(c: Codec, entries: seq<Entry>): (r: Result<seq<Message>, Failure>)
    ensures r.Failure? <==> exists i :: 0 <= i < |entries| && EntryFails(c, entries[i])
    ensures r.Success? ==> |r.value| == TotalEmitted(entries)
  {
    RunShape(c, State([], []), entries);
    match Run(c, State([], []), entries)
    case Success(st) => Success(st.messages)
    case Failure(f) => Failure(f)
  }

  // ---------------------------------------------------------------------
  // Properties of one entry
  // ---------------------------------------------------------------------

  /** A `message` entry appends its dict payload unchanged and drops any
      other payload; an entry of unknown kind changes nothing. Neither
      touches the pending calls. */
  lemma MessageEntryStep(c: Codec, st: State, e: Entry)
    requires e.kind != "tool_call" && e.kind != "tool_result"
    ensures Step(c, st, e).Success?
    ensures e.kind == "message" && e.payload.Obj? ==>
      Step(c, st, e).value == State(st.messages + [e.payload.fields], st.pending)
    ensures e.kind != "message" || !e.payload.Obj? ==> Step(c, st, e).value == st
  {
  }

  /** A `tool_call` entry replaces the pending calls by its sanitized dict
      items; it emits one assistant message carrying them when there is at
      least one, and nothing otherwise. */
  lemma ToolCallEntryStep(c: Codec, st: State, e: Entry)
    requires e.kind == "tool_call" && e.payload.Obj?
    requires !EntryFails(c, e)
    ensures var ms := CallMappings(Get(e.payload.fields, "calls"));
      var next := Step(c, st, e).value;
      && |next.pending| == |ms|
      && (forall k :: 0 <= k < |ms| ==> SanitizeToolCall(c, ms[k]) == Success(next.pending[k]))
      && (forall k :: 0 <= k < |ms| ==> CallId(next.pending[k]) == CallId(ms[k]))
      && (forall k :: 0 <= k < |ms| ==> CallName(next.pending[k]) == CallName(ms[k]))
      && (Sound(c) ==> forall k :: 0 <= k < |ms| ==> ArgumentsSettled(c, next.pending[k]))
      && next.messages == st.messages + (if |ms| > 0 then [ToolCallMessage(next.pending)] else [])
  {
    var calls := Get(e.payload.fields, "calls");
    var ms := CallMappings(calls);
    var next := Step(c, st, e).value;
    if calls.Arr? {
      assert ms == Mappings(calls.items);
      forall k | 0 <= k < |ms|
        ensures CallId(next.pending[k]) == CallId(ms[k])
        ensures CallName(next.pending[k]) == CallName(ms[k])
        ensures Sound(c) ==> ArgumentsSettled(c, next.pending[k])
      {
        OnlyArgumentsDifferKeepsIdentity(ms[k], next.pending[k]);
        if Sound(c) {
          SanitizeSettles(c, ms[k]);
        }
      }
    }
  }

  /** A `tool_result` entry emits one `tool` message per item of a list of
      results, in order, paired by position with the pending calls, and
      nothing for any other value; in both cases the pending calls are
      cleared afterwards. */
  lemma ToolResultEntryStep(c: Codec, st: State, e: Entry)
    requires e.kind == "tool_result" && e.payload.Obj?
    ensures Step(c, st, e).Success?
    ensures var results := Get(e.payload.fields, "results");
      var next := Step(c, st, e).value;
      var added := next.messages[|st.messages|..];
      && next.pending == []
      && |added| == (if results.Arr? then |results.items| else 0)
      && forall i :: 0 <= i < |added| ==>
           added[i] == BuildToolResultMessage(c, results.items[i], st.pending, i)
  {
    var next := Step(c, st, e).value;
    assert next.messages[|st.messages|..]
        == ToolResultMessages(c, st.pending, Get(e.payload.fields, "results"));
  }

  // ---------------------------------------------------------------------
  // Properties of the whole fold
  // ---------------------------------------------------------------------

  /** Compiling a concatenation is compiling the second part from the state
      the first part leaves; a failure in the first part stops everything. */
  lemma {:induction false} RunAppend(c: Codec, st: State, a: seq<Entry>, b: seq<Entry>)
    ensures Run(c, st, a + b) ==
      match Run(c, st, a)
      case Success(mid) => Run(c, mid, b)
      case Failure(f) => Failure(f)
    decreases |a|
  {
    if |a| == 0 {
      assert a + b == b;
    } else {
      assert (a + b)[0] == a[0];
      assert (a + b)[1..] == a[1..] + b;
      match Step(c, st, a[0])
      case Failure(_) =>
      case Success(next) => RunAppend(c, next, a[1..], b);
    }
  }

  /** The fold over two entries. */
  lemma RunTwo(c: Codec, st: State, e1: Entry, e2: Entry)
    ensures Run(c, st, [e1, e2]) ==
      match Step(c, st, e1)
      case Success(mid) => Step(c, mid, e2)
      case Failure(f) => Failure(f)
  {
    assert [e1, e2][1..] == [e2];
    assert [e2][1..] == [];
    match Step(c, st, e1)
    case Failure(_) =>
    case Success(mid) =>
      match Step(c, mid, e2)
      case Failure(_) =>
      case Success(fin) =>
        assert Run(c, fin, []) == Success(fin);
  }

  /** Messages contributed by a list of entries, entry by entry. */
  function TotalEmitted(entries: seq<Entry>): nat
    decreases |entries|
  {
    if |entries| == 0 then 0 else EmitCount(entries[0]) + TotalEmitted(entries[1..])
  }

  /** The fold fails exactly when some entry makes it raise; otherwise it
      only appends, and it appends what the entries contribute one by one. */
  lemma {:induction false} RunShape(c: Codec, st: State, entries: seq<Entry>)
    ensures Run(c, st, entries).Failure? <==> exists i :: 0 <= i < |entries| && EntryFails(c, entries[i])
    ensures Run(c, st, entries).Success? ==>
      && st.messages <= Run(c, st, entries).value.messages
      && |Run(c, st, entries).value.messages| == |st.messages| + TotalEmitted(entries)
    decreases |entries|
  {
    if |entries| > 0 {
      match Step(c, st, entries[0])
      case Failure(_) =>
      case Success(next) =>
        RunShape(c, next, entries[1..]);
        assert forall i :: 1 <= i < |entries| ==> entries[i] == entries[1..][i - 1];
    }
  }

  /** `m` is the `tool` message for `result` at position `i`, named after
      call `i` of `calls` when there is such a call. */
  predicate PairedResult(c: Codec, m: Message, result: Json, calls: seq<Call>, i: nat) {
    && "role" in m && m["role"] == Str("tool")
    && "content" in m && m["content"] == Str(RenderToolResult(c, result))
    && ("tool_call_id" in m <==> i < |calls| && CallId(calls[i]).Some?)
    && ("tool_call_id" in m ==> m["tool_call_id"] == Str(CallId(calls[i]).value))
    && ("name" in m <==> i < |calls| && CallName(calls[i]).Some?)
    && ("name" in m ==> m["name"] == Str(CallName(calls[i]).value))
  }

  lemma PairedThroughSanitizing(c: Codec, result: Json, pending: seq<Call>, ms: seq<Call>, i: nat)
    requires |pending| == |ms|
    requires forall k :: 0 <= k < |ms| ==> CallId(pending[k]) == CallId(ms[k])
    requires forall k :: 0 <= k < |ms| ==> CallName(pending[k]) == CallName(ms[k])
    ensures PairedResult(c, BuildToolResultMessage(c, result, pending, i), result, ms, i)
  {
  }



  /** A `tool_call` entry whose calls all sanitize: it succeeds, buffers
      one call per dict item with its id and name, and emits at most one
      message. */
  lemma CallEntryStep(c: Codec, st: State, items: seq<Json>)
    requires forall k :: 0 <= k < |Mappings(items)| ==> SanitizeToolCall(c, Mappings(items)[k]).Success?
    ensures var e := Entry("tool_call", Obj(map["calls" := Arr(items)]));
      var ms := Mappings(items);
      && Step(c, st, e).Success?
      && |Step(c, st, e).value.pending| == |ms|
      && (forall k :: 0 <= k < |ms| ==> CallId(Step(c, st, e).value.pending[k]) == CallId(ms[k]))
      && (forall k :: 0 <= k < |ms| ==> CallName(Step(c, st, e).value.pending[k]) == CallName(ms[k]))
      && |Step(c, st, e).value.messages| == |st.messages| + (if |ms| > 0 then 1 else 0)
  {
    var e := Entry("tool_call", Obj(map["calls" := Arr(items)]));
    assert CallMappings(Get(e.payload.fields, "calls")) == Mappings(items);
    assert !EntryFails(c, e);
    ToolCallEntryStep(c, st, e);
  }

  /** A `tool_call` entry directly followed by a `tool_result` entry: result
      number `i` carries the id and the function name of call number `i`,
      when there is such a call and those are non-empty strings; results
      past the last call carry neither. */
  lemma CallThenResultPairing(c: Codec, st: State, items: seq<Json>, results: seq<Json>)
    requires forall k :: 0 <= k < |Mappings(items)| ==> SanitizeToolCall(c, Mappings(items)[k]).Success?
    ensures var ms := Mappings(items);
      var tape := [Entry("tool_call", Obj(map["calls" := Arr(items)])),
                   Entry("tool_result", Obj(map["results" := Arr(results)]))];
      var out := Run(c, st, tape);
      var first := |st.messages| + (if |ms| > 0 then 1 else 0);
      && out.Success?
      && |out.value.messages| == first + |results|
      && out.value.pending == []
      && forall i :: 0 <= i < |results| ==> PairedResult(c, out.value.messages[first + i], results[i], ms, i)
  {
    var ms := Mappings(items);
    var callEntry := Entry("tool_call", Obj(map["calls" := Arr(items)]));
    var resultEntry := Entry("tool_result", Obj(map["results" := Arr(results)]));
    CallEntryStep(c, st, items);
    var mid := Step(c, st, callEntry).value;
    ToolResultEntryStep(c, mid, resultEntry);
    var fin := Step(c, mid, resultEntry).value;
    RunTwo(c, st, callEntry, resultEntry);
    var first := |st.messages| + (if |ms| > 0 then 1 else 0);
    assert |mid.messages| == first;
    var added := fin.messages[first..];
    assert Get(resultEntry.payload.fields, "results") == Arr(results);
    forall i | 0 <= i < |results|
      ensures PairedResult(c, fin.messages[first + i], results[i], ms, i)
    {
      assert fin.messages[first + i] == added[i];
      PairedThroughSanitizing(c, results[i], mid.pending, ms, i);
    }
  }




  /** The pending calls are cleared by every `tool_result` entry, also one
      whose `results` is not a list: a later `tool_result` is not paired
      with the calls that came before it. */
  lemma ResultAfterResultUnpaired(c: Codec, st: State, r1: Entry, r2: Entry)
    requires r1.kind == "tool_result" && r1.payload.Obj?
    requires r2.kind == "tool_result" && r2.payload.Obj?
    ensures var out := Run(c, st, [r1, r2]);
      var mid := Step(c, st, r1).value;
      && out.Success?
      && forall i :: |mid.messages| <= i < |out.value.messages| ==>
           "tool_call_id" !in out.value.messages[i] && "name" !in out.value.messages[i]
  {
    ToolResultEntryStep(c, st, r1);
    var mid := Step(c, st, r1).value;
    ToolResultEntryStep(c, mid, r2);
    var fin := Step(c, mid, r2).value;
    RunTwo(c, st, r1, r2);
    var results := Get(r2.payload.fields, "results");
    var added := fin.messages[|mid.messages|..];
    forall i | |mid.messages| <= i < |fin.messages|
      ensures "tool_call_id" !in fin.messages[i] && "name" !in fin.messages[i]
    {
      assert fin.messages[i] == added[i - |mid.messages|];
    }
  }
}
