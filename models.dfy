/**
 * The model wrappers' bookkeeping (models/model.py, models/ollama_model.py,
 * models/hf_auto_model.py): the registry of tools by name, running a tool
 * call against it, collecting the results of a reply's tool calls, and the
 * class-wide caches of loaded tokenizers and weights. Text generation itself
 * is not modelled.
 */
module Models {
  import opened Wrappers
  import opened Strings
  import opened OrderedMaps
  import opened Messages
  import Json

  /** A tool's callable, applied to the call's keyword arguments. */
  type ToolFunction = map<string, Json.Value> -> Json.Value

  /** `{"tool_dict": schema, "function": f}` */
  datatype ToolEntry = ToolEntry(toolDict: Json.Value, run: ToolFunction)

  /** A schema the registry can file: a dictionary whose "name" is a string. */
  predicate Named(schema: Json.Value) {
    schema.Obj? && "name" in schema.fields && schema.fields["name"].Str?
  }

  function NameOf(schema: Json.Value): string
    requires Named(schema)
  {
    schema.fields["name"].s
  }

  /** The `ValueError` message of `execute_tool_call`. */
  function NotFound(name: string): string {
    "Tool '" + name + "' not found."
  }

  /** The `tools` dictionary every model has (models/model.py). */
  class ToolRegistry {
    var tools: seq<(string, ToolEntry)>

    ghost predicate Valid()
      reads this
    {
      Distinct(tools)
    }

    constructor ()
      ensures tools == [] && Valid()
    {
      tools := [];
    }

    /** `add_tool`: files the entry under the schema's name, replacing an
        entry of the same name where it stands or appending a new one. */
    method AddTool(schema: Json.Value, run: ToolFunction)
      requires Valid() && Named(schema)
      modifies this
      ensures Valid() && tools == Put(old(tools), NameOf(schema), ToolEntry(schema, run))
    {
      PutGet(tools, NameOf(schema), ToolEntry(schema, run), NameOf(schema));
      tools := Put(tools, NameOf(schema), ToolEntry(schema, run));
    }

    /** `tool_dicts`: the schemas in registry order. */
    function ToolDicts(): (r: seq<Json.Value>)
      reads this
      ensures |r| == |tools| && forall i :: 0 <= i < |tools| ==> r[i] == tools[i].1.toolDict
    {
      seq(|tools|, i reads this requires 0 <= i < |tools| => tools[i].1.toolDict)
    }

    /** `execute_tool_call`: the registered function applied to the call's
        arguments, or the "not found" error. */
    function ExecuteToolCall(call: ToolCall): (r: Result<Json.Value, string>)
      reads this
      ensures r.Err? <==> !HasKey(tools, call.name)
      ensures r.Err? ==> r.error == NotFound(call.name)
      ensures r.Ok? ==> r.value == Get(tools, call.name).value.run(call.arguments)
    {
      match Get(tools, call.name)
      case None => Err(NotFound(call.name))
      case Some(entry) => Ok(entry.run(call.arguments))
    }

    /** The results of running `calls` in order, keyed by tool name; the
        first unknown tool stops the run with its error. */
    function ToolResults(calls: seq<ToolCall>): Result<map<string, Json.Value>, string>
      reads this
      decreases |calls|
    {
      if calls == [] then Ok(map[])
      else
        var n := |calls| - 1;
        match ToolResults(calls[..n])
        case Err(e) => Err(e)
        case Ok(m) =>
          match ExecuteToolCall(calls[n])
          case Err(e) => Err(e)
          case Ok(v) => Ok(m[calls[n].name := v])
    }

    /** The tool-result loop of `OllamaModel.generate`; a reply without
        tool calls runs nothing. */
    method CollectToolResults(calls: Option<seq<ToolCall>>) returns (r: Result<map<string, Json.Value>, string>)
      ensures r == ToolResults(if calls.Some? then calls.value else [])
      ensures calls.None? ==> r == Ok(map[])
    {
      var cs := if calls.Some? then calls.value else [];
      var results: map<string, Json.Value> := map[];
      var k := 0;
      while k < |cs|
        invariant 0 <= k <= |cs|
        invariant ToolResults(cs[..k]) == Ok(results)
      {
        assert cs[..k + 1][..k] == cs[..k];
        var result := ExecuteToolCall(cs[k]);
        if result.Err? {
          ToolResultsErrorPersists(cs, k + 1);
          return Err(result.error);
        }
        results := results[cs[k].name := result.value];
        k := k + 1;
      }
      assert cs[..k] == cs;
      return Ok(results);
    }

    /** Once a prefix of the calls fails, the whole run fails the same way. */
    lemma {:induction false} ToolResultsErrorPersists(calls: seq<ToolCall>, k: nat)
      requires k <= |calls| && ToolResults(calls[..k]).Err?
      ensures ToolResults(calls) == ToolResults(calls[..k])
      decreases |calls| - k
    {
      if k < |calls| {
        assert calls[..k + 1][..k] == calls[..k];
        ToolResultsErrorPersists(calls, k + 1);
      } else {
        assert calls[..k] == calls;
      }
    }

    /** The run succeeds exactly when every called tool is registered. */
    lemma {:induction false} ToolResultsOk(calls: seq<ToolCall>)
      ensures ToolResults(calls).Ok? <==> forall i :: 0 <= i < |calls| ==> HasKey(tools, calls[i].name)
      decreases |calls|
    {
      if calls != [] {
        var n := |calls| - 1;
        var init := calls[..n];
        ToolResultsOk(init);
        assert forall i :: 0 <= i < n ==> init[i] == calls[i];
      }
    }

    /** A successful run holds one result per distinct tool name called. */
    lemma {:induction false} ToolResultsKeys(calls: seq<ToolCall>)
      requires ToolResults(calls).Ok?
      ensures forall name :: name in ToolResults(calls).value <==> exists i :: 0 <= i < |calls| && calls[i].name == name
      decreases |calls|
    {
      if calls != [] {
        var n := |calls| - 1;
        var init := calls[..n];
        ToolResultsKeys(init);
        var m := ToolResults(calls).value;
        assert m == ToolResults(init).value[calls[n].name := ExecuteToolCall(calls[n]).value];
        forall name
          ensures name in m <==> exists i :: 0 <= i < |calls| && calls[i].name == name
        {
          if name in m && name != calls[n].name {
            var i :| 0 <= i < n && init[i].name == name;
            assert calls[i].name == name;
          }
          if exists i :: 0 <= i < |calls| && calls[i].name == name {
            var i :| 0 <= i < |calls| && calls[i].name == name;
            if i < n {
              assert init[i].name == name;
            }
          }
        }
      }
    }

    /** In a successful run, a tool's result is that of the LAST call with
        its name: later calls overwrite earlier ones. */
    lemma {:induction false} ToolResultsLastWins(calls: seq<ToolCall>, i: nat)
      requires ToolResults(calls).Ok? && i < |calls|
      requires forall j :: i < j < |calls| ==> calls[j].name != calls[i].name
      ensures calls[i].name in ToolResults(calls).value && ExecuteToolCall(calls[i]).Ok?
      ensures ToolResults(calls).value[calls[i].name] == ExecuteToolCall(calls[i]).value
      decreases |calls|
    {
      var n := |calls| - 1;
      var init := calls[..n];
      ToolResultsOk(calls);
      if i < n {
        assert init[i] == calls[i];
        assert forall j :: i < j < n ==> init[j] == calls[j];
        ToolResultsLastWins(init, i);
      }
    }

    /** When the run fails, it is on the first call of an unregistered tool. */
    lemma {:induction false} ToolResultsError(calls: seq<ToolCall>)
      requires ToolResults(calls).Err?
      ensures exists i :: 0 <= i < |calls| && !HasKey(tools, calls[i].name)
                && ToolResults(calls).error == NotFound(calls[i].name)
                && forall j :: 0 <= j < i ==> HasKey(tools, calls[j].name)
      decreases |calls|
    {
      var n := |calls| - 1;
      var init := calls[..n];
      assert forall i :: 0 <= i < n ==> init[i] == calls[i];
      if ToolResults(init).Err? {
        ToolResultsError(init);
        var i :| 0 <= i < n && !HasKey(tools, init[i].name) && ToolResults(init).error == NotFound(init[i].name)
                 && forall j :: 0 <= j < i ==> HasKey(tools, init[j].name);
        assert calls[i] == init[i];
      } else {
        ToolResultsOk(init);
      }
    }

    /** What `OllamaModel.generate` returns for a reply: its reasoning text
        ("" when absent), its content stripped, and the tool results. */
    method OllamaGenerate(content: string, reasoning: Option<string>, calls: Option<seq<ToolCall>>)
      returns (r: Result<(string, string, map<string, Json.Value>), string>)
      ensures r.Ok? <==> ToolResults(if calls.Some? then calls.value else []).Ok?
      ensures r.Ok? ==> r.value == (if reasoning.Some? then reasoning.value else "", Strip(content),
                                    ToolResults(if calls.Some? then calls.value else []).value)
      ensures r.Err? ==> r.error == ToolResults(if calls.Some? then calls.value else []).error
    {
      var thinking := if reasoning.Some? then reasoning.value else "";
      var results := CollectToolResults(calls);
      if results.Err? {
        return Err(results.error);
      }
      return Ok((thinking, Strip(content), results.value));
    }
  }

  /** Registering under a new name appends its schema to `tool_dicts`;
      re-registering a name replaces its schema where it stood. */
  lemma AddToolDicts(tools: seq<(string, ToolEntry)>, name: string, e: ToolEntry)
    ensures var r := Put(tools, name, e);
            && (!HasKey(tools, name) ==> Values(r) == Values(tools) + [e])
            && (HasKey(tools, name) ==>
                  var i := Position(tools, name).value;
                  Values(r) == Values(tools)[i := e])
  {
  }

  /** The class-wide `TOKENIZERS` and `MODELS` of `HFAutoModel`, with the
      names loaded so far, in the order they were loaded. */
  class HFCaches<T, W> {
    var tokenizers: map<string, T>
    var models: map<string, W>
    var tokenizerLoads: seq<string>
    var modelLoads: seq<string>

    /** Each cache holds exactly the names loaded for it, each loaded once. */
    ghost predicate Valid()
      reads this
    {
      && (forall i, j :: 0 <= i < j < |tokenizerLoads| ==> tokenizerLoads[i] != tokenizerLoads[j])
      && (forall i, j :: 0 <= i < j < |modelLoads| ==> modelLoads[i] != modelLoads[j])
      && (forall n :: n in tokenizers <==> n in tokenizerLoads)
      && (forall n :: n in models <==> n in modelLoads)
    }

    constructor ()
      ensures tokenizers == map[] && models == map[] && tokenizerLoads == [] && modelLoads == [] && Valid()
    {
      tokenizers := map[];
      models := map[];
      tokenizerLoads := [];
      modelLoads := [];
    }

    /** `HFAutoModel.__init__`: loads, through `loadTokenizer` and
        `loadModel`, only what is not cached yet, and hands out the cached
        objects. */
    method Instantiate(name: string, loadTokenizer: string -> T, loadModel: string -> W) returns (tokenizer: T, model: W)
      requires Valid()
      modifies this
      ensures Valid()
      ensures name in old(tokenizers) ==> tokenizers == old(tokenizers) && tokenizerLoads == old(tokenizerLoads)
      ensures name !in old(tokenizers) ==>
                tokenizers == old(tokenizers)[name := loadTokenizer(name)] && tokenizerLoads == old(tokenizerLoads) + [name]
      ensures name in old(models) ==> models == old(models) && modelLoads == old(modelLoads)
      ensures name !in old(models) ==>
                models == old(models)[name := loadModel(name)] && modelLoads == old(modelLoads) + [name]
      ensures name in tokenizers && tokenizer == tokenizers[name]
      ensures name in models && model == models[name]
    {
      if name !in tokenizers {
        tokenizers := tokenizers[name := loadTokenizer(name)];
        tokenizerLoads := tokenizerLoads + [name];
      }
      if name !in models {
        models := models[name := loadModel(name)];
        modelLoads := modelLoads + [name];
      }
      tokenizer := tokenizers[name];
      model := models[name];
    }
  }
}
