/**
 * Tool-schema derivation (utils.py): a tool's name, its description and the
 * JSON type and description of each parameter, read off its docstring and
 * its parameters' annotations. The docstring and the parameter list are
 * inputs here, standing for what `inspect` reports.
 */
module Schemas {
  import opened Wrappers
  import opened Strings
  import opened OrderedMaps
  import Json

  /** The built-in classes `_python_type_to_json_type` maps directly. */
  datatype Builtin = PyStr | PyInt | PyFloat | PyBool | PyList | PyDict

  /** A parameter annotation: one of those classes, or any other annotation
      object, known by its `str()`. */
  datatype Annotation = Class(cls: Builtin) | Other(text: string)

  /** A signature parameter; `annotation` is None for an unannotated one. */
  datatype Param = Param(name: string, annotation: Option<Annotation>)

  datatype ParamSchema = ParamSchema(jsonType: string, description: string)

  /** `{"name", "description", "parameters"}`, parameters in signature order. */
  datatype ToolSchema = ToolSchema(name: string, description: string, parameters: seq<(string, ParamSchema)>)

  /** The two `ValueError`s of `generate_tool_schema`. */
  datatype SchemaError = MissingDocstring(tool: string) | MissingTypeHint(param: string, tool: string)

  function ErrorMessage(e: SchemaError): string {
    match e
    case MissingDocstring(tool) => "Function '" + tool + "' must have a docstring to generate tool schema"
    case MissingTypeHint(p, tool) => "Parameter '" + p + "' in function '" + tool + "' must have a type hint"
  }

  // ---------------------------------------------------------------------------
  // _python_type_to_json_type
  // ---------------------------------------------------------------------------

  const JsonTypeNames: seq<string> := ["string", "integer", "number", "boolean", "array", "object"]

  /** The substrings tried, in this order, on the text of other annotations;
      the i-th selects the i-th JSON type name. */
  const HintKeywords: seq<string> := ["str", "int", "float", "bool", "list", "dict"]

  /** The direct mapping of the built-in classes. */
  function ClassType(c: Builtin): (r: string)
    ensures r in JsonTypeNames
  {
    match c
    case PyStr => "string"
    case PyInt => "integer"
    case PyFloat => "number"
    case PyBool => "boolean"
    case PyList => "array"
    case PyDict => "object"
  }

  /** The substring fallback, defaulting to "string". */
  function HintType(text: string): (r: string)
    ensures r in JsonTypeNames
  {
    if Contains(text, "str") then "string"
    else if Contains(text, "int") then "integer"
    else if Contains(text, "float") then "number"
    else if Contains(text, "bool") then "boolean"
    else if Contains(text, "list") then "array"
    else if Contains(text, "dict") then "object"
    else "string"
  }

  /** `_python_type_to_json_type` */
  function JsonType(a: Annotation): (r: string)
    ensures r in JsonTypeNames
  {
    match a
    case Class(c) => ClassType(c)
    case Other(text) => HintType(text)
  }

  /** The fallback picks the type of the first keyword, in list order, that
      occurs in the annotation's text, and "string" when none does. */
  lemma HintTypeFirstKeyword(text: string)
    ensures HintType(text) == match FirstContained(HintKeywords, text)
                              case None => "string"
                              case Some(i) => JsonTypeNames[i]
  {
    var ks := HintKeywords;
    assert ks[1..][1..][1..][1..][1..] == ["dict"];
  }

  // ---------------------------------------------------------------------------
  // The description
  // ---------------------------------------------------------------------------

  /** A stripped line that opens a docstring section. */
  predicate IsSectionMarker(line: string) {
    StartsWith(line, "Args:") || StartsWith(line, "Returns:") || StartsWith(line, "Raises:") || StartsWith(line, "Example:")
  }

  /** Every line cleaned by `clean`. */
  function CleanAll(lines: seq<string>, clean: string -> string): (r: seq<string>)
    ensures |r| == |lines| && forall k :: 0 <= k < |lines| ==> r[k] == clean(lines[k])
  {
    seq(|lines|, k requires 0 <= k < |lines| => clean(lines[k]))
  }

  /** Of stripped lines, the non-empty ones before the first line that
      `stop` accepts (a section marker, for a docstring). */
  function Kept(stripped: seq<string>, stop: string -> bool): (r: seq<string>)
    ensures |r| <= |stripped|
    decreases |stripped|
  {
    if stripped == [] || stop(stripped[0]) then []
    else (if stripped[0] == "" then [] else [stripped[0]]) + Kept(stripped[1..], stop)
  }

  /** The lines of a docstring that make up its description. */
  function DescriptionLines(lines: seq<string>): seq<string> {
    Kept(CleanAll(lines, Strip), IsSectionMarker)
  }

  /** Every kept line is non-empty, not a line `stop` accepts, and one of the lines. */
  lemma {:induction false} KeptShape(stripped: seq<string>, stop: string -> bool)
    ensures var r := Kept(stripped, stop);
            forall k :: 0 <= k < |r| ==> r[k] != "" && !stop(r[k]) && r[k] in stripped
    decreases |stripped|
  {
    if stripped != [] && !stop(stripped[0]) {
      KeptShape(stripped[1..], stop);
      var h: seq<string> := if stripped[0] == "" then [] else [stripped[0]];
      var r := Kept(stripped, stop);
      assert r == h + Kept(stripped[1..], stop);
      forall k | 0 <= k < |r|
        ensures r[k] != "" && !stop(r[k]) && r[k] in stripped
      {
        if k >= |h| {
          assert r[k] == Kept(stripped[1..], stop)[k - |h|];
          assert r[k] in stripped[1..];
        }
      }
    }
  }

  /** Description lines are non-blank, already stripped and not markers. */
  lemma DescriptionLinesShape(lines: seq<string>)
    ensures var r := DescriptionLines(lines);
            forall k :: 0 <= k < |r| ==> r[k] != "" && Strip(r[k]) == r[k] && !IsSectionMarker(r[k])
  {
    var st := CleanAll(lines, Strip);
    assert DescriptionLines(lines) == Kept(st, IsSectionMarker);
    KeptShape(st, IsSectionMarker);
    forall k | 0 <= k < |Kept(st, IsSectionMarker)|
      ensures Strip(Kept(st, IsSectionMarker)[k]) == Kept(st, IsSectionMarker)[k]
    {
      assert Kept(st, IsSectionMarker)[k] in st;
      var t :| 0 <= t < |st| && st[t] == Kept(st, IsSectionMarker)[k];
      StripIdempotent(lines[t]);
    }
  }

  /** Nothing from the first line `stop` accepts on is kept. */
  lemma {:induction false} KeptStopsAtMarker(stripped: seq<string>, k: nat, stop: string -> bool)
    requires k < |stripped| && stop(stripped[k])
    ensures Kept(stripped, stop) == Kept(stripped[..k], stop)
    decreases k
  {
    if k > 0 && !stop(stripped[0]) {
      KeptStopsAtMarker(stripped[1..], k - 1, stop);
      assert stripped[..k][1..] == stripped[1..][..k - 1];
    }
  }

  /** Before any line `stop` accepts, every non-empty line is kept, in
      order. */
  lemma {:induction false} KeptKeepsLine(stripped: seq<string>, k: nat, stop: string -> bool)
    requires k < |stripped| && stripped[k] != ""
    requires forall t :: 0 <= t <= k ==> !stop(stripped[t])
    ensures Kept(stripped, stop) == Kept(stripped[..k], stop) + [stripped[k]] + Kept(stripped[k + 1..], stop)
    decreases k
  {
    if k == 0 {
      assert Kept(stripped, stop) == [stripped[0]] + Kept(stripped[1..], stop);
    } else {
      var tail := stripped[1..];
      var h: seq<string> := if stripped[0] == "" then [] else [stripped[0]];
      assert !stop(stripped[0]);
      forall t | 0 <= t <= k - 1
        ensures !stop(tail[t])
      {
        assert tail[t] == stripped[t + 1];
      }
      KeptKeepsLine(tail, k - 1, stop);
      var before, after := Kept(tail[..k - 1], stop), Kept(tail[k..], stop);
      assert Kept(stripped, stop) == h + (before + [stripped[k]] + after);
      assert stripped[..k][0] == stripped[0] && stripped[..k][1..] == tail[..k - 1];
      assert Kept(stripped[..k], stop) == h + before;
      assert tail[k..] == stripped[k + 1..];
      assert h + (before + [stripped[k]] + after) == (h + before) + [stripped[k]] + after;
    }
  }

  /** Kept, one line at a time. */
  lemma KeptStep(stripped: seq<string>, k: nat, stop: string -> bool)
    requires k < |stripped|
    ensures Kept(stripped[k..], stop) ==
              if stop(stripped[k]) then []
              else (if stripped[k] == "" then [] else [stripped[k]]) + Kept(stripped[k + 1..], stop)
  {
    assert stripped[k..][0] == stripped[k] && stripped[k..][1..] == stripped[k + 1..];
  }

  /** The loop that collects the description lines: each line is cleaned
      (stripped, for a docstring), the first one `stop` accepts ends the
      loop, and the non-empty ones are kept. */
  method KeepLines(lines: seq<string>, clean: string -> string, stop: string -> bool) returns (kept: seq<string>)
    ensures kept == Kept(CleanAll(lines, clean), stop)
  {
    ghost var stripped := CleanAll(lines, clean);
    kept := [];
    var k := 0;
    while k < |lines|
      invariant 0 <= k <= |lines|
      invariant kept + Kept(stripped[k..], stop) == Kept(stripped, stop)
    {
      var line := clean(lines[k]);
      KeptStep(stripped, k, stop);
      if stop(line) {
        break;
      }
      if line != "" {
        assert kept + ([line] + Kept(stripped[k + 1..], stop)) == (kept + [line]) + Kept(stripped[k + 1..], stop);
        kept := kept + [line];
      } else {
        assert [] + Kept(stripped[k + 1..], stop) == Kept(stripped[k + 1..], stop);
      }
      k := k + 1;
    }
    if k == |lines| {
      assert stripped[k..] == [];
    }
    assert kept + [] == kept;
  }

  /** The description: the kept lines joined by single spaces. */
  method Description(docstring: string) returns (d: string)
    ensures d == Join(" ", DescriptionLines(Split(docstring, '\n')))
  {
    var kept := KeepLines(Split(docstring, '\n'), Strip, IsSectionMarker);
    d := Join(" ", kept);
  }

  // ---------------------------------------------------------------------------
  // _extract_param_description
  // ---------------------------------------------------------------------------

  const Indent: string := "        "

  /** The text after the first ':' of a line. */
  function AfterColon(line: string): (r: string)
    requires Contains(line, ":")
    ensures |r| < |line| && r == line[|line| - |r|..]
  {
    line[IndexOf(line, ":", 0).value + 1..]
  }

  /** An unindented, non-blank line holding ':' ends the Args section. */
  predicate LeavesArgs(line: string) {
    Strip(line) != "" && !StartsWith(line, " ") && Contains(line, ":")
  }

  /** The lines from `j` on that are indented by eight spaces, each stripped
      and preceded by one space. */
  function Continuation(lines: seq<string>, j: nat): (r: string)
    decreases |lines| - j
  {
    if j < |lines| && StartsWith(lines[j], Indent) then " " + Strip(lines[j]) + Continuation(lines, j + 1)
    else ""
  }

  /** A line that opens the Args section. */
  predicate OpensArgs(line: string) {
    Contains(line, "Args:")
  }

  /** A line that names the parameter and holds ':'. */
  predicate NamesParam(line: string, name: string) {
    Contains(line, name) && Contains(line, ":")
  }

  /** The scan of `_extract_param_description` from line `i` on, over its
      three line tests: `opens` starts the Args section, `leaves` ends it
      and `hit` picks the parameter's line; `inArgs` tells whether the
      section has started. The index of the line the description is read
      from, if any: a hit inside the section that neither opens nor leaves
      it. */
  function ArgsHit(lines: seq<string>, i: nat, inArgs: bool,
                   opens: string -> bool, leaves: string -> bool, hit: string -> bool): (r: Option<nat>)
    ensures r.Some? ==> i <= r.value < |lines| && hit(lines[r.value])
    ensures r.Some? ==> !opens(lines[r.value]) && !leaves(lines[r.value])
    ensures r.Some? ==> inArgs || exists t :: i <= t < r.value && opens(lines[t])
    decreases |lines| - i
  {
    if i >= |lines| then None
    else if opens(lines[i]) then
      var r := ArgsHit(lines, i + 1, true, opens, leaves, hit);
      assert r.Some? ==> i <= i < r.value && opens(lines[i]);
      r
    else if !inArgs then ArgsHit(lines, i + 1, false, opens, leaves, hit)
    else if leaves(lines[i]) then None
    else if hit(lines[i]) then Some(i)
    else ArgsHit(lines, i + 1, true, opens, leaves, hit)
  }

  /** The description of the parameter `name` found from line `i` on: the
      text after the first ':' of its line, stripped, followed by the
      continuation lines. */
  function ParamDescriptionFrom(lines: seq<string>, name: string, i: nat, inArgs: bool): Option<string> {
    match ArgsHit(lines, i, inArgs, OpensArgs, LeavesArgs, line => NamesParam(line, name))
    case None => None
    case Some(k) => Some(Strip(AfterColon(lines[k])) + Continuation(lines, k + 1))
  }

  function ParamDescription(docstring: string, name: string): Option<string> {
    if docstring == "" then None else ParamDescriptionFrom(Split(docstring, '\n'), name, 0, false)
  }

  /** Without a line that opens the section, the scan finds nothing. */
  lemma {:induction false} NoArgsNoHit(lines: seq<string>, i: nat,
                                       opens: string -> bool, leaves: string -> bool, hit: string -> bool)
    requires forall k :: i <= k < |lines| ==> !opens(lines[k])
    ensures ArgsHit(lines, i, false, opens, leaves, hit) == None
    decreases |lines| - i
  {
    if i < |lines| {
      NoArgsNoHit(lines, i + 1, opens, leaves, hit);
    }
  }

  /** Without an "Args:" line there is no parameter description. */
  lemma NoArgsNoDescription(lines: seq<string>, name: string)
    requires forall k :: 0 <= k < |lines| ==> !Contains(lines[k], "Args:")
    ensures ParamDescriptionFrom(lines, name, 0, false) == None
  {
    NoArgsNoHit(lines, 0, OpensArgs, LeavesArgs, line => NamesParam(line, name));
  }

  /** A description found comes from line `k`: a line after an "Args:" line
      that names the parameter and holds ':', is not itself an "Args:" line
      and does not end the section; the description is its text after the
      first ':', stripped, followed by its indented continuation lines. */
  lemma DescriptionSource(lines: seq<string>, name: string) returns (k: nat)
    requires ParamDescriptionFrom(lines, name, 0, false).Some?
    ensures k < |lines|
    ensures Contains(lines[k], name) && Contains(lines[k], ":")
    ensures !Contains(lines[k], "Args:") && !LeavesArgs(lines[k])
    ensures exists t :: 0 <= t < k && Contains(lines[t], "Args:")
    ensures ParamDescriptionFrom(lines, name, 0, false) == Some(Strip(AfterColon(lines[k])) + Continuation(lines, k + 1))
  {
    var hit := line => NamesParam(line, name);
    k := ArgsHit(lines, 0, false, OpensArgs, LeavesArgs, hit).value;
    assert hit(lines[k]);
  }

  /** The inner loop of `_extract_param_description`: the indented lines
      after a parameter's line, appended one by one. */
  method ContinuationLines(lines: seq<string>, start: nat) returns (c: string)
    requires start <= |lines|
    ensures c == Continuation(lines, start)
  {
    c := "";
    var j := start;
    while j < |lines| && StartsWith(lines[j], Indent)
      invariant start <= j <= |lines|
      invariant c + Continuation(lines, j) == Continuation(lines, start)
      decreases |lines| - j
    {
      c := c + " " + Strip(lines[j]);
      j := j + 1;
    }
  }

  /** `_extract_param_description` */
  method ExtractParamDescription(docstring: string, name: string) returns (r: Option<string>)
    ensures r == ParamDescription(docstring, name)
  {
    if docstring == "" {
      return None;
    }
    var lines := Split(docstring, '\n');
    ghost var hit := line => NamesParam(line, name);
    var inArgs := false;
    var i := 0;
    while i < |lines|
      invariant 0 <= i <= |lines|
      invariant ArgsHit(lines, i, inArgs, OpensArgs, LeavesArgs, hit) == ArgsHit(lines, 0, false, OpensArgs, LeavesArgs, hit)
    {
      var line := lines[i];
      if Contains(line, "Args:") {
        inArgs := true;
        i := i + 1;
        continue;
      }
      if inArgs {
        if LeavesArgs(line) {
          break;
        }
        if Contains(line, name) && Contains(line, ":") {
          assert hit(line);
          var rest := ContinuationLines(lines, i + 1);
          return Some(Strip(AfterColon(line)) + rest);
        }
      }
      i := i + 1;
    }
    return None;
  }

  // ---------------------------------------------------------------------------
  // generate_tool_schema
  // ---------------------------------------------------------------------------

  /** The description lookup a docstring provides, by parameter name. */
  function Describer(docstring: string): (f: string -> Option<string>)
    ensures forall name :: f(name) == ParamDescription(docstring, name)
  {
    name => ParamDescription(docstring, name)
  }

  /** The entry of an annotated parameter; an absent or empty description
      becomes "The <name> parameter". */
  function ParamSchemaFor(p: Param, describe: string -> Option<string>): (r: ParamSchema)
    requires p.annotation.Some?
    ensures r.jsonType in JsonTypeNames && r.description != ""
  {
    var d := describe(p.name);
    ParamSchema(JsonType(p.annotation.value),
                if d.None? || d.value == "" then "The " + p.name + " parameter" else d.value)
  }

  /** The parameters map built over `params` in order; the first unannotated
      parameter other than `self` is an error. */
  function ParamEntries(params: seq<Param>, describe: string -> Option<string>, tool: string): Result<seq<(string, ParamSchema)>, SchemaError>
    decreases |params|
  {
    if params == [] then Ok([])
    else
      var n := |params| - 1;
      match ParamEntries(params[..n], describe, tool)
      case Err(e) => Err(e)
      case Ok(acc) =>
        var p := params[n];
        if p.name == "self" then Ok(acc)
        else if p.annotation.None? then Err(MissingTypeHint(p.name, tool))
        else Ok(Put(acc, p.name, ParamSchemaFor(p, describe)))
  }

  /** `generate_tool_schema` on a tool's name, its docstring (None when it has
      none) and its parameters. */
  function ToolSchemaOf(name: string, docstring: Option<string>, params: seq<Param>): Result<ToolSchema, SchemaError> {
    if docstring.None? || docstring.value == "" then Err(MissingDocstring(name))
    else match ParamEntries(params, Describer(docstring.value), name)
      case Err(e) => Err(e)
      case Ok(entries) =>
        Ok(ToolSchema(name, Join(" ", DescriptionLines(Split(docstring.value, '\n'))), entries))
  }

  /** No parameter names repeat (as in any Python signature). */
  predicate DistinctNames(params: seq<Param>) {
    forall i, j :: 0 <= i < j < |params| ==> params[i].name != params[j].name
  }

  /** The error, if any, names the first unannotated parameter other than
      `self`; otherwise every parameter other than `self` is annotated. */
  lemma {:induction false} ParamEntriesError(params: seq<Param>, describe: string -> Option<string>, tool: string)
    ensures ParamEntries(params, describe, tool).Ok? <==>
            forall k :: 0 <= k < |params| && params[k].name != "self" ==> params[k].annotation.Some?
    ensures ParamEntries(params, describe, tool).Err? ==>
            exists k :: 0 <= k < |params| && params[k].name != "self" && params[k].annotation.None?
              && ParamEntries(params, describe, tool).error == MissingTypeHint(params[k].name, tool)
              && forall t :: 0 <= t < k && params[t].name != "self" ==> params[t].annotation.Some?
    decreases |params|
  {
    if params != [] {
      var n := |params| - 1;
      ParamEntriesError(params[..n], describe, tool);
      assert forall k :: 0 <= k < n ==> params[..n][k] == params[k];
    }
  }

  /** A successful map has distinct keys, one per parameter other than
      `self`, each holding that parameter's entry. */
  lemma {:induction false} ParamEntriesContents(params: seq<Param>, describe: string -> Option<string>, tool: string, k: nat)
    requires DistinctNames(params) && ParamEntries(params, describe, tool).Ok?
    requires k < |params|
    ensures Distinct(ParamEntries(params, describe, tool).value)
    ensures !HasKey(ParamEntries(params, describe, tool).value, "self")
    ensures params[k].name != "self" ==>
              && params[k].annotation.Some?
              && Get(ParamEntries(params, describe, tool).value, params[k].name) == Some(ParamSchemaFor(params[k], describe))
  {
    ParamEntriesShape(params, describe, tool);
    if params[k].name != "self" {
      ParamEntriesAt(params, describe, tool, k);
    }
  }

  /** A successful map has distinct keys, none of them `self`. */
  lemma {:induction false} ParamEntriesShape(params: seq<Param>, describe: string -> Option<string>, tool: string)
    requires ParamEntries(params, describe, tool).Ok?
    ensures Distinct(ParamEntries(params, describe, tool).value)
    ensures !HasKey(ParamEntries(params, describe, tool).value, "self")
    decreases |params|
  {
    if params != [] {
      var n := |params| - 1;
      ParamEntriesLast(params, describe, tool);
      ParamEntriesShape(params[..n], describe, tool);
      if params[n].name != "self" {
        var acc := ParamEntries(params[..n], describe, tool).value;
        PutGet(acc, params[n].name, ParamSchemaFor(params[n], describe), "self");
        PutHasKey(acc, params[n].name, ParamSchemaFor(params[n], describe), "self");
      }
    }
  }

  /** A parameter other than `self` is annotated and its name maps to its
      entry. */
  lemma {:induction false} ParamEntriesAt(params: seq<Param>, describe: string -> Option<string>, tool: string, k: nat)
    requires DistinctNames(params) && ParamEntries(params, describe, tool).Ok?
    requires k < |params| && params[k].name != "self"
    ensures params[k].annotation.Some?
    ensures Get(ParamEntries(params, describe, tool).value, params[k].name) == Some(ParamSchemaFor(params[k], describe))
    decreases |params|
  {
    var n := |params| - 1;
    var init := params[..n];
    var p := params[n];
    ParamEntriesLast(params, describe, tool);
    ParamEntriesShape(init, describe, tool);
    var acc := ParamEntries(init, describe, tool).value;
    if k == n {
      PutGet(acc, p.name, ParamSchemaFor(p, describe), p.name);
    } else {
      assert forall i :: 0 <= i < n ==> init[i] == params[i];
      assert init[k] == params[k];
      ParamEntriesAt(init, describe, tool, k);
      if p.name != "self" {
        PutGet(acc, p.name, ParamSchemaFor(p, describe), params[k].name);
      }
    }
  }

  /** A successful map is the one built from all but the last parameter,
      with the last one put in unless it is `self`. */
  lemma ParamEntriesLast(params: seq<Param>, describe: string -> Option<string>, tool: string)
    requires params != [] && ParamEntries(params, describe, tool).Ok?
    ensures var n := |params| - 1;
            && ParamEntries(params[..n], describe, tool).Ok?
            && (params[n].name == "self" ==>
                  ParamEntries(params, describe, tool).value == ParamEntries(params[..n], describe, tool).value)
            && (params[n].name != "self" ==>
                  && params[n].annotation.Some?
                  && ParamEntries(params, describe, tool).value
                     == Put(ParamEntries(params[..n], describe, tool).value, params[n].name, ParamSchemaFor(params[n], describe)))
  {
  }

  /** Every key of a successful map is the name of a parameter. */
  lemma {:induction false} ParamEntriesKeys(params: seq<Param>, describe: string -> Option<string>, tool: string, key: string)
    requires ParamEntries(params, describe, tool).Ok?
    requires HasKey(ParamEntries(params, describe, tool).value, key)
    ensures exists k :: 0 <= k < |params| && params[k].name == key
    decreases |params|
  {
    var n := |params| - 1;
    var init := params[..n];
    var acc := ParamEntries(init, describe, tool).value;
    var p := params[n];
    if p.name != "self" {
      PutHasKey(acc, p.name, ParamSchemaFor(p, describe), key);
    }
    if p.name != key {
      ParamEntriesKeys(init, describe, tool, key);
      var k :| 0 <= k < |init| && init[k].name == key;
      assert params[k].name == key;
    }
  }

  /** The parameter loop of `generate_tool_schema`: `self` is skipped, an
      unannotated parameter stops it with an error, and every other
      parameter is put under its name. */
  method BuildParamEntries(params: seq<Param>, doc: string, name: string)
    returns (r: Result<seq<(string, ParamSchema)>, SchemaError>)
    ensures r == ParamEntries(params, Describer(doc), name)
  {
    var parameters: seq<(string, ParamSchema)> := [];
    var k := 0;
    while k < |params|
      invariant 0 <= k <= |params|
      invariant ParamEntries(params[..k], Describer(doc), name) == Ok(parameters)
    {
      var p := params[k];
      if p.name == "self" {
        ParamEntriesNext(params, Describer(doc), name, k, parameters);
        k := k + 1;
        continue;
      }
      if p.annotation.None? {
        ParamEntriesStop(params, Describer(doc), name, k, parameters);
        return Err(MissingTypeHint(p.name, name));
      }
      var jsonType := JsonType(p.annotation.value);
      var d := ExtractParamDescription(doc, p.name);
      var entry := ParamSchema(jsonType, if d.None? || d.value == "" then "The " + p.name + " parameter" else d.value);
      assert entry == ParamSchemaFor(p, Describer(doc));
      ParamEntriesNext(params, Describer(doc), name, k, parameters);
      parameters := Put(parameters, p.name, entry);
      k := k + 1;
    }
    assert params[..k] == params;
    r := Ok(parameters);
  }

  /** One more parameter that is `self` or annotated extends a successful
      map of the ones before it. */
  lemma ParamEntriesNext(params: seq<Param>, describe: string -> Option<string>, tool: string, k: nat,
                         acc: seq<(string, ParamSchema)>)
    requires k < |params| && ParamEntries(params[..k], describe, tool) == Ok(acc)
    requires params[k].name == "self" || params[k].annotation.Some?
    ensures ParamEntries(params[..k + 1], describe, tool)
            == Ok(if params[k].name == "self" then acc else Put(acc, params[k].name, ParamSchemaFor(params[k], describe)))
  {
    assert params[..k + 1][..k] == params[..k];
  }

  /** An unannotated parameter other than `self` after a successful prefix
      is the error of the whole list. */
  lemma ParamEntriesStop(params: seq<Param>, describe: string -> Option<string>, tool: string, k: nat,
                         acc: seq<(string, ParamSchema)>)
    requires k < |params| && ParamEntries(params[..k], describe, tool) == Ok(acc)
    requires params[k].name != "self" && params[k].annotation.None?
    ensures ParamEntries(params, describe, tool) == Err(MissingTypeHint(params[k].name, tool))
  {
    assert params[..k + 1][..k] == params[..k];
    ErrorPersists(params, describe, tool, k + 1);
  }

  /** `generate_tool_schema` */
  method GenerateToolSchema(name: string, docstring: Option<string>, params: seq<Param>) returns (r: Result<ToolSchema, SchemaError>)
    ensures r == ToolSchemaOf(name, docstring, params)
  {
    if docstring.None? || docstring.value == "" {
      return Err(MissingDocstring(name));
    }
    var doc := docstring.value;
    var description := Description(doc);
    var parameters := BuildParamEntries(params, doc, name);
    if parameters.Err? {
      return Err(parameters.error);
    }
    return Ok(ToolSchema(name, description, parameters.value));
  }

  /** Once a prefix fails, the whole parameter list fails the same way. */
  lemma {:induction false} ErrorPersists(params: seq<Param>, describe: string -> Option<string>, tool: string, k: nat)
    requires k <= |params| && ParamEntries(params[..k], describe, tool).Err?
    ensures ParamEntries(params, describe, tool) == ParamEntries(params[..k], describe, tool)
    decreases |params| - k
  {
    if k < |params| {
      assert params[..k + 1][..k] == params[..k];
      ErrorPersists(params, describe, tool, k + 1);
    } else {
      assert params[..k] == params;
    }
  }

  /** The schema as the dictionary the registries store. */
  function SchemaToJson(s: ToolSchema): (v: Json.Value)
    ensures v.Obj? && "name" in v.fields && v.fields["name"] == Json.Str(s.name)
  {
    Json.Obj(map["name" := Json.Str(s.name),
                 "description" := Json.Str(s.description),
                 "parameters" := Json.Obj(ParamsToJson(s.parameters))])
  }

  function ParamsToJson(ps: seq<(string, ParamSchema)>): map<string, Json.Value>
    decreases |ps|
  {
    if ps == [] then map[]
    else
      var n := |ps| - 1;
      ParamsToJson(ps[..n])[ps[n].0 := Json.Obj(map["type" := Json.Str(ps[n].1.jsonType),
                                                     "description" := Json.Str(ps[n].1.description)])]
  }
}
