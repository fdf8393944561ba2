/**
 * Prompt templates (agents/prompt.py and its single-directory predecessor
 * agents/prompt_set.py). A directory is seen as the map from the stem of each
 * of its `*.txt` files to the file's text, or None when it does not exist;
 * rendering a template is not modelled.
 */
module Prompts {
  import opened Wrappers

  datatype Prompt = Prompt(promptStr: string)

  /** The right operand of `==`: another prompt or any other object. */
  datatype Operand = PromptOperand(p: Prompt) | OtherOperand

  /** `Prompt.__eq__` */
  predicate Equal(a: Prompt, b: Operand) {
    b.PromptOperand? && a.promptStr == b.p.promptStr
  }

  /** `Prompt.__len__` */
  function Length(a: Prompt): (n: nat)
    ensures n == |Str(a)|
  {
    |a.promptStr|
  }

  /** `Prompt.__str__` */
  function Str(a: Prompt): string {
    a.promptStr
  }

  /** Prompts are equal exactly when their texts are, never equal to
      anything else, and equality is an equivalence. */
  lemma EqualMeansSameText(a: Prompt, b: Prompt)
    ensures Equal(a, PromptOperand(b)) <==> Str(a) == Str(b)
    ensures !Equal(a, OtherOperand)
    ensures Equal(a, PromptOperand(a))
    ensures Equal(a, PromptOperand(b)) ==> Equal(b, PromptOperand(a)) && Length(a) == Length(b)
  {
  }

  /** The argument of `PromptSet.__init__`: one directory or a list. */
  datatype Dirs = OneDir(dir: string) | DirList(dirs: seq<string>)

  /** A single directory becomes a one-element list. */
  function DirList(d: Dirs): (r: seq<string>)
    ensures d.OneDir? ==> r == [d.dir]
    ensures d.DirList? ==> r == d.dirs
  {
    match d
    case OneDir(x) => [x]
    case DirList(xs) => xs
  }

  /** The prompts of one existing directory. */
  function DirPrompts(files: map<string, string>): (r: map<string, Prompt>)
    ensures r.Keys == files.Keys && forall k :: k in files ==> r[k] == Prompt(files[k])
  {
    map k | k in files :: Prompt(files[k])
  }

  /** The override fold of `_load_prompts`: directories in order, a missing
      one skipped, a later file replacing an earlier one of the same stem. */
  function Loaded(dirs: seq<Option<map<string, string>>>): map<string, Prompt>
    decreases |dirs|
  {
    if dirs == [] then map[]
    else
      var n := |dirs| - 1;
      if dirs[n].None? then Loaded(dirs[..n]) else Loaded(dirs[..n]) + DirPrompts(dirs[n].value)
  }

  /** A name is loaded exactly when some existing directory has it, and its
      prompt is the text from the LAST such directory. */
  lemma {:induction false} LoadedLastWins(dirs: seq<Option<map<string, string>>>, name: string)
    ensures name in Loaded(dirs) <==> exists i :: 0 <= i < |dirs| && dirs[i].Some? && name in dirs[i].value
    ensures forall i :: 0 <= i < |dirs| && dirs[i].Some? && name in dirs[i].value &&
                        (forall j :: i < j < |dirs| ==> dirs[j].None? || name !in dirs[j].value) ==>
                          name in Loaded(dirs) && Loaded(dirs)[name] == Prompt(dirs[i].value[name])
    decreases |dirs|
  {
    if dirs != [] {
      var n := |dirs| - 1;
      var init := dirs[..n];
      LoadedLastWins(init, name);
      assert forall i :: 0 <= i < n ==> init[i] == dirs[i];
      if name in Loaded(dirs) && !(dirs[n].Some? && name in dirs[n].value) {
        var i :| 0 <= i < n && init[i].Some? && name in init[i].value;
        assert dirs[i].Some? && name in dirs[i].value;
      }
    }
  }

  /** `_load_prompts`, loop by loop: over the directories, then over the
      files of each. */
  method LoadPrompts(dirs: seq<Option<map<string, string>>>) returns (prompts: map<string, Prompt>)
    ensures prompts == Loaded(dirs)
  {
    prompts := map[];
    var k := 0;
    while k < |dirs|
      invariant 0 <= k <= |dirs|
      invariant prompts == Loaded(dirs[..k])
    {
      assert dirs[..k + 1][..k] == dirs[..k];
      if dirs[k].None? {
        k := k + 1;
        continue;
      }
      var files := dirs[k].value;
      var left := files.Keys;
      ghost var before := prompts;
      while left != {}
        invariant left <= files.Keys
        invariant prompts.Keys == before.Keys + (files.Keys - left)
        invariant forall s :: s in prompts ==> prompts[s] == if s in files.Keys - left then Prompt(files[s]) else before[s]
        decreases left
      {
        var stem :| stem in left;
        prompts := prompts[stem := Prompt(files[stem])];
        left := left - {stem};
      }
      assert prompts == before + DirPrompts(files);
      k := k + 1;
    }
    assert dirs[..k] == dirs;
  }

  datatype PromptSet = PromptSet(promptDirs: seq<string>, prompts: map<string, Prompt>)

  /** What the file system `fs` holds at each of the directories. */
  function Contents(dirs: seq<string>, fs: string -> Option<map<string, string>>): (r: seq<Option<map<string, string>>>)
    ensures |r| == |dirs| && forall i :: 0 <= i < |dirs| ==> r[i] == fs(dirs[i])
  {
    seq(|dirs|, i requires 0 <= i < |dirs| => fs(dirs[i]))
  }

  /** `PromptSet.__init__`, the file system given as `fs`. */
  method NewPromptSet(d: Dirs, fs: string -> Option<map<string, string>>) returns (ps: PromptSet)
    ensures ps.promptDirs == DirList(d)
    ensures ps.prompts == Loaded(Contents(DirList(d), fs))
  {
    var dirs := DirList(d);
    ps := PromptSet(dirs, map[]);
    var prompts := LoadPrompts(Contents(dirs, fs));
    ps := ps.(prompts := prompts);
  }

  /** `PromptSet.__getitem__`: a missing name is a KeyError. */
  function GetItem(ps: PromptSet, key: string): (r: Result<Prompt, string>)
    ensures r.Ok? <==> key in ps.prompts
    ensures r.Ok? ==> r.value == ps.prompts[key]
  {
    if key in ps.prompts then Ok(ps.prompts[key]) else Err(key)
  }

  /** `PromptSet.__len__`: the number of distinct names. */
  function Size(ps: PromptSet): (n: nat)
    ensures n == |ps.prompts.Keys|
  {
    |ps.prompts|
  }

  // ---------------------------------------------------------------------------
  // agents/prompt_set.py: one directory, no override
  // ---------------------------------------------------------------------------

  /** `_load_prompts` of the single-directory version: one entry per file
      stem; a missing directory globs to nothing. */
  method LoadPromptsOneDir(dir: Option<map<string, string>>) returns (prompts: map<string, Prompt>)
    ensures dir.None? ==> prompts == map[]
    ensures dir.Some? ==> prompts.Keys == dir.value.Keys
    ensures prompts == Loaded([dir])
  {
    prompts := map[];
    if dir.None? {
      return;
    }
    var files := dir.value;
    var left := files.Keys;
    while left != {}
      invariant left <= files.Keys
      invariant prompts.Keys == files.Keys - left
      invariant forall s :: s in prompts ==> prompts[s] == Prompt(files[s])
      decreases left
    {
      var stem :| stem in left;
      prompts := prompts[stem := Prompt(files[stem])];
      left := left - {stem};
    }
    assert [dir][..0] == [];
    assert prompts == DirPrompts(files);
  }
}
