/**
 * The user-descriptor agent (agents/user_descriptor_agent.py): it renders
 * the new information sources and the statements already held about the
 * user as two text blocks, and asks the model to summarise them. The
 * prompt template, the system prompt and the rendering of a confidence
 * (a float) are parameters.
 */
module UserDescriptor {
  import opened Wrappers
  import opened Strings
  import opened Messages
  import opened Oracles
  import opened Agents
  import opened UserContexts

  /** What separates two entries of a block. */
  const EntrySeparator: string := "\n\n---\n\n"

  /** An information source is a dictionary; its `type`, `timestamp` and
      `content` entries are rendered, and a missing one raises `KeyError`
      naming it. */
  type Source = map<string, string>

  /** One source as three lines: type, timestamp, content. */
  function SourceEntry(source: Source): (r: Result<string, string>)
    ensures r.Err? <==> !("type" in source && "timestamp" in source && "content" in source)
    ensures r.Err? ==> r.error in {"type", "timestamp", "content"} && r.error !in source
    ensures r.Ok? ==> r.value == source["type"] + "\n" + source["timestamp"] + "\n" + source["content"]
  {
    if "type" !in source then Err("type")
    else if "timestamp" !in source then Err("timestamp")
    else if "content" !in source then Err("content")
    else Ok(source["type"] + "\n" + source["timestamp"] + "\n" + source["content"])
  }

  /** The entries of the sources in order, or the key missing from the
      first source that lacks one. */
  function SourceEntries(sources: seq<Source>): (r: Result<seq<string>, string>)
    ensures r.Ok? ==> |r.value| == |sources|
    decreases |sources|
  {
    if sources == [] then Ok([])
    else
      var n := |sources| - 1;
      match SourceEntries(sources[..n])
      case Err(k) => Err(k)
      case Ok(es) =>
        match SourceEntry(sources[n])
        case Err(k) => Err(k)
        case Ok(e) => Ok(es + [e])
  }

  /** Every source is rendered exactly when each has all three keys, and
      then entry i is source i's rendering; otherwise the error names a key
      missing from the first incomplete source. */
  lemma {:induction false} SourceEntriesFacts(sources: seq<Source>)
    ensures SourceEntries(sources).Ok? <==> forall i :: 0 <= i < |sources| ==> SourceEntry(sources[i]).Ok?
    ensures SourceEntries(sources).Ok? ==>
              forall i :: 0 <= i < |sources| ==> SourceEntries(sources).value[i] == SourceEntry(sources[i]).value
    ensures SourceEntries(sources).Err? ==>
              exists i :: 0 <= i < |sources| && SourceEntry(sources[i]).Err?
                && SourceEntries(sources).error == SourceEntry(sources[i]).error
                && forall j :: 0 <= j < i ==> SourceEntry(sources[j]).Ok?
    decreases |sources|
  {
    if sources != [] {
      var n := |sources| - 1;
      var front := sources[..n];
      SourceEntriesFacts(front);
      assert forall i :: 0 <= i < n ==> sources[i] == front[i];
    }
  }

  /** One statement as three lines: id, content, confidence. The first line
      is the id's decimal digits. */
  function StatementEntry(s: DescriptiveStatement, showConfidence: real -> string): (r: string)
    ensures |NatToString(s.id)| < |r| && r[..|NatToString(s.id)| + 1] == NatToString(s.id) + "\n"
    ensures AllDigits(r[..|NatToString(s.id)|])
  {
    NatToString(s.id) + "\n" + s.content + "\n" + showConfidence(s.confidence)
  }

  /** The entries of the statements, in order. */
  function StatementEntries(statements: seq<DescriptiveStatement>, showConfidence: real -> string): (r: seq<string>)
    ensures |r| == |statements|
    ensures forall i :: 0 <= i < |statements| ==> r[i] == StatementEntry(statements[i], showConfidence)
  {
    seq(|statements|, i requires 0 <= i < |statements| => StatementEntry(statements[i], showConfidence))
  }

  /** A block: the entries joined by the separator, then stripped. */
  function Block(entries: seq<string>): string {
    Strip(Join(EntrySeparator, entries))
  }

  /** The block of no entries is empty; the block of one entry is that entry
      stripped. */
  lemma BlockShort(entries: seq<string>)
    requires |entries| <= 1
    ensures entries == [] ==> Block(entries) == ""
    ensures |entries| == 1 ==> Block(entries) == Strip(entries[0])
  {
    if entries == [] {
      StripUnpadded("");
    }
  }

  /** The text a block is cut from keeps the entries in order: entry i
      starts where entries 0..i-1 and one separator after each end, and the
      last entry ends the text. */
  lemma BlockLayout(entries: seq<string>, i: nat)
    requires i < |entries|
    ensures var o := JoinOffset(EntrySeparator, entries, i);
            var e := o + |entries[i]|;
            var j := Join(EntrySeparator, entries);
            && e <= |j| && j[o..e] == entries[i]
            && (i + 1 < |entries| ==> e + |EntrySeparator| <= |j| && j[e..e + |EntrySeparator|] == EntrySeparator)
            && (i + 1 == |entries| ==> e == |j|)
  {
    JoinPieceAt(EntrySeparator, entries, i);
  }

  class UserDescriptorAgent {
    const model: ModelOracle
    /** The rendered system prompt. */
    const systemPrompt: string
    /** `self.description_summary_prompt`, rendered with the two blocks. */
    const summaryPrompt: (string, string) -> string
    /** How a confidence is written out. */
    const showConfidence: real -> string
    const userContext: UserContext

    constructor (model: ModelOracle, systemPrompt: string, summaryPrompt: (string, string) -> string,
                 showConfidence: real -> string, userContext: UserContext)
      ensures this.model == model && this.systemPrompt == systemPrompt && this.summaryPrompt == summaryPrompt
      ensures this.showConfidence == showConfidence && this.userContext == userContext
    {
      this.model := model;
      this.systemPrompt := systemPrompt;
      this.summaryPrompt := summaryPrompt;
      this.showConfidence := showConfidence;
      this.userContext := userContext;
    }

    /** `_format_information_sources_block`: stops at the first source
        missing a key. */
    method FormatInformationSourcesBlock(sources: seq<Source>) returns (r: Result<string, string>)
      ensures r.Ok? <==> SourceEntries(sources).Ok?
      ensures r.Ok? ==> r.value == Block(SourceEntries(sources).value)
      ensures r.Err? ==> r.error == SourceEntries(sources).error
    {
      var block := "";
      ghost var entries: seq<string> := [];
      var i := 0;
      while i < |sources|
        invariant i <= |sources|
        invariant SourceEntries(sources[..i]) == Ok(entries)
        invariant block == Join(EntrySeparator, entries)
      {
        assert sources[..i + 1][..i] == sources[..i];
        var source := sources[i];
        if i > 0 {
          block := block + EntrySeparator;
        }
        if "type" !in source {
          EntriesStopAt(sources, i + 1);
          return Err("type");
        }
        if "timestamp" !in source {
          EntriesStopAt(sources, i + 1);
          return Err("timestamp");
        }
        if "content" !in source {
          EntriesStopAt(sources, i + 1);
          return Err("content");
        }
        var entry := source["type"] + "\n" + source["timestamp"] + "\n" + source["content"];
        if i > 0 {
          JoinAppend(EntrySeparator, entries, entry);
        }
        block := block + entry;
        entries := entries + [entry];
        i := i + 1;
      }
      assert sources[..i] == sources;
      r := Ok(Strip(block));
    }

    /** `_format_descriptive_statements_block`, over the statements the user
        context holds. */
    method FormatDescriptiveStatementsBlock() returns (r: string)
      ensures r == Block(StatementEntries(userContext.descriptiveStatements, showConfidence))
    {
      var statements := userContext.descriptiveStatements;
      var block := "";
      var i := 0;
      while i < |statements|
        invariant i <= |statements|
        invariant block == Join(EntrySeparator, StatementEntries(statements[..i], showConfidence))
      {
        var entry := NatToString(statements[i].id) + "\n" + statements[i].content + "\n"
                     + showConfidence(statements[i].confidence);
        ghost var done := StatementEntries(statements[..i], showConfidence);
        assert StatementEntries(statements[..i + 1], showConfidence) == done + [entry];
        if i > 0 {
          block := block + EntrySeparator;
          JoinAppend(EntrySeparator, done, entry);
        }
        block := block + entry;
        i := i + 1;
      }
      assert statements[..i] == statements;
      r := Strip(block);
    }

    /** `update_descriptive_statements`: one request with both blocks, whose
        reply text is returned; the user context is only read. A source
        missing a key stops it before the model is asked. */
    method UpdateDescriptiveStatements(sources: seq<Source>) returns (r: Result<string, string>)
      modifies model
      ensures SourceEntries(sources).Err? ==>
                r == Err(SourceEntries(sources).error) && model.requests == old(model.requests)
      ensures SourceEntries(sources).Ok? ==>
                var prompt := SimpleMessages(systemPrompt, summaryPrompt(
                  Block(SourceEntries(sources).value),
                  Block(StatementEntries(userContext.descriptiveStatements, showConfidence))));
                && model.requests == old(model.requests) + [prompt]
                && r == Ok(model.reply(|old(model.requests)|, prompt).content)
      ensures userContext.descriptiveStatements == old(userContext.descriptiveStatements)
      ensures userContext.contextItems == old(userContext.contextItems)
    {
      var sourcesBlock := FormatInformationSourcesBlock(sources);
      if sourcesBlock.Err? {
        return Err(sourcesBlock.error);
      }
      var statementsBlock := FormatDescriptiveStatementsBlock();
      var userPrompt := summaryPrompt(sourcesBlock.value, statementsBlock);
      var messages := SimpleMessages(systemPrompt, userPrompt);
      var response := model.Generate(messages);
      r := Ok(response.content);
    }
  }

  /** Once a source lacks a key, every longer list fails with the same key. */
  lemma {:induction false} EntriesStopAt(sources: seq<Source>, k: nat)
    requires 1 <= k <= |sources|
    requires SourceEntries(sources[..k - 1]).Ok? && SourceEntry(sources[k - 1]).Err?
    ensures SourceEntries(sources).Err? && SourceEntries(sources).error == SourceEntry(sources[k - 1]).error
    decreases |sources|
  {
    if k < |sources| {
      var n := |sources| - 1;
      assert sources[..n][..k - 1] == sources[..k - 1];
      assert sources[..n][k - 1] == sources[k - 1];
      EntriesStopAt(sources[..n], k);
    } else {
      assert sources[..|sources| - 1] == sources[..k - 1];
    }
  }
}
