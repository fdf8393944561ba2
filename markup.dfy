/**
 * Model-output parsing (models/hf_auto_model.py, agent/agent.py): finding the
 * `<think>…</think>` and `<tool_call>…</tool_call>` blocks the way Python's
 * non-greedy `re.findall`/`re.search`/`re.sub` with DOTALL find them, and
 * assembling the reply message from the raw generated text.
 */
module Markup {
  import opened Wrappers
  import opened Strings
  import opened Messages

  const ThinkOpen: string := "<think>"
  const ThinkClose: string := "</think>"
  const CallOpen: string := "<tool_call>"
  const CallClose: string := "</tool_call>"

  /** Text cut at its blocks: `outside` holds the text around the blocks (one
      piece more than there are blocks) and `inner` each block's body. */
  datatype Blocks = Blocks(outside: seq<string>, inner: seq<string>)

  /** Puts the pieces and the delimiters back together. */
  function Reassemble(outside: seq<string>, inner: seq<string>, open: string, close: string): string
    requires |outside| == |inner| + 1
    decreases |inner|
  {
    if |inner| == 0 then outside[0]
    else outside[0] + open + inner[0] + close + Reassemble(outside[1..], inner[1..], open, close)
  }

  /** No complete block is left: there is no `open`, or no `close` after the
      first `open`. */
  predicate Unclosed(s: string, open: string, close: string) {
    match IndexOf(s, open, 0)
    case None => true
    case Some(i) => IndexOf(s, close, i + |open|).None?
  }

  lemma OccursInSlice(s: string, a: nat, b: nat, pat: string, m: int)
    requires a <= b <= |s| && OccursAt(s[a..b], pat, m)
    ensures OccursAt(s, pat, a + m)
  {
    forall t | 0 <= t < |pat|
      ensures s[a + m..a + m + |pat|][t] == pat[t]
    {
      assert s[a..b][m..m + |pat|][t] == pat[t];
    }
  }

  /** A slice in which no occurrence of `pat` starts does not contain `pat`. */
  lemma FreeSlice(s: string, pat: string, a: nat, b: nat)
    requires |pat| > 0 && a <= b <= |s|
    requires forall i :: a <= i < b ==> !OccursAt(s, pat, i)
    ensures !Contains(s[a..b], pat)
  {
    if Contains(s[a..b], pat) {
      var m :| 0 <= m <= b - a && OccursAt(s[a..b], pat, m);
      OccursInSlice(s, a, b, pat, m);
    }
  }

  /** Stripping never creates an occurrence. */
  lemma ContainsStrip(s: string, pat: string)
    requires Contains(Strip(s), pat)
    ensures Contains(s, pat)
  {
    var r := Strip(s);
    StripByFacts(s, IsSpace);
    var a := Lead(s, IsSpace);
    var m :| 0 <= m <= |r| && OccursAt(r, pat, m);
    OccursInSlice(s, a, a + |r|, pat, m);
  }

  /** `b` cuts `s` at the blocks of the non-greedy pattern `open(.*?)close`:
      putting it back together gives `s`, every piece before a block holds no
      `open`, every block body holds no `close`, and the last piece holds no
      complete block. */
  predicate Cuts(s: string, open: string, close: string, b: Blocks) {
    && |b.outside| == |b.inner| + 1
    && Reassemble(b.outside, b.inner, open, close) == s
    && (forall k :: 0 <= k < |b.inner| ==> !Contains(b.outside[k], open))
    && (forall k :: 0 <= k < |b.inner| ==> !Contains(b.inner[k], close))
    && Unclosed(b.outside[|b.inner|], open, close)
  }

  /** One block found at `i..j` followed by the cuts of the remainder gives
      the cuts of the whole text. */
  lemma CutsStep(s: string, open: string, close: string, i: nat, j: nat, rest: Blocks)
    requires |open| > 0 && |close| > 0
    requires i + |open| <= j && j + |close| <= |s|
    requires OccursAt(s, open, i) && OccursAt(s, close, j)
    requires forall t :: 0 <= t < i ==> !OccursAt(s, open, t)
    requires forall t :: i + |open| <= t < j ==> !OccursAt(s, close, t)
    requires Cuts(s[j + |close|..], open, close, rest)
    ensures Cuts(s, open, close, Blocks([s[..i]] + rest.outside, [s[i + |open|..j]] + rest.inner))
  {
    FreeSlice(s, open, 0, i);
    FreeSlice(s, close, i + |open|, j);
    var b := Blocks([s[..i]] + rest.outside, [s[i + |open|..j]] + rest.inner);
    assert b.outside[1..] == rest.outside && b.inner[1..] == rest.inner;
    assert s == s[..i] + open + s[i + |open|..j] + close + s[j + |close|..];
    forall k | 1 <= k < |b.inner|
      ensures !Contains(b.outside[k], open) && !Contains(b.inner[k], close)
    {
      assert b.outside[k] == rest.outside[k - 1] && b.inner[k] == rest.inner[k - 1];
    }
    assert b.outside[|b.inner|] == rest.outside[|rest.inner|];
  }

  /** The blocks of `s`, leftmost first, each ending at the first `close`
      after its `open` (see `ScanCuts`). */
  function Scan(s: string, open: string, close: string): (b: Blocks)
    requires |open| > 0 && |close| > 0
    ensures |b.outside| == |b.inner| + 1
    decreases |s|
  {
    match IndexOf(s, open, 0)
    case None => Blocks([s], [])
    case Some(i) =>
      match IndexOf(s, close, i + |open|)
      case None => Blocks([s], [])
      case Some(j) =>
        var rest := Scan(s[j + |close|..], open, close);
        Blocks([s[..i]] + rest.outside, [s[i + |open|..j]] + rest.inner)
  }

  /** `Scan` finds exactly the matches of the non-greedy pattern: its pieces
      put back together give the text, and they are cut where the pattern
      cuts them. */
  lemma {:induction false} ScanCuts(s: string, open: string, close: string)
    requires |open| > 0 && |close| > 0
    ensures Cuts(s, open, close, Scan(s, open, close))
    decreases |s|
  {
    match IndexOf(s, open, 0)
    case None =>
    case Some(i) =>
      match IndexOf(s, close, i + |open|)
      case None =>
      case Some(j) =>
        ScanCuts(s[j + |close|..], open, close);
        ScanFirst(s, open, close, i, j);
        CutsStep(s, open, close, i, j, Scan(s[j + |close|..], open, close));
  }

  /** A block found at `i..j` is the first block of the scan. */
  lemma {:induction false} ScanFirst(s: string, open: string, close: string, i: nat, j: nat)
    requires |open| > 0 && |close| > 0
    requires IndexOf(s, open, 0) == Some(i) && IndexOf(s, close, i + |open|) == Some(j)
    ensures j + |close| <= |s|
    ensures Scan(s, open, close).outside == [s[..i]] + Scan(s[j + |close|..], open, close).outside
    ensures Scan(s, open, close).inner == [s[i + |open|..j]] + Scan(s[j + |close|..], open, close).inner
  {
    assert OccursAt(s, open, i) && OccursAt(s, close, j);
    var rest := Scan(s[j + |close|..], open, close);
    assert Scan(s, open, close) == Blocks([s[..i]] + rest.outside, [s[i + |open|..j]] + rest.inner);
  }

  /** Text with no complete block is one piece. */
  lemma ScanUnclosed(s: string, open: string, close: string)
    requires |open| > 0 && |close| > 0 && Unclosed(s, open, close)
    ensures Scan(s, open, close) == Blocks([s], [])
  {
  }

  /** `pattern.sub("", s)`: the text with every block removed. */
  function Removed(s: string, open: string, close: string): string
    requires |open| > 0 && |close| > 0
  {
    Join("", Scan(s, open, close).outside)
  }

  // ---------------------------------------------------------------------------
  // split_thinking
  // ---------------------------------------------------------------------------

  /** `split_thinking`: the stripped body of the first think block, and the
      stripped text with every think block removed; ("", response) when there
      is no block. */
  function SplitThinking(response: string): (r: (string, string))
    ensures Unclosed(response, ThinkOpen, ThinkClose) ==> r == ("", response)
    ensures !Unclosed(response, ThinkOpen, ThinkClose) ==> r.1 == Strip(Removed(response, ThinkOpen, ThinkClose))
  {
    var b := Scan(response, ThinkOpen, ThinkClose);
    if |b.inner| == 0 then ("", response)
    else (Strip(b.inner[0]), Strip(Join("", b.outside)))
  }

  /** With a think block present, the thinking is the stripped body of the
      leftmost block, which runs to the first `</think>` after its `<think>`. */
  lemma SplitThinkingBlock(response: string) returns (x: string, t: string, y: string)
    requires !Unclosed(response, ThinkOpen, ThinkClose)
    ensures response == x + ThinkOpen + t + ThinkClose + y
    ensures !Contains(x, ThinkOpen) && !Contains(t, ThinkClose)
    ensures SplitThinking(response).0 == Strip(t)
  {
    var b := Scan(response, ThinkOpen, ThinkClose);
    ScanCuts(response, ThinkOpen, ThinkClose);
    if |b.inner| == 0 {
      ScanUnclosed(response, ThinkOpen, ThinkClose);
      assert false;
    }
    x, t := b.outside[0], b.inner[0];
    y := Reassemble(b.outside[1..], b.inner[1..], ThinkOpen, ThinkClose);
  }

  /** The thinking text never contains the closing delimiter. */
  lemma ThinkingHasNoCloseTag(response: string)
    ensures !Contains(SplitThinking(response).0, ThinkClose)
  {
    var b := Scan(response, ThinkOpen, ThinkClose);
    ScanCuts(response, ThinkOpen, ThinkClose);
    if |b.inner| > 0 {
      if Contains(SplitThinking(response).0, ThinkClose) {
        ContainsStrip(b.inner[0], ThinkClose);
      }
    }
  }

  /** Where the tags of that example are: `<think>` at 0 and the first
      `</think>` from 7 at 16, the end of the text. */
  lemma NestedThinkTags()
    ensures var s := ThinkOpen + "a" + ThinkOpen + "b" + ThinkClose;
            && |s| == 24 && s[7..16] == "a" + ThinkOpen + "b"
            && IndexOf(s, ThinkOpen, 0) == Some(0) && IndexOf(s, ThinkClose, 7) == Some(16)
  {
    var o, p := "<think>", "</think>";
    var s := o + "a" + o + "b" + p;
    assert o == ThinkOpen && p == ThinkClose;
    assert s[..7] == o;
    assert IndexOf(s, ThinkOpen, 0) == Some(0);
    // the first "</think>" from index 7 starts at 16
    assert s[16..24] == p;
    assert IndexOf(s, p, 16) == Some(16);
    assert s[15] != p[0];
    assert IndexOf(s, p, 15) == Some(16);
    assert s[14] != p[0];
    assert IndexOf(s, p, 14) == Some(16);
    assert s[13] != p[0];
    assert IndexOf(s, p, 13) == Some(16);
    assert s[12] != p[0];
    assert IndexOf(s, p, 12) == Some(16);
    assert s[11] != p[0];
    assert IndexOf(s, p, 11) == Some(16);
    assert s[10] != p[0];
    assert IndexOf(s, p, 10) == Some(16);
    assert s[9] != p[0];
    assert IndexOf(s, p, 9) == Some(16);
    assert s[9] != p[1];
    assert IndexOf(s, p, 8) == Some(16);
    assert s[7] != p[0];
    assert IndexOf(s, p, 7) == Some(16);
    assert s[7..16] == "a" + o + "b";
    assert s[24..] == [];
  }

  /** The thinking may still hold `<think>`: a second opening tag inside the
      first block belongs to its body. */
  lemma ThinkingMayHoldOpenTag()
    ensures SplitThinking(ThinkOpen + "a" + ThinkOpen + "b" + ThinkClose).0 == "a" + ThinkOpen + "b"
  {
    var o := ThinkOpen;
    var s := o + "a" + o + "b" + ThinkClose;
    NestedThinkTags();
    var b := Scan(s, ThinkOpen, ThinkClose);
    assert b.inner[0] == "a" + o + "b";
    StripUnpadded("a" + o + "b");
  }

  // ---------------------------------------------------------------------------
  // parse_tool_calls
  // ---------------------------------------------------------------------------

  /** `json.loads(block.strip())`, with the decoder as a partial function. */
  function DecodeBlock(block: string, decode: string -> Option<ToolCall>): Option<ToolCall> {
    decode(Strip(block))
  }

  /** The tool calls decoded from `blocks` in order, skipping the blocks whose
      stripped text does not decode. */
  function DecodeBlocks(blocks: seq<string>, decode: string -> Option<ToolCall>): (calls: seq<ToolCall>)
    ensures |calls| <= |blocks|
    decreases |blocks|
  {
    if blocks == [] then []
    else
      var init := DecodeBlocks(blocks[..|blocks| - 1], decode);
      match DecodeBlock(blocks[|blocks| - 1], decode)
      case Some(c) => init + [c]
      case None => init
  }

  /** The last block contributes its call, if it decodes, after those of the
      blocks before it. */
  lemma DecodeBlocksLast(blocks: seq<string>, decode: string -> Option<ToolCall>)
    requires |blocks| > 0
    ensures var n := |blocks| - 1;
            DecodeBlocks(blocks, decode) ==
              DecodeBlocks(blocks[..n], decode) + (if DecodeBlock(blocks[n], decode).Some? then [DecodeBlock(blocks[n], decode).value] else [])
  {
  }

  /** The positions of the blocks that decode, in order. */
  function Decoded(blocks: seq<string>, decode: string -> Option<ToolCall>): (idx: seq<nat>)
    ensures forall i :: 0 <= i < |idx| ==> idx[i] < |blocks|
    decreases |blocks|
  {
    if blocks == [] then []
    else
      var n := |blocks| - 1;
      Decoded(blocks[..n], decode) + if DecodeBlock(blocks[n], decode).Some? then [n] else []
  }

  /** The positions are strictly increasing and are exactly the blocks that
      decode. */
  lemma {:induction false} DecodedPositions(blocks: seq<string>, decode: string -> Option<ToolCall>)
    ensures forall i, j :: 0 <= i < j < |Decoded(blocks, decode)| ==> Decoded(blocks, decode)[i] < Decoded(blocks, decode)[j]
    ensures forall k :: 0 <= k < |blocks| ==> (k in Decoded(blocks, decode) <==> DecodeBlock(blocks[k], decode).Some?)
    decreases |blocks|
  {
    if blocks != [] {
      var n := |blocks| - 1;
      var init := blocks[..n];
      DecodedPositions(init, decode);
      var prev := Decoded(init, decode);
      forall k | 0 <= k < n
        ensures k in prev <==> DecodeBlock(blocks[k], decode).Some?
      {
        assert init[k] == blocks[k];
      }
    }
  }

  /** The i-th decoded call is what the i-th decoding block decodes to. */
  lemma {:induction false} DecodedCalls(blocks: seq<string>, decode: string -> Option<ToolCall>)
    ensures |Decoded(blocks, decode)| == |DecodeBlocks(blocks, decode)|
    ensures forall i :: 0 <= i < |Decoded(blocks, decode)| ==>
              DecodeBlock(blocks[Decoded(blocks, decode)[i]], decode) == Some(DecodeBlocks(blocks, decode)[i])
    decreases |blocks|
  {
    if blocks != [] {
      var n := |blocks| - 1;
      var init := blocks[..n];
      DecodedCalls(init, decode);
      var idx, calls := Decoded(blocks, decode), DecodeBlocks(blocks, decode);
      var pidx, prev := Decoded(init, decode), DecodeBlocks(init, decode);
      forall i | 0 <= i < |pidx|
        ensures DecodeBlock(blocks[idx[i]], decode) == Some(calls[i])
      {
        assert idx[i] == pidx[i] && calls[i] == prev[i];
        assert init[pidx[i]] == blocks[pidx[i]];
      }
    }
  }

  /** When every block decodes, every block yields its call. */
  lemma {:induction false} DecodeBlocksAll(blocks: seq<string>, decode: string -> Option<ToolCall>)
    requires forall k :: 0 <= k < |blocks| ==> DecodeBlock(blocks[k], decode).Some?
    ensures |DecodeBlocks(blocks, decode)| == |blocks|
    ensures forall k :: 0 <= k < |blocks| ==> Some(DecodeBlocks(blocks, decode)[k]) == DecodeBlock(blocks[k], decode)
    decreases |blocks|
  {
    if blocks != [] {
      var n := |blocks| - 1;
      var init := blocks[..n];
      assert forall k :: 0 <= k < n ==> init[k] == blocks[k];
      DecodeBlocksAll(init, decode);
      DecodeBlocksLast(blocks, decode);
    }
  }

  lemma TailHasNoCallOpen()
    ensures IndexOf("call>y" + CallClose, CallOpen, 0) == None
  {
    var o, c := "<tool_call>", "</tool_call>";
    assert o == CallOpen && c == CallClose;
    var t := "call>y" + c;
    assert IndexOf(t, o, 8) == None;
    assert t[7] != o[1];
    assert IndexOf(t, o, 7) == None;
    assert t[6] != o[1];
    assert IndexOf(t, o, 6) == None;
    assert t[5] != o[0];
    assert IndexOf(t, o, 5) == None;
    assert t[4] != o[0];
    assert IndexOf(t, o, 4) == None;
    assert t[3] != o[0];
    assert IndexOf(t, o, 3) == None;
    assert t[2] != o[0];
    assert IndexOf(t, o, 2) == None;
    assert t[1] != o[0];
    assert IndexOf(t, o, 1) == None;
    assert t[0] != o[0];
  }

  lemma FirstCallBlockOfFusing()
    ensures var s := "<tool_" + CallOpen + "x" + CallClose + "call>y" + CallClose;
            IndexOf(s, CallOpen, 0) == Some(6) && IndexOf(s, CallClose, 17) == Some(18)
  {
    var o, c := "<tool_call>", "</tool_call>";
    var s := "<tool_" + o + "x" + c + "call>y" + c;
    assert o == CallOpen && c == CallClose;
    // the first "<tool_call>" starts at 6
    assert s[6..17] == o;
    assert IndexOf(s, o, 6) == Some(6);
    assert s[5] != o[0];
    assert IndexOf(s, o, 5) == Some(6);
    assert s[4] != o[0];
    assert IndexOf(s, o, 4) == Some(6);
    assert s[3] != o[0];
    assert IndexOf(s, o, 3) == Some(6);
    assert s[2] != o[0];
    assert IndexOf(s, o, 2) == Some(6);
    assert s[1] != o[0];
    assert IndexOf(s, o, 1) == Some(6);
    assert s[6] != o[6];
    // the first "</tool_call>" after it starts at 18
    assert s[18..30] == c;
    assert IndexOf(s, c, 18) == Some(18);
    assert s[17] != c[0];
  }

  /** Removing the blocks can join two fragments into a new block, so the
      text `parse_tool_calls` returns may still hold a complete block. */
  lemma RemovalMayFormBlock()
    ensures var s := "<tool_" + CallOpen + "x" + CallClose + "call>y" + CallClose;
            Removed(s, CallOpen, CallClose) == CallOpen + "y" + CallClose
  {
    var t := "call>y" + CallClose;
    FusingOutside();
    assert Join("", ["<tool_", t]) == "<tool_" + t;
    assert "<tool_" + "call>" == CallOpen;
    assert "<tool_" + t == CallOpen + "y" + CallClose;
  }

  /** The text outside the one block of that example: what precedes it and
      what follows it. */
  lemma FusingOutside()
    ensures var s := "<tool_" + CallOpen + "x" + CallClose + "call>y" + CallClose;
            Scan(s, CallOpen, CallClose).outside == ["<tool_", "call>y" + CallClose]
  {
    var s := "<tool_" + CallOpen + "x" + CallClose + "call>y" + CallClose;
    FirstCallBlockOfFusing();
    TailHasNoCallOpen();
    var t := s[30..];
    assert t == "call>y" + CallClose;
    ScanUnclosed(t, CallOpen, CallClose);
    ScanFirst(s, CallOpen, CallClose, 6, 18);
    assert s[..6] == "<tool_";
  }

  /** `parse_tool_calls`: the decoded tool-call blocks in order and the
      stripped text with every tool-call block removed. */
  method ParseToolCalls(response: string, decode: string -> Option<ToolCall>) returns (calls: seq<ToolCall>, rest: string)
    ensures calls == DecodeBlocks(Scan(response, CallOpen, CallClose).inner, decode)
    ensures rest == Strip(Removed(response, CallOpen, CallClose))
  {
    var blocks := Scan(response, CallOpen, CallClose).inner;
    calls := [];
    var k := 0;
    while k < |blocks|
      invariant 0 <= k <= |blocks|
      invariant calls == DecodeBlocks(blocks[..k], decode)
    {
      match DecodeBlock(blocks[k], decode) {
        case Some(c) => calls := calls + [c];
        case None =>
      }
      k := k + 1;
      assert blocks[..k][..k - 1] == blocks[..k - 1];
    }
    assert blocks[..k] == blocks;
    rest := Strip(Removed(response, CallOpen, CallClose));
  }

  /** The tail of `HFAutoModel.generate`: thinking is split off first, tool
      calls are parsed from what remains, the content is stripped and an empty
      call list becomes None. */
  method AssembleReply(raw: string, decode: string -> Option<ToolCall>) returns (m: Message)
    ensures m.role == "assistant"
    ensures m.thinking == SplitThinking(raw).0
    ensures m.content == Strip(Removed(SplitThinking(raw).1, CallOpen, CallClose))
    ensures Strip(m.content) == m.content
    ensures var calls := DecodeBlocks(Scan(SplitThinking(raw).1, CallOpen, CallClose).inner, decode);
            m.toolCalls == if calls == [] then None else Some(calls)
  {
    var thinking, response := SplitThinking(raw).0, SplitThinking(raw).1;
    var calls, rest := ParseToolCalls(response, decode);
    StripIdempotent(Removed(response, CallOpen, CallClose));
    m := Message("assistant", Strip(rest), thinking, if calls == [] then None else Some(calls));
  }
}
