/**
 * The content blocks of a model response and what the block scan of
 * `process_with_agent` keeps from them: the last "thinking" block and the
 * last "text" block; blocks of any other type are skipped.
 */
module Blocks {
  import opened Wrappers

  /** One content block, by its `type`: "thinking", "text", or anything else. */
  datatype Block = Thinking(thinking: string) | Text(text: string) | Other(kind: string)

  /** What the messages call returns that the service looks at. */
  datatype Response = Response(content: seq<Block>, stopReason: Option<string>)

  /** The dictionary `process_with_agent` returns. */
  datatype AgentResult = AgentResult(analysis: string, thinkingProcess: Option<string>, stopReason: Option<string>)

  predicate HasText(blocks: seq<Block>)
  {
    exists i :: 0 <= i < |blocks| && blocks[i].Text?
  }

  predicate HasThinking(blocks: seq<Block>)
  {
    exists i :: 0 <= i < |blocks| && blocks[i].Thinking?
  }

  /** The text of the last "text" block, or "" when there is none. */
  function LastText(blocks: seq<Block>): string
  {
    if blocks == [] then ""
    else if blocks[|blocks| - 1].Text? then blocks[|blocks| - 1].text
    else LastText(blocks[..|blocks| - 1])
  }

  /** The content of the last "thinking" block, or `None` when there is none. */
  function LastThinking(blocks: seq<Block>): Option<string>
  {
    if blocks == [] then None
    else if blocks[|blocks| - 1].Thinking? then Some(blocks[|blocks| - 1].thinking)
    else LastThinking(blocks[..|blocks| - 1])
  }

  /** The blocks the scan recognises, in order, with every other kind dropped. */
  function Recognised(blocks: seq<Block>): (r: seq<Block>)
    ensures |r| <= |blocks|
    ensures forall i :: 0 <= i < |r| ==> !r[i].Other?
    ensures forall x :: x in r <==> x in blocks && !x.Other?
  {
    if blocks == [] then []
    else if blocks[|blocks| - 1].Other? then Recognised(blocks[..|blocks| - 1])
    else Recognised(blocks[..|blocks| - 1]) + [blocks[|blocks| - 1]]
  }

  /** The analysis is the text of the "text" block that no later "text" block follows. */
  lemma {:induction false} LastTextBlockWins(blocks: seq<Block>, i: int)
    requires 0 <= i < |blocks| && blocks[i].Text?
    requires forall j :: i < j < |blocks| ==> !blocks[j].Text?
    ensures LastText(blocks) == blocks[i].text
  {
    if i < |blocks| - 1 {
      var init := blocks[..|blocks| - 1];
      assert forall j :: i < j < |init| ==> init[j] == blocks[j];
      LastTextBlockWins(init, i);
    }
  }

  /** Without any "text" block the analysis stays the empty string. */
  lemma {:induction false} NoTextBlockGivesEmpty(blocks: seq<Block>)
    requires !HasText(blocks)
    ensures LastText(blocks) == ""
  {
    if blocks != [] {
      var init := blocks[..|blocks| - 1];
      assert !blocks[|blocks| - 1].Text?;
      assert forall j :: 0 <= j < |init| ==> init[j] == blocks[j];
      NoTextBlockGivesEmpty(init);
    }
  }

  /** The thinking process is the content of the "thinking" block that no later "thinking" block follows. */
  lemma {:induction false} LastThinkingBlockWins(blocks: seq<Block>, i: int)
    requires 0 <= i < |blocks| && blocks[i].Thinking?
    requires forall j :: i < j < |blocks| ==> !blocks[j].Thinking?
    ensures LastThinking(blocks) == Some(blocks[i].thinking)
  {
    if i < |blocks| - 1 {
      var init := blocks[..|blocks| - 1];
      assert forall j :: i < j < |init| ==> init[j] == blocks[j];
      LastThinkingBlockWins(init, i);
    }
  }

  /** The thinking process is absent exactly when the response has no "thinking" block. */
  lemma {:induction false} ThinkingAbsentIffNoThinkingBlock(blocks: seq<Block>)
    ensures LastThinking(blocks) == None <==> !HasThinking(blocks)
  {
    if blocks != [] {
      var init := blocks[..|blocks| - 1];
      ThinkingAbsentIffNoThinkingBlock(init);
      if !blocks[|blocks| - 1].Thinking? {
        if HasThinking(blocks) {
          var i :| 0 <= i < |blocks| && blocks[i].Thinking?;
          assert init[i] == blocks[i];
        }
        if HasThinking(init) {
          var i :| 0 <= i < |init| && init[i].Thinking?;
          assert blocks[i] == init[i];
        }
      }
    }
  }

  /** Scanning `a + b` keeps what `b` provides and falls back to `a` for a kind `b` lacks. */
  lemma {:induction false} ScanOfConcatenation(a: seq<Block>, b: seq<Block>)
    ensures LastText(a + b) == if HasText(b) then LastText(b) else LastText(a)
    ensures LastThinking(a + b) == if HasThinking(b) then LastThinking(b) else LastThinking(a)
  {
    if b == [] {
      assert a + b == a;
    } else {
      var init := b[..|b| - 1];
      var last := b[|b| - 1];
      assert (a + b)[..|a + b| - 1] == a + init;
      assert (a + b)[|a + b| - 1] == last;
      ScanOfConcatenation(a, init);
      assert HasText(b) <==> HasText(init) || last.Text? by {
        if HasText(b) && !last.Text? {
          var i :| 0 <= i < |b| && b[i].Text?;
          assert init[i] == b[i];
        }
        if HasText(init) {
          var i :| 0 <= i < |init| && init[i].Text?;
          assert b[i] == init[i];
        }
      }
      assert HasThinking(b) <==> HasThinking(init) || last.Thinking? by {
        if HasThinking(b) && !last.Thinking? {
          var i :| 0 <= i < |b| && b[i].Thinking?;
          assert init[i] == b[i];
        }
        if HasThinking(init) {
          var i :| 0 <= i < |init| && init[i].Thinking?;
          assert b[i] == init[i];
        }
      }
    }
  }

  /** One block of an unrecognised kind, wherever it stands, changes neither field. */
  lemma OtherBlockSkipped(a: seq<Block>, kind: string, b: seq<Block>)
    ensures LastText(a + [Other(kind)] + b) == LastText(a + b)
    ensures LastThinking(a + [Other(kind)] + b) == LastThinking(a + b)
  {
    var o := [Other(kind)];
    assert a + o + b == (a + o) + b;
    ScanOfConcatenation(a + o, b);
    ScanOfConcatenation(a, b);
    assert (a + o)[..|a|] == a;
  }

  /** Blocks of unrecognised kinds change neither the analysis nor the thinking process. */
  lemma {:induction false} OtherBlocksIgnored(blocks: seq<Block>)
    ensures LastText(Recognised(blocks)) == LastText(blocks)
    ensures LastThinking(Recognised(blocks)) == LastThinking(blocks)
  {
    if blocks != [] {
      var init := blocks[..|blocks| - 1];
      var last := blocks[|blocks| - 1];
      OtherBlocksIgnored(init);
      if !last.Other? {
        ScanOfConcatenation(Recognised(init), [last]);
        assert [last][0] == last;
      }
    }
  }
}
