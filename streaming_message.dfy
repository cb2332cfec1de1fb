/**
 * The typewriter effect of a streamed chat message
 * (frontend/src/components/StreamingMessage.tsx): while streaming, a 20 ms
 * interval reveals one more character per tick and stops at the end of the
 * content, reporting completion; otherwise the whole content is shown at
 * once. Time is modelled as the sequence of ticks the interval delivers.
 */
module StreamingMessage {
  import opened Wrappers

  /** One tick of the interval from index `i`: the next index, and whether the interval stops here (and completion is reported). */
  function Tick(length: nat, i: nat): (r: (nat, bool))
    ensures r.1 <==> i + 1 >= length
    ensures r.1 ==> r.0 == length
    ensures !r.1 ==> r.0 == i + 1 && r.0 < length
  {
    if i + 1 >= length then (length, true) else (i + 1, false)
  }

  /** The index after `k` ticks of an interval started at `i`, and how many times it reported completion (it stops after the first). */
  function Run(length: nat, i: nat, k: nat): (r: (nat, nat))
    ensures r.1 <= 1
    decreases k
  {
    if k == 0 then (i, 0)
    else
      var (next, done) := Tick(length, i);
      if done then (next, 1) else Run(length, next, k - 1)
  }

  /**
   * From index `i` below the end, the interval reveals one character per tick:
   * after `k` ticks short of the end nothing is reported yet; it takes exactly
   * `length - i` ticks to show everything and report completion once, and any
   * further ticks change nothing.
   */
  lemma {:induction false} RunReveals(length: nat, i: nat, k: nat)
    requires i < length
    ensures k < length - i ==> Run(length, i, k) == (i + k, 0)
    ensures k >= length - i ==> Run(length, i, k) == (length, 1)
    decreases k
  {
    if k > 0 {
      if i + 1 < length {
        RunReveals(length, i + 1, k - 1);
      }
    }
  }

  /** The message as it is shown. */
  class Typewriter {
    var content: string
    var isStreaming: bool
    var currentIndex: nat
    var displayContent: string
    /** Whether an interval is running. */
    var ticking: bool
    /** How many times `onStreamComplete` has been called. */
    var completions: nat

    /** After the effects have run, what is shown is the content up to the index, and an interval runs only while streaming a non-empty content. */
    ghost predicate Valid()
      reads this
    {
      displayContent == Take(content, currentIndex)
      && (ticking ==> isStreaming && content != "")
    }

    /** Whether the blinking cursor is drawn: while streaming, until all of the content is shown. */
    function Cursor(): (b: bool)
      reads this
      ensures Valid() ==> (b <==> isStreaming && displayContent != content)
    {
      isStreaming && currentIndex < |content|
    }

    constructor ()
      ensures Valid() && content == "" && currentIndex == 0 && !ticking && completions == 0
    {
      content, isStreaming, currentIndex, displayContent, ticking, completions := "", false, 0, "", false, 0;
    }

    /**
     * New props: the first effect restarts the interval when streaming a
     * non-empty content (the index is kept, not reset), or else shows the
     * whole content; the second shows the content up to the index.
     */
    method SetProps(c: string, streaming: bool)
      modifies this
      ensures Valid()
      ensures content == c && isStreaming == streaming && completions == old(completions)
      ensures streaming && c != "" ==> ticking && currentIndex == old(currentIndex)
      ensures !(streaming && c != "") ==> !ticking && currentIndex == |c| && displayContent == c
    {
      content, isStreaming := c, streaming;
      if streaming && c != "" {
        ticking := true;
      } else {
        ticking := false;
        displayContent := c;
        currentIndex := |c|;
      }
      displayContent := Take(content, currentIndex);
    }

    /** One tick of the running interval. */
    method OnTick()
      requires Valid() && ticking
      modifies this
      ensures Valid() && content == old(content) && isStreaming == old(isStreaming)
      ensures (currentIndex, !ticking) == Tick(|content|, old(currentIndex))
      ensures completions == old(completions) + (if ticking then 0 else 1)
    {
      var next := currentIndex + 1;
      if next >= |content| {
        ticking := false;
        completions := completions + 1;
        currentIndex := |content|;
      } else {
        currentIndex := next;
      }
      displayContent := content[..currentIndex];
    }
  }
}
