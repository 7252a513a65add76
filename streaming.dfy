/**
 * The streaming dispatcher of `handle_message`: it accumulates the
 * inference fragments into the full reply and, whenever the text so far
 * ends a sentence and differs from what was last shown, edits the
 * placeholder to that text followed by an ellipsis.
 */
module Streaming {

  const Ellipsis: string := "..."

  /** `any(s.endswith(c) for c in ".!?")`: only the ASCII terminators, no trailing whitespace. */
  predicate IsSentenceEnd(s: string)
  {
    |s| > 0 && (s[|s| - 1] == '.' || s[|s| - 1] == '!' || s[|s| - 1] == '?')
  }

  /** The flush condition: a sentence has just ended and it has not been shown yet. */
  predicate ShouldFlush(fullResponse: string, partialSent: string)
  {
    IsSentenceEnd(fullResponse) && fullResponse != partialSent
  }

  /** `full_response` after the given fragments: their concatenation. */
  function Concat(fragments: seq<string>): string
  {
    if fragments == [] then "" else Concat(fragments[..|fragments| - 1]) + fragments[|fragments| - 1]
  }

  /** The last text flushed, `""` before any flush (`partial_sent`). */
  function LastSent(flushed: seq<string>): string
  {
    if flushed == [] then "" else flushed[|flushed| - 1]
  }

  /**
   * The successive values of `partial_sent`: after each fragment the text so
   * far is flushed exactly when `ShouldFlush` holds of it and the last flush.
   */
  function Flushes(fragments: seq<string>): seq<string>
  {
    if fragments == [] then []
    else
      var before := Flushes(fragments[..|fragments| - 1]);
      var full := Concat(fragments);
      if ShouldFlush(full, LastSent(before)) then before + [full] else before
  }

  lemma {:induction false} ConcatGrows(fragments: seq<string>, k: nat)
    requires k <= |fragments|
    ensures Concat(fragments[..k]) <= Concat(fragments)
    decreases |fragments|
  {
    if k < |fragments| {
      var init := fragments[..|fragments| - 1];
      assert fragments[..k] == init[..k];
      ConcatGrows(init, k);
    } else {
      assert fragments[..k] == fragments;
    }
  }

  lemma PrefixTrans(a: string, b: string, c: string)
    requires a <= b && b <= c
    ensures a <= c
  {
    assert c[..|b|][..|a|] == c[..|a|];
  }

  /** Every flushed text ends a sentence and is a prefix of the final reply. */
  lemma {:induction false} FlushesArePrefixes(fragments: seq<string>)
    ensures forall i :: 0 <= i < |Flushes(fragments)| ==>
      IsSentenceEnd(Flushes(fragments)[i]) && Flushes(fragments)[i] <= Concat(fragments)
  {
    if fragments != [] {
      var init := fragments[..|fragments| - 1];
      FlushesArePrefixes(init);
      ConcatGrows(fragments, |fragments| - 1);
      assert fragments[..|fragments| - 1] == init;
      var before := Flushes(init);
      forall i | 0 <= i < |before| ensures before[i] <= Concat(fragments) {
        PrefixTrans(before[i], Concat(init), Concat(fragments));
      }
    }
  }

  /**
   * Each flush is a proper prefix of every later one: flushes only grow and
   * no two consecutive edits carry the same text.
   */
  lemma {:induction false} FlushesGrow(fragments: seq<string>)
    ensures forall i, j :: 0 <= i < j < |Flushes(fragments)| ==> Flushes(fragments)[i] < Flushes(fragments)[j]
  {
    if fragments != [] {
      var init := fragments[..|fragments| - 1];
      FlushesGrow(init);
      var before := Flushes(init);
      var full := Concat(fragments);
      if ShouldFlush(full, LastSent(before)) && before != [] {
        var after := before + [full];
        var last := before[|before| - 1];
        FlushesArePrefixes(init);
        ConcatGrows(fragments, |fragments| - 1);
        assert fragments[..|fragments| - 1] == init;
        PrefixTrans(last, Concat(init), full);
        assert last < full;
        forall i, j | 0 <= i < j < |after| ensures after[i] < after[j] {
          if j == |before| && i < |before| - 1 {
            PrefixTrans(before[i], last, full);
          }
        }
      }
    }
  }

  /**
   * When the reply ends a sentence, the last "..." edit already showed all
   * of it; otherwise the final edit is the first to show the tail.
   */
  lemma {:induction false} LastFlushIsReply(fragments: seq<string>)
    ensures IsSentenceEnd(Concat(fragments)) ==> LastSent(Flushes(fragments)) == Concat(fragments)
  {
  }

  /** At most one flush per fragment. */
  lemma {:induction false} FlushCount(fragments: seq<string>)
    ensures |Flushes(fragments)| <= |fragments|
  {
    if fragments != [] {
      FlushCount(fragments[..|fragments| - 1]);
    }
  }

  /**
   * The `async for` loop of `handle_message`: consumes the fragments,
   * returns `full_response` and the texts of the intermediate edits, in
   * order. The reply is the concatenation of the fragments and the edits are
   * the successive flushes, each followed by the ellipsis.
   */
  method Dispatch(fragments: seq<string>) returns (fullResponse: string, edits: seq<string>)
    ensures fullResponse == Concat(fragments)
    ensures |edits| == |Flushes(fragments)|
    ensures forall i :: 0 <= i < |edits| ==> edits[i] == Flushes(fragments)[i] + Ellipsis
  {
    fullResponse := "";
    var partialSent := "";
    edits := [];
    ghost var flushed: seq<string> := [];
    var n := 0;
    while n < |fragments|
      invariant n <= |fragments|
      invariant fullResponse == Concat(fragments[..n])
      invariant flushed == Flushes(fragments[..n]) && partialSent == LastSent(flushed)
      invariant |edits| == |flushed|
      invariant forall i :: 0 <= i < |edits| ==> edits[i] == flushed[i] + Ellipsis
    {
      assert fragments[..n + 1][..n] == fragments[..n];
      fullResponse := fullResponse + fragments[n];
      if IsSentenceEnd(fullResponse) && fullResponse != partialSent {
        edits := edits + [fullResponse + Ellipsis];
        flushed := flushed + [fullResponse];
        partialSent := fullResponse;
      }
      n := n + 1;
    }
    assert fragments[..n] == fragments;
  }

  /** The sentence-end predicate on sample replies: ASCII terminators only, no full-width terminator, no trailing-whitespace allowance. */
  lemma SentenceEndExamples()
    ensures IsSentenceEnd("Hello world.") && ShouldFlush("Hello world.", "")
    ensures !IsSentenceEnd("Hello world")
    ensures !ShouldFlush("Done!", "Done!")
    ensures !IsSentenceEnd("完成了。") && !IsSentenceEnd("Done. ")
  {
  }
}
