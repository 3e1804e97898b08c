/** The loading screen: "<Hello World />" typed one character per tick, a
    completion flag set once the whole text shows, a completion callback one
    second later, and a blinking cursor. Each timer firing is an event. */
module Loading {

  const FullText := "<Hello World />"

  /** The text after `n` ticks. */
  function Typed(n: nat): (r: string)
    ensures |r| == if n < |FullText| then n else |FullText|
    ensures r == FullText[..|r|]
  {
    if n < |FullText| then FullText[..n] else FullText
  }

  /** Each tick adds exactly the next character of the full text. */
  lemma TypedGrowsByOne(n: nat)
    requires n < |FullText|
    ensures Typed(n + 1) == Typed(n) + [FullText[n]]
  {
    assert FullText[..n + 1] == FullText[..n] + [FullText[n]];
  }

  /** The whole text is typed after fifteen ticks. */
  lemma FullTextAfterFifteen()
    ensures |FullText| == 15 && Typed(15) == FullText
  {
  }

  class LoadingScreen {
    var displayedText: string
    var showCursor: bool
    var isTypingComplete: bool
    /** The completion timer is running. */
    var completionPending: bool
    /** How many times `onComplete` has been called. */
    var completions: nat

    /** The text shown is a prefix of the full text; the flag is set exactly
        when all of it shows; the callback is pending or done only after
        completion, and happens at most once. */
    ghost predicate Valid()
      reads this
    {
      && |displayedText| <= |FullText| && displayedText == FullText[..|displayedText|]
      && (isTypingComplete <==> |displayedText| == |FullText|)
      && (completionPending || completions > 0 ==> isTypingComplete)
      && completions + (if completionPending then 1 else 0) <= 1
      && (isTypingComplete ==> completionPending || completions == 1)
    }

    constructor ()
      ensures Valid()
      ensures displayedText == "" && showCursor && !isTypingComplete
      ensures !completionPending && completions == 0
    {
      displayedText := "";
      showCursor := true;
      isTypingComplete := false;
      completionPending := false;
      completions := 0;
    }

    /** The 100 ms typing timer fires; it only runs while text is missing.
        Typing the last character completes the text and starts the one
        second completion timer. */
    method TypingTick()
      requires Valid() && |displayedText| < |FullText|
      modifies this
      ensures Valid()
      ensures displayedText == Typed(|old(displayedText)| + 1)
      ensures isTypingComplete <==> |displayedText| == |FullText|
      ensures completionPending == isTypingComplete && completions == old(completions)
      ensures showCursor == old(showCursor)
    {
      displayedText := FullText[..|displayedText| + 1];
      if |displayedText| == |FullText| && !isTypingComplete {
        isTypingComplete := true;
        completionPending := true;
      }
    }

    /** The completion timer fires and calls `onComplete`. */
    method CompletionTimerFires()
      requires Valid() && completionPending
      modifies this
      ensures Valid()
      ensures completions == 1 && !completionPending && isTypingComplete
      ensures displayedText == old(displayedText) && showCursor == old(showCursor)
    {
      completionPending := false;
      completions := completions + 1;
    }

    /** The 500 ms cursor interval fires. */
    method CursorTick()
      requires Valid()
      modifies this
      ensures Valid()
      ensures showCursor == !old(showCursor)
      ensures displayedText == old(displayedText) && isTypingComplete == old(isTypingComplete)
      ensures completionPending == old(completionPending) && completions == old(completions)
    {
      showCursor := !showCursor;
    }
  }
}
