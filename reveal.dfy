/**
 * The `ChatMessage` component (src/pages/chatPage.jsx:28-68): the state of one
 * rendered message and the effect that reveals an assistant reply one word per
 * timer tick. The effect runs on mount and whenever the content or the
 * user flag changes; the interval's callback is `Tick`.
 */
module Reveal {
  import opened Wrappers
  import opened Words

  class ChatMessage {
    /** Text on screen (`displayedText`). */
    var displayedText: string
    /** Whether the blinking cursor is shown (`isAnimating`). */
    var isAnimating: bool
    /** The tokens of the reply being revealed (the effect's `words`). */
    var words: seq<string>
    /** How many tokens have been appended (the effect's `currentIndex`). */
    var currentIndex: nat
    /** Whether the 50 ms interval is scheduled (not yet cleared). */
    var ticking: bool

    /**
     * While the interval runs, the text on screen is exactly the first
     * `currentIndex` tokens joined by single spaces.
     */
    ghost predicate Valid()
      reads this
    {
      && currentIndex <= |words|
      && (forall i :: 0 <= i < |words| ==> IsWord(words[i]))
      && (ticking ==> isAnimating && displayedText == Join(words[..currentIndex]))
    }

    /** The two `useState` initialisers: empty text, a cursor for assistant messages only. */
    constructor (isUser: bool)
      ensures Valid()
      ensures displayedText == "" && isAnimating == !isUser
      ensures !ticking && words == [] && currentIndex == 0
    {
      displayedText := "";
      isAnimating := !isUser;
      words := [];
      currentIndex := 0;
      ticking := false;
    }

    /**
     * The effect for a (new) `message?.content` and `isUser`: the previous
     * run's cleanup clears its interval, then an absent or empty content
     * changes nothing, an assistant reply restarts the reveal from the empty
     * text, and a user message is shown at once.
     */
    method Start(content: Option<string>, isUser: bool)
      requires Valid()
      modifies this
      ensures Valid()
      ensures content.None? || content.value == "" ==>
        && !ticking
        && displayedText == old(displayedText) && isAnimating == old(isAnimating)
        && words == old(words) && currentIndex == old(currentIndex)
      ensures content.Some? && content.value != "" && !isUser ==>
        && ticking && isAnimating
        && displayedText == ""
        && words == Tokenize(content.value) && currentIndex == 0
      ensures content.Some? && content.value != "" && isUser ==>
        && !ticking
        && displayedText == content.value && isAnimating == old(isAnimating)
        && words == old(words) && currentIndex == old(currentIndex)
    {
      ticking := false;
      if content.None? || content.value == "" {
        return;
      }
      if !isUser {
        displayedText := "";
        isAnimating := true;
        words := Tokenize(content.value);
        currentIndex := 0;
        ticking := true;
        return;
      }
      displayedText := content.value;
    }

    /**
     * One firing of the interval: append the next token (after a space
     * unless it is the first), or, once every token is shown, hide the
     * cursor and clear the interval. A cleared interval never fires.
     */
    method Tick()
      requires Valid()
      modifies this
      ensures Valid()
      ensures words == old(words)
      ensures !old(ticking) ==>
        && !ticking && displayedText == old(displayedText)
        && isAnimating == old(isAnimating) && currentIndex == old(currentIndex)
      ensures old(ticking) && old(currentIndex) < |words| ==>
        && ticking && isAnimating
        && currentIndex == old(currentIndex) + 1
        && displayedText == old(displayedText) + (if old(currentIndex) > 0 then " " else "") + words[old(currentIndex)]
        && displayedText == Join(words[..currentIndex])
      ensures old(ticking) && old(currentIndex) == |words| ==>
        && !ticking && !isAnimating
        && currentIndex == |words|
        && displayedText == old(displayedText) == Join(words)
    {
      if !ticking {
        return;
      }
      if currentIndex < |words| {
        var nextWord := WordAt(words, currentIndex);
        // The guard `nextWord !== undefined` always holds below the bound check.
        assert nextWord.Some?;
        if nextWord.Some? {
          JoinSnoc(words, currentIndex);
          displayedText := displayedText + (if currentIndex > 0 then " " else "") + nextWord.value;
        }
        currentIndex := currentIndex + 1;
      } else {
        assert words[..currentIndex] == words;
        isAnimating := false;
        ticking := false;
      }
    }

    /**
     * The interval firing `n` times from a running reveal: the text is the
     * first `old(currentIndex) + n` tokens, capped at all of them; once the
     * tick after the last token has fired, the reveal has stopped for good.
     */
    method RunInterval(n: nat)
      requires Valid() && ticking
      modifies this
      ensures Valid()
      ensures words == old(words)
      ensures old(currentIndex) + n <= |words| ==>
        && ticking && isAnimating
        && currentIndex == old(currentIndex) + n
        && displayedText == Join(words[..currentIndex])
      ensures old(currentIndex) + n > |words| ==>
        && !ticking && !isAnimating
        && currentIndex == |words|
        && displayedText == Join(words)
    {
      var fired := 0;
      while fired < n
        invariant Valid()
        invariant fired <= n
        invariant words == old(words)
        invariant old(currentIndex) + fired <= |words| ==> ticking && currentIndex == old(currentIndex) + fired
        invariant old(currentIndex) + fired > |words| ==>
          !ticking && !isAnimating && currentIndex == |words| && displayedText == Join(words)
      {
        Tick();
        fired := fired + 1;
      }
    }
  }
}
