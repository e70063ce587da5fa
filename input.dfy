/**
 * The `ChatInput` component (src/pages/chatPage.jsx:110-133): the text box
 * and the guard that decides whether its content is sent.
 */
module Input {
  import opened Wrappers

  /**
   * The characters JavaScript's `String.prototype.trim` removes: the
   * WhiteSpace and LineTerminator code points of the ECMAScript grammar
   * (tab, vertical tab, form feed, space, no-break space, byte order mark,
   * the other space separators, line feed, carriage return, line and
   * paragraph separators).
   */
  predicate IsWhitespace(c: char) {
    || c == '\t' || c == '\U{B}' || c == '\U{C}' || c == ' ' || c == '\U{A0}' || c == '\U{FEFF}'
    || c == '\U{1680}' || ('\U{2000}' <= c <= '\U{200A}') || c == '\U{202F}' || c == '\U{205F}' || c == '\U{3000}'
    || c == '\n' || c == '\r' || c == '\U{2028}' || c == '\U{2029}'
  }

  /** Drops the leading whitespace: what is left is a suffix of `s` that starts with a visible character. */
  function TrimStart(s: string): (r: string)
    ensures |r| <= |s| && r == s[|s| - |r|..]
    ensures forall i :: 0 <= i < |s| - |r| ==> IsWhitespace(s[i])
    ensures r == "" || !IsWhitespace(r[0])
  {
    if s != "" && IsWhitespace(s[0]) then TrimStart(s[1..]) else s
  }

  /** Drops the trailing whitespace: what is left is a prefix of `s` that ends with a visible character. */
  function TrimEnd(s: string): (r: string)
    ensures |r| <= |s| && r == s[..|r|]
    ensures forall i :: |r| <= i < |s| ==> IsWhitespace(s[i])
    ensures r == "" || !IsWhitespace(r[|r| - 1])
  {
    if s != "" && IsWhitespace(s[|s| - 1]) then TrimEnd(s[..|s| - 1]) else s
  }

  /** Where the trimmed text starts in `s`: the length of its leading whitespace. */
  function TrimOffset(s: string): nat {
    |s| - |TrimStart(s)|
  }

  /**
   * `input.trim()`: the slice of `s` between its leading and its trailing
   * whitespace, which is empty or starts and ends with a visible character.
   */
  function Trim(s: string): (r: string)
    ensures TrimOffset(s) + |r| <= |s| && r == s[TrimOffset(s)..TrimOffset(s) + |r|]
    ensures forall i :: 0 <= i < |s| && !(TrimOffset(s) <= i < TrimOffset(s) + |r|) ==> IsWhitespace(s[i])
    ensures r == "" || (!IsWhitespace(r[0]) && !IsWhitespace(r[|r| - 1]))
  {
    var t := TrimStart(s);
    var r := TrimEnd(t);
    forall i | 0 <= i < |s| && !(TrimOffset(s) <= i < TrimOffset(s) + |r|) ensures IsWhitespace(s[i]) {
      if i >= TrimOffset(s) {
        assert s[i] == t[i - TrimOffset(s)];
      }
    }
    r
  }

  /** The trimmed text is empty exactly when every character of `s` is whitespace. */
  lemma TrimEmptyIffBlank(s: string)
    ensures Trim(s) == "" <==> forall i :: 0 <= i < |s| ==> IsWhitespace(s[i])
  {
  }

  /** The condition of `handleSubmit` (line 122): something visible was typed and the box is enabled. */
  function ShouldSend(input: string, disabled: bool): (send: bool)
    ensures send <==> !disabled && exists i :: 0 <= i < |input| && !IsWhitespace(input[i])
  {
    TrimEmptyIffBlank(input);
    Trim(input) != "" && !disabled
  }

  class ChatInput {
    /** What the text box holds (`input`). */
    var input: string

    constructor ()
      ensures input == ""
    {
      input := "";
    }

    /** The box's `onChange`: it holds what was typed, unless the box is disabled and takes no typing. */
    method Type(text: string, disabled: bool)
      modifies this
      ensures input == if disabled then old(input) else text
    {
      if !disabled {
        input := text;
      }
    }

    /**
     * `handleSubmit`: when the guard holds, hand the untrimmed text to
     * `onSend` (returned here) and clear the box; otherwise change nothing.
     */
    method HandleSubmit(disabled: bool) returns (sent: Option<string>)
      modifies this
      ensures ShouldSend(old(input), disabled) ==> sent == Some(old(input)) && input == ""
      ensures !ShouldSend(old(input), disabled) ==> sent == None && input == old(input)
    {
      if ShouldSend(input, disabled) {
        sent := Some(input);
        input := "";
      } else {
        sent := None;
      }
    }

    /** `handleKeyPress`: Enter without Shift submits; any other key sends nothing. */
    method HandleKeyPress(key: string, shiftKey: bool, disabled: bool) returns (sent: Option<string>)
      modifies this
      ensures key == "Enter" && !shiftKey && ShouldSend(old(input), disabled) ==>
        sent == Some(old(input)) && input == ""
      ensures !(key == "Enter" && !shiftKey && ShouldSend(old(input), disabled)) ==>
        sent == None && input == old(input)
    {
      if key == "Enter" && !shiftKey {
        sent := HandleSubmit(disabled);
      } else {
        sent := None;
      }
    }
  }
}
