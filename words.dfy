/**
 * Tokenization of an assistant reply for the word-by-word reveal
 * (src/pages/chatPage.jsx:43): `content.split(' ').filter(Boolean)`,
 * and the text a prefix of the tokens stands for once shown with single
 * spaces between them.
 */
module Words {
  import opened Wrappers

  /** A token the reveal can show: non-empty and free of spaces. */
  predicate IsWord(w: string) {
    w != "" && ' ' !in w
  }

  /** JavaScript's `s.split(' ')`: the pieces between single spaces, empty pieces included. */
  function Split(s: string): (pieces: seq<string>)
    ensures |pieces| >= 1
    ensures forall i :: 0 <= i < |pieces| ==> ' ' !in pieces[i]
    decreases |s|
  {
    if s == "" then [""]
    else
      var rest := Split(s[1..]);
      if s[0] == ' ' then [""] + rest
      else [[s[0]] + rest[0]] + rest[1..]
  }

  /** `.filter(Boolean)` on strings: drops the empty strings. */
  function DropEmpty(ss: seq<string>): (r: seq<string>)
    ensures |r| <= |ss|
    ensures forall w :: w in r <==> w in ss && w != ""
  {
    if ss == [] then []
    else if ss[0] == "" then DropEmpty(ss[1..])
    else [ss[0]] + DropEmpty(ss[1..])
  }

  /** The tokens the reveal shows, in order. */
  function Tokenize(content: string): (words: seq<string>)
    ensures forall i :: 0 <= i < |words| ==> IsWord(words[i])
  {
    var pieces := Split(content);
    var words := DropEmpty(pieces);
    forall i | 0 <= i < |words| ensures IsWord(words[i]) {
      assert words[i] in pieces;
      var j :| 0 <= j < |pieces| && pieces[j] == words[i];
    }
    words
  }

  /** The words with one space between each two neighbours. */
  function Join(words: seq<string>): string {
    if |words| == 0 then ""
    else if |words| == 1 then words[0]
    else words[0] + " " + Join(words[1..])
  }

  /** The separator `Join` puts between two non-empty runs of words. */
  function Sep(left: seq<string>, right: seq<string>): string {
    if left != [] && right != [] then " " else ""
  }

  /** JavaScript's `words[i]`: the element, or `undefined` past the end. */
  function WordAt(words: seq<string>, i: nat): (w: Option<string>)
    ensures w.Some? <==> i < |words|
    ensures w.Some? ==> w.value == words[i]
  {
    if i < |words| then Some(words[i]) else None
  }

  lemma JoinCons(w: string, ws: seq<string>)
    ensures Join([w] + ws) == w + Sep([w], ws) + Join(ws)
  {
  }

  /** Joining two runs of words is joining each and putting one space between them. */
  lemma {:induction false} JoinAppend(a: seq<string>, b: seq<string>)
    ensures Join(a + b) == Join(a) + Sep(a, b) + Join(b)
  {
    if a == [] {
      assert a + b == b;
    } else {
      assert a + b == [a[0]] + (a[1..] + b);
      JoinCons(a[0], a[1..] + b);
      JoinAppend(a[1..], b);
      JoinCons(a[0], a[1..]);
      assert [a[0]] + a[1..] == a;
    }
  }

  /** What one reveal step does: the next word goes after the text shown so far, behind a space unless it is the first. */
  lemma {:induction false} JoinSnoc(ws: seq<string>, k: nat)
    requires k < |ws|
    ensures Join(ws[..k + 1]) == Join(ws[..k]) + (if k > 0 then " " else "") + ws[k]
  {
    assert ws[..k + 1] == ws[..k] + [ws[k]];
    JoinAppend(ws[..k], [ws[k]]);
  }

  /**
   * The text shown after j words is the text shown after k >= j words cut at a word
   * boundary: what follows it is a space and the remaining words, or nothing.
   */
  lemma {:induction false} RevealPrefix(ws: seq<string>, j: nat, k: nat)
    requires j <= k <= |ws|
    ensures Join(ws[..k]) == Join(ws[..j]) + Sep(ws[..j], ws[j..k]) + Join(ws[j..k])
    ensures Join(ws[..j]) <= Join(ws[..k])
  {
    assert ws[..k] == ws[..j] + ws[j..k];
    JoinAppend(ws[..j], ws[j..k]);
  }

  /** Splitting and re-joining with the same separator gives the text back. */
  lemma {:induction false} SplitJoin(s: string)
    ensures Join(Split(s)) == s
    decreases |s|
  {
    if s != "" {
      var rest := Split(s[1..]);
      SplitJoin(s[1..]);
      if s[0] == ' ' {
        JoinCons("", rest);
      } else {
        JoinCons([s[0]] + rest[0], rest[1..]);
        JoinCons(rest[0], rest[1..]);
        assert [rest[0]] + rest[1..] == rest;
        assert [s[0]] + s[1..] == s;
      }
    }
  }

  lemma {:induction false} SplitNoSpace(w: string)
    requires ' ' !in w
    ensures Split(w) == [w]
    decreases |w|
  {
    if w != "" {
      assert w[0] in w;
      assert forall c :: c in w[1..] ==> c in w;
      SplitNoSpace(w[1..]);
      assert [w[0]] + w[1..] == w;
    }
  }

  lemma {:induction false} SplitAtSpace(w: string, t: string)
    requires ' ' !in w
    ensures Split(w + " " + t) == [w] + Split(t)
    decreases |w|
  {
    if w == "" {
      assert w + " " + t == " " + t;
      assert (" " + t)[1..] == t;
    } else {
      var s := w + " " + t;
      assert s[0] == w[0] && s[1..] == w[1..] + " " + t;
      assert w[0] in w;
      assert forall c :: c in w[1..] ==> c in w;
      SplitAtSpace(w[1..], t);
      assert [w[0]] + w[1..] == w;
    }
  }

  /** Joining space-free pieces and splitting the result gives the pieces back. */
  lemma {:induction false} JoinSplit(ws: seq<string>)
    requires |ws| >= 1
    requires forall i :: 0 <= i < |ws| ==> ' ' !in ws[i]
    ensures Split(Join(ws)) == ws
  {
    if |ws| == 1 {
      SplitNoSpace(ws[0]);
    } else {
      JoinSplit(ws[1..]);
      SplitAtSpace(ws[0], Join(ws[1..]));
      assert [ws[0]] + ws[1..] == ws;
    }
  }

  lemma {:induction false} DropEmptyOfWords(ws: seq<string>)
    requires forall i :: 0 <= i < |ws| ==> ws[i] != ""
    ensures DropEmpty(ws) == ws
  {
    if ws != [] {
      DropEmptyOfWords(ws[1..]);
      assert [ws[0]] + ws[1..] == ws;
    }
  }

  /** `.filter(Boolean)` keeps order: filtering a concatenation filters each part. */
  lemma {:induction false} DropEmptyAppend(a: seq<string>, b: seq<string>)
    ensures DropEmpty(a + b) == DropEmpty(a) + DropEmpty(b)
  {
    if a != [] {
      assert (a + b)[1..] == a[1..] + b;
      DropEmptyAppend(a[1..], b);
    } else {
      assert a + b == b;
    }
  }

  /** Text whose spaces each stand alone between two visible characters. */
  predicate SingleSpaced(s: string) {
    && (s == "" || (s[0] != ' ' && s[|s| - 1] != ' '))
    && NoDoubleSpace(s)
  }

  predicate NoDoubleSpace(s: string) {
    forall i :: 0 <= i < |s| - 1 ==> !(s[i] == ' ' && s[i + 1] == ' ')
  }

  /** Without two spaces in a row or a trailing space, only the first piece of a split can be empty. */
  lemma {:induction false} SplitTailNonEmpty(s: string)
    requires NoDoubleSpace(s) && (s == "" || s[|s| - 1] != ' ')
    ensures forall i :: 1 <= i < |Split(s)| ==> Split(s)[i] != ""
    decreases |s|
  {
    if s != "" {
      var t := s[1..];
      assert NoDoubleSpace(t) by {
        forall i | 0 <= i < |t| - 1 ensures !(t[i] == ' ' && t[i + 1] == ' ') {
          assert t[i] == s[i + 1] && t[i + 1] == s[i + 2];
        }
      }
      SplitTailNonEmpty(t);
      if s[0] == ' ' {
        assert t != "" && t[0] == s[1] && s[1] != ' ';
      }
    }
  }

  /** Joining the tokens of single-spaced text gives the text back. */
  lemma {:induction false} JoinTokenize(s: string)
    requires SingleSpaced(s)
    ensures Join(Tokenize(s)) == s
  {
    if s != "" {
      SplitTailNonEmpty(s);
      DropEmptyOfWords(Split(s));
      SplitJoin(s);
    }
  }

  /** Tokenizing the words joined by single spaces gives back exactly those words. */
  lemma {:induction false} TokenizeJoin(ws: seq<string>)
    requires forall i :: 0 <= i < |ws| ==> IsWord(ws[i])
    ensures Tokenize(Join(ws)) == ws
  {
    if ws != [] {
      JoinSplit(ws);
      DropEmptyOfWords(ws);
    }
  }
}
