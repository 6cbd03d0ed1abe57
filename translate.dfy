/** `TranslateTool` (tools/tool_translate.py): a fixed phrase book with a marked fallback. */
module Translate {
  import opened Text

  /** `name()` */
  const Name: string := "translate"

  /** `sample_dict`: five lower-case English phrases and their Chinese translations. */
  const PhraseBook: map<string, string> := map[
    "hello" := "你好",
    "world" := "世界",
    "thank you" := "谢谢你",
    "good morning" := "早上好",
    "how are you" := "你好吗"
  ]

  /** The text returned for input the phrase book does not know. */
  function Fallback(text: string): (r: string)
    ensures |r| == |text| + 13
    ensures r[7..7 + |text|] == text
  {
    "[模拟翻译] " + text + " -> 中文"
  }

  /** The phrase-book key of an input: `input_text.lower().strip()`. */
  function Key(text: string): string
  {
    Strip(Lower(text))
  }

  /** `run(input_text)` */
  function Run(text: string): (r: string)
    ensures Key(text) in PhraseBook ==> r == PhraseBook[Key(text)]
    ensures Key(text) !in PhraseBook ==> r == Fallback(text)
  {
    if Key(text) in PhraseBook then PhraseBook[Key(text)] else Fallback(text)
  }

  /** Inputs with the same key translate alike when the key is a known phrase: case and
      surrounding whitespace play no part. */
  lemma RunIgnoresCaseAndSpace(s: string, t: string)
    requires Key(s) == Key(t) && Key(s) in PhraseBook
    ensures Run(s) == Run(t)
  {
  }

  /** Every phrase of the book starts and ends with a non-space character. */
  predicate Trimmed(w: string)
  {
    w != [] && !IsSpace(w[0]) && !IsSpace(w[|w| - 1])
  }

  lemma PhrasesTrimmed()
    ensures forall k :: k in PhraseBook ==> Trimmed(k)
  {
    assert PhraseBook.Keys == {"hello", "world", "thank you", "good morning", "how are you"};
  }

  /** Padding a word whose lower-case form is trimmed with whitespace does not change its key. */
  lemma {:induction false} KeyOfPadded(pre: string, word: string, post: string)
    requires forall i :: 0 <= i < |pre| ==> IsSpace(pre[i])
    requires forall i :: 0 <= i < |post| ==> IsSpace(post[i])
    requires Trimmed(Lower(word))
    ensures Key(pre + word + post) == Lower(word)
  {
    assert pre + word + post == pre + (word + post);
    LowerAppend(pre, word + post);
    LowerAppend(word, post);
    LowerSpaces(pre);
    LowerSpaces(post);
    assert Lower(pre + word + post) == pre + Lower(word) + post;
    StripPadded(pre, Lower(word), post);
  }

  /** A known phrase written in any case and padded with any whitespace gets its translation. */
  lemma PaddedPhrase(pre: string, word: string, post: string)
    requires forall i :: 0 <= i < |pre| ==> IsSpace(pre[i])
    requires forall i :: 0 <= i < |post| ==> IsSpace(post[i])
    requires Lower(word) in PhraseBook
    ensures Run(pre + word + post) == PhraseBook[Lower(word)]
  {
    PhrasesTrimmed();
    KeyOfPadded(pre, word, post);
  }

  /** Lower-casing goes character by character. */
  lemma {:induction false} LowerAppend(a: string, b: string)
    ensures Lower(a + b) == Lower(a) + Lower(b)
    decreases |a|
  {
    if a != [] {
      assert (a + b)[1..] == a[1..] + b;
      LowerAppend(a[1..], b);
      assert (a + b)[0] == a[0];
      assert Lower(a + b) == [LowerChar(a[0])] + Lower(a[1..] + b);
      assert Lower(a) == [LowerChar(a[0])] + Lower(a[1..]);
      assert [LowerChar(a[0])] + (Lower(a[1..]) + Lower(b)) == ([LowerChar(a[0])] + Lower(a[1..])) + Lower(b);
    } else {
      assert a + b == b;
    }
  }

  /** Lower-casing leaves whitespace unchanged. */
  lemma {:induction false} LowerSpaces(s: string)
    requires forall i :: 0 <= i < |s| ==> IsSpace(s[i])
    ensures Lower(s) == s
    decreases |s|
  {
    if s != [] {
      LowerSpaces(s[1..]);
    }
  }

  /** Stripping whitespace padding from a word that starts and ends with non-space gives the word. */
  lemma StripPadded(pre: string, w: string, post: string)
    requires forall i :: 0 <= i < |pre| ==> IsSpace(pre[i])
    requires forall i :: 0 <= i < |post| ==> IsSpace(post[i])
    requires Trimmed(w)
    ensures Strip(pre + w + post) == w
  {
    var s := pre + w + post;
    assert s == pre + (w + post);
    StripLeftPadded(pre, w + post);
    assert StripLeft(s) == w + post;
    StripRightPadded(w, post);
    assert Strip(s) == StripRight(w + post);
  }

  lemma {:induction false} StripLeftPadded(pre: string, rest: string)
    requires forall i :: 0 <= i < |pre| ==> IsSpace(pre[i])
    requires rest != [] && !IsSpace(rest[0])
    ensures StripLeft(pre + rest) == rest
    decreases |pre|
  {
    if pre != [] {
      assert (pre + rest)[1..] == pre[1..] + rest;
      StripLeftPadded(pre[1..], rest);
    }
  }

  lemma {:induction false} StripRightPadded(w: string, post: string)
    requires forall i :: 0 <= i < |post| ==> IsSpace(post[i])
    requires w != [] && !IsSpace(w[|w| - 1])
    ensures StripRight(w + post) == w
    decreases |post|
  {
    if post != [] {
      var init := post[..|post| - 1];
      assert (w + post)[..|w + post| - 1] == w + init;
      StripRightPadded(w, init);
    }
  }
}
