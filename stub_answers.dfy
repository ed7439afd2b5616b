/** The text of the stub's two canned answers, word by word. */
module StubAnswers {
  import opened Text

  // The two canned answers of `StubbedLLMService.responses`. Each source
  // literal is single-spaced, so it is exactly its words joined by one space;
  // the words are written out here in parts of at most twenty so that the
  // verifier can check each part's words one by one.

  const Answer0Part1: seq<string> :=
    ["Hello", "friend.", "Hello", "friend?", "That's", "lame.", "Maybe", "I", "should", "give",
     "you", "a", "name?", "But", "that's", "a", "slippery", "slope.", "You're", "only"]

  const Answer0Part2: seq<string> :=
    ["in", "my", "head.", "We", "have", "to", "remember", "that.", "Shit.", "It's", "actually",
     "happened.", "I'm", "talking", "to", "an", "imaginary", "person."]

  const Answer0Words: seq<string> := Answer0Part1 + Answer0Part2

  const Answer1Part1: seq<string> :=
    ["What", "if", "changing", "the", "world", "was", "just", "about", "being", "here,", "by",
     "showing", "up", "no", "matter", "how", "many", "times", "we", "get"]

  const Answer1Part2: seq<string> :=
    ["told", "we", "don't", "belong,", "by", "staying", "true", "even", "when", "we're", "shamed",
     "into", "being", "false,", "by", "believing", "in", "ourselves", "even", "when"]

  const Answer1Part3: seq<string> :=
    ["we're", "told", "we're", "too", "different?", "And", "if", "we", "all", "held", "on", "to",
     "that,", "if", "we", "refuse", "to", "budge", "and", "fall"]

  const Answer1Part4: seq<string> :=
    ["in", "line,", "if", "we", "stood", "our", "ground", "for", "long", "enough,", "just",
     "maybe\U{2026}", "The", "world", "can't", "help", "but", "change", "around", "us."]

  const Answer1Words: seq<string> := Answer1Part1 + Answer1Part2 + Answer1Part3 + Answer1Part4

  lemma Answer0Part1IsVisible() ensures AllVisible(Answer0Part1) {}
  lemma Answer0Part2IsVisible() ensures AllVisible(Answer0Part2) {}
  lemma Answer1Part1IsVisible() ensures AllVisible(Answer1Part1) {}
  lemma Answer1Part2IsVisible() ensures AllVisible(Answer1Part2) {}
  lemma Answer1Part3IsVisible() ensures AllVisible(Answer1Part3) {}
  lemma Answer1Part4IsVisible() ensures AllVisible(Answer1Part4) {}

  /** The words of each canned answer, in the order of `StubbedLLMService.responses`. */
  const ResponseWords: seq<seq<string>> := [Answer0Words, Answer1Words]

  /** A word made of printable ASCII characters other than the space, and the
      ellipsis character: the alphabet of the canned answers. */
  predicate Visible(w: string)
  {
    w != [] && forall i :: 0 <= i < |w| ==> ('!' <= w[i] <= '~' || w[i] == '\U{2026}')
  }

  predicate AllVisible(words: seq<string>)
  {
    forall k :: 0 <= k < |words| ==> Visible(words[k])
  }

  lemma AllVisibleAreWords(words: seq<string>)
    requires AllVisible(words)
    ensures AllWords(words)
  {
  }

  lemma AllVisibleAppend(a: seq<string>, b: seq<string>)
    requires AllVisible(a) && AllVisible(b)
    ensures AllVisible(a + b)
  {
  }

  /** Every word of the canned answers is a word that `split()` could yield. */
  lemma {:induction false} CannedWordsAreWords(choice: nat)
    requires choice < |ResponseWords|
    ensures AllWords(ResponseWords[choice])
  {
    if choice == 0 {
      Answer0Part1IsVisible(); Answer0Part2IsVisible();
      AllVisibleAppend(Answer0Part1, Answer0Part2);
    } else {
      Answer1Part1IsVisible(); Answer1Part2IsVisible(); Answer1Part3IsVisible(); Answer1Part4IsVisible();
      AllVisibleAppend(Answer1Part1, Answer1Part2);
      AllVisibleAppend(Answer1Part1 + Answer1Part2, Answer1Part3);
      AllVisibleAppend(Answer1Part1 + Answer1Part2 + Answer1Part3, Answer1Part4);
    }
    AllVisibleAreWords(ResponseWords[choice]);
  }
}
