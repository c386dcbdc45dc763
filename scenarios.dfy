/** The test suite's scenarios: six documents, each indexed by its name and
    its description, and the searches run against them under each
    configuration the suite tries. Every scenario method returns what the
    searches return, and its postcondition states the value the suite expects. */
module Scenarios {
  import opened Text
  import opened Keys
  import opened Index

  datatype Document = Document(id: int, name: string, description: string)

  const Documents: seq<Document> := [
    Document(1, "One", "The first document"),
    Document(2, "Two", "The second document"),
    Document(3, "Three", "The third document"),
    Document(4, "楌ぴ", "堦ヴ礯 ラ蝥曣んを 檨儯饨䶧"),
    Document(5, "ㄨ穯ゆ姎囥", "楌ぴ 堦ヴ礯 ラ蝥曣んを 檨儯饨䶧䏤"),
    Document(6, "Six", "Este es el sexto/6o documento")
  ]

  const AllIds: set<int> := {1, 2, 3, 4, 5, 6}

  /** The postings that indexing the first `n` documents, name then
      description, produces with the given pipeline. */
  function DocumentPostings(tokenize: string -> seq<string>, sanitize: string -> string, n: nat): set<(int, string)>
    requires n <= |Documents|
  {
    if n == 0 then {}
    else
      var d := Documents[n - 1];
      DocumentPostings(tokenize, sanitize, n - 1)
      + (Postings(d.id, tokenize(sanitize(d.name))) + Postings(d.id, tokenize(sanitize(d.description))))
  }

  /** The ids of the first `n` documents. */
  function DocumentIds(n: nat): set<int>
    requires n <= |Documents|
  {
    if n == 0 then {} else DocumentIds(n - 1) + {Documents[n - 1].id}
  }

  lemma AllDocumentIds()
    ensures DocumentIds(|Documents|) == AllIds
  {
    assert DocumentIds(1) == {1};
    assert DocumentIds(2) == {1, 2};
    assert DocumentIds(3) == {1, 2, 3};
    assert DocumentIds(4) == {1, 2, 3, 4};
    assert DocumentIds(5) == {1, 2, 3, 4, 5};
  }

  lemma IndexStep(tokenize: string -> seq<string>, sanitize: string -> string, i: nat)
    requires i < |Documents|
    ensures DocumentIds(i + 1) == DocumentIds(i) + {Documents[i].id}
    ensures DocumentPostings(tokenize, sanitize, i + 1)
         == DocumentPostings(tokenize, sanitize, i)
          + Postings(Documents[i].id, tokenize(sanitize(Documents[i].name)))
          + Postings(Documents[i].id, tokenize(sanitize(Documents[i].description)))
  {
  }

  /** The suite's `init` helper: a fresh utility with every document indexed,
      name first and description second. */
  method Init(options: Options) returns (su: SearchUtility)
    ensures fresh(su) && su.Valid() && su.locked
    ensures su.indexMode == options.indexMode.GetOr(Substrings)
    ensures su.tokenize == options.tokenize.GetOr(DefaultTokenize)
    ensures su.sanitize == options.sanitize.GetOr(DefaultSanitize)
    ensures su.uids == AllIds
    ensures su.postings == DocumentPostings(su.tokenize, su.sanitize, |Documents|)
  {
    su := new SearchUtility(options);
    var i := 0;
    while i < |Documents|
      invariant 0 <= i <= |Documents|
      invariant su.Valid() && (i > 0 ==> su.locked)
      invariant su.indexMode == options.indexMode.GetOr(Substrings)
      invariant su.uids == DocumentIds(i)
      invariant su.postings == DocumentPostings(su.tokenize, su.sanitize, i)
    {
      var d := Documents[i];
      IndexStep(su.tokenize, su.sanitize, i);
      su.IndexDocument(d.id, d.name);
      su.IndexDocument(d.id, d.description);
      i := i + 1;
    }
    AllDocumentIds();
  }

  /** The postings of the six documents, text by text. */
  lemma UnfoldPostings(tokenize: string -> seq<string>, sanitize: string -> string)
    ensures DocumentPostings(tokenize, sanitize, |Documents|)
         == {}
          + (Postings(1, tokenize(sanitize("One"))) + Postings(1, tokenize(sanitize("The first document"))))
          + (Postings(2, tokenize(sanitize("Two"))) + Postings(2, tokenize(sanitize("The second document"))))
          + (Postings(3, tokenize(sanitize("Three"))) + Postings(3, tokenize(sanitize("The third document"))))
          + (Postings(4, tokenize(sanitize("楌ぴ")))
             + Postings(4, tokenize(sanitize("堦ヴ礯 ラ蝥曣んを 檨儯饨䶧"))))
          + (Postings(5, tokenize(sanitize("ㄨ穯ゆ姎囥")))
             + Postings(5, tokenize(sanitize("楌ぴ 堦ヴ礯 ラ蝥曣んを 檨儯饨䶧䏤"))))
          + (Postings(6, tokenize(sanitize("Six")))
             + Postings(6, tokenize(sanitize("Este es el sexto/6o documento"))))
  {
    assert |Documents| == 6;
  }

  /** What the default pipeline (lower-case, then split at anything but
      letters and digits) makes of the six documents. */
  const DefaultPostings: set<(int, string)> := {
    (1, "one"), (1, "the"), (1, "first"), (1, "document"),
    (2, "two"), (2, "the"), (2, "second"), (2, "document"),
    (3, "three"), (3, "the"), (3, "third"), (3, "document"),
    (4, "楌ぴ"), (4, "堦ヴ礯"), (4, "ラ蝥曣んを"), (4, "檨儯饨䶧"),
    (5, "ㄨ穯ゆ姎囥"), (5, "楌ぴ"), (5, "堦ヴ礯"), (5, "ラ蝥曣んを"), (5, "檨儯饨䶧䏤"),
    (6, "six"), (6, "este"), (6, "es"), (6, "el"), (6, "sexto"), (6, "6o"), (6, "documento")
  }

  /** With the `[a-z0-9]` tokeniser the two documents written in kana and
      ideographs yield no token at all. */
  const AlnumPostings: set<(int, string)> := {
    (1, "one"), (1, "the"), (1, "first"), (1, "document"),
    (2, "two"), (2, "the"), (2, "second"), (2, "document"),
    (3, "three"), (3, "the"), (3, "third"), (3, "document"),
    (6, "six"), (6, "este"), (6, "es"), (6, "el"), (6, "sexto"), (6, "6o"), (6, "documento")
  }

  /** With the trimming sanitiser the tokens keep their case. */
  const TrimPostings: set<(int, string)> := {
    (1, "One"), (1, "The"), (1, "first"), (1, "document"),
    (2, "Two"), (2, "The"), (2, "second"), (2, "document"),
    (3, "Three"), (3, "The"), (3, "third"), (3, "document"),
    (4, "楌ぴ"), (4, "堦ヴ礯"), (4, "ラ蝥曣んを"), (4, "檨儯饨䶧"),
    (5, "ㄨ穯ゆ姎囥"), (5, "楌ぴ"), (5, "堦ヴ礯"), (5, "ラ蝥曣んを"), (5, "檨儯饨䶧䏤"),
    (6, "Six"), (6, "Este"), (6, "es"), (6, "el"), (6, "sexto"), (6, "6o"), (6, "documento")
  }

  /** Every character of `w` is in the class, checked one character at a time. */
  predicate Chars(isWord: char -> bool, w: string) {
    w == [] || (isWord(w[0]) && Chars(isWord, w[1..]))
  }

  /** Every word is non-empty and in the class, checked one word at a time. */
  predicate Words(isWord: char -> bool, ws: seq<string>) {
    ws == [] || (ws[0] != [] && Chars(isWord, ws[0]) && Words(isWord, ws[1..]))
  }

  lemma {:induction false} CharsAllIn(isWord: char -> bool, w: string)
    requires Chars(isWord, w)
    ensures AllIn(isWord, w)
  {
    if w != [] {
      CharsAllIn(isWord, w[1..]);
      assert w == [w[0]] + w[1..];
    }
  }

  lemma {:induction false} WordsWellFormed(isWord: char -> bool, ws: seq<string>)
    requires Words(isWord, ws)
    ensures WellFormed(isWord, ws)
  {
    if ws != [] {
      CharsAllIn(isWord, ws[0]);
      WordsWellFormed(isWord, ws[1..]);
      forall k | 0 <= k < |ws| ensures ws[k] != [] && AllIn(isWord, ws[k]) {
        if k > 0 {
          assert ws[k] == ws[1..][k - 1];
        }
      }
    }
  }

  /** No character of `s` from position `i` on is in the class, checked one
      position at a time. */
  predicate NoneFrom(isWord: char -> bool, s: string, i: nat)
    decreases |s| - i
  {
    i >= |s| || (!isWord(s[i]) && NoneFrom(isWord, s, i + 1))
  }

  lemma {:induction false} NoneFromScan(isWord: char -> bool, s: string, i: nat)
    requires i <= |s| && NoneFrom(isWord, s, i)
    ensures Scan(isWord, s[i..], []) == []
    decreases |s| - i
  {
    if i < |s| {
      NoneFromScan(isWord, s, i + 1);
      assert s[i..][1..] == s[i + 1..];
    }
  }

  /** A text with no character of the class has no token. */
  lemma NoWords(isWord: char -> bool, s: string)
    requires NoneFrom(isWord, s, 0)
    ensures Tokenize(isWord, s) == []
  {
    NoneFromScan(isWord, s, 0);
    assert s[0..] == s;
  }


  /** A single word tokenises to itself. */
  lemma Word(isWord: char -> bool, w: string)
    requires w != [] && Chars(isWord, w)
    ensures Tokenize(isWord, w) == [w]
  {
    CharsAllIn(isWord, w);
    TokenizeWord(isWord, w);
  }

  /** Words with single spaces between them tokenise to the words. */
  lemma Spaced(isWord: char -> bool, s: string, words: seq<string>)
    requires words != [] && Words(isWord, words) && !isWord(' ')
    requires s == Join(words, ' ')
    ensures Tokenize(isWord, s) == words
  {
    WordsWellFormed(isWord, words);
    TokenizeJoin(isWord, words, ' ');
  }

  // Lower-casing the twelve texts, one text per lemma.

  lemma LowerOne() ensures ToLower("One") == "one" { }
  lemma LowerTwo() ensures ToLower("Two") == "two" { }
  lemma LowerThree() ensures ToLower("Three") == "three" { }
  lemma LowerFour() ensures ToLower("楌ぴ") == "楌ぴ" { }
  lemma LowerFive() ensures ToLower("ㄨ穯ゆ姎囥") == "ㄨ穯ゆ姎囥" { }
  lemma LowerSix() ensures ToLower("Six") == "six" { }
  lemma LowerFirst() ensures ToLower("The first document") == "the first document" { }
  lemma LowerSecond() ensures ToLower("The second document") == "the second document" { }
  lemma LowerThird() ensures ToLower("The third document") == "the third document" { }
  lemma LowerFourth() ensures ToLower("堦ヴ礯 ラ蝥曣んを 檨儯饨䶧") == "堦ヴ礯 ラ蝥曣んを 檨儯饨䶧" { }
  lemma LowerFifth() ensures ToLower("楌ぴ 堦ヴ礯 ラ蝥曣んを 檨儯饨䶧䏤") == "楌ぴ 堦ヴ礯 ラ蝥曣んを 檨儯饨䶧䏤" { }
  lemma LowerSixth() ensures ToLower("Este es el sexto/6o documento") == "este es el sexto/6o documento" { }

  // The lower-cased descriptions, tokenised by the default tokeniser.

  lemma WordsFirst() ensures Tokenize(IsWordChar, "the first document") == ["the", "first", "document"] {
    FirstJoined();
    FirstClass();
    Spaced(IsWordChar, "the first document", ["the", "first", "document"]);
  }

  lemma WordsSecond() ensures Tokenize(IsWordChar, "the second document") == ["the", "second", "document"] {
    SecondJoined();
    SecondClass();
    Spaced(IsWordChar, "the second document", ["the", "second", "document"]);
  }

  lemma WordsThird() ensures Tokenize(IsWordChar, "the third document") == ["the", "third", "document"] {
    ThirdJoined();
    ThirdClass();
    Spaced(IsWordChar, "the third document", ["the", "third", "document"]);
  }

  lemma WordsFourth()
    ensures Tokenize(IsWordChar, "堦ヴ礯 ラ蝥曣んを 檨儯饨䶧") == ["堦ヴ礯", "ラ蝥曣んを", "檨儯饨䶧"]
  {
    FourthJoined();
    FourthClass();
    Spaced(IsWordChar, "堦ヴ礯 ラ蝥曣んを 檨儯饨䶧", ["堦ヴ礯", "ラ蝥曣んを", "檨儯饨䶧"]);
  }

  lemma WordsFifth()
    ensures Tokenize(IsWordChar, "楌ぴ 堦ヴ礯 ラ蝥曣んを 檨儯饨䶧䏤") == ["楌ぴ", "堦ヴ礯", "ラ蝥曣んを", "檨儯饨䶧䏤"]
  {
    FifthJoined();
    FifthClass();
    Spaced(IsWordChar, "楌ぴ 堦ヴ礯 ラ蝥曣んを 檨儯饨䶧䏤", ["楌ぴ", "堦ヴ礯", "ラ蝥曣んを", "檨儯饨䶧䏤"]);
  }

  lemma WordsSixthHead() ensures Tokenize(IsWordChar, "este es el sexto") == ["este", "es", "el", "sexto"] {
    SixthHeadJoined();
    SixthHeadClass();
    Spaced(IsWordChar, "este es el sexto", ["este", "es", "el", "sexto"]);
  }

  lemma WordsSixthTail() ensures Tokenize(IsWordChar, "6o documento") == ["6o", "documento"] {
    SixthTailJoined();
    SixthTailClass();
    Spaced(IsWordChar, "6o documento", ["6o", "documento"]);
  }

  lemma WordsSixth()
    ensures Tokenize(IsWordChar, "este es el sexto/6o documento")
         == ["este", "es", "el", "sexto", "6o", "documento"]
  {
    SixthSplit();
    TokenizeSplit(IsWordChar, "este es el sexto", '/', "6o documento");
    WordsSixthHead();
    WordsSixthTail();
  }

  // The descriptions as words joined by single spaces (the sixth one on
  // either side of its slash), and the words' characters.

  lemma FirstJoined() ensures "the first document" == Join(["the", "first", "document"], ' ') { }
  lemma SecondJoined() ensures "the second document" == Join(["the", "second", "document"], ' ') { }
  lemma ThirdJoined() ensures "the third document" == Join(["the", "third", "document"], ' ') { }
  lemma FourthJoined()
    ensures "堦ヴ礯 ラ蝥曣んを 檨儯饨䶧" == Join(["堦ヴ礯", "ラ蝥曣んを", "檨儯饨䶧"], ' ')
  {
  }
  lemma FifthJoined()
    ensures "楌ぴ 堦ヴ礯 ラ蝥曣んを 檨儯饨䶧䏤" == Join(["楌ぴ", "堦ヴ礯", "ラ蝥曣んを", "檨儯饨䶧䏤"], ' ')
  {
  }
  lemma SixthSplit()
    ensures "este es el sexto/6o documento" == "este es el sexto" + ['/'] + "6o documento"
  {
  }
  lemma SixthHeadJoined() ensures "este es el sexto" == Join(["este", "es", "el", "sexto"], ' ') { }
  lemma SixthTailJoined() ensures "6o documento" == Join(["6o", "documento"], ' ') { }

  lemma FirstClass() ensures Words(IsWordChar, ["the", "first", "document"]) { }
  lemma SecondClass() ensures Words(IsWordChar, ["the", "second", "document"]) { }
  lemma ThirdClass() ensures Words(IsWordChar, ["the", "third", "document"]) { }
  lemma FourthClass() ensures Words(IsWordChar, ["堦ヴ礯", "ラ蝥曣んを", "檨儯饨䶧"]) { }
  lemma FifthClass() ensures Words(IsWordChar, ["楌ぴ", "堦ヴ礯", "ラ蝥曣んを", "檨儯饨䶧䏤"]) { }
  lemma SixthHeadClass() ensures Words(IsWordChar, ["este", "es", "el", "sexto"]) { }
  lemma SixthTailClass() ensures Words(IsWordChar, ["6o", "documento"]) { }

  // The default pipeline, text by text.

  lemma DefaultOne() ensures DefaultTokenize(DefaultSanitize("One")) == ["one"] {
    LowerOne();
    Word(IsWordChar, "one");
  }

  lemma DefaultTwo() ensures DefaultTokenize(DefaultSanitize("Two")) == ["two"] {
    LowerTwo();
    Word(IsWordChar, "two");
  }

  lemma DefaultThree() ensures DefaultTokenize(DefaultSanitize("Three")) == ["three"] {
    LowerThree();
    Word(IsWordChar, "three");
  }

  lemma DefaultFour() ensures DefaultTokenize(DefaultSanitize("楌ぴ")) == ["楌ぴ"] {
    LowerFour();
    Word(IsWordChar, "楌ぴ");
  }

  lemma DefaultFive() ensures DefaultTokenize(DefaultSanitize("ㄨ穯ゆ姎囥")) == ["ㄨ穯ゆ姎囥"] {
    LowerFive();
    Word(IsWordChar, "ㄨ穯ゆ姎囥");
  }

  lemma DefaultSix() ensures DefaultTokenize(DefaultSanitize("Six")) == ["six"] {
    LowerSix();
    Word(IsWordChar, "six");
  }

  lemma DefaultFirst()
    ensures DefaultTokenize(DefaultSanitize("The first document")) == ["the", "first", "document"]
  {
    LowerFirst();
    WordsFirst();
  }

  lemma DefaultSecond()
    ensures DefaultTokenize(DefaultSanitize("The second document")) == ["the", "second", "document"]
  {
    LowerSecond();
    WordsSecond();
  }

  lemma DefaultThird()
    ensures DefaultTokenize(DefaultSanitize("The third document")) == ["the", "third", "document"]
  {
    LowerThird();
    WordsThird();
  }

  lemma DefaultFourth()
    ensures DefaultTokenize(DefaultSanitize("堦ヴ礯 ラ蝥曣んを 檨儯饨䶧")) == ["堦ヴ礯", "ラ蝥曣んを", "檨儯饨䶧"]
  {
    LowerFourth();
    WordsFourth();
  }

  lemma DefaultFifth()
    ensures DefaultTokenize(DefaultSanitize("楌ぴ 堦ヴ礯 ラ蝥曣んを 檨儯饨䶧䏤"))
         == ["楌ぴ", "堦ヴ礯", "ラ蝥曣んを", "檨儯饨䶧䏤"]
  {
    LowerFifth();
    WordsFifth();
  }

  lemma DefaultSixth()
    ensures DefaultTokenize(DefaultSanitize("Este es el sexto/6o documento"))
         == ["este", "es", "el", "sexto", "6o", "documento"]
  {
    LowerSixth();
    WordsSixth();
  }

  // The postings of each document's two token lists.

  lemma PostingsOne()
    ensures Postings(1, ["one"]) + Postings(1, ["the", "first", "document"])
         == {(1, "one"), (1, "the"), (1, "first"), (1, "document")}
  {
  }

  lemma PostingsTwo()
    ensures Postings(2, ["two"]) + Postings(2, ["the", "second", "document"])
         == {(2, "two"), (2, "the"), (2, "second"), (2, "document")}
  {
  }

  lemma PostingsThree()
    ensures Postings(3, ["three"]) + Postings(3, ["the", "third", "document"])
         == {(3, "three"), (3, "the"), (3, "third"), (3, "document")}
  {
  }

  lemma PostingsFour()
    ensures Postings(4, ["楌ぴ"]) + Postings(4, ["堦ヴ礯", "ラ蝥曣んを", "檨儯饨䶧"])
         == {(4, "楌ぴ"), (4, "堦ヴ礯"), (4, "ラ蝥曣んを"), (4, "檨儯饨䶧")}
  {
  }

  lemma PostingsFive()
    ensures Postings(5, ["ㄨ穯ゆ姎囥"]) + Postings(5, ["楌ぴ", "堦ヴ礯", "ラ蝥曣んを", "檨儯饨䶧䏤"])
         == {(5, "ㄨ穯ゆ姎囥"), (5, "楌ぴ"), (5, "堦ヴ礯"), (5, "ラ蝥曣んを"), (5, "檨儯饨䶧䏤")}
  {
  }

  lemma PostingsSix()
    ensures Postings(6, ["six"]) + Postings(6, ["este", "es", "el", "sexto", "6o", "documento"])
         == {(6, "six"), (6, "este"), (6, "es"), (6, "el"), (6, "sexto"), (6, "6o"), (6, "documento")}
  {
  }

  lemma DefaultPostingsByDocument()
    ensures {}
          + {(1, "one"), (1, "the"), (1, "first"), (1, "document")}
          + {(2, "two"), (2, "the"), (2, "second"), (2, "document")}
          + {(3, "three"), (3, "the"), (3, "third"), (3, "document")}
          + {(4, "楌ぴ"), (4, "堦ヴ礯"), (4, "ラ蝥曣んを"), (4, "檨儯饨䶧")}
          + {(5, "ㄨ穯ゆ姎囥"), (5, "楌ぴ"), (5, "堦ヴ礯"), (5, "ラ蝥曣んを"), (5, "檨儯饨䶧䏤")}
          + {(6, "six"), (6, "este"), (6, "es"), (6, "el"), (6, "sexto"), (6, "6o"), (6, "documento")}
         == DefaultPostings
  {
  }

  /** The postings of the default pipeline, as listed. */
  lemma DefaultDocumentPostings()
    ensures DocumentPostings(DefaultTokenize, DefaultSanitize, |Documents|) == DefaultPostings
  {
    UnfoldPostings(DefaultTokenize, DefaultSanitize);
    DefaultOne(); DefaultFirst();
    DefaultTwo(); DefaultSecond();
    DefaultThree(); DefaultThird();
    DefaultFour(); DefaultFourth();
    DefaultFive(); DefaultFifth();
    DefaultSix(); DefaultSixth();
    PostingsOne(); PostingsTwo(); PostingsThree(); PostingsFour(); PostingsFive(); PostingsSix();
    DefaultPostingsByDocument();
  }

  // The custom tokeniser `[a-z0-9]+` after the default sanitiser, text by text.

  lemma FirstAlnumClass() ensures Words(IsLowerAlnum, ["the", "first", "document"]) { }
  lemma SecondAlnumClass() ensures Words(IsLowerAlnum, ["the", "second", "document"]) { }
  lemma ThirdAlnumClass() ensures Words(IsLowerAlnum, ["the", "third", "document"]) { }
  lemma SixthHeadAlnumClass() ensures Words(IsLowerAlnum, ["este", "es", "el", "sexto"]) { }
  lemma SixthTailAlnumClass() ensures Words(IsLowerAlnum, ["6o", "documento"]) { }

  lemma AlnumOne() ensures LowerAlnumTokenize(DefaultSanitize("One")) == ["one"] {
    LowerOne();
    Word(IsLowerAlnum, "one");
  }

  lemma AlnumTwo() ensures LowerAlnumTokenize(DefaultSanitize("Two")) == ["two"] {
    LowerTwo();
    Word(IsLowerAlnum, "two");
  }

  lemma AlnumThree() ensures LowerAlnumTokenize(DefaultSanitize("Three")) == ["three"] {
    LowerThree();
    Word(IsLowerAlnum, "three");
  }

  lemma AlnumFour() ensures LowerAlnumTokenize(DefaultSanitize("楌ぴ")) == [] {
    LowerFour();
    NoWords(IsLowerAlnum, "楌ぴ");
  }

  lemma AlnumFive() ensures LowerAlnumTokenize(DefaultSanitize("ㄨ穯ゆ姎囥")) == [] {
    LowerFive();
    NoWords(IsLowerAlnum, "ㄨ穯ゆ姎囥");
  }

  lemma AlnumSix() ensures LowerAlnumTokenize(DefaultSanitize("Six")) == ["six"] {
    LowerSix();
    Word(IsLowerAlnum, "six");
  }

  lemma AlnumFirst()
    ensures LowerAlnumTokenize(DefaultSanitize("The first document")) == ["the", "first", "document"]
  {
    LowerFirst();
    FirstJoined();
    FirstAlnumClass();
    Spaced(IsLowerAlnum, "the first document", ["the", "first", "document"]);
  }

  lemma AlnumSecond()
    ensures LowerAlnumTokenize(DefaultSanitize("The second document")) == ["the", "second", "document"]
  {
    LowerSecond();
    SecondJoined();
    SecondAlnumClass();
    Spaced(IsLowerAlnum, "the second document", ["the", "second", "document"]);
  }

  lemma AlnumThird()
    ensures LowerAlnumTokenize(DefaultSanitize("The third document")) == ["the", "third", "document"]
  {
    LowerThird();
    ThirdJoined();
    ThirdAlnumClass();
    Spaced(IsLowerAlnum, "the third document", ["the", "third", "document"]);
  }

  /** Two texts without tokens, joined by a space, have no tokens. */
  lemma NoAlnumSpaced(a: string, b: string)
    requires Tokenize(IsLowerAlnum, a) == [] && Tokenize(IsLowerAlnum, b) == []
    ensures Tokenize(IsLowerAlnum, a + [' '] + b) == []
  {
    TokenizeSplit(IsLowerAlnum, a, ' ', b);
  }

  lemma NoAlnumKanjiKana() ensures Tokenize(IsLowerAlnum, "堦ヴ礯") == [] { NoWords(IsLowerAlnum, "堦ヴ礯"); }
  lemma NoAlnumKanaKanji() ensures Tokenize(IsLowerAlnum, "ラ蝥曣んを") == [] { NoWords(IsLowerAlnum, "ラ蝥曣んを"); }
  lemma NoAlnumKanji() ensures Tokenize(IsLowerAlnum, "檨儯饨䶧") == [] { NoWords(IsLowerAlnum, "檨儯饨䶧"); }
  lemma NoAlnumLongKanji() ensures Tokenize(IsLowerAlnum, "檨儯饨䶧䏤") == [] { NoWords(IsLowerAlnum, "檨儯饨䶧䏤"); }

  lemma FourthSplit() ensures "堦ヴ礯 ラ蝥曣んを 檨儯饨䶧" == "堦ヴ礯" + [' '] + "ラ蝥曣んを 檨儯饨䶧" { }
  lemma FourthTailSplit() ensures "ラ蝥曣んを 檨儯饨䶧" == "ラ蝥曣んを" + [' '] + "檨儯饨䶧" { }
  lemma FifthSplit() ensures "楌ぴ 堦ヴ礯 ラ蝥曣んを 檨儯饨䶧䏤" == "楌ぴ" + [' '] + "堦ヴ礯 ラ蝥曣んを 檨儯饨䶧䏤" { }
  lemma FifthMiddleSplit() ensures "堦ヴ礯 ラ蝥曣んを 檨儯饨䶧䏤" == "堦ヴ礯" + [' '] + "ラ蝥曣んを 檨儯饨䶧䏤" { }
  lemma FifthTailSplit() ensures "ラ蝥曣んを 檨儯饨䶧䏤" == "ラ蝥曣んを" + [' '] + "檨儯饨䶧䏤" { }

  lemma NoAlnumFourthTail() ensures Tokenize(IsLowerAlnum, "ラ蝥曣んを 檨儯饨䶧") == [] {
    FourthTailSplit();
    NoAlnumKanaKanji();
    NoAlnumKanji();
    NoAlnumSpaced("ラ蝥曣んを", "檨儯饨䶧");
  }

  lemma NoAlnumFourth() ensures Tokenize(IsLowerAlnum, "堦ヴ礯 ラ蝥曣んを 檨儯饨䶧") == [] {
    FourthSplit();
    NoAlnumKanjiKana();
    NoAlnumFourthTail();
    NoAlnumSpaced("堦ヴ礯", "ラ蝥曣んを 檨儯饨䶧");
  }

  lemma NoAlnumFifthTail() ensures Tokenize(IsLowerAlnum, "ラ蝥曣んを 檨儯饨䶧䏤") == [] {
    FifthTailSplit();
    NoAlnumKanaKanji();
    NoAlnumLongKanji();
    NoAlnumSpaced("ラ蝥曣んを", "檨儯饨䶧䏤");
  }

  lemma NoAlnumFifthMiddle() ensures Tokenize(IsLowerAlnum, "堦ヴ礯 ラ蝥曣んを 檨儯饨䶧䏤") == [] {
    FifthMiddleSplit();
    NoAlnumKanjiKana();
    NoAlnumFifthTail();
    NoAlnumSpaced("堦ヴ礯", "ラ蝥曣んを 檨儯饨䶧䏤");
  }

  lemma NoAlnumFifth() ensures Tokenize(IsLowerAlnum, "楌ぴ 堦ヴ礯 ラ蝥曣んを 檨儯饨䶧䏤") == [] {
    FifthSplit();
    NoWords(IsLowerAlnum, "楌ぴ");
    NoAlnumFifthMiddle();
    NoAlnumSpaced("楌ぴ", "堦ヴ礯 ラ蝥曣んを 檨儯饨䶧䏤");
  }

  lemma AlnumFourth() ensures LowerAlnumTokenize(DefaultSanitize("堦ヴ礯 ラ蝥曣んを 檨儯饨䶧")) == [] {
    LowerFourth();
    NoAlnumFourth();
  }

  lemma AlnumFifth() ensures LowerAlnumTokenize(DefaultSanitize("楌ぴ 堦ヴ礯 ラ蝥曣んを 檨儯饨䶧䏤")) == [] {
    LowerFifth();
    NoAlnumFifth();
  }

  lemma AlnumSixthHead() ensures Tokenize(IsLowerAlnum, "este es el sexto") == ["este", "es", "el", "sexto"] {
    SixthHeadJoined();
    SixthHeadAlnumClass();
    Spaced(IsLowerAlnum, "este es el sexto", ["este", "es", "el", "sexto"]);
  }

  lemma AlnumSixthTail() ensures Tokenize(IsLowerAlnum, "6o documento") == ["6o", "documento"] {
    SixthTailJoined();
    SixthTailAlnumClass();
    Spaced(IsLowerAlnum, "6o documento", ["6o", "documento"]);
  }

  lemma AlnumSixth()
    ensures LowerAlnumTokenize(DefaultSanitize("Este es el sexto/6o documento"))
         == ["este", "es", "el", "sexto", "6o", "documento"]
  {
    LowerSixth();
    SixthSplit();
    TokenizeSplit(IsLowerAlnum, "este es el sexto", '/', "6o documento");
    AlnumSixthHead();
    AlnumSixthTail();
  }

  lemma NoPostings(id: int)
    ensures Postings(id, []) + Postings(id, []) == {}
  {
  }

  lemma AlnumPostingsByDocument()
    ensures {}
          + {(1, "one"), (1, "the"), (1, "first"), (1, "document")}
          + {(2, "two"), (2, "the"), (2, "second"), (2, "document")}
          + {(3, "three"), (3, "the"), (3, "third"), (3, "document")}
          + {}
          + {}
          + {(6, "six"), (6, "este"), (6, "es"), (6, "el"), (6, "sexto"), (6, "6o"), (6, "documento")}
         == AlnumPostings
  {
  }

  /** The postings of the custom tokeniser, as listed. */
  lemma AlnumDocumentPostings()
    ensures DocumentPostings(LowerAlnumTokenize, DefaultSanitize, |Documents|) == AlnumPostings
  {
    UnfoldPostings(LowerAlnumTokenize, DefaultSanitize);
    AlnumOne(); AlnumFirst();
    AlnumTwo(); AlnumSecond();
    AlnumThree(); AlnumThird();
    AlnumFour(); AlnumFourth();
    AlnumFive(); AlnumFifth();
    AlnumSix(); AlnumSixth();
    PostingsOne(); PostingsTwo(); PostingsThree(); NoPostings(4); NoPostings(5); PostingsSix();
    AlnumPostingsByDocument();
  }

  // The default tokeniser after the trimming sanitiser, text by text: the
  // texts keep their case.

  lemma CasedFirstJoined() ensures "The first document" == Join(["The", "first", "document"], ' ') { }
  lemma CasedSecondJoined() ensures "The second document" == Join(["The", "second", "document"], ' ') { }
  lemma CasedThirdJoined() ensures "The third document" == Join(["The", "third", "document"], ' ') { }
  lemma CasedSixthSplit()
    ensures "Este es el sexto/6o documento" == "Este es el sexto" + ['/'] + "6o documento"
  {
  }
  lemma CasedSixthHeadJoined() ensures "Este es el sexto" == Join(["Este", "es", "el", "sexto"], ' ') { }

  lemma CasedFirstClass() ensures Words(IsWordChar, ["The", "first", "document"]) { }
  lemma CasedSecondClass() ensures Words(IsWordChar, ["The", "second", "document"]) { }
  lemma CasedThirdClass() ensures Words(IsWordChar, ["The", "third", "document"]) { }
  lemma CasedSixthHeadClass() ensures Words(IsWordChar, ["Este", "es", "el", "sexto"]) { }

  lemma TrimsFirst() ensures Trim("The first document") == "The first document" {
    TrimUnpadded("The first document");
  }

  lemma TrimsSecond() ensures Trim("The second document") == "The second document" {
    TrimUnpadded("The second document");
  }

  lemma TrimsThird() ensures Trim("The third document") == "The third document" {
    TrimUnpadded("The third document");
  }

  lemma TrimsFourth() ensures Trim("堦ヴ礯 ラ蝥曣んを 檨儯饨䶧") == "堦ヴ礯 ラ蝥曣んを 檨儯饨䶧" {
    TrimUnpadded("堦ヴ礯 ラ蝥曣んを 檨儯饨䶧");
  }

  lemma TrimsFifth() ensures Trim("楌ぴ 堦ヴ礯 ラ蝥曣んを 檨儯饨䶧䏤") == "楌ぴ 堦ヴ礯 ラ蝥曣んを 檨儯饨䶧䏤" {
    TrimUnpadded("楌ぴ 堦ヴ礯 ラ蝥曣んを 檨儯饨䶧䏤");
  }

  lemma TrimsSixth() ensures Trim("Este es el sexto/6o documento") == "Este es el sexto/6o documento" {
    TrimUnpadded("Este es el sexto/6o documento");
  }

  lemma CasedFirst() ensures Tokenize(IsWordChar, "The first document") == ["The", "first", "document"] {
    CasedFirstJoined();
    CasedFirstClass();
    Spaced(IsWordChar, "The first document", ["The", "first", "document"]);
  }

  lemma CasedSecond() ensures Tokenize(IsWordChar, "The second document") == ["The", "second", "document"] {
    CasedSecondJoined();
    CasedSecondClass();
    Spaced(IsWordChar, "The second document", ["The", "second", "document"]);
  }

  lemma CasedThird() ensures Tokenize(IsWordChar, "The third document") == ["The", "third", "document"] {
    CasedThirdJoined();
    CasedThirdClass();
    Spaced(IsWordChar, "The third document", ["The", "third", "document"]);
  }

  lemma CasedSixth()
    ensures Tokenize(IsWordChar, "Este es el sexto/6o documento")
         == ["Este", "es", "el", "sexto", "6o", "documento"]
  {
    CasedSixthSplit();
    TokenizeSplit(IsWordChar, "Este es el sexto", '/', "6o documento");
    CasedSixthHead();
    WordsSixthTail();
  }

  lemma TrimsOne() ensures Trim("One") == "One" {
    TrimUnpadded("One");
  }

  lemma CasedOne() ensures Tokenize(IsWordChar, "One") == ["One"] {
    Word(IsWordChar, "One");
  }

  lemma TrimOne() ensures DefaultTokenize(Trim("One")) == ["One"] {
    TrimsOne();
    CasedOne();
  }

  lemma TrimsTwo() ensures Trim("Two") == "Two" {
    TrimUnpadded("Two");
  }

  lemma CasedTwo() ensures Tokenize(IsWordChar, "Two") == ["Two"] {
    Word(IsWordChar, "Two");
  }

  lemma TrimTwo() ensures DefaultTokenize(Trim("Two")) == ["Two"] {
    TrimsTwo();
    CasedTwo();
  }

  lemma TrimsThree() ensures Trim("Three") == "Three" {
    TrimUnpadded("Three");
  }

  lemma CasedThree() ensures Tokenize(IsWordChar, "Three") == ["Three"] {
    Word(IsWordChar, "Three");
  }

  lemma TrimThree() ensures DefaultTokenize(Trim("Three")) == ["Three"] {
    TrimsThree();
    CasedThree();
  }

  lemma TrimsFour() ensures Trim("楌ぴ") == "楌ぴ" {
    TrimUnpadded("楌ぴ");
  }

  lemma CasedFour() ensures Tokenize(IsWordChar, "楌ぴ") == ["楌ぴ"] {
    Word(IsWordChar, "楌ぴ");
  }

  lemma TrimFour() ensures DefaultTokenize(Trim("楌ぴ")) == ["楌ぴ"] {
    TrimsFour();
    CasedFour();
  }

  lemma TrimsFive() ensures Trim("ㄨ穯ゆ姎囥") == "ㄨ穯ゆ姎囥" {
    TrimUnpadded("ㄨ穯ゆ姎囥");
  }

  lemma CasedFive() ensures Tokenize(IsWordChar, "ㄨ穯ゆ姎囥") == ["ㄨ穯ゆ姎囥"] {
    Word(IsWordChar, "ㄨ穯ゆ姎囥");
  }

  lemma TrimFive() ensures DefaultTokenize(Trim("ㄨ穯ゆ姎囥")) == ["ㄨ穯ゆ姎囥"] {
    TrimsFive();
    CasedFive();
  }

  lemma TrimsSix() ensures Trim("Six") == "Six" {
    TrimUnpadded("Six");
  }

  lemma CasedSix() ensures Tokenize(IsWordChar, "Six") == ["Six"] {
    Word(IsWordChar, "Six");
  }

  lemma TrimSix() ensures DefaultTokenize(Trim("Six")) == ["Six"] {
    TrimsSix();
    CasedSix();
  }

  lemma TrimFirst()
    ensures DefaultTokenize(Trim("The first document")) == ["The", "first", "document"]
  {
    TrimsFirst();
    CasedFirst();
  }

  lemma TrimSecond()
    ensures DefaultTokenize(Trim("The second document")) == ["The", "second", "document"]
  {
    TrimsSecond();
    CasedSecond();
  }

  lemma TrimThird()
    ensures DefaultTokenize(Trim("The third document")) == ["The", "third", "document"]
  {
    TrimsThird();
    CasedThird();
  }

  lemma TrimFourth()
    ensures DefaultTokenize(Trim("堦ヴ礯 ラ蝥曣んを 檨儯饨䶧")) == ["堦ヴ礯", "ラ蝥曣んを", "檨儯饨䶧"]
  {
    TrimsFourth();
    WordsFourth();
  }

  lemma TrimFifth()
    ensures DefaultTokenize(Trim("楌ぴ 堦ヴ礯 ラ蝥曣んを 檨儯饨䶧䏤")) == ["楌ぴ", "堦ヴ礯", "ラ蝥曣んを", "檨儯饨䶧䏤"]
  {
    TrimsFifth();
    WordsFifth();
  }

  lemma CasedSixthHead() ensures Tokenize(IsWordChar, "Este es el sexto") == ["Este", "es", "el", "sexto"] {
    CasedSixthHeadJoined();
    CasedSixthHeadClass();
    Spaced(IsWordChar, "Este es el sexto", ["Este", "es", "el", "sexto"]);
  }

  lemma TrimSixth()
    ensures DefaultTokenize(Trim("Este es el sexto/6o documento"))
         == ["Este", "es", "el", "sexto", "6o", "documento"]
  {
    TrimsSixth();
    CasedSixth();
  }

  lemma CasedPostingsOne()
    ensures Postings(1, ["One"]) + Postings(1, ["The", "first", "document"])
         == {(1, "One"), (1, "The"), (1, "first"), (1, "document")}
  {
  }

  lemma CasedPostingsTwo()
    ensures Postings(2, ["Two"]) + Postings(2, ["The", "second", "document"])
         == {(2, "Two"), (2, "The"), (2, "second"), (2, "document")}
  {
  }

  lemma CasedPostingsThree()
    ensures Postings(3, ["Three"]) + Postings(3, ["The", "third", "document"])
         == {(3, "Three"), (3, "The"), (3, "third"), (3, "document")}
  {
  }

  lemma CasedPostingsSix()
    ensures Postings(6, ["Six"]) + Postings(6, ["Este", "es", "el", "sexto", "6o", "documento"])
         == {(6, "Six"), (6, "Este"), (6, "es"), (6, "el"), (6, "sexto"), (6, "6o"), (6, "documento")}
  {
  }

  lemma TrimPostingsByDocument()
    ensures {}
          + {(1, "One"), (1, "The"), (1, "first"), (1, "document")}
          + {(2, "Two"), (2, "The"), (2, "second"), (2, "document")}
          + {(3, "Three"), (3, "The"), (3, "third"), (3, "document")}
          + {(4, "楌ぴ"), (4, "堦ヴ礯"), (4, "ラ蝥曣んを"), (4, "檨儯饨䶧")}
          + {(5, "ㄨ穯ゆ姎囥"), (5, "楌ぴ"), (5, "堦ヴ礯"), (5, "ラ蝥曣んを"), (5, "檨儯饨䶧䏤")}
          + {(6, "Six"), (6, "Este"), (6, "es"), (6, "el"), (6, "sexto"), (6, "6o"), (6, "documento")}
         == TrimPostings
  {
  }

  /** The postings of the trimming sanitiser, as listed. */
  lemma TrimDocumentPostings()
    ensures DocumentPostings(DefaultTokenize, Trim, |Documents|) == TrimPostings
  {
    UnfoldPostings(DefaultTokenize, Trim);
    TrimOne(); TrimFirst();
    TrimTwo(); TrimSecond();
    TrimThree(); TrimThird();
    TrimFour(); TrimFourth();
    TrimFive(); TrimFifth();
    TrimSix(); TrimSixth();
    CasedPostingsOne(); CasedPostingsTwo(); CasedPostingsThree();
    PostingsFour(); PostingsFive(); CasedPostingsSix();
    TrimPostingsByDocument();
  }

  // The suite's `init` under each configuration it tries, with the index
  // contents spelled out.

  /** `init()` or `init({indexMode})`: the default pipeline. */
  method InitDefault(indexMode: Option<IndexMode>) returns (su: SearchUtility)
    ensures fresh(su) && su.Valid() && su.locked
    ensures su.indexMode == indexMode.GetOr(Substrings)
    ensures su.tokenize == DefaultTokenize && su.sanitize == DefaultSanitize
    ensures su.uids == AllIds && su.postings == DefaultPostings
  {
    su := Init(Options(indexMode, None, None));
    DefaultDocumentPostings();
  }

  /** `init` with exact words and the `[a-z0-9]` tokeniser. */
  method InitAlnum() returns (su: SearchUtility)
    ensures fresh(su) && su.Valid() && su.locked && su.indexMode == ExactWords
    ensures su.tokenize == LowerAlnumTokenize && su.sanitize == DefaultSanitize
    ensures su.uids == AllIds && su.postings == AlnumPostings
  {
    su := Init(Options(Some(ExactWords), Some(LowerAlnumTokenize), None));
    AlnumDocumentPostings();
  }

  /** `init` with exact words and the trimming sanitiser. */
  method InitTrim() returns (su: SearchUtility)
    ensures fresh(su) && su.Valid() && su.locked && su.indexMode == ExactWords
    ensures su.tokenize == DefaultTokenize && su.sanitize == Trim
    ensures su.uids == AllIds && su.postings == TrimPostings
  {
    su := Init(Options(Some(ExactWords), None, Some(Trim)));
    TrimDocumentPostings();
  }

  /** The suite's `texts.forEach(text => search(text))`: one search per
      query, in order, on the same utility. */
  method SearchEach(su: SearchUtility, queries: seq<string>) returns (results: seq<seq<int>>)
    requires su.Valid()
    ensures |results| == |queries|
    ensures forall j | 0 <= j < |queries| :: results[j] == SortedIds(su.Matching(queries[j]))
  {
    results := [];
    var i := 0;
    while i < |queries|
      invariant 0 <= i <= |queries|
      invariant |results| == i
      invariant forall j | 0 <= j < i :: results[j] == SortedIds(su.Matching(queries[j]))
    {
      var ids := su.Search(queries[i]);
      results := results + [ids];
      i := i + 1;
    }
  }
}
