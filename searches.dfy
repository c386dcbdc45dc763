/** The searches of the test suite, run against the six documents under each
    configuration the suite tries. Each scenario method builds the utility
    the way the suite does, returns what its searches return, and its
    postcondition states the results the suite expects. */
module Searches {
  import opened Text
  import opened Keys
  import opened Index
  import opened Scenarios

  // Reading a search result off the postings.

  /** The ascending order of a set of ids is the one ascending sequence with
      those elements. */
  lemma SortedIdsAre(s: set<int>, expected: seq<int>)
    requires Ascending(expected) && forall x :: x in expected <==> x in s
    ensures SortedIds(s) == expected
  {
    AscendingUnique(SortedIds(s), expected);
  }

  lemma SortedNone() ensures SortedIds({}) == [] { SortedIdsAre({}, []); }
  lemma SortedOne() ensures SortedIds({1}) == [1] { SortedIdsAre({1}, [1]); }
  lemma SortedTwo() ensures SortedIds({2}) == [2] { SortedIdsAre({2}, [2]); }
  lemma SortedThree() ensures SortedIds({3}) == [3] { SortedIdsAre({3}, [3]); }
  lemma SortedSix() ensures SortedIds({6}) == [6] { SortedIdsAre({6}, [6]); }
  lemma SortedOneToThree() ensures SortedIds({1, 2, 3}) == [1, 2, 3] { SortedIdsAre({1, 2, 3}, [1, 2, 3]); }
  lemma SortedFourFive() ensures SortedIds({4, 5}) == [4, 5] { SortedIdsAre({4, 5}, [4, 5]); }
  lemma SortedAll() ensures SortedIds(AllIds) == [1, 2, 3, 4, 5, 6] { SortedIdsAre(AllIds, [1, 2, 3, 4, 5, 6]); }

  /** A one-token search finds exactly the holders of its token. */
  lemma Finds(mode: IndexMode, postings: set<(int, string)>, word: string, found: set<int>)
    requires forall p | p in postings :: p.0 in AllIds
    requires Holders(postings, mode, word) == found
    ensures MatchingIds(mode, AllIds, postings, [word]) == found
  {
    MatchingIdsIntersected(mode, AllIds, postings, [word]);
    assert [word][1..] == [];
    forall id | id in found ensures id in AllIds {
      var p :| p in postings && Matches(mode, word, p.1) && p.0 == id;
    }
  }

  /** A two-token search finds the ids holding both tokens. */
  lemma FindsBoth(mode: IndexMode, postings: set<(int, string)>, first: string, second: string,
                  found: set<int>)
    requires forall p | p in postings :: p.0 in AllIds
    requires Holders(postings, mode, first) * Holders(postings, mode, second) == found
    ensures MatchingIds(mode, AllIds, postings, [first, second]) == found
  {
    MatchingIdsIntersected(mode, AllIds, postings, [first, second]);
    assert [first, second][1..] == [second];
    assert [second][1..] == [];
    forall id | id in found ensures id in AllIds {
      var p :| p in postings && Matches(mode, first, p.1) && p.0 == id;
    }
  }

  /** A query that is one word in lower case (or in a script without case)
      is a single token under the default pipeline. */
  lemma WordQuery(query: string)
    requires query != [] && Chars(IsWordChar, query)
    requires forall i | 0 <= i < |query| :: !IsUpper(query[i])
    ensures DefaultTokenize(DefaultSanitize(query)) == [query]
  {
    assert ToLower(query) == query;
    Word(IsWordChar, query);
  }

  // Query texts that the pipeline changes.

  lemma QueryThird() ensures DefaultTokenize(DefaultSanitize("Third")) == ["third"] {
    assert ToLower("Third") == "third";
    Word(IsWordChar, "third");
  }

  lemma QueryUpperOne() ensures DefaultTokenize(DefaultSanitize("ONE")) == ["one"] {
    assert ToLower("ONE") == "one";
    Word(IsWordChar, "one");
  }

  lemma LowerTheSecond() ensures ToLower("the second") == "the second" { }
  lemma JoinedTheSecond() ensures "the second" == Join(["the", "second"], ' ') { }
  lemma ClassTheSecond() ensures Words(IsWordChar, ["the", "second"]) { }

  lemma QueryTheSecond() ensures DefaultTokenize(DefaultSanitize("the second")) == ["the", "second"] {
    LowerTheSecond(); JoinedTheSecond(); ClassTheSecond();
    Spaced(IsWordChar, "the second", ["the", "second"]);
  }

  lemma LowerThreeDocument() ensures ToLower("three document") == "three document" { }
  lemma JoinedThreeDocument() ensures "three document" == Join(["three", "document"], ' ') { }
  lemma ClassThreeDocument() ensures Words(IsWordChar, ["three", "document"]) { }

  lemma QueryThreeDocument()
    ensures DefaultTokenize(DefaultSanitize("three document")) == ["three", "document"]
  {
    LowerThreeDocument(); JoinedThreeDocument(); ClassThreeDocument();
    Spaced(IsWordChar, "three document", ["three", "document"]);
  }

  lemma QueryEmpty() ensures DefaultTokenize(DefaultSanitize("")) == [] {
    assert ToLower("") == "";
  }

  lemma AlnumQuery(query: string)
    requires query != [] && Chars(IsLowerAlnum, query)
    requires forall i | 0 <= i < |query| :: !IsUpper(query[i])
    ensures LowerAlnumTokenize(DefaultSanitize(query)) == [query]
  {
    assert ToLower(query) == query;
    Word(IsLowerAlnum, query);
  }

  lemma TrimQuery(query: string)
    requires query != [] && Chars(IsWordChar, query)
    requires !IsSpace(query[0]) && !IsSpace(query[|query| - 1])
    ensures DefaultTokenize(Trim(query)) == [query]
  {
    TrimUnpadded(query);
    Word(IsWordChar, query);
  }

  // What each query token finds among the default postings, mode by mode.

  lemma SubstringsOne() ensures Holders(DefaultPostings, Substrings, "one") == {1} { }
  lemma SubstringsThird() ensures Holders(DefaultPostings, Substrings, "third") == {3} { }
  lemma SubstringsThe() ensures Holders(DefaultPostings, Substrings, "the") == {1, 2, 3} { }
  lemma SubstringsIdeograph() ensures Holders(DefaultPostings, Substrings, "楌") == {4, 5} { }
  lemma SubstringsSecond() ensures Holders(DefaultPostings, Substrings, "second") == {2} { }
  lemma SubstringsThree() ensures Holders(DefaultPostings, Substrings, "three") == {3} { }
  lemma SubstringsDocument() ensures Holders(DefaultPostings, Substrings, "document") == {1, 2, 3, 6} { }
  lemma SubstringsFour() ensures Holders(DefaultPostings, Substrings, "four") == {} { }
  lemma SubstringsSec() ensures Holders(DefaultPostings, Substrings, "sec") == {2} { }
  lemma SubstringsEco() ensures Holders(DefaultPostings, Substrings, "eco") == {2} { }
  lemma SubstringsCond() ensures Holders(DefaultPostings, Substrings, "cond") == {2} { }
  lemma SubstringsKanji() ensures Holders(DefaultPostings, Substrings, "堦") == {4, 5} { }
  lemma SubstringsKanjiKana() ensures Holders(DefaultPostings, Substrings, "堦ヴ") == {4, 5} { }
  lemma SubstringsWholeWord() ensures Holders(DefaultPostings, Substrings, "堦ヴ礯") == {4, 5} { }
  lemma SubstringsKana() ensures Holders(DefaultPostings, Substrings, "ヴ") == {4, 5} { }
  lemma SubstringsKanaKanji() ensures Holders(DefaultPostings, Substrings, "ヴ礯") == {4, 5} { }
  lemma SubstringsXyz() ensures Holders(DefaultPostings, Substrings, "xyz") == {} { }

  lemma PrefixesFir() ensures Holders(DefaultPostings, Prefixes, "fir") == {1} { }
  lemma PrefixesFirst() ensures Holders(DefaultPostings, Prefixes, "first") == {1} { }
  lemma PrefixesSec() ensures Holders(DefaultPostings, Prefixes, "sec") == {2} { }
  lemma PrefixesSecond() ensures Holders(DefaultPostings, Prefixes, "second") == {2} { }
  lemma PrefixesIrst() ensures Holders(DefaultPostings, Prefixes, "irst") == {} { }
  lemma PrefixesRst() ensures Holders(DefaultPostings, Prefixes, "rst") == {} { }
  lemma PrefixesSt() ensures Holders(DefaultPostings, Prefixes, "st") == {} { }
  lemma PrefixesIrs() ensures Holders(DefaultPostings, Prefixes, "irs") == {} { }
  lemma PrefixesOnd() ensures Holders(DefaultPostings, Prefixes, "ond") == {} { }
  lemma PrefixesEcond() ensures Holders(DefaultPostings, Prefixes, "econd") == {} { }
  lemma PrefixesEco() ensures Holders(DefaultPostings, Prefixes, "eco") == {} { }

  lemma ExactFirst() ensures Holders(DefaultPostings, ExactWords, "first") == {1} { }
  lemma ExactSecond() ensures Holders(DefaultPostings, ExactWords, "second") == {2} { }
  lemma ExactIrst() ensures Holders(DefaultPostings, ExactWords, "irst") == {} { }
  lemma ExactRst() ensures Holders(DefaultPostings, ExactWords, "rst") == {} { }
  lemma ExactSt() ensures Holders(DefaultPostings, ExactWords, "st") == {} { }
  lemma ExactIrs() ensures Holders(DefaultPostings, ExactWords, "irs") == {} { }
  lemma ExactOnd() ensures Holders(DefaultPostings, ExactWords, "ond") == {} { }
  lemma ExactEcond() ensures Holders(DefaultPostings, ExactWords, "econd") == {} { }
  lemma ExactEco() ensures Holders(DefaultPostings, ExactWords, "eco") == {} { }

  lemma AlnumSexto() ensures Holders(AlnumPostings, ExactWords, "sexto") == {6} { }
  lemma AlnumSixthWord() ensures Holders(AlnumPostings, ExactWords, "6o") == {6} { }

  lemma TrimCapitalFirst() ensures Holders(TrimPostings, ExactWords, "First") == {} { }
  lemma TrimFirstWord() ensures Holders(TrimPostings, ExactWords, "first") == {1} { }

  // Every posting belongs to one of the six documents.

  lemma DefaultIds() ensures forall p | p in DefaultPostings :: p.0 in AllIds { }
  lemma AlnumIds() ensures forall p | p in AlnumPostings :: p.0 in AllIds { }
  lemma TrimIds() ensures forall p | p in TrimPostings :: p.0 in AllIds { }

  // What each query of the suite matches, as a set.

  lemma SearchSubstringsOne()
    ensures MatchingIds(Substrings, AllIds, DefaultPostings, DefaultTokenize(DefaultSanitize("One"))) == {1}
  {
    DefaultIds(); DefaultOne();
    SubstringsOne();
    Finds(Substrings, DefaultPostings, "one", {1});
  }

  lemma SearchSubstringsThird()
    ensures MatchingIds(Substrings, AllIds, DefaultPostings, DefaultTokenize(DefaultSanitize("Third"))) == {3}
  {
    DefaultIds(); QueryThird();
    SubstringsThird();
    Finds(Substrings, DefaultPostings, "third", {3});
  }

  lemma SearchSubstringsThe()
    ensures MatchingIds(Substrings, AllIds, DefaultPostings, DefaultTokenize(DefaultSanitize("the"))) == {1, 2, 3}
  {
    DefaultIds(); WordQuery("the");
    SubstringsThe();
    Finds(Substrings, DefaultPostings, "the", {1, 2, 3});
  }

  lemma SearchSubstringsIdeograph()
    ensures MatchingIds(Substrings, AllIds, DefaultPostings, DefaultTokenize(DefaultSanitize("楌"))) == {4, 5}
  {
    DefaultIds(); WordQuery("楌");
    SubstringsIdeograph();
    Finds(Substrings, DefaultPostings, "楌", {4, 5});
  }

  lemma SearchSubstringsTheSecond()
    ensures MatchingIds(Substrings, AllIds, DefaultPostings, DefaultTokenize(DefaultSanitize("the second"))) == {2}
  {
    DefaultIds(); QueryTheSecond();
    SubstringsThe(); SubstringsSecond();
    FindsBoth(Substrings, DefaultPostings, "the", "second", {2});
  }

  lemma SearchSubstringsThreeDocument()
    ensures MatchingIds(Substrings, AllIds, DefaultPostings, DefaultTokenize(DefaultSanitize("three document"))) == {3}
  {
    DefaultIds(); QueryThreeDocument();
    SubstringsThree(); SubstringsDocument();
    FindsBoth(Substrings, DefaultPostings, "three", "document", {3});
  }

  lemma SearchSubstringsFour()
    ensures MatchingIds(Substrings, AllIds, DefaultPostings, DefaultTokenize(DefaultSanitize("four"))) == {}
  {
    DefaultIds(); WordQuery("four");
    SubstringsFour();
    Finds(Substrings, DefaultPostings, "four", {});
  }

  lemma SearchSubstringsLowerOne()
    ensures MatchingIds(Substrings, AllIds, DefaultPostings, DefaultTokenize(DefaultSanitize("one"))) == {1}
  {
    DefaultIds(); WordQuery("one");
    SubstringsOne();
    Finds(Substrings, DefaultPostings, "one", {1});
  }

  lemma SearchSubstringsUpperOne()
    ensures MatchingIds(Substrings, AllIds, DefaultPostings, DefaultTokenize(DefaultSanitize("ONE"))) == {1}
  {
    DefaultIds(); QueryUpperOne();
    SubstringsOne();
    Finds(Substrings, DefaultPostings, "one", {1});
  }

  lemma SearchSubstringsSec()
    ensures MatchingIds(Substrings, AllIds, DefaultPostings, DefaultTokenize(DefaultSanitize("sec"))) == {2}
  {
    DefaultIds(); WordQuery("sec");
    SubstringsSec();
    Finds(Substrings, DefaultPostings, "sec", {2});
  }

  lemma SearchSubstringsSecond()
    ensures MatchingIds(Substrings, AllIds, DefaultPostings, DefaultTokenize(DefaultSanitize("second"))) == {2}
  {
    DefaultIds(); WordQuery("second");
    SubstringsSecond();
    Finds(Substrings, DefaultPostings, "second", {2});
  }

  lemma SearchSubstringsEco()
    ensures MatchingIds(Substrings, AllIds, DefaultPostings, DefaultTokenize(DefaultSanitize("eco"))) == {2}
  {
    DefaultIds(); WordQuery("eco");
    SubstringsEco();
    Finds(Substrings, DefaultPostings, "eco", {2});
  }

  lemma SearchSubstringsCond()
    ensures MatchingIds(Substrings, AllIds, DefaultPostings, DefaultTokenize(DefaultSanitize("cond"))) == {2}
  {
    DefaultIds(); WordQuery("cond");
    SubstringsCond();
    Finds(Substrings, DefaultPostings, "cond", {2});
  }

  lemma SearchSubstringsKanji()
    ensures MatchingIds(Substrings, AllIds, DefaultPostings, DefaultTokenize(DefaultSanitize("堦"))) == {4, 5}
  {
    DefaultIds(); WordQuery("堦");
    SubstringsKanji();
    Finds(Substrings, DefaultPostings, "堦", {4, 5});
  }

  lemma SearchSubstringsKanjiKana()
    ensures MatchingIds(Substrings, AllIds, DefaultPostings, DefaultTokenize(DefaultSanitize("堦ヴ"))) == {4, 5}
  {
    DefaultIds(); WordQuery("堦ヴ");
    SubstringsKanjiKana();
    Finds(Substrings, DefaultPostings, "堦ヴ", {4, 5});
  }

  lemma SearchSubstringsWholeWord()
    ensures MatchingIds(Substrings, AllIds, DefaultPostings, DefaultTokenize(DefaultSanitize("堦ヴ礯"))) == {4, 5}
  {
    DefaultIds(); WordQuery("堦ヴ礯");
    SubstringsWholeWord();
    Finds(Substrings, DefaultPostings, "堦ヴ礯", {4, 5});
  }

  lemma SearchSubstringsKana()
    ensures MatchingIds(Substrings, AllIds, DefaultPostings, DefaultTokenize(DefaultSanitize("ヴ"))) == {4, 5}
  {
    DefaultIds(); WordQuery("ヴ");
    SubstringsKana();
    Finds(Substrings, DefaultPostings, "ヴ", {4, 5});
  }

  lemma SearchSubstringsKanaKanji()
    ensures MatchingIds(Substrings, AllIds, DefaultPostings, DefaultTokenize(DefaultSanitize("ヴ礯"))) == {4, 5}
  {
    DefaultIds(); WordQuery("ヴ礯");
    SubstringsKanaKanji();
    Finds(Substrings, DefaultPostings, "ヴ礯", {4, 5});
  }

  lemma SearchSubstringsXyz()
    ensures MatchingIds(Substrings, AllIds, DefaultPostings, DefaultTokenize(DefaultSanitize("xyz"))) == {}
  {
    DefaultIds(); WordQuery("xyz");
    SubstringsXyz();
    Finds(Substrings, DefaultPostings, "xyz", {});
  }

  lemma SearchPrefixesFir()
    ensures MatchingIds(Prefixes, AllIds, DefaultPostings, DefaultTokenize(DefaultSanitize("fir"))) == {1}
  {
    DefaultIds(); WordQuery("fir");
    PrefixesFir();
    Finds(Prefixes, DefaultPostings, "fir", {1});
  }

  lemma SearchPrefixesFirst()
    ensures MatchingIds(Prefixes, AllIds, DefaultPostings, DefaultTokenize(DefaultSanitize("first"))) == {1}
  {
    DefaultIds(); WordQuery("first");
    PrefixesFirst();
    Finds(Prefixes, DefaultPostings, "first", {1});
  }

  lemma SearchPrefixesSec()
    ensures MatchingIds(Prefixes, AllIds, DefaultPostings, DefaultTokenize(DefaultSanitize("sec"))) == {2}
  {
    DefaultIds(); WordQuery("sec");
    PrefixesSec();
    Finds(Prefixes, DefaultPostings, "sec", {2});
  }

  lemma SearchPrefixesSecond()
    ensures MatchingIds(Prefixes, AllIds, DefaultPostings, DefaultTokenize(DefaultSanitize("second"))) == {2}
  {
    DefaultIds(); WordQuery("second");
    PrefixesSecond();
    Finds(Prefixes, DefaultPostings, "second", {2});
  }

  lemma SearchPrefixesIrst()
    ensures MatchingIds(Prefixes, AllIds, DefaultPostings, DefaultTokenize(DefaultSanitize("irst"))) == {}
  {
    DefaultIds(); WordQuery("irst");
    PrefixesIrst();
    Finds(Prefixes, DefaultPostings, "irst", {});
  }

  lemma SearchPrefixesRst()
    ensures MatchingIds(Prefixes, AllIds, DefaultPostings, DefaultTokenize(DefaultSanitize("rst"))) == {}
  {
    DefaultIds(); WordQuery("rst");
    PrefixesRst();
    Finds(Prefixes, DefaultPostings, "rst", {});
  }

  lemma SearchPrefixesSt()
    ensures MatchingIds(Prefixes, AllIds, DefaultPostings, DefaultTokenize(DefaultSanitize("st"))) == {}
  {
    DefaultIds(); WordQuery("st");
    PrefixesSt();
    Finds(Prefixes, DefaultPostings, "st", {});
  }

  lemma SearchPrefixesIrs()
    ensures MatchingIds(Prefixes, AllIds, DefaultPostings, DefaultTokenize(DefaultSanitize("irs"))) == {}
  {
    DefaultIds(); WordQuery("irs");
    PrefixesIrs();
    Finds(Prefixes, DefaultPostings, "irs", {});
  }

  lemma SearchPrefixesOnd()
    ensures MatchingIds(Prefixes, AllIds, DefaultPostings, DefaultTokenize(DefaultSanitize("ond"))) == {}
  {
    DefaultIds(); WordQuery("ond");
    PrefixesOnd();
    Finds(Prefixes, DefaultPostings, "ond", {});
  }

  lemma SearchPrefixesEcond()
    ensures MatchingIds(Prefixes, AllIds, DefaultPostings, DefaultTokenize(DefaultSanitize("econd"))) == {}
  {
    DefaultIds(); WordQuery("econd");
    PrefixesEcond();
    Finds(Prefixes, DefaultPostings, "econd", {});
  }

  lemma SearchPrefixesEco()
    ensures MatchingIds(Prefixes, AllIds, DefaultPostings, DefaultTokenize(DefaultSanitize("eco"))) == {}
  {
    DefaultIds(); WordQuery("eco");
    PrefixesEco();
    Finds(Prefixes, DefaultPostings, "eco", {});
  }

  lemma SearchExactFirst()
    ensures MatchingIds(ExactWords, AllIds, DefaultPostings, DefaultTokenize(DefaultSanitize("first"))) == {1}
  {
    DefaultIds(); WordQuery("first");
    ExactFirst();
    Finds(ExactWords, DefaultPostings, "first", {1});
  }

  lemma SearchExactSecond()
    ensures MatchingIds(ExactWords, AllIds, DefaultPostings, DefaultTokenize(DefaultSanitize("second"))) == {2}
  {
    DefaultIds(); WordQuery("second");
    ExactSecond();
    Finds(ExactWords, DefaultPostings, "second", {2});
  }

  lemma SearchExactIrst()
    ensures MatchingIds(ExactWords, AllIds, DefaultPostings, DefaultTokenize(DefaultSanitize("irst"))) == {}
  {
    DefaultIds(); WordQuery("irst");
    ExactIrst();
    Finds(ExactWords, DefaultPostings, "irst", {});
  }

  lemma SearchExactRst()
    ensures MatchingIds(ExactWords, AllIds, DefaultPostings, DefaultTokenize(DefaultSanitize("rst"))) == {}
  {
    DefaultIds(); WordQuery("rst");
    ExactRst();
    Finds(ExactWords, DefaultPostings, "rst", {});
  }

  lemma SearchExactSt()
    ensures MatchingIds(ExactWords, AllIds, DefaultPostings, DefaultTokenize(DefaultSanitize("st"))) == {}
  {
    DefaultIds(); WordQuery("st");
    ExactSt();
    Finds(ExactWords, DefaultPostings, "st", {});
  }

  lemma SearchExactIrs()
    ensures MatchingIds(ExactWords, AllIds, DefaultPostings, DefaultTokenize(DefaultSanitize("irs"))) == {}
  {
    DefaultIds(); WordQuery("irs");
    ExactIrs();
    Finds(ExactWords, DefaultPostings, "irs", {});
  }

  lemma SearchExactOnd()
    ensures MatchingIds(ExactWords, AllIds, DefaultPostings, DefaultTokenize(DefaultSanitize("ond"))) == {}
  {
    DefaultIds(); WordQuery("ond");
    ExactOnd();
    Finds(ExactWords, DefaultPostings, "ond", {});
  }

  lemma SearchExactEcond()
    ensures MatchingIds(ExactWords, AllIds, DefaultPostings, DefaultTokenize(DefaultSanitize("econd"))) == {}
  {
    DefaultIds(); WordQuery("econd");
    ExactEcond();
    Finds(ExactWords, DefaultPostings, "econd", {});
  }

  lemma SearchExactEco()
    ensures MatchingIds(ExactWords, AllIds, DefaultPostings, DefaultTokenize(DefaultSanitize("eco"))) == {}
  {
    DefaultIds(); WordQuery("eco");
    ExactEco();
    Finds(ExactWords, DefaultPostings, "eco", {});
  }

  lemma SearchAlnumSexto()
    ensures MatchingIds(ExactWords, AllIds, AlnumPostings, LowerAlnumTokenize(DefaultSanitize("sexto"))) == {6}
  {
    AlnumIds(); AlnumQuery("sexto");
    AlnumSexto();
    Finds(ExactWords, AlnumPostings, "sexto", {6});
  }

  lemma SearchAlnumSixthWord()
    ensures MatchingIds(ExactWords, AllIds, AlnumPostings, LowerAlnumTokenize(DefaultSanitize("6o"))) == {6}
  {
    AlnumIds(); AlnumQuery("6o");
    AlnumSixthWord();
    Finds(ExactWords, AlnumPostings, "6o", {6});
  }

  lemma SearchTrimCapitalFirst()
    ensures MatchingIds(ExactWords, AllIds, TrimPostings, DefaultTokenize(Trim("First"))) == {}
  {
    TrimIds(); TrimQuery("First");
    TrimCapitalFirst();
    Finds(ExactWords, TrimPostings, "First", {});
  }

  lemma SearchTrimFirstWord()
    ensures MatchingIds(ExactWords, AllIds, TrimPostings, DefaultTokenize(Trim("first"))) == {1}
  {
    TrimIds(); TrimQuery("first");
    TrimFirstWord();
    Finds(ExactWords, TrimPostings, "first", {1});
  }

  /** The empty query has no tokens, so it matches every document. */
  lemma SearchSubstringsEmpty()
    ensures MatchingIds(Substrings, AllIds, DefaultPostings, DefaultTokenize(DefaultSanitize(""))) == AllIds
  {
    QueryEmpty();
  }

  /** Indexing "xyz" under the first document makes the query find it. */
  lemma SearchSubstringsXyzIndexed()
    ensures MatchingIds(Substrings, AllIds, DefaultPostings + Postings(1, DefaultTokenize(DefaultSanitize("xyz"))),
                        DefaultTokenize(DefaultSanitize("xyz"))) == {1}
  {
    WordQuery("xyz");
    assert Postings(1, ["xyz"]) == {(1, "xyz")};
    HoldersAdd(DefaultPostings, Substrings, 1, "xyz", "xyz");
    SubstringsXyz();
    ModesNested("xyz", "xyz");
    DefaultIds();
    Finds(Substrings, DefaultPostings + {(1, "xyz")}, "xyz", {1});
  }

  // The scenarios, one per test of the suite.

  /** Any field finds its document: a name, a word of a description, a word
      three descriptions share, and part of an ideographic token. */
  method SearchAnyField() returns (one: seq<int>, third: seq<int>, the: seq<int>, ideograph: seq<int>)
    ensures one == [1] && third == [3] && the == [1, 2, 3] && ideograph == [4, 5]
  {
    var su := InitDefault(None);
    one := su.Search("One");
    SearchSubstringsOne();
    SortedOne();
    third := su.Search("Third");
    SearchSubstringsThird();
    SortedThree();
    the := su.Search("the");
    SearchSubstringsThe();
    SortedOneToThree();
    ideograph := su.Search("楌");
    SearchSubstringsIdeograph();
    SortedFourFive();
  }

  /** A document must match every token of the query, though the tokens
      may come from different fields. */
  method SearchAllTokens() returns (theSecond: seq<int>, threeDocument: seq<int>)
    ensures theSecond == [2] && threeDocument == [3]
  {
    var su := InitDefault(None);
    theSecond := su.Search("the second");
    SearchSubstringsTheSecond();
    SortedTwo();
    threeDocument := su.Search("three document");
    SearchSubstringsThreeDocument();
    SortedThree();
  }

  /** A query that no document matches finds nothing. */
  method SearchNoMatch() returns (four: seq<int>)
    ensures four == []
  {
    var su := InitDefault(None);
    four := su.Search("four");
    SearchSubstringsFour();
    SortedNone();
  }

  /** The empty query finds every document. */
  method SearchEmptyQuery() returns (all: seq<int>)
    ensures all == [1, 2, 3, 4, 5, 6] && |all| == |Documents|
  {
    var su := InitDefault(None);
    all := su.Search("");
    SearchSubstringsEmpty();
    SortedAll();
  }

  /** Text indexed directly under an id is found from then on. */
  method IndexCustomText() returns (before: seq<int>, after: seq<int>)
    ensures before == [] && after == [1]
  {
    var su := InitDefault(None);
    before := su.Search("xyz");
    SearchSubstringsXyz();
    SortedNone();
    su.IndexDocument(1, "xyz");
    assert su.uids == AllIds;
    after := su.Search("xyz");
    SearchSubstringsXyzIndexed();
    SortedOne();
  }

  /** The constructor takes the index mode from its options. */
  method ModeFromOptions() returns (mode: IndexMode)
    ensures mode == ExactWords
  {
    var su := new SearchUtility(Options(Some(ExactWords), None, None));
    mode := su.GetIndexMode();
  }

  /** Before anything is indexed, the mode can be changed. */
  method SetModeBeforeIndexing() returns (outcome: Outcome, mode: IndexMode)
    ensures outcome == Pass && mode == ExactWords
  {
    var su := new SearchUtility(NoOptions);
    outcome := su.SetIndexMode(ExactWords);
    mode := su.GetIndexMode();
  }

  /** Once documents are indexed, changing the mode fails and the mode stays. */
  method SetModeAfterIndexing() returns (outcome: Outcome, mode: IndexMode)
    ensures outcome == Fail(ModeLocked) && mode == Substrings
  {
    var su := InitDefault(None);
    outcome := su.SetIndexMode(ExactWords);
    mode := su.GetIndexMode();
  }

  /** A custom tokeniser decides the tokens of both documents and queries. */
  method CustomTokenizer() returns (sexto: seq<int>, sixth: seq<int>)
    ensures sexto == [6] && sixth == [6]
  {
    var su := InitAlnum();
    sexto := su.Search("sexto");
    SearchAlnumSexto();
    SortedSix();
    sixth := su.Search("6o");
    SearchAlnumSixthWord();
    SortedSix();
  }

  /** A custom sanitiser replaces lower-casing, so case then matters. */
  method CustomSanitizer() returns (capital: seq<int>, lower: seq<int>)
    ensures capital == [] && lower == [1]
  {
    var su := InitTrim();
    capital := su.Search("First");
    SearchTrimCapitalFirst();
    SortedNone();
    lower := su.Search("first");
    SearchTrimFirstWord();
    SortedOne();
  }

  // The queries the suite runs in a loop, and what each one finds.

  /** "one" in three casings. */
  const CaseVariants: seq<string> := ["one", "One", "ONE"]

  lemma CaseVariantsFind(j: nat)
    requires j < |CaseVariants|
    ensures MatchingIds(Substrings, AllIds, DefaultPostings, DefaultTokenize(DefaultSanitize(CaseVariants[j]))) == {1}
  {
    if j == 0 { SearchSubstringsLowerOne(); }
    else if j == 1 { SearchSubstringsOne(); }
    else { SearchSubstringsUpperOne(); }
  }

  /** Parts of "second" from its start, middle and end. */
  const LatinPieces: seq<string> := ["sec", "second", "eco", "cond"]

  lemma LatinPiecesFind(j: nat)
    requires j < |LatinPieces|
    ensures MatchingIds(Substrings, AllIds, DefaultPostings, DefaultTokenize(DefaultSanitize(LatinPieces[j]))) == {2}
  {
    if j == 0 { SearchSubstringsSec(); }
    else if j == 1 { SearchSubstringsSecond(); }
    else if j == 2 { SearchSubstringsEco(); }
    else { SearchSubstringsCond(); }
  }

  /** Parts of the token "堦ヴ礯". */
  const IdeographPieces: seq<string> := ["堦", "堦ヴ", "堦ヴ礯", "ヴ", "ヴ礯"]

  lemma IdeographPiecesFind(j: nat)
    requires j < |IdeographPieces|
    ensures MatchingIds(Substrings, AllIds, DefaultPostings, DefaultTokenize(DefaultSanitize(IdeographPieces[j]))) == {4, 5}
  {
    if j == 0 { SearchSubstringsKanji(); }
    else if j == 1 { SearchSubstringsKanjiKana(); }
    else if j == 2 { SearchSubstringsWholeWord(); }
    else if j == 3 { SearchSubstringsKana(); }
    else { SearchSubstringsKanaKanji(); }
  }

  /** Prefixes of "first". */
  const FirstPrefixes: seq<string> := ["fir", "first"]

  lemma FirstPrefixesFind(j: nat)
    requires j < |FirstPrefixes|
    ensures MatchingIds(Prefixes, AllIds, DefaultPostings, DefaultTokenize(DefaultSanitize(FirstPrefixes[j]))) == {1}
  {
    if j == 0 { SearchPrefixesFir(); }
    else { SearchPrefixesFirst(); }
  }

  /** Prefixes of "second". */
  const SecondPrefixes: seq<string> := ["sec", "second"]

  lemma SecondPrefixesFind(j: nat)
    requires j < |SecondPrefixes|
    ensures MatchingIds(Prefixes, AllIds, DefaultPostings, DefaultTokenize(DefaultSanitize(SecondPrefixes[j]))) == {2}
  {
    if j == 0 { SearchPrefixesSec(); }
    else { SearchPrefixesSecond(); }
  }

  /** Pieces of "first" and "second" that are neither a prefix nor a whole word
      of any indexed token. */
  const Fragments: seq<string> := ["irst", "rst", "st", "irs", "ond", "econd", "eco"]

  lemma PrefixesMiss(j: nat)
    requires j < |Fragments|
    ensures MatchingIds(Prefixes, AllIds, DefaultPostings, DefaultTokenize(DefaultSanitize(Fragments[j]))) == {}
  {
    if j == 0 { SearchPrefixesIrst(); }
    else if j == 1 { SearchPrefixesRst(); }
    else if j == 2 { SearchPrefixesSt(); }
    else if j == 3 { SearchPrefixesIrs(); }
    else if j == 4 { SearchPrefixesOnd(); }
    else if j == 5 { SearchPrefixesEcond(); }
    else { SearchPrefixesEco(); }
  }

  lemma ExactMiss(j: nat)
    requires j < |Fragments|
    ensures MatchingIds(ExactWords, AllIds, DefaultPostings, DefaultTokenize(DefaultSanitize(Fragments[j]))) == {}
  {
    if j == 0 { SearchExactIrst(); }
    else if j == 1 { SearchExactRst(); }
    else if j == 2 { SearchExactSt(); }
    else if j == 3 { SearchExactIrs(); }
    else if j == 4 { SearchExactOnd(); }
    else if j == 5 { SearchExactEcond(); }
    else { SearchExactEco(); }
  }

  /** Case does not matter in a query. */
  method SearchIgnoresCase() returns (results: seq<seq<int>>)
    ensures |results| == |CaseVariants| && forall j | 0 <= j < |results| :: results[j] == [1]
  {
    var su := InitDefault(None);
    results := SearchEach(su, CaseVariants);
    forall j | 0 <= j < |results| ensures results[j] == [1] {
      CaseVariantsFind(j);
      SortedOne();
    }
  }

  /** The default mode finds any part of a word, in Latin script and among
      ideographs and kana. */
  method SearchSubstrings() returns (latin: seq<seq<int>>, ideographs: seq<seq<int>>)
    ensures |latin| == |LatinPieces| && forall j | 0 <= j < |latin| :: latin[j] == [2]
    ensures |ideographs| == |IdeographPieces| && forall j | 0 <= j < |ideographs| :: ideographs[j] == [4, 5]
  {
    var su := InitDefault(None);
    latin := SearchEach(su, LatinPieces);
    forall j | 0 <= j < |latin| ensures latin[j] == [2] {
      LatinPiecesFind(j);
      SortedTwo();
    }
    ideographs := SearchEach(su, IdeographPieces);
    forall j | 0 <= j < |ideographs| ensures ideographs[j] == [4, 5] {
      IdeographPiecesFind(j);
      SortedFourFive();
    }
  }

  /** In prefix mode a query finds the words it begins, and nothing else. */
  method SearchPrefixes() returns (firsts: seq<seq<int>>, seconds: seq<seq<int>>, misses: seq<seq<int>>)
    ensures |firsts| == |FirstPrefixes| && forall j | 0 <= j < |firsts| :: firsts[j] == [1]
    ensures |seconds| == |SecondPrefixes| && forall j | 0 <= j < |seconds| :: seconds[j] == [2]
    ensures |misses| == |Fragments| && forall j | 0 <= j < |misses| :: misses[j] == []
  {
    var su := InitDefault(Some(Prefixes));
    firsts := SearchEach(su, FirstPrefixes);
    forall j | 0 <= j < |firsts| ensures firsts[j] == [1] {
      FirstPrefixesFind(j);
      SortedOne();
    }
    seconds := SearchEach(su, SecondPrefixes);
    forall j | 0 <= j < |seconds| ensures seconds[j] == [2] {
      SecondPrefixesFind(j);
      SortedTwo();
    }
    misses := SearchEach(su, Fragments);
    forall j | 0 <= j < |misses| ensures misses[j] == [] {
      PrefixesMiss(j);
      SortedNone();
    }
  }

  /** In exact-word mode a query finds only whole words. */
  method SearchExactWords() returns (first: seq<int>, second: seq<int>, misses: seq<seq<int>>)
    ensures first == [1] && second == [2]
    ensures |misses| == |Fragments| && forall j | 0 <= j < |misses| :: misses[j] == []
  {
    var su := InitDefault(Some(ExactWords));
    first := su.Search("first");
    SearchExactFirst();
    SortedOne();
    second := su.Search("second");
    SearchExactSecond();
    SortedTwo();
    misses := SearchEach(su, Fragments);
    forall j | 0 <= j < |misses| ensures misses[j] == [] {
      ExactMiss(j);
      SortedNone();
    }
  }
}
