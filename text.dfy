/** The text pipeline that indexing and searching both run: a sanitiser that
    normalises the raw text, then a tokeniser that splits it into tokens.
    The search utility takes both as function parameters; this module holds
    the defaults and the two replacements that the test suite plugs in. */
module Text {

  /** A character the default tokeniser keeps inside a token: an ASCII letter
      or digit, or any character outside ASCII (standing in for the Unicode
      letter and number classes, so that ideographs and kana form tokens). */
  predicate IsWordChar(c: char) {
    ('a' <= c <= 'z') || ('A' <= c <= 'Z') || ('0' <= c <= '9') || c as int >= 0x80
  }

  /** The character class `[a-z0-9]` of the custom tokeniser in the tests. */
  predicate IsLowerAlnum(c: char) {
    ('a' <= c <= 'z') || ('0' <= c <= '9')
  }

  predicate IsUpper(c: char) {
    'A' <= c <= 'Z'
  }

  function LowerChar(c: char): char {
    if IsUpper(c) then (c as int + 32) as char else c
  }

  function UpperChar(c: char): char {
    if 'a' <= c <= 'z' then (c as int - 32) as char else c
  }

  /** The default sanitiser: lower-cases the text (ASCII letters only). */
  function ToLower(s: string): (r: string)
    ensures |r| == |s|
    ensures forall i | 0 <= i < |r| :: !IsUpper(r[i])
    ensures forall i | 0 <= i < |r| ::
      r[i] == s[i] || (IsUpper(s[i]) && r[i] as int == s[i] as int + 32)
  {
    seq(|s|, i requires 0 <= i < |s| => LowerChar(s[i]))
  }

  /** Upper-cases the text: the casing transform the tests apply to queries. */
  function ToUpper(s: string): (r: string)
    ensures |r| == |s|
    ensures forall i | 0 <= i < |r| :: !('a' <= r[i] <= 'z')
    ensures forall i | 0 <= i < |r| ::
      r[i] == s[i] || ('a' <= s[i] <= 'z' && r[i] as int == s[i] as int - 32)
  {
    seq(|s|, i requires 0 <= i < |s| => UpperChar(s[i]))
  }

  /** Lower-casing is idempotent, so sanitising a sanitised text changes nothing. */
  lemma ToLowerIdempotent(s: string)
    ensures ToLower(ToLower(s)) == ToLower(s)
  {
  }

  /** Case folding: a text and its upper-cased form sanitise alike. */
  lemma ToLowerIgnoresCase(s: string)
    ensures ToLower(ToUpper(s)) == ToLower(s)
  {
  }

  /** White space and line terminators as `String.prototype.trim` removes them. */
  predicate IsSpace(c: char) {
    c == ' ' || c == '\t' || c == '\n' || c == '\r' || c == '\U{000B}' || c == '\U{000C}'
    || c == '\U{00A0}' || c == '\U{1680}' || ('\U{2000}' <= c <= '\U{200A}')
    || c == '\U{2028}' || c == '\U{2029}' || c == '\U{202F}' || c == '\U{205F}'
    || c == '\U{3000}' || c == '\U{FEFF}'
  }

  /** Drops the leading white space. */
  function TrimStart(s: string): (r: string)
    ensures |r| <= |s| && r == s[|s| - |r|..]
    ensures forall i | 0 <= i < |s| - |r| :: IsSpace(s[i])
    ensures r == [] || !IsSpace(r[0])
  {
    if s != [] && IsSpace(s[0]) then TrimStart(s[1..]) else s
  }

  /** Drops the trailing white space. */
  function TrimEnd(s: string): (r: string)
    ensures |r| <= |s| && r == s[..|r|]
    ensures forall i | |r| <= i < |s| :: IsSpace(s[i])
    ensures r == [] || !IsSpace(r[|r| - 1])
  {
    if s != [] && IsSpace(s[|s| - 1]) then TrimEnd(s[..|s| - 1]) else s
  }

  /** The custom sanitiser of the tests, `text.trim()`: keeps case and drops
      the white space at both ends, so that a text of white space only
      becomes empty. */
  function Trim(s: string): (r: string)
    ensures |r| <= |s|
    ensures r == [] || (!IsSpace(r[0]) && !IsSpace(r[|r| - 1]))
    ensures r == [] <==> forall i | 0 <= i < |s| :: IsSpace(s[i])
  {
    TrimEnd(TrimStart(s))
  }

  /** `r` is the piece of `s` at offset `k` with only white space around it. */
  predicate Middle(s: string, r: string, k: nat) {
    k + |r| <= |s| && r == s[k..k + |r|]
    && (forall i | 0 <= i < k :: IsSpace(s[i]))
    && (forall i | k + |r| <= i < |s| :: IsSpace(s[i]))
  }

  /** A suffix after leading white space, cut before its trailing white
      space, is a middle piece. */
  lemma MiddleOfSuffix(s: string, t: string, r: string, k: nat)
    requires k <= |s| && t == s[k..] && forall i | 0 <= i < k :: IsSpace(s[i])
    requires |r| <= |t| && r == t[..|r|] && forall i | |r| <= i < |t| :: IsSpace(t[i])
    ensures Middle(s, r, k)
  {
    forall i | k + |r| <= i < |s| ensures IsSpace(s[i]) {
      assert s[i] == t[i - k];
    }
  }

  /** Trimming keeps the middle of the text: it drops white space at the two
      ends and nothing else, and the kept characters stay in place and order. */
  lemma TrimKeepsMiddle(s: string)
    ensures Middle(s, Trim(s), |s| - |TrimStart(s)|)
  {
    var t := TrimStart(s);
    MiddleOfSuffix(s, t, TrimEnd(t), |s| - |t|);
  }

  /** Trimming leaves a text alone when it neither starts nor ends with white space. */
  lemma TrimUnpadded(s: string)
    requires s == [] || (!IsSpace(s[0]) && !IsSpace(s[|s| - 1]))
    ensures Trim(s) == s
  {
  }

  /** The text with every character outside the class removed. */
  function Filter(isWord: char -> bool, s: string): (r: string)
    ensures forall c | c in r :: isWord(c)
  {
    if s == [] then [] else (if isWord(s[0]) then [s[0]] else []) + Filter(isWord, s[1..])
  }

  /** The tokens glued back together. */
  function Concat(ts: seq<string>): string {
    if ts == [] then [] else ts[0] + Concat(ts[1..])
  }

  lemma ConcatAppend(a: seq<string>, b: seq<string>)
    ensures Concat(a + b) == Concat(a) + Concat(b)
  {
    if a != [] {
      assert (a + b)[0] == a[0];
      assert (a + b)[1..] == a[1..] + b;
      ConcatAppend(a[1..], b);
      calc {
        Concat(a + b);
        a[0] + Concat(a[1..] + b);
        a[0] + (Concat(a[1..]) + Concat(b));
        (a[0] + Concat(a[1..])) + Concat(b);
        Concat(a) + Concat(b);
      }
    } else {
      assert a + b == b;
    }
  }

  predicate AllIn(isWord: char -> bool, w: string) {
    forall c | c in w :: isWord(c)
  }

  /** Every token is non-empty and made of characters of the class. */
  predicate WellFormed(isWord: char -> bool, ts: seq<string>) {
    forall k | 0 <= k < |ts| :: ts[k] != [] && AllIn(isWord, ts[k])
  }

  function Flush(word: string): seq<string> {
    if word == [] then [] else [word]
  }

  /** Splits `s` on runs of characters outside the class, `word` being the
      token read so far; empty segments are dropped. */
  function Scan(isWord: char -> bool, s: string, word: string): (r: seq<string>)
    requires AllIn(isWord, word)
    ensures WellFormed(isWord, r)
    decreases |s|
  {
    if s == [] then Flush(word)
    else if isWord(s[0]) then Scan(isWord, s[1..], word + [s[0]])
    else Flush(word) + Scan(isWord, s[1..], [])
  }

  /** `text.split(/[^class]+/).filter(t => t)`: the maximal runs of class characters. */
  function Tokenize(isWord: char -> bool, s: string): (r: seq<string>)
    ensures WellFormed(isWord, r)
  {
    Scan(isWord, s, [])
  }

  /** The default tokeniser. */
  function DefaultTokenize(s: string): seq<string> {
    Tokenize(IsWordChar, s)
  }

  /** The default sanitiser. */
  function DefaultSanitize(s: string): string {
    ToLower(s)
  }

  /** The custom tokeniser of the tests, `text.split(/[^a-z0-9]+/).filter(t => t)`. */
  function LowerAlnumTokenize(s: string): seq<string> {
    Tokenize(IsLowerAlnum, s)
  }

  /** The default tokeniser yields the maximal runs of letters and digits:
      non-empty tokens of word characters that, in order, hold every word
      character of the text. */
  lemma DefaultTokenizeRuns(s: string)
    ensures WellFormed(IsWordChar, DefaultTokenize(s))
    ensures Concat(DefaultTokenize(s)) == Filter(IsWordChar, s)
  {
    TokenizeKeepsWordChars(IsWordChar, s);
  }

  /** The custom tokeniser yields the maximal runs of `[a-z0-9]`, in order. */
  lemma LowerAlnumTokenizeRuns(s: string)
    ensures WellFormed(IsLowerAlnum, LowerAlnumTokenize(s))
    ensures Concat(LowerAlnumTokenize(s)) == Filter(IsLowerAlnum, s)
  {
    TokenizeKeepsWordChars(IsLowerAlnum, s);
  }

  /** The default pipeline ignores case: a text and its upper-cased form
      give the same tokens, so a query finds the same ids in any casing. */
  lemma DefaultPipelineIgnoresCase(s: string)
    ensures DefaultTokenize(DefaultSanitize(ToUpper(s))) == DefaultTokenize(DefaultSanitize(s))
  {
    ToLowerIgnoresCase(s);
  }

  lemma {:induction false} ScanKeepsWordChars(isWord: char -> bool, s: string, word: string)
    requires AllIn(isWord, word)
    ensures Concat(Scan(isWord, s, word)) == word + Filter(isWord, s)
    decreases |s|
  {
    if s == [] {
      assert Concat(Flush(word)) == word by {
        if word != [] { assert Concat([word]) == word + Concat([]); }
      }
    } else if isWord(s[0]) {
      ScanKeepsWordChars(isWord, s[1..], word + [s[0]]);
      assert Filter(isWord, s) == [s[0]] + Filter(isWord, s[1..]);
      assert word + [s[0]] + Filter(isWord, s[1..]) == word + Filter(isWord, s);
    } else {
      ScanKeepsWordChars(isWord, s[1..], []);
      ConcatAppend(Flush(word), Scan(isWord, s[1..], []));
      assert Concat(Flush(word)) == word by {
        if word != [] { assert Concat([word]) == word + Concat([]); }
      }
      assert Filter(isWord, s) == Filter(isWord, s[1..]);
    }
  }

  /** Nothing is lost or invented: the tokens, in order, hold exactly the
      class characters of the text. */
  lemma TokenizeKeepsWordChars(isWord: char -> bool, s: string)
    ensures Concat(Tokenize(isWord, s)) == Filter(isWord, s)
  {
    ScanKeepsWordChars(isWord, s, []);
  }

  lemma {:induction false} ScanSplit(isWord: char -> bool, a: string, c: char, b: string, word: string)
    requires AllIn(isWord, word) && !isWord(c)
    ensures Scan(isWord, a + [c] + b, word) == Scan(isWord, a, word) + Tokenize(isWord, b)
    decreases |a|
  {
    if a == [] {
      assert a + [c] + b == [c] + b;
      assert ([c] + b)[1..] == b;
    } else {
      assert (a + [c] + b)[0] == a[0];
      assert (a + [c] + b)[1..] == a[1..] + [c] + b;
      if isWord(a[0]) {
        ScanSplit(isWord, a[1..], c, b, word + [a[0]]);
      } else {
        ScanSplit(isWord, a[1..], c, b, []);
      }
    }
  }

  /** A separator character cuts the text into two independently tokenised halves. */
  lemma TokenizeSplit(isWord: char -> bool, a: string, c: char, b: string)
    requires !isWord(c)
    ensures Tokenize(isWord, a + [c] + b) == Tokenize(isWord, a) + Tokenize(isWord, b)
  {
    ScanSplit(isWord, a, c, b, []);
  }

  lemma {:induction false} ScanWord(isWord: char -> bool, s: string, word: string)
    requires AllIn(isWord, word) && AllIn(isWord, s)
    ensures Scan(isWord, s, word) == Flush(word + s)
    decreases |s|
  {
    if s != [] {
      assert s[0] in s;
      assert AllIn(isWord, s[1..]) by {
        forall c | c in s[1..] ensures isWord(c) { assert c in s; }
      }
      assert AllIn(isWord, word + [s[0]]);
      assert word + [s[0]] + s[1..] == word + s;
      ScanWord(isWord, s[1..], word + [s[0]]);
      assert Scan(isWord, s, word) == Scan(isWord, s[1..], word + [s[0]]);
    } else {
      assert word + s == word;
    }
  }

  /** A non-empty run of class characters is a single token. */
  lemma TokenizeWord(isWord: char -> bool, s: string)
    requires s != [] && AllIn(isWord, s)
    ensures Tokenize(isWord, s) == [s]
  {
    ScanWord(isWord, s, []);
    assert [] + s == s;
  }

  lemma {:induction false} ScanNoWord(isWord: char -> bool, s: string)
    requires forall c | c in s :: !isWord(c)
    ensures Scan(isWord, s, []) == []
    decreases |s|
  {
    if s != [] {
      ScanNoWord(isWord, s[1..]);
    }
  }

  /** A text without class characters has no tokens (the empty query among them). */
  lemma TokenizeNoWord(isWord: char -> bool, s: string)
    requires forall c | c in s :: !isWord(c)
    ensures Tokenize(isWord, s) == []
  {
    ScanNoWord(isWord, s);
  }

  /** The words with one separator character between neighbours. */
  function Join(words: seq<string>, sep: char): string
    requires words != []
  {
    if |words| == 1 then words[0] else words[0] + [sep] + Join(words[1..], sep)
  }

  /** Tokenising words joined by a separator gives the words back: the
      tokeniser inverts `Join` on well-formed words. */
  lemma {:induction false} TokenizeJoin(isWord: char -> bool, words: seq<string>, sep: char)
    requires words != [] && WellFormed(isWord, words) && !isWord(sep)
    ensures Tokenize(isWord, Join(words, sep)) == words
  {
    TokenizeWord(isWord, words[0]);
    if |words| > 1 {
      TokenizeSplit(isWord, words[0], sep, Join(words[1..], sep));
      TokenizeJoin(isWord, words[1..], sep);
      assert words == [words[0]] + words[1..];
    }
  }
}
