# SearchUtility, modelled in Dafny

`SearchUtility` is the in-memory text-search index of js-worker-search.
Callers register text under a document id with `indexDocument(id, text)`
and later call `search(query)`, which returns the ids whose text matches
every token of the query, deduplicated and in ascending order. Both
indexing and searching run text through the same pipeline: a sanitiser
(lower-casing by default), then a tokeniser (a split on non-alphanumeric
runs by default). Either stage can be replaced through the constructor
options. The index maps each lookup key to a set of ids. Which keys a
token contributes depends on the index mode:

- SUBSTRINGS, the default: every non-empty contiguous substring.
- PREFIXES: every non-empty prefix.
- EXACT_WORDS: the token itself.

`setIndexMode` changes the mode only until the first `indexDocument` call.
After that it fails.

The repository's behaviour is pinned down by its test suite,
`src/util/SearchUtility.test.js`. The model follows that suite:

- `text.dfy` (module `Text`): the sanitisers and tokenisers.
  - The defaults.
  - The trimming sanitiser the suite plugs in.
  - The `[a-z0-9]` tokeniser the suite plugs in.
  - Lemmas on what tokenising keeps and how it splits.
- `keys.dfy` (module `Keys`):
  - The three index modes.
  - Each mode's matching rule.
  - The keys each mode derives from a token.
  - The proof that looking up a query token as a key finds exactly the tokens the mode's rule matches.
- `index.dfy` (module `Index`):
  - The class `SearchUtility`, with its mutable index, id set and lock flag.
  - The set-level meaning of a search, `MatchingIds`.
  - The ascending conversion of the result set.
  - The lemmas tying them together.
  - `Search` is proved to return exactly `SortedIds` of the matching ids. That is the duplicate-free ascending sequence of those ids.
  - `IndexDocument` is proved to keep the index equal to the keys of every token indexed so far.
- `scenarios.dfy` (module `Scenarios`):
  - The six documents of the suite.
  - Its `init` helper, as a loop of `IndexDocument` calls.
  - The index contents under each configuration the suite uses.
- `searches.dfy` (module `Searches`): one method per test of the suite. Each postcondition states the ids the test expects.

## Model

| member | source | states |
|---|---|---|
| Text.ToLower | src/util/SearchUtility.test.js:102-112 | The default sanitiser keeps the length and leaves no upper-case letter. Each character is unchanged or is the upper-case letter moved to lower case. |
| Text.ToLowerIgnoresCase | src/util/SearchUtility.test.js:102-112 | A text and its upper-cased form sanitise to the same string. So "one", "One" and "ONE" become the same query. |
| Text.ToLowerIdempotent | src/util/SearchUtility.test.js:102-112 | Lower-casing an already sanitised text changes nothing. |
| Text.ToUpper | src/util/SearchUtility.test.js:104 | Upper-casing keeps the length and leaves no lower-case letter. Each character is unchanged or is the lower-case letter moved to upper case. So "one" becomes "ONE". |
| Text.TrimStart | src/util/SearchUtility.test.js:217 | The result is a suffix of the text. Everything dropped is white space. The result does not start with white space. |
| Text.TrimEnd | src/util/SearchUtility.test.js:217 | The result is a prefix of the text. Everything dropped is white space. The result does not end with white space. |
| Text.Trim | src/util/SearchUtility.test.js:217 | The trimming sanitiser never lengthens a text. Its result neither starts nor ends with white space. It is empty exactly when the text is white space only. |
| Text.TrimKeepsMiddle | src/util/SearchUtility.test.js:217 | Trimming keeps a contiguous piece of the text, in place and in order. Only white space before and after that piece is dropped. |
| Text.TrimUnpadded | src/util/SearchUtility.test.js:214-222 | Trimming leaves a text alone when it neither starts nor ends with white space. So the trimming sanitiser keeps "First" capitalised. |
| Text.Filter | src/util/SearchUtility.test.js:207 | Only characters of the tokeniser's class survive. |
| Text.Tokenize | src/util/SearchUtility.test.js:207 | Splitting on runs of characters outside the class and dropping empty pieces yields non-empty tokens made only of class characters. |
| Text.TokenizeKeepsWordChars | src/util/SearchUtility.test.js:207 | The tokens, concatenated in order, are exactly the class characters of the text: nothing is lost, reordered or invented. |
| Text.TokenizeSplit | src/util/SearchUtility.test.js:207 | A separator cuts a text into two halves that tokenise independently, and the token lists concatenate. |
| Text.TokenizeWord | src/util/SearchUtility.test.js:207 | A non-empty run of class characters is a single token. |
| Text.TokenizeNoWord | src/util/SearchUtility.test.js:95-100 | A text without class characters, the empty query among them, has no tokens. |
| Text.DefaultTokenizeRuns | src/util/SearchUtility.test.js:56-74 | The default tokeniser yields non-empty runs of letters and digits. In order, they hold every letter and digit of the text. |
| Text.LowerAlnumTokenizeRuns | src/util/SearchUtility.test.js:207 | The custom tokeniser yields non-empty runs of `[a-z0-9]`. In order, they hold every such character of the text. |
| Text.DefaultPipelineIgnoresCase | src/util/SearchUtility.test.js:102-112 | Under the default sanitiser and tokeniser, a text and its upper-cased form give the same tokens. |
| Text.TokenizeJoin | src/util/SearchUtility.test.js:76-86 | Tokenising well-formed words joined by a separator gives back those words, in order. This covers multi-token queries such as "the second". |
| Keys.PrefixKeys | src/util/SearchUtility.test.js:176-191 | A token yields as many prefix keys as it has characters. |
| Keys.IsPrefixSlice | src/util/SearchUtility.test.js:176-191 | The character-by-character prefix test agrees with slice equality `t[..\|q\|] == q`. |
| Keys.IsSubstringSlice | src/util/SearchUtility.test.js:114-131 | The scanning substring test holds exactly when the query equals some slice of the token. Characters are atomic units, as the ideograph queries need. |
| Keys.PrefixKeysMatch | src/util/SearchUtility.test.js:176-191 | The prefix keys of a token are exactly its non-empty prefixes, both directions. |
| Keys.SubstringKeysMatch | src/util/SearchUtility.test.js:114-131 | The substring keys of a token are exactly its non-empty substrings, both directions. |
| Keys.ExpandToken | src/util/SearchUtility.test.js:114-202 | The keys the active mode registers for a token are exactly the query tokens that the mode's rule matches against it, in both directions. So a direct key lookup is sound and complete. |
| Keys.ModesNested | src/util/SearchUtility.test.js:176-202 | An exact-word match is a prefix match, and a prefix match is a substring match. |
| Keys.SubstringKeysCount | src/util/SearchUtility.test.js:114-131 | A token of n characters yields n(n+1)/2 substring keys, counted with repetition. |
| Index.HoldersFound | src/util/SearchUtility.test.js:56-74 | An id is registered under a key exactly when one of its indexed tokens is found by that key. |
| Index.HoldersAdd | src/util/SearchUtility.test.js:133-146 | Adding one (id, token) posting adds the id to exactly the keys that match the token. Every other key keeps its ids. |
| Index.MatchingGrows | src/util/SearchUtility.test.js:133-146 | Indexing only adds. With more ids and more postings, every id that matched a query still matches it. |
| Index.MatchingIdsIntersected | src/util/SearchUtility.test.js:76-86 | When every posting belongs to a known id, the all-tokens match equals the intersection of the per-token id sets. Matches may come from different texts of the same id. |
| Index.RegisterKeeps | src/util/SearchUtility.test.js:49-50 | Registering one token's keys keeps the index equal to the keys of all postings, the new one included. |
| Index.AscendingTail | src/util/SearchUtility.test.js:66-72 | The tail of an ascending sequence is ascending, and its head is below every later element. |
| Index.ConsAscending | src/util/SearchUtility.test.js:66-72 | Putting an element below every element of an ascending sequence in front of it keeps it ascending. |
| Index.Insert | src/util/SearchUtility.test.js:66-72 | Inserting into an ascending sequence keeps it ascending and adds exactly the new element. An element already present is not duplicated. |
| Index.SortedIds | src/util/SearchUtility.test.js:66-72 | A set's ids come out strictly ascending, and the result contains exactly the set's elements. |
| Index.SortAscending | src/util/SearchUtility.test.js:66-72 | The loop's result is strictly ascending and has exactly the set's elements. |
| Index.SameElementsEmpty | src/util/SearchUtility.test.js:88-93 | Two sequences with the same elements are empty together. |
| Index.AscendingUnique | src/util/SearchUtility.test.js:66-72 | Two strictly ascending sequences with the same elements are equal, so the sorted result is determined. |
| Index.SearchUtility.constructor | src/util/SearchUtility.test.js:148-154 | The mode, tokeniser and sanitiser are the options given, or the defaults (SUBSTRINGS, the default tokeniser, lower-casing). The index starts empty and unlocked. |
| Index.SearchUtility.SetIndexMode | src/util/SearchUtility.test.js:156-174 | Before indexing it sets the mode and passes. Once locked it fails with ModeLocked and the mode is unchanged. |
| Index.SearchUtility.GetIndexMode | src/util/SearchUtility.test.js:148-161 | Returns the mode in force: the constructor's option, or the last mode SetIndexMode accepted. |
| Index.SearchUtility.Register | src/util/SearchUtility.test.js:49-50 | Each key in the list gains the id, and every other key is unchanged. |
| Index.SearchUtility.IndexDocument | src/util/SearchUtility.test.js:45-54 | The lock engages, the mode is kept, and the id joins the known ids. The postings grow by exactly the text's tokens. The index stays equal to the keys of all postings. |
| Index.SearchUtility.Search | src/util/SearchUtility.test.js:56-100 | The result is exactly the strictly ascending list of the ids matching every query token. With no query tokens it is every known id. |
| Scenarios.AllDocumentIds | src/util/SearchUtility.test.js:36-43 | The six documents carry ids 1 to 6. |
| Scenarios.Init | src/util/SearchUtility.test.js:45-54 | `init` leaves a fresh, locked utility in the requested configuration. It knows ids 1 to 6, and its postings are those of every name and description. |
| Scenarios.InitDefault | src/util/SearchUtility.test.js:45-54 | `init()` and `init({indexMode})` give the default pipeline and the listed postings under the requested mode. |
| Scenarios.InitAlnum | src/util/SearchUtility.test.js:204-208 | EXACT_WORDS with the `[a-z0-9]` tokeniser gives the listed postings. |
| Scenarios.InitTrim | src/util/SearchUtility.test.js:214-218 | EXACT_WORDS with the trimming sanitiser gives the listed postings, with case kept. |
| Scenarios.SearchEach | src/util/SearchUtility.test.js:105-109 | Running one search per query, in order, returns for each query exactly its sorted matching ids. |
| Scenarios.DefaultDocumentPostings | src/util/SearchUtility.test.js:6-54 | Under the default pipeline the documents index exactly the listed (id, token) pairs. |
| Scenarios.AlnumDocumentPostings | src/util/SearchUtility.test.js:204-208 | Under the `[a-z0-9]` tokeniser only the Latin words index: the ideographic documents contribute nothing, and "sexto/6o" splits into "sexto" and "6o". |
| Scenarios.TrimDocumentPostings | src/util/SearchUtility.test.js:214-218 | Under the trimming sanitiser the documents index their words with case kept ("The", "One", ...). |
| Searches.SearchAnyField | src/util/SearchUtility.test.js:56-74 | "One" gives [1], "Third" gives [3], "the" gives [1, 2, 3] and "楌" gives [4, 5]. |
| Searches.SearchAllTokens | src/util/SearchUtility.test.js:76-86 | "the second" gives [2]. "three document" gives [3], matching across the name and the description. |
| Searches.SearchNoMatch | src/util/SearchUtility.test.js:88-93 | "four" gives []. |
| Searches.SearchEmptyQuery | src/util/SearchUtility.test.js:95-100 | "" gives every id once, [1, 2, 3, 4, 5, 6], as many as there are documents. |
| Searches.SearchIgnoresCase | src/util/SearchUtility.test.js:102-112 | "one", "One" and "ONE" each give [1]. |
| Searches.SearchSubstrings | src/util/SearchUtility.test.js:114-131 | "sec", "second", "eco" and "cond" each give [2]. "堦", "堦ヴ", "堦ヴ礯", "ヴ" and "ヴ礯" each give [4, 5]. |
| Searches.IndexCustomText | src/util/SearchUtility.test.js:133-146 | "xyz" gives [] before `indexDocument(1, "xyz")` and [1] after it. |
| Searches.ModeFromOptions | src/util/SearchUtility.test.js:148-154 | The mode passed to the constructor is the one `getIndexMode` returns. |
| Searches.SetModeBeforeIndexing | src/util/SearchUtility.test.js:156-161 | Setting EXACT_WORDS on a fresh utility passes and becomes the mode. |
| Searches.SetModeAfterIndexing | src/util/SearchUtility.test.js:163-174 | After `init`, setting the mode fails with ModeLocked and the mode stays SUBSTRINGS. |
| Searches.SearchPrefixes | src/util/SearchUtility.test.js:176-191 | In PREFIXES mode, "fir" and "first" give [1], and "sec" and "second" give [2]. "irst", "rst", "st", "irs", "ond", "econd" and "eco" each give []. |
| Searches.SearchExactWords | src/util/SearchUtility.test.js:193-202 | In EXACT_WORDS mode, "first" gives [1] and "second" gives [2]. The seven fragments each give []. |
| Searches.CustomTokenizer | src/util/SearchUtility.test.js:204-212 | With the `[a-z0-9]` tokeniser, "sexto" and "6o" each give [6]. |
| Searches.CustomSanitizer | src/util/SearchUtility.test.js:214-222 | With the trimming sanitiser, "First" gives [] and "first" gives [1]. |

## Left out

- `SearchUtility.js` and `constants.js`, the implementation files, are not part of this model. Their code paths beyond what the test suite pins down are not modelled. Three rules are the library's documented behaviour, which the suite does not assert in general; the model assumes them:
  - A query with no tokens returns every indexed id. This also covers a non-empty query, such as "!?", that tokenises to nothing. The suite only tries "".
  - Each mode's key derivation.
  - The ascending, duplicate-free result.
- Text.IsWordChar: the default tokeniser's Unicode letter and number classes are approximated. ASCII letters and digits, plus every character outside ASCII, count as word characters. This is enough for the ideographs and kana in the suite, but it does not split on non-ASCII punctuation.
- Text.ToLower: the default sanitiser folds case for ASCII letters only. Full Unicode case mapping is not modelled.
- Text.IsSpace: this is the white-space set of `String.prototype.trim`, without the Unicode-table lookup.
- Strings are sequences of atomic characters. UTF-16 surrogate pairs are not modelled.
- The suite's custom tokeniser is a JavaScript lambda. It is modelled as `LowerAlnumTokenize`, the split on runs outside `[a-z0-9]`. Function parameters stand for the pluggable hooks. No other user hook is modelled.
- Index.SearchUtility.Search: the model sorts every id ascending. The suite pins ascending order only for ids 1 to 6. If the implementation collects ids by iterating a JavaScript object's keys, that order is ascending only for array-index keys (0 to 2^32 − 2). A negative, fractional or larger id would then come out in insertion order. The model assumes array-index ids and does not reproduce that order for other ids.
- The call `indexDocument({})` at line 167 is left out. It passes a non-string argument, and ids are `int` here.
  - Lines 166-171 set `errored` if either `indexDocument({})` or the following `setIndexMode` throws.
  - If `indexDocument({})` throws on its missing text, the assertion at line 172 passes before `setIndexMode` runs. That test alone does not show that `setIndexMode` fails after indexing.
  - `Searches.SetModeAfterIndexing` therefore rests its lock failure on the library's documented behaviour, which this test does not assert on its own: any `indexDocument` call, here the ones in `init()`, locks the mode.
- The tape harness and the Immutable.js document wrappers are left out. Documents are (id, name, description) records.
- The web-worker and messaging layer of the repository is left out. It is concurrency and I/O outside the search utility.
