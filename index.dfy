/** The search utility: an in-memory index from lookup keys to sets of
    document ids, filled by `IndexDocument` and read by `Search`, together
    with the one-way lock that freezes the index mode once indexing starts. */
module Index {
  import opened Text
  import opened Keys

  datatype Option<T> = None | Some(value: T) {
    function GetOr(default: T): T {
      match this
      case Some(v) => v
      case None => default
    }
  }

  /** The constructor's options; a missing one takes its default. */
  datatype Options = Options(
    indexMode: Option<IndexMode>,
    tokenize: Option<string -> seq<string>>,
    sanitize: Option<string -> string>)

  const NoOptions := Options(None, None, None)

  datatype Error = ModeLocked

  datatype Outcome = Pass | Fail(error: Error)

  /** The ids registered under a key; a key never registered has none. */
  function Lookup(index: map<string, set<int>>, key: string): set<int> {
    if key in index then index[key] else {}
  }

  /** The (id, token) pairs that indexing `tokens` for `id` contributes. */
  function Postings(id: int, tokens: seq<string>): set<(int, string)> {
    set t | t in tokens :: (id, t)
  }

  /** The ids of the postings whose token the key finds under the mode. */
  ghost function Holders(postings: set<(int, string)>, mode: IndexMode, key: string): set<int> {
    set p | p in postings && Matches(mode, key, p.1) :: p.0
  }

  /** Some token indexed for `id` is found by the query token `q`. */
  ghost predicate Found(mode: IndexMode, postings: set<(int, string)>, id: int, q: string) {
    exists t :: (id, t) in postings && Matches(mode, q, t)
  }

  /** What a search must return, as a set: with no query tokens every id ever
      indexed; otherwise the ids for which every query token finds some
      token indexed for that id, possibly from different calls. */
  ghost function MatchingIds(mode: IndexMode, uids: set<int>, postings: set<(int, string)>,
                             qs: seq<string>): set<int>
  {
    set id | id in uids && forall k | 0 <= k < |qs| :: Found(mode, postings, id, qs[k])
  }

  lemma HoldersFound(postings: set<(int, string)>, mode: IndexMode, key: string, id: int)
    ensures id in Holders(postings, mode, key) <==> Found(mode, postings, id, key)
  {
    if Found(mode, postings, id, key) {
      var t :| (id, t) in postings && Matches(mode, key, t);
      assert (id, t).0 == id;
    }
  }

  /** Adding one posting adds its id to exactly the keys that find its token. */
  lemma HoldersAdd(postings: set<(int, string)>, mode: IndexMode, id: int, t: string, key: string)
    ensures Holders(postings + {(id, t)}, mode, key)
         == Holders(postings, mode, key) + (if Matches(mode, key, t) then {id} else {})
  {
    var lhs := Holders(postings + {(id, t)}, mode, key);
    var rhs := Holders(postings, mode, key) + (if Matches(mode, key, t) then {id} else {});
    forall x | x in lhs ensures x in rhs {
      var p :| p in postings + {(id, t)} && Matches(mode, key, p.1) && p.0 == x;
    }
    forall x | x in rhs ensures x in lhs {
      if x in Holders(postings, mode, key) {
        var p :| p in postings && Matches(mode, key, p.1) && p.0 == x;
        assert p in postings + {(id, t)};
      } else {
        assert (id, t) in postings + {(id, t)};
      }
    }
  }

  /** Indexing only adds: more ids and more postings never lose a match. */
  lemma {:induction false} MatchingGrows(mode: IndexMode, uids: set<int>, postings: set<(int, string)>,
                                         uids': set<int>, postings': set<(int, string)>, qs: seq<string>)
    requires uids <= uids' && postings <= postings'
    ensures MatchingIds(mode, uids, postings, qs) <= MatchingIds(mode, uids', postings', qs)
  {
    forall id | id in MatchingIds(mode, uids, postings, qs)
      ensures id in MatchingIds(mode, uids', postings', qs)
    {
      forall k | 0 <= k < |qs| ensures Found(mode, postings', id, qs[k]) {
        assert Found(mode, postings, id, qs[k]);
        var t :| (id, t) in postings && Matches(mode, qs[k], t);
        assert (id, t) in postings';
      }
    }
  }

  /** The search computed token by token, as the index lookups do it: the
      holders of the first token, intersected with those of every later one. */
  ghost function Intersected(mode: IndexMode, uids: set<int>, postings: set<(int, string)>,
                             qs: seq<string>): set<int>
  {
    if qs == [] then uids
    else Holders(postings, mode, qs[0]) * Intersected(mode, uids, postings, qs[1..])
  }

  /** When every posting belongs to a known id, intersecting the per-token
      holders gives exactly the matching ids. */
  lemma {:induction false} MatchingIdsIntersected(mode: IndexMode, uids: set<int>,
                                                  postings: set<(int, string)>, qs: seq<string>)
    requires forall p | p in postings :: p.0 in uids
    ensures MatchingIds(mode, uids, postings, qs) == Intersected(mode, uids, postings, qs)
  {
    if qs != [] {
      MatchingIdsIntersected(mode, uids, postings, qs[1..]);
      forall id ensures id in MatchingIds(mode, uids, postings, qs)
                    <==> id in Intersected(mode, uids, postings, qs)
      {
        HoldersFound(postings, mode, qs[0], id);
        if id in Holders(postings, mode, qs[0]) {
          var p :| p in postings && Matches(mode, qs[0], p.1) && p.0 == id;
        }
        assert (forall k | 0 <= k < |qs| :: Found(mode, postings, id, qs[k]))
           <==> Found(mode, postings, id, qs[0])
                && forall k | 0 <= k < |qs[1..]| :: Found(mode, postings, id, qs[1..][k]);
      }
    }
  }

  /** Registering the keys of one token keeps the index equal to the
      holders of the postings, the new (id, token) pair included. */
  lemma RegisterKeeps(index: map<string, set<int>>, index': map<string, set<int>>,
                      postings: set<(int, string)>, mode: IndexMode, id: int, token: string)
    requires forall key :: Lookup(index, key) == Holders(postings, mode, key)
    requires forall key :: Lookup(index', key)
               == Lookup(index, key) + (if key in ExpandToken(mode, token) then {id} else {})
    ensures forall key :: Lookup(index', key) == Holders(postings + {(id, token)}, mode, key)
  {
    forall key
      ensures Lookup(index', key) == Holders(postings + {(id, token)}, mode, key)
    {
      HoldersAdd(postings, mode, id, token, key);
    }
  }

  lemma PostingsSnoc(id: int, tokens: seq<string>, i: nat)
    requires i < |tokens|
    ensures Postings(id, tokens[..i + 1]) == Postings(id, tokens[..i]) + {(id, tokens[i])}
  {
    assert tokens[..i + 1] == tokens[..i] + [tokens[i]];
  }

  /** Strictly ascending: sorted and free of duplicates. */
  predicate Ascending(s: seq<int>) {
    forall i, j | 0 <= i < j < |s| :: s[i] < s[j]
  }

  lemma AscendingTail(s: seq<int>)
    requires Ascending(s) && s != []
    ensures Ascending(s[1..])
    ensures forall y | y in s[1..] :: s[0] < y
  {
    forall y | y in s[1..] ensures s[0] < y {
      var k :| 0 <= k < |s[1..]| && s[1..][k] == y;
      assert s[k + 1] == y;
    }
  }

  lemma ConsAscending(x: int, t: seq<int>)
    requires Ascending(t) && forall y | y in t :: x < y
    ensures Ascending([x] + t)
  {
    forall i, j | 0 <= i < j < |[x] + t| ensures ([x] + t)[i] < ([x] + t)[j] {
      assert ([x] + t)[j] == t[j - 1];
      if i == 0 {
        assert t[j - 1] in t;
      } else {
        assert ([x] + t)[i] == t[i - 1];
      }
    }
  }

  /** Places `x` in an ascending sequence, unless it is there already. */
  function Insert(s: seq<int>, x: int): (r: seq<int>)
    requires Ascending(s)
    ensures Ascending(r)
    ensures forall y :: y in r <==> y in s || y == x
  {
    if s == [] then [x]
    else if x < s[0] then [x] + s
    else if x == s[0] then s
    else
      AscendingTail(s);
      var t := Insert(s[1..], x);
      ConsAscending(s[0], t);
      [s[0]] + t
  }

  lemma NonEmptyHasElement(s: set<int>)
    requires s != {}
    ensures exists x :: x in s
  {
    if forall x :: x !in s {
      assert false;
    }
  }

  /** The ids of a set in ascending order: the reference the search result
      is specified by. */
  ghost function SortedIds(s: set<int>): (r: seq<int>)
    ensures Ascending(r)
    ensures forall x :: x in r <==> x in s
    decreases |s|
  {
    if s == {} then []
    else
      NonEmptyHasElement(s);
      var x :| x in s;
      Insert(SortedIds(s - {x}), x)
  }

  /** The elements of a set of ids in ascending order. */
  method SortAscending(s: set<int>) returns (r: seq<int>)
    ensures Ascending(r)
    ensures forall x :: x in r <==> x in s
  {
    r := [];
    var rest := s;
    while rest != {}
      invariant rest <= s
      invariant Ascending(r)
      invariant forall x :: x in r <==> x in s && x !in rest
      decreases |rest|
    {
      NonEmptyHasElement(rest);
      var next :| next in rest;
      r := Insert(r, next);
      rest := rest - {next};
    }
  }

  lemma SameElementsEmpty(a: seq<int>, b: seq<int>)
    requires forall x :: x in a <==> x in b
    ensures a == [] <==> b == []
  {
    if a != [] {
      var x := a[0];
      assert x in a;
      assert x in a <==> x in b;
    }
    if b != [] {
      var x := b[0];
      assert x in b;
      assert x in a <==> x in b;
    }
  }

  /** An ascending sequence is determined by its elements, so the search
      result is determined by the set of matching ids. */
  lemma {:induction false} AscendingUnique(a: seq<int>, b: seq<int>)
    requires Ascending(a) && Ascending(b)
    requires forall x :: x in a <==> x in b
    ensures a == b
  {
    if a != [] && b != [] {
      AscendingTail(a);
      AscendingTail(b);
      assert a == [a[0]] + a[1..];
      assert b == [b[0]] + b[1..];
      assert a[0] in b && b[0] in a;
      assert a[0] == b[0];
      forall x ensures x in a[1..] <==> x in b[1..] {
        assert x in a <==> x == a[0] || x in a[1..];
        assert x in b <==> x == b[0] || x in b[1..];
      }
      AscendingUnique(a[1..], b[1..]);
    } else {
      SameElementsEmpty(a, b);
    }
  }

  /** The search utility: its mode, its text pipeline, the index and the
      ids it has seen. `postings` records, for the proofs only, every
      (id, token) pair indexed so far. */
  class SearchUtility {
    var indexMode: IndexMode
    const tokenize: string -> seq<string>
    const sanitize: string -> string
    /** Lookup key to the ids registered under it. */
    var index: map<string, set<int>>
    /** Every id ever passed to `IndexDocument`. */
    var uids: set<int>
    /** Set by the first `IndexDocument`; from then on the mode is fixed. */
    var locked: bool
    /** Every (id, token) pair indexed so far. */
    ghost var postings: set<(int, string)>

    ghost predicate Valid()
      reads this
    {
      (forall p | p in postings :: p.0 in uids) &&
      (locked <==> uids != {}) &&
      (forall key :: Lookup(index, key) == Holders(postings, indexMode, key))
    }

    /** The text pipeline, run alike on indexed text and on queries. */
    function Tokens(text: string): seq<string> {
      tokenize(sanitize(text))
    }

    /** The ids a search for `query` returns, as a set. */
    ghost function Matching(query: string): set<int>
      reads this
    {
      MatchingIds(indexMode, uids, postings, Tokens(query))
    }

    constructor (options: Options)
      ensures Valid()
      ensures indexMode == options.indexMode.GetOr(Substrings)
      ensures tokenize == options.tokenize.GetOr(DefaultTokenize)
      ensures sanitize == options.sanitize.GetOr(DefaultSanitize)
      ensures !locked && uids == {} && postings == {}
    {
      indexMode := options.indexMode.GetOr(Substrings);
      tokenize := options.tokenize.GetOr(DefaultTokenize);
      sanitize := options.sanitize.GetOr(DefaultSanitize);
      index := map[];
      uids := {};
      locked := false;
      postings := {};
    }

    /** The mode in force: the constructor's, or the last one `SetIndexMode` accepted. */
    function GetIndexMode(): (mode: IndexMode)
      reads this
      ensures mode == indexMode
    {
      indexMode
    }

    /** Changes the mode while nothing has been indexed; fails afterwards. */
    method SetIndexMode(mode: IndexMode) returns (outcome: Outcome)
      requires Valid()
      modifies this`indexMode
      ensures Valid()
      ensures outcome == if locked then Fail(ModeLocked) else Pass
      ensures indexMode == if locked then old(indexMode) else mode
    {
      if locked {
        outcome := Fail(ModeLocked);
      } else {
        indexMode := mode;
        outcome := Pass;
      }
    }

    /** Adds `id` to the id set of every key in `keys`. */
    method Register(id: int, keys: seq<string>)
      modifies this`index
      ensures forall key :: Lookup(index, key)
                == Lookup(old(index), key) + (if key in keys then {id} else {})
    {
      var j := 0;
      while j < |keys|
        invariant 0 <= j <= |keys|
        invariant forall key :: Lookup(index, key)
                    == Lookup(old(index), key) + (if key in keys[..j] then {id} else {})
      {
        assert keys[..j + 1] == keys[..j] + [keys[j]];
        index := index[keys[j] := Lookup(index, keys[j]) + {id}];
        j := j + 1;
      }
      assert keys[..j] == keys;
    }

    /** Registers the keys of every token of `text` under `id`, and locks the mode. */
    method IndexDocument(id: int, text: string)
      requires Valid()
      modifies this
      ensures Valid()
      ensures locked && indexMode == old(indexMode)
      ensures uids == old(uids) + {id}
      ensures postings == old(postings) + Postings(id, Tokens(text))
    {
      locked := true;
      uids := uids + {id};
      var tokens := tokenize(sanitize(text));
      var i := 0;
      while i < |tokens|
        invariant 0 <= i <= |tokens|
        invariant locked && uids == old(uids) + {id} && indexMode == old(indexMode)
        invariant postings == old(postings) + Postings(id, tokens[..i])
        invariant forall p | p in postings :: p.0 in uids
        invariant forall key :: Lookup(index, key) == Holders(postings, indexMode, key)
      {
        var token := tokens[i];
        ghost var before := index;
        Register(id, ExpandToken(indexMode, token));
        RegisterKeeps(before, index, postings, indexMode, id, token);
        PostingsSnoc(id, tokens, i);
        postings := postings + {(id, token)};
        i := i + 1;
      }
      assert tokens[..i] == tokens;
    }

    /** The ids whose indexed text matches every token of the query, ascending. */
    method Search(query: string) returns (ids: seq<int>)
      requires Valid()
      ensures ids == SortedIds(Matching(query))
    {
      var tokens := tokenize(sanitize(query));
      var found: set<int>;
      if |tokens| == 0 {
        found := uids;
      } else {
        found := Lookup(index, tokens[0]);
        forall id ensures id in found <==> id in uids && Found(indexMode, postings, id, tokens[0]) {
          HoldersFound(postings, indexMode, tokens[0], id);
        }
        var i := 1;
        while i < |tokens|
          invariant 1 <= i <= |tokens|
          invariant forall id :: id in found <==>
                      id in uids && forall k | 0 <= k < i :: Found(indexMode, postings, id, tokens[k])
        {
          forall id ensures id in Lookup(index, tokens[i]) <==> Found(indexMode, postings, id, tokens[i]) {
            HoldersFound(postings, indexMode, tokens[i], id);
          }
          found := found * Lookup(index, tokens[i]);
          i := i + 1;
        }
      }
      ids := SortAscending(found);
      AscendingUnique(ids, SortedIds(Matching(query)));
    }
  }
}
