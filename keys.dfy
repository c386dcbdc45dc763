/** The three index modes and the lookup keys each one derives from a token.
    Indexing registers every key of every token; searching looks a query
    token up as a key, so the set of keys decides which query tokens find
    which indexed tokens. */
module Keys {

  datatype IndexMode = Substrings | Prefixes | ExactWords

  /** `q` sits in `t` at offset `i`, comparing from `q[k]` on. */
  predicate MatchesAt(q: string, t: string, i: nat, k: nat)
    requires i + |q| <= |t| && k <= |q|
    decreases |q| - k
  {
    k == |q| || (t[i + k] == q[k] && MatchesAt(q, t, i, k + 1))
  }

  /** `q` is a prefix of `t`. */
  predicate IsPrefix(q: string, t: string) {
    |q| <= |t| && MatchesAt(q, t, 0, 0)
  }

  /** `q` sits in `t` at offset `i` or at a later one. */
  predicate OccursFrom(q: string, t: string, i: nat)
    decreases |t| - i
  {
    i + |q| <= |t| && (MatchesAt(q, t, i, 0) || OccursFrom(q, t, i + 1))
  }

  /** `q` occurs contiguously in `t`. */
  predicate IsSubstring(q: string, t: string) {
    OccursFrom(q, t, 0)
  }

  /** The matching rule of each mode: whether the query token `q` finds the
      indexed token `t`. An empty query token finds nothing. */
  predicate Matches(mode: IndexMode, q: string, t: string) {
    q != [] &&
    match mode
    case Substrings => IsSubstring(q, t)
    case Prefixes => IsPrefix(q, t)
    case ExactWords => q == t
  }

  /** The non-empty prefixes of the token, shortest first. */
  function PrefixKeys(t: string): (r: seq<string>)
    ensures |r| == |t|
  {
    seq(|t|, j requires 0 <= j < |t| => t[..j + 1])
  }

  /** The non-empty substrings of the token: the prefixes of each suffix,
      the suffixes taken longest first. */
  function SubstringKeys(t: string): seq<string> {
    if t == [] then [] else PrefixKeys(t) + SubstringKeys(t[1..])
  }


  lemma {:induction false} MatchesAtSlice(q: string, t: string, i: nat, k: nat)
    requires i + |q| <= |t| && k <= |q|
    ensures MatchesAt(q, t, i, k) <==> t[i + k..i + |q|] == q[k..]
    decreases |q| - k
  {
    if k < |q| {
      MatchesAtSlice(q, t, i, k + 1);
      assert t[i + k..i + |q|] == [t[i + k]] + t[i + k + 1..i + |q|];
      assert q[k..] == [q[k]] + q[k + 1..];
      if t[i + k..i + |q|] == q[k..] {
        assert t[i + k] == t[i + k..i + |q|][0];
      }
    }
  }

  /** `IsPrefix` says what its name says. */
  lemma IsPrefixSlice(q: string, t: string)
    ensures IsPrefix(q, t) <==> |q| <= |t| && t[..|q|] == q
  {
    if |q| <= |t| {
      MatchesAtSlice(q, t, 0, 0);
    }
  }

  lemma {:induction false} OccursFromShift(q: string, t: string, i: nat)
    requires t != []
    ensures OccursFrom(q, t, i + 1) <==> OccursFrom(q, t[1..], i)
    decreases |t| - i
  {
    if i + 1 + |q| <= |t| {
      OccursFromShift(q, t, i + 1);
      MatchesAtSlice(q, t, i + 1, 0);
      MatchesAtSlice(q, t[1..], i, 0);
      assert t[i + 1..i + 1 + |q|] == t[1..][i..i + |q|];
    }
  }

  /** A substring of `t` is a prefix of `t` or a substring of its tail. */
  lemma IsSubstringUnfold(q: string, t: string)
    ensures IsSubstring(q, t) <==> IsPrefix(q, t) || (t != [] && IsSubstring(q, t[1..]))
  {
    if t != [] {
      OccursFromShift(q, t, 0);
    }
  }

  /** `q` is the slice of `t` that starts at offset `j`. */
  predicate SliceAt(q: string, t: string, j: nat) {
    j + |q| <= |t| && t[j..j + |q|] == q
  }

  lemma {:induction false} OccursFromSlice(q: string, t: string, i: nat)
    ensures OccursFrom(q, t, i) <==> exists j: nat :: i <= j && SliceAt(q, t, j)
    decreases |t| - i
  {
    if i + |q| <= |t| {
      OccursFromSlice(q, t, i + 1);
      MatchesAtSlice(q, t, i, 0);
      assert q[0..] == q;
      if MatchesAt(q, t, i, 0) {
        assert SliceAt(q, t, i);
      }
      if exists j: nat :: i <= j && SliceAt(q, t, j) {
        var j: nat :| i <= j && SliceAt(q, t, j);
        if j > i {
          assert i + 1 <= j;
        }
      }
    }
  }

  /** `IsSubstring` says what its name says: `q` is the slice of `t` at some offset. */
  lemma IsSubstringSlice(q: string, t: string)
    ensures IsSubstring(q, t) <==> exists j: nat :: SliceAt(q, t, j)
  {
    OccursFromSlice(q, t, 0);
  }

  /** The prefix keys of a token are exactly the non-empty prefixes of it. */
  lemma PrefixKeysMatch(q: string, t: string)
    ensures q in PrefixKeys(t) <==> q != [] && IsPrefix(q, t)
  {
    IsPrefixSlice(q, t);
    if q != [] && IsPrefix(q, t) {
      assert PrefixKeys(t)[|q| - 1] == q;
    }
  }

  /** The substring keys of a token are exactly the non-empty substrings of it. */
  lemma {:induction false} SubstringKeysMatch(q: string, t: string)
    ensures q in SubstringKeys(t) <==> q != [] && IsSubstring(q, t)
  {
    IsSubstringUnfold(q, t);
    if t != [] {
      PrefixKeysMatch(q, t);
      SubstringKeysMatch(q, t[1..]);
      assert q in SubstringKeys(t) <==> q in PrefixKeys(t) || q in SubstringKeys(t[1..]);
    }
  }

  /** The lookup keys the active mode registers for one token. A query token
      finds the token by direct key lookup exactly when the mode's matching
      rule holds: key derivation is sound and complete. */
  function ExpandToken(mode: IndexMode, t: string): (r: seq<string>)
    ensures forall q :: q in r <==> Matches(mode, q, t)
  {
    match mode
    case Substrings =>
      assert forall q :: q in SubstringKeys(t) <==> Matches(mode, q, t) by {
        forall q ensures q in SubstringKeys(t) <==> Matches(mode, q, t) {
          SubstringKeysMatch(q, t);
        }
      }
      SubstringKeys(t)
    case Prefixes =>
      assert forall q :: q in PrefixKeys(t) <==> Matches(mode, q, t) by {
        forall q ensures q in PrefixKeys(t) <==> Matches(mode, q, t) {
          PrefixKeysMatch(q, t);
        }
      }
      PrefixKeys(t)
    case ExactWords => if t == [] then [] else [t]
  }

  lemma IsPrefixReflexive(t: string)
    ensures IsPrefix(t, t)
  {
    IsPrefixSlice(t, t);
  }

  /** The modes are nested: an exact word is a prefix, and a prefix is a substring. */
  lemma ModesNested(q: string, t: string)
    ensures Matches(ExactWords, q, t) ==> Matches(Prefixes, q, t)
    ensures Matches(Prefixes, q, t) ==> Matches(Substrings, q, t)
  {
    IsPrefixReflexive(t);
  }

  /** A token of length n yields n (n + 1) / 2 substring keys, counted with
      repetition: the quadratic cost of the default mode. */
  lemma {:induction false} SubstringKeysCount(t: string)
    ensures |SubstringKeys(t)| == |t| * (|t| + 1) / 2
  {
    if t != [] {
      SubstringKeysCount(t[1..]);
    }
  }
}
