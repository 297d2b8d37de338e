/**
 Counting tokens along a sequence: the bookkeeping behind every conservation
 law. `tok` says which token, if any, one element carries.
 */
module Tokens {
  import opened Wrappers

  /** One if `t` is the token `key`, else zero. */
  function One<K(==)>(t: Option<K>, key: K): nat {
    if t == Some(key) then 1 else 0
  }

  /** How many elements of `s` carry the token `key`. */
  ghost function Count<T, K>(tok: T -> Option<K>, s: seq<T>, key: K): nat {
    if s == [] then 0 else One(tok(s[0]), key) + Count(tok, s[1..], key)
  }

  /** Appending one element adds its token. */
  lemma {:induction false} CountAppend<T, K>(tok: T -> Option<K>, s: seq<T>, x: T, key: K)
    ensures Count(tok, s + [x], key) == Count(tok, s, key) + One(tok(x), key)
  {
    if s == [] {
      assert s + [x] == [x];
    } else {
      assert (s + [x])[1..] == s[1..] + [x];
      CountAppend(tok, s[1..], x, key);
    }
  }

  /** A member's token is counted. */
  lemma {:induction false} CountMember<T, K>(tok: T -> Option<K>, s: seq<T>, x: T, key: K)
    requires x in s && tok(x) == Some(key)
    ensures Count(tok, s, key) >= 1
  {
    if s[0] != x {
      CountMember(tok, s[1..], x, key);
    }
  }

  /** A counted token has a member carrying it. */
  lemma {:induction false} CountedMember<T, K>(tok: T -> Option<K>, s: seq<T>, key: K) returns (x: T)
    requires Count(tok, s, key) >= 1
    ensures x in s && tok(x) == Some(key)
  {
    if tok(s[0]) == Some(key) {
      x := s[0];
    } else {
      x := CountedMember(tok, s[1..], key);
    }
  }

  /** All the tokens of `s`, with multiplicity. */
  ghost function Tally<T, K>(tok: T -> Option<K>, s: seq<T>): multiset<K> {
    if s == [] then multiset{}
    else if tok(s[0]).Some? then multiset{tok(s[0]).value} + Tally(tok, s[1..])
    else Tally(tok, s[1..])
  }

  lemma {:induction false} TallyCounts<T, K>(tok: T -> Option<K>, s: seq<T>, key: K)
    ensures Tally(tok, s)[key] == Count(tok, s, key)
  {
    if s != [] {
      TallyCounts(tok, s[1..], key);
    }
  }
}
