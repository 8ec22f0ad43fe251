/** The sampler: the password is `length` characters, each picked from the
    alphabet by one draw of the random source. */
module Sampler {

  /** Every draw indexes into the alphabet, as `random.choice` promises. */
  predicate ValidDraws(alphabet: string, draws: seq<nat>) {
    forall k :: 0 <= k < |draws| ==> draws[k] < |alphabet|
  }

  /** The password a sequence of draws selects. */
  function Sample(alphabet: string, draws: seq<nat>): (password: string)
    requires ValidDraws(alphabet, draws)
    ensures |password| == |draws|
    ensures forall k :: 0 <= k < |password| ==> password[k] in alphabet
  {
    seq(|draws|, k requires 0 <= k < |draws| => alphabet[draws[k]])
  }

  /** The join over `length` calls of `random.choice`, one character at a
      time. */
  method SamplePassword(alphabet: string, length: nat, draws: seq<nat>)
    returns (password: string)
    requires |draws| == length
    requires ValidDraws(alphabet, draws)
    ensures |password| == length
    ensures forall k :: 0 <= k < length ==> password[k] == alphabet[draws[k]]
    ensures password == Sample(alphabet, draws)
  {
    password := "";
    var n := 0;
    while n < length
      invariant n <= length
      invariant |password| == n
      invariant forall k :: 0 <= k < n ==> password[k] == alphabet[draws[k]]
    {
      password := password + [alphabet[draws[n]]];
      n := n + 1;
    }
  }

  /** Position of the first occurrence of `c` in `s`. */
  function IndexOf(s: string, c: char): (i: nat)
    requires c in s
    ensures i < |s| && s[i] == c
    ensures forall j :: 0 <= j < i ==> s[j] != c
  {
    if s[0] == c then 0 else 1 + IndexOf(s[1..], c)
  }

  /** The sampler can produce every string over the alphabet: the draws
      restrict nothing beyond length and membership. */
  lemma EveryStringIsReachable(alphabet: string, target: string)
    requires forall k :: 0 <= k < |target| ==> target[k] in alphabet
    ensures exists draws :: ValidDraws(alphabet, draws) && Sample(alphabet, draws) == target
  {
    var draws := seq(|target|, k requires 0 <= k < |target| => IndexOf(alphabet, target[k]));
    assert ValidDraws(alphabet, draws);
    assert Sample(alphabet, draws) == target;
  }

  /** Five draws from "abc" give a five-character string over a, b and c. */
  lemma ScenarioAbc(draws: seq<nat>)
    requires |draws| == 5 && ValidDraws("abc", draws)
    ensures var p := Sample("abc", draws);
            |p| == 5 && forall k :: 0 <= k < 5 ==> p[k] == 'a' || p[k] == 'b' || p[k] == 'c'
  {
  }
}
