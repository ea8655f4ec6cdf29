/** The prefix test shared by the URL helpers.

    Rust's `str::starts_with` compares UTF-8 bytes; because UTF-8 encodes
    every character with a prefix-free byte string, comparing the sequences
    of characters gives the same answer, so strings are `seq<char>` here.
 */
module Strings {

  /** `starts_with` written the way it is executed: compare the first
      characters, then the rest. */
  predicate StartsWith(s: string, prefix: string)
    decreases prefix
  {
    if prefix == [] then true
    else if s == [] then false
    else s[0] == prefix[0] && StartsWith(s[1..], prefix[1..])
  }

  /** The character-by-character test is exactly Dafny's prefix relation. */
  lemma {:induction false} StartsWithIsPrefix(s: string, prefix: string)
    ensures StartsWith(s, prefix) <==> prefix <= s
    decreases prefix
  {
    if prefix != [] && s != [] {
      StartsWithIsPrefix(s[1..], prefix[1..]);
      if s[0] == prefix[0] {
        assert prefix <= s <==> prefix[1..] <= s[1..];
      }
    }
  }

  /** A string starts with any prefix of itself followed by anything. */
  lemma StartsWithConcat(p: string, rest: string)
    ensures StartsWith(p + rest, p)
  {
    StartsWithIsPrefix(p + rest, p);
  }
}
