/** The string operations the search boxes use: `toLowerCase` and `includes`. */
module Text {

  /** Lower-cases one character; only the ASCII letters A-Z are mapped. */
  function LowerChar(c: char): char
  {
    if 'A' <= c <= 'Z' then (c as int + 32) as char else c
  }

  /** `toLowerCase` restricted to ASCII: each of A-Z becomes its lower-case letter, every other character stays. */
  function Lower(s: string): (r: string)
    ensures |r| == |s|
    ensures forall i :: 0 <= i < |s| && 'A' <= s[i] <= 'Z' ==> r[i] as int == s[i] as int + 32
    ensures forall i :: 0 <= i < |s| && !('A' <= s[i] <= 'Z') ==> r[i] == s[i]
  {
    seq(|s|, i requires 0 <= i < |s| => LowerChar(s[i]))
  }

  /** Lower-casing twice is lower-casing once. */
  lemma LowerIdempotent(s: string)
    ensures Lower(Lower(s)) == Lower(s)
  {
  }

  /** `text.includes(part)`: `part` occurs somewhere in `text`. */
  function Contains(text: string, part: string): (r: bool)
    ensures part == "" ==> r
    ensures r ==> |part| <= |text|
    decreases |text|
  {
    part <= text || (|text| > 0 && Contains(text[1..], part))
  }

  /** Contains agrees with the positional definition of a substring. */
  lemma {:induction false} ContainsAt(text: string, part: string)
    ensures Contains(text, part) <==> exists i :: 0 <= i <= |text| && part <= text[i..]
    decreases |text|
  {
    if part <= text {
      assert text[0..] == text;
    } else if |text| > 0 {
      ContainsAt(text[1..], part);
      if Contains(text[1..], part) {
        var i :| 0 <= i <= |text| - 1 && part <= text[1..][i..];
        assert text[1..][i..] == text[i + 1..];
      }
      if i :| 0 <= i <= |text| && part <= text[i..] {
        assert i != 0;
        assert text[i..] == text[1..][i - 1..];
      }
    }
  }

  /** `text.toLowerCase().includes(query.toLowerCase())`. */
  function Matches(text: string, query: string): (r: bool)
    ensures r <==> exists i :: 0 <= i <= |text| && Lower(query) <= Lower(text)[i..]
    ensures query == "" ==> r
  {
    ContainsAt(Lower(text), Lower(query));
    Contains(Lower(text), Lower(query))
  }

  /** The empty query matches every text, since every string includes "". */
  lemma EmptyQueryMatches(text: string)
    ensures Matches(text, "")
  {
  }

  /** Matching ignores the case of the query: lower-casing it first changes nothing. */
  lemma MatchesIgnoresQueryCase(text: string, query: string)
    ensures Matches(text, Lower(query)) == Matches(text, query)
  {
    LowerIdempotent(query);
  }
}
