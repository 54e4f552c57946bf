/** Case-insensitive substring matching, as used by the client search
    (`name.lower() in c.name.lower()`). */
module Text {

  /** Upper-case letters this model knows how to lower: ASCII A-Z and the
      basic Cyrillic capitals U+0400..U+042F. */
  predicate IsUpper(ch: char)
  {
    ('A' <= ch <= 'Z') || ('Ѐ' <= ch <= 'Я')
  }

  /** Lower-cases one character, as Python's `str.lower` does for the
      letters covered by IsUpper; every other character is left alone. */
  function ToLower(ch: char): (r: char)
    ensures !IsUpper(r)
    ensures !IsUpper(ch) ==> r == ch
  {
    if 'A' <= ch <= 'Z' then (ch as int + 32) as char
    else if 'А' <= ch <= 'Я' then (ch as int + 32) as char
    else if 'Ѐ' <= ch <= 'Џ' then (ch as int + 80) as char
    else ch
  }

  /** Lower-cases a string character by character. */
  function Lower(s: string): (r: string)
    ensures |r| == |s|
    ensures forall i :: 0 <= i < |s| ==> r[i] == ToLower(s[i])
  {
    if s == [] then [] else [ToLower(s[0])] + Lower(s[1..])
  }

  /** Lower-casing twice is lower-casing once. */
  lemma LowerIdempotent(s: string)
    ensures Lower(Lower(s)) == Lower(s)
  {
    var l := Lower(s);
    assert forall i :: 0 <= i < |l| ==> Lower(l)[i] == l[i];
  }

  /** `q` occurs in `s` starting at position `k`. */
  predicate OccursAt(q: string, s: string, k: int)
  {
    0 <= k <= |s| - |q| && s[k..k + |q|] == q
  }

  /** Reference definition: `q` occurs in `s` at some position. */
  ghost predicate IsSubstring(q: string, s: string)
  {
    exists k :: OccursAt(q, s, k)
  }

  /** Python's `q in s` for strings: a left-to-right search for `q` in `s`.
      The empty string is found everywhere, and nothing longer than `s`
      is found in it. */
  predicate Search(q: string, s: string)
    ensures q == [] ==> Search(q, s)
    ensures Search(q, s) ==> |q| <= |s|
    decreases |s|
  {
    if |q| > |s| then false
    else s[..|q|] == q || (s != [] && Search(q, s[1..]))
  }

  /** An occurrence of `q` at position `k` is found by the search. */
  lemma {:induction false} OccurrenceFound(q: string, s: string, k: int)
    requires OccursAt(q, s, k)
    ensures Search(q, s)
    decreases k
  {
    if k > 0 {
      assert s[1..][k - 1..k - 1 + |q|] == s[k..k + |q|];
      OccurrenceFound(q, s[1..], k - 1);
    }
  }

  /** What the search finds is an occurrence of `q` in `s`. */
  lemma {:induction false} FoundOccurrence(q: string, s: string)
    requires Search(q, s)
    ensures IsSubstring(q, s)
    decreases |s|
  {
    if s[..|q|] == q {
      assert OccursAt(q, s, 0);
    } else {
      FoundOccurrence(q, s[1..]);
      var k :| OccursAt(q, s[1..], k);
      assert s[k + 1..k + 1 + |q|] == s[1..][k..k + |q|];
      assert OccursAt(q, s, k + 1);
    }
  }

  /** The search finds `q` exactly when `q` occurs somewhere in `s`. */
  lemma SearchIsSubstring(q: string, s: string)
    ensures Search(q, s) <==> IsSubstring(q, s)
  {
    if Search(q, s) {
      FoundOccurrence(q, s);
    }
    if IsSubstring(q, s) {
      var k :| OccursAt(q, s, k);
      OccurrenceFound(q, s, k);
    }
  }

  /** A client name matches a search query when the lower-cased query
      occurs somewhere in the lower-cased name. */
  predicate Matches(query: string, name: string)
    ensures Matches(query, name) <==> IsSubstring(Lower(query), Lower(name))
  {
    SearchIsSubstring(Lower(query), Lower(name));
    Search(Lower(query), Lower(name))
  }

  /** Matching ignores case on both sides, and the empty query matches
      every name. */
  lemma MatchesIgnoresCase(query: string, name: string)
    ensures Matches(Lower(query), name) == Matches(query, name)
    ensures Matches(query, Lower(name)) == Matches(query, name)
    ensures Matches("", name)
  {
    LowerIdempotent(query);
    LowerIdempotent(name);
    assert Lower(name)[..0] == "";
  }

  /** "ann" is found in "Anna" and in "Hannah", and not in "Ivan". */
  lemma MatchesExamples()
    ensures Matches("ann", "Anna")
    ensures Matches("ann", "Hannah")
    ensures !Matches("ann", "Ivan")
  {
    assert Lower("ann") == "ann";
    assert Lower("Anna") == "anna";
    assert Lower("Hannah") == "hannah";
    assert Lower("Ivan") == "ivan";
    assert "hannah"[1..][..3] == "ann";
  }
}
