/** Searching for a word in a text. */
module TextSearch {
  predicate StartsAt(text: seq<char>, i: nat, word: seq<char>) {
    i <= |text| && word <= text[i..]
  }

  datatype Content = Missing | Content(text: seq<char>)

  /** Everything behind the first occurrence of a word. */
  function Behind(word: seq<char>, s: seq<char>): Content {
    if word <= s then Content(s[|word|..])
    else if s == [] then Missing
    else Behind(word, s[1..])
  }

  /** Everything before the first occurrence of a word, or the whole text. */
  function Before(word: seq<char>, s: seq<char>): seq<char> {
    if word <= s || s == [] then [] else [s[0]] + Before(word, s[1..])
  }

  /** A search moves over text in which the word does not start. */
  lemma {:induction false} BehindPast(word: seq<char>, skip: seq<char>, rest: seq<char>)
    requires word != [] && forall i :: 0 <= i < |skip| ==> !StartsAt(skip + rest, i, word)
    ensures Behind(word, skip + rest) == Behind(word, rest)
    decreases |skip|
  {
    if skip == [] {
      assert skip + rest == rest;
    } else {
      var s := skip + rest;
      assert s[0..] == s && !StartsAt(s, 0, word);
      assert s[1..] == skip[1..] + rest;
      forall i | 0 <= i < |skip| - 1 ensures !StartsAt(skip[1..] + rest, i, word) {
        assert !StartsAt(s, i + 1, word);
        assert s[1..][i..] == s[i + 1..];
      }
      BehindPast(word, skip[1..], rest);
    }
  }

  lemma {:induction false} BehindMissing(word: seq<char>, s: seq<char>)
    requires word != [] && forall i :: 0 <= i < |s| ==> !StartsAt(s, i, word)
    ensures Behind(word, s) == Missing
  {
    assert s + [] == s;
    BehindPast(word, s, []);
  }

  /** The first occurrence at or behind `start`, or the length of the text. */
  method Find(text: seq<char>, word: seq<char>, start: nat) returns (pos: nat)
    requires start <= |text| && word != []
    ensures start <= pos <= |text| && (pos < |text| ==> StartsAt(text, pos, word))
    ensures forall i :: start <= i < pos ==> !StartsAt(text, i, word)
  {
    pos := start;
    while pos < |text| && !(word <= text[pos..])
      invariant start <= pos <= |text|
      invariant forall i :: start <= i < pos ==> !StartsAt(text, i, word)
    {
      pos := pos + 1;
    }
  }

  /** The same for a single character. */
  method FindChar(text: seq<char>, c: char, start: nat) returns (pos: nat)
    requires start <= |text|
    ensures start <= pos <= |text| && c !in text[start..pos] && (pos < |text| ==> text[pos] == c)
  {
    pos := Find(text, [c], start);
    forall i | start <= i < pos ensures text[i] != c {
      assert !StartsAt(text, i, [c]) && text[i..][0] == text[i];
    }
  }
}
