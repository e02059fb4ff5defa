/** The backslash escape of parsers.cc: escaping inserts one escape character after
    the first character of every occurrence of a token, counting forms that are
    escaped already; unescaping removes one. */
module Escape {
  import opened TextSearch

  type Text = seq<char>

  const ESCAPE_CHAR: char := '\\'

  // --- Occurrences ------------------------------------------------------------------

  function StripEscapes(s: Text): Text {
    if s != [] && s[0] == ESCAPE_CHAR then StripEscapes(s[1..]) else s
  }

  function EscapeRun(s: Text): (n: nat)
    ensures n <= |s| && StripEscapes(s) == s[n..]
    ensures forall i :: 0 <= i < n ==> s[i] == ESCAPE_CHAR
    ensures n < |s| ==> s[n] != ESCAPE_CHAR
  {
    if s != [] && s[0] == ESCAPE_CHAR then 1 + EscapeRun(s[1..]) else 0
  }

  /** The text starts with the token, possibly escaped any number of times. */
  predicate StartsToken(token: Text, s: Text)
    requires token != []
  {
    s != [] && s[0] == token[0] && token[1..] <= StripEscapes(s[1..])
  }

  /** A token the escape is meant for. */
  predicate Plain(token: Text) {
    |token| >= 2 && ESCAPE_CHAR !in token
  }

  /** No proper prefix of the token is also a suffix of it: two occurrences cannot
      overlap. */
  ghost predicate Unbordered(token: Text) {
    forall k :: 0 < k < |token| ==> token[k..] != token[..|token| - k]
  }

  // --- What escaping and unescaping mean ------------------------------------------------

  /** Position by position: an escape character after every occurrence's start. */
  function Escaped(token: Text, s: Text): Text
    requires token != []
  {
    if s == [] then []
    else if StartsToken(token, s) then [s[0], ESCAPE_CHAR] + Escaped(token, s[1..])
    else [s[0]] + Escaped(token, s[1..])
  }

  /** Position by position: one escape character less after every occurrence's start. */
  function Unescaped(token: Text, s: Text): Text
    requires token != []
  {
    if s == [] then []
    else if StartsToken(token, s) && |s| > 1 && s[1] == ESCAPE_CHAR then [s[0]] + Unescaped(token, s[2..])
    else [s[0]] + Unescaped(token, s[1..])
  }

  function EscapedAll(tokens: seq<Text>, s: Text): Text
    requires forall i :: 0 <= i < |tokens| ==> tokens[i] != []
  {
    if tokens == [] then s else EscapedAll(tokens[1..], Escaped(tokens[0], s))
  }

  function UnescapedAll(tokens: seq<Text>, s: Text): Text
    requires forall i :: 0 <= i < |tokens| ==> tokens[i] != []
  {
    if tokens == [] then s else UnescapedAll(tokens[1..], Unescaped(tokens[0], s))
  }

  /** The token occurs, unescaped. */
  ghost predicate HasRaw(token: Text, s: Text) {
    exists i :: 0 <= i <= |s| && token <= s[i..]
  }

  /** The reserved tokens of one text: plain, and no token's first character occurs
      behind the first character of any of them. */
  ghost predicate Reserved(tokens: seq<Text>) {
    && (forall i :: 0 <= i < |tokens| ==> Plain(tokens[i]))
    && (forall i, j :: 0 <= i < |tokens| && 0 <= j < |tokens| ==> tokens[i][0] !in tokens[j][1..])
  }

  // --- How the source scans -------------------------------------------------------------

  /** One position of escape_tag: what it appends and what it has left to scan.  It
      resumes behind the token's length, whatever stands there. */
  function EscapeStep(token: Text, s: Text): (r: (Text, Text))
    requires |token| >= 2 && s != []
    ensures |r.1| < |s|
  {
    if StartsToken(token, s) then
      assert EscapeRun(s[1..]) + |token| <= |s|;
      ([s[0], ESCAPE_CHAR] + s[1..|token|], s[|token|..])
    else ([s[0]], s[1..])
  }

  /** One position of unescape_one_token, which resumes behind the escaped token. */
  function UnescapeStep(token: Text, s: Text): (r: (Text, Text))
    requires |token| >= 2 && s != []
    ensures |r.1| < |s|
  {
    if StartsToken(token, s) then
      var n := EscapeRun(s[1..]);
      assert |s| >= n + |token|;
      ([s[0]] + s[if n > 0 then 2 else 1..n + |token|], s[n + |token|..])
    else ([s[0]], s[1..])
  }

  function EscapeScan(token: Text, s: Text): Text
    requires |token| >= 2
    decreases |s|
  {
    if s == [] then [] else EscapeStep(token, s).0 + EscapeScan(token, EscapeStep(token, s).1)
  }

  function UnescapeScan(token: Text, s: Text): Text
    requires |token| >= 2
    decreases |s|
  {
    if s == [] then [] else UnescapeStep(token, s).0 + UnescapeScan(token, UnescapeStep(token, s).1)
  }

  // --- Escaping several tokens is the same in any order ----------------------------------

  /** Escaping another token does not change what follows an escape run. */
  lemma {:induction false} StripCommutes(token: Text, s: Text)
    requires token != [] && token[0] != ESCAPE_CHAR
    ensures StripEscapes(Escaped(token, s)) == Escaped(token, StripEscapes(s))
  {
    if s != [] && s[0] == ESCAPE_CHAR {
      StripCommutes(token, s[1..]);
      assert Escaped(token, s)[1..] == Escaped(token, s[1..]);
    } else if s != [] {
      assert Escaped(token, s)[0] == s[0];
    }
  }

  /** A word without the token's first character begins the escaped text exactly
      when it begins the text. */
  lemma {:induction false} PrefixKept(token: Text, word: Text, s: Text)
    requires token != [] && token[0] !in word
    ensures word <= Escaped(token, s) <==> word <= s
  {
    if word != [] && s != [] {
      OneStep(token, s);
      if word[0] == s[0] {
        assert Insertion(token, s) == [];
        PrefixKept(token, word[1..], s[1..]);
        PrefixStep(word, s[0], Escaped(token, s[1..]));
        PrefixStep(word, s[0], s[1..]);
        assert s == [s[0]] + s[1..] && Escaped(token, s) == [s[0]] + Escaped(token, s[1..]);
      }
    }
  }

  lemma PrefixStep(word: Text, c: char, rest: Text)
    requires word != [] && word[0] == c
    ensures word <= [c] + rest <==> word[1..] <= rest
  {
    assert word == [c] + word[1..];
    assert ([c] + rest)[1..] == rest;
  }

  /** Escaping one token moves no occurrence of another. */
  lemma TailKept(token: Text, other: Text, s: Text)
    requires token != [] && other != [] && token[0] != ESCAPE_CHAR && token[0] !in other[1..]
    ensures other[1..] <= StripEscapes(Escaped(token, s)) <==> other[1..] <= StripEscapes(s)
  {
    StripCommutes(token, s);
    PrefixKept(token, other[1..], StripEscapes(s));
  }

  /** One step of escaping, for a text that starts with an escape character. */
  lemma EscapedBehindEscape(token: Text, s: Text)
    requires token != [] && token[0] != ESCAPE_CHAR
    ensures Escaped(token, [ESCAPE_CHAR] + s) == [ESCAPE_CHAR] + Escaped(token, s)
  {
    assert ([ESCAPE_CHAR] + s)[1..] == s;
  }

  /** What one token inserts behind the first character. */
  function Insertion(token: Text, s: Text): Text
    requires token != []
  {
    if StartsToken(token, s) then [ESCAPE_CHAR] else []
  }

  /** Inserting an escape character starts and ends no occurrence of another token. */
  lemma StartsKept(a: Text, b: Text, s: Text)
    requires Plain(a) && b != [] && a[0] !in b[1..] && s != []
    ensures StartsToken(b, Escaped(a, s)) == StartsToken(b, s)
  {
    TailKept(a, b, s[1..]);
    var x := Escaped(a, s[1..]);
    assert Escaped(a, s)[1..] == Insertion(a, s) + x;
    assert ([ESCAPE_CHAR] + x)[1..] == x && [] + x == x;
  }

  /** One step of escaping behind an insertion. */
  lemma StepOver(b: Text, c: char, k: Text, x: Text)
    requires Plain(b) && (k == [] || k == [ESCAPE_CHAR])
    ensures Escaped(b, [c] + k + x) == [c] + Insertion(b, [c] + k + x) + k + Escaped(b, x)
  {
    var s := [c] + k + x;
    assert s[1..] == k + x;
    EscapedBehindEscape(b, x);
    assert [] + x == x && [] + Escaped(b, x) == Escaped(b, x);
    assert Escaped(b, k + x) == k + Escaped(b, x);
  }

  lemma TwoStep(a: Text, b: Text, s: Text)
    requires Plain(a) && Plain(b) && a[0] !in b[1..] && s != []
    ensures Escaped(b, Escaped(a, s)) == [s[0]] + Insertion(b, s) + Insertion(a, s) + Escaped(b, Escaped(a, s[1..]))
  {
    OneStep(a, s);
    StepOver(b, s[0], Insertion(a, s), Escaped(a, s[1..]));
    assert Insertion(b, Escaped(a, s)) == Insertion(b, s) by {
      StartsKept(a, b, s);
    }
  }

  lemma OneStep(a: Text, s: Text)
    requires a != [] && s != []
    ensures Escaped(a, s) == [s[0]] + Insertion(a, s) + Escaped(a, s[1..])
  {
  }

  lemma {:induction false} EscapesCommute(a: Text, b: Text, s: Text)
    requires Plain(a) && Plain(b) && a[0] !in b[1..] && b[0] !in a[1..]
    requires a[0] !in a[1..] && b[0] !in b[1..]
    ensures Escaped(a, Escaped(b, s)) == Escaped(b, Escaped(a, s))
    decreases |s|
  {
    if s != [] {
      EscapesCommute(a, b, s[1..]);
      TwoStep(a, b, s);
      TwoStep(b, a, s);
    }
  }

  /** The first token may as well be escaped last. */
  lemma {:induction false} EscapeLast(tokens: seq<Text>, s: Text)
    requires Reserved(tokens) && tokens != []
    ensures EscapedAll(tokens, s) == Escaped(tokens[0], EscapedAll(tokens[1..], s))
    decreases |tokens|
  {
    if |tokens| > 1 {
      var rest := [tokens[0]] + tokens[2..];
      EscapesCommute(tokens[0], tokens[1], s);
      assert rest[1..] == tokens[1..][1..];
      EscapeLast(rest, Escaped(tokens[1], s));
    }
  }

  // --- Round trip ------------------------------------------------------------------------

  /** Unescaping a token undoes escaping it. */
  lemma {:induction false} UnescapeEscaped(token: Text, s: Text)
    requires Plain(token) && token[0] !in token[1..]
    ensures Unescaped(token, Escaped(token, s)) == s
    decreases |s|
  {
    if s != [] {
      var c, r := s[0], s[1..];
      UnescapeEscaped(token, r);
      TailKept(token, token, r);
      var x := Escaped(token, r);
      if StartsToken(token, s) {
        var y := [c, ESCAPE_CHAR] + x;
        assert y[1..] == [ESCAPE_CHAR] + x && y[1..][1..] == x && y[2..] == x;
        assert StartsToken(token, y);
      } else {
        var y := [c] + x;
        assert y[1..] == x;
        assert !StartsToken(token, y);
      }
    }
  }

  /** Unescaping every reserved token after escaping every one, in the same order,
      gives back the text, whatever it contains. */
  lemma {:induction false} RoundTrip(tokens: seq<Text>, s: Text)
    requires Reserved(tokens)
    ensures UnescapedAll(tokens, EscapedAll(tokens, s)) == s
    decreases |tokens|
  {
    if tokens != [] {
      EscapeLast(tokens, s);
      UnescapeEscaped(tokens[0], EscapedAll(tokens[1..], s));
      RoundTrip(tokens[1..], s);
    }
  }

  /** Escaping loses nothing: different texts stay different. */
  lemma EscapedAllInjective(tokens: seq<Text>, s: Text, t: Text)
    requires Reserved(tokens) && EscapedAll(tokens, s) == EscapedAll(tokens, t)
    ensures s == t
  {
    RoundTrip(tokens, s);
    RoundTrip(tokens, t);
  }

  // --- No raw token is left -----------------------------------------------------------------

  /** A word without the escape character that begins the escaped text already began
      the text. */
  lemma {:induction false} PrefixWasThere(token: Text, word: Text, s: Text)
    requires token != [] && ESCAPE_CHAR !in word && word <= Escaped(token, s)
    ensures word <= s
    decreases |word|
  {
    if word != [] {
      assert s != [] && word[0] == s[0];
      var tail := Insertion(token, s) + Escaped(token, s[1..]);
      assert Escaped(token, s) == [s[0]] + tail;
      assert word[1..] <= tail;
      if |word| > 1 {
        assert word[1] == tail[0];
        assert Insertion(token, s) == [];
        assert tail == Escaped(token, s[1..]);
        PrefixWasThere(token, word[1..], s[1..]);
        assert word == [word[0]] + word[1..] && s == [s[0]] + s[1..];
      }
    }
  }

  /** Position by position, escaping leaves no raw token, whatever the token. */
  lemma {:induction false} NoRawLeft(token: Text, s: Text, i: nat)
    requires Plain(token) && i <= |Escaped(token, s)|
    ensures !(token <= Escaped(token, s)[i..])
    decreases |s|
  {
    var out := Escaped(token, s);
    if s != [] {
      var tail := Insertion(token, s) + Escaped(token, s[1..]);
      assert out == [s[0]] + tail;
      if i == 0 {
        if token <= out {
          assert token[1..] <= tail;
          assert token[1] == tail[0];
          assert Insertion(token, s) == [];
          assert tail == Escaped(token, s[1..]);
          PrefixWasThere(token, token[1..], s[1..]);
        }
      } else if i == 1 && StartsToken(token, s) {
        assert out[1..][0] == ESCAPE_CHAR;
        assert token[0] != ESCAPE_CHAR;
      } else {
        var k := i - 1 - |Insertion(token, s)|;
        assert out[i..] == Escaped(token, s[1..])[k..];
        NoRawLeft(token, s[1..], k);
      }
    }
  }

  /** A raw token in an escaped text was raw before. */
  lemma {:induction false} RawWasThere(token: Text, word: Text, s: Text, i: nat) returns (j: nat)
    requires token != [] && |word| > 0 && ESCAPE_CHAR !in word
    requires i <= |Escaped(token, s)| && word <= Escaped(token, s)[i..]
    ensures j <= |s| && word <= s[j..]
    decreases |s|
  {
    if i == 0 {
      assert Escaped(token, s)[0..] == Escaped(token, s) && s[0..] == s;
      PrefixWasThere(token, word, s);
      j := 0;
    } else {
      var out := Escaped(token, s);
      var head := [s[0]] + Insertion(token, s);
      assert out == head + Escaped(token, s[1..]);
      assert word[0] == out[i..][0];
      assert |head| > 1 ==> out[1] == ESCAPE_CHAR;
      if i < |head| {
        assert false;
      } else {
        assert out[i..] == Escaped(token, s[1..])[i - |head|..];
        j := RawWasThere(token, word, s[1..], i - |head|);
        j := j + 1;
        assert s[j..] == s[1..][j - 1..];
      }
    }
  }

  /** After escaping all reserved tokens, none of them occurs raw. */
  lemma {:induction false} NoRawLeftAll(tokens: seq<Text>, s: Text, at: nat)
    requires Reserved(tokens) && at < |tokens|
    ensures !HasRaw(tokens[at], EscapedAll(tokens, s))
    decreases |tokens|
  {
    if at == 0 {
      EscapeLast(tokens, s);
      forall i | 0 <= i <= |EscapedAll(tokens, s)|
        ensures !(tokens[0] <= EscapedAll(tokens, s)[i..])
      {
        NoRawLeft(tokens[0], EscapedAll(tokens[1..], s), i);
      }
    } else {
      NoRawLeftAll(tokens[1..], s, at - 1);
      EscapeLast(tokens, s);
      var y := EscapedAll(tokens[1..], s);
      forall i | 0 <= i <= |Escaped(tokens[0], y)|
        ensures !(tokens[at] <= Escaped(tokens[0], y)[i..])
      {
        if tokens[at] <= Escaped(tokens[0], y)[i..] {
          var j := RawWasThere(tokens[0], tokens[at], y, i);
        }
      }
    }
  }

  // --- The scans compute the position-by-position meaning --------------------------------------

  /** An occurrence has all its characters. */
  lemma TokenFits(token: Text, s: Text)
    requires token != [] && StartsToken(token, s)
    ensures EscapeRun(s[1..]) + |token| <= |s|
    ensures s[EscapeRun(s[1..]) + 1..EscapeRun(s[1..]) + |token|] == token[1..]
  {
    var n := EscapeRun(s[1..]);
    assert s[1..][n..] == s[n + 1..];
    assert token[1..] == s[n + 1..][..|token| - 1];
  }

  /** A text that starts the token behind a character that is not an escape starts
      it unescaped. */
  lemma StartsUnescaped(token: Text, s: Text)
    requires Plain(token) && StartsToken(token, s) && |s| > 1 && s[1] != ESCAPE_CHAR
    ensures token <= s
  {
    assert StripEscapes(s[1..]) == s[1..];
    assert s == [s[0]] + s[1..] && token == [token[0]] + token[1..];
  }

  /** A token that starts k characters behind the start of another one has a border.
      `rest` is the text behind the first character and its escapes. */
  lemma OverlapIsBorder(token: Text, rest: Text, k: nat)
    requires Plain(token) && token[1..] <= rest && 0 < k < |token| && StartsToken(token, rest[k - 1..])
    ensures token[k..] == token[..|token| - k]
  {
    var v := rest[k - 1..];
    assert token[k..] == token[1..][k - 1..] == rest[..|token| - 1][k - 1..] == v[..|token| - k];
    if k + 1 < |token| {
      assert v[1] == v[..|token| - k][1] == token[k..][1] == token[k + 1];
      StartsUnescaped(token, v);
      assert token[..|token| - k] == v[..|token| - k];
    } else {
      assert token[k..] == [token[0]];
    }
  }

  /** Inside one occurrence of an unbordered token no other one starts. */
  lemma NoOverlap(token: Text, s: Text, q: nat)
    requires Plain(token) && Unbordered(token) && StartsToken(token, s)
    requires 0 < q < EscapeRun(s[1..]) + |token|
    ensures q < |s| && !StartsToken(token, s[q..])
  {
    TokenFits(token, s);
    var n := EscapeRun(s[1..]);
    if q <= n {
      assert s[q] == s[1..][q - 1];
    } else {
      var rest := s[n + 1..];
      assert token[1..] == rest[..|token| - 1];
      assert rest[q - n - 1..] == s[q..];
      NoOverlapBehind(token, rest, q - n);
    }
  }

  lemma NoOverlapBehind(token: Text, rest: Text, k: nat)
    requires Plain(token) && Unbordered(token) && token[1..] <= rest && 0 < k < |token|
    ensures !StartsToken(token, rest[k - 1..])
  {
    if StartsToken(token, rest[k - 1..]) {
      OverlapIsBorder(token, rest, k);
    }
  }

  /** No occurrence starts at the first k positions. */
  predicate Quiet(token: Text, s: Text, k: nat)
    requires token != [] && k <= |s|
    decreases k
  {
    k == 0 || (!StartsToken(token, s) && Quiet(token, s[1..], k - 1))
  }

  lemma {:induction false} QuietInside(token: Text, s: Text, i: nat, end: nat)
    requires Plain(token) && Unbordered(token) && StartsToken(token, s)
    requires 0 < i <= end <= EscapeRun(s[1..]) + |token| && end <= |s|
    ensures Quiet(token, s[i..], end - i)
    decreases end - i
  {
    if i < end {
      NoOverlap(token, s, i);
      QuietInside(token, s, i + 1, end);
      assert s[i..][1..] == s[i + 1..];
    }
  }

  /** Where no occurrence starts, escaping and unescaping copy. */
  lemma {:induction false} QuietEscaped(token: Text, s: Text, k: nat)
    requires token != [] && k <= |s| && Quiet(token, s, k)
    ensures Escaped(token, s) == s[..k] + Escaped(token, s[k..])
    decreases k
  {
    if k > 0 {
      QuietEscaped(token, s[1..], k - 1);
      Reslice(s, k, Escaped(token, s[k..]));
    }
  }

  lemma {:induction false} QuietUnescaped(token: Text, s: Text, k: nat)
    requires token != [] && k <= |s| && Quiet(token, s, k)
    ensures Unescaped(token, s) == s[..k] + Unescaped(token, s[k..])
    decreases k
  {
    if k > 0 {
      QuietUnescaped(token, s[1..], k - 1);
      Reslice(s, k, Unescaped(token, s[k..]));
    }
  }

  lemma Reslice(s: Text, k: nat, x: Text)
    requires 0 < k <= |s|
    ensures s[1..][k - 1..] == s[k..] && s[1..][..k - 1] == s[1..k]
    ensures [s[0]] + (s[1..][..k - 1] + x) == s[..k] + x
  {
  }

  lemma SliceOfSlice(s: Text, i: nat, j: nat)
    requires i <= j <= |s|
    ensures s[i..][j - i..] == s[j..] && s[i..][..j - i] == s[i..j]
  {
  }

  lemma EscapedSpan(token: Text, s: Text, i: nat, j: nat)
    requires token != [] && i <= j <= |s| && Quiet(token, s[i..], j - i)
    ensures Escaped(token, s[i..]) == s[i..j] + Escaped(token, s[j..])
  {
    QuietEscaped(token, s[i..], j - i);
    SliceOfSlice(s, i, j);
  }

  lemma UnescapedSpan(token: Text, s: Text, i: nat, j: nat)
    requires token != [] && i <= j <= |s| && Quiet(token, s[i..], j - i)
    ensures Unescaped(token, s[i..]) == s[i..j] + Unescaped(token, s[j..])
  {
    QuietUnescaped(token, s[i..], j - i);
    SliceOfSlice(s, i, j);
  }

  lemma {:induction false} EscapeScanIsEscaped(token: Text, s: Text)
    requires Plain(token) && Unbordered(token)
    ensures EscapeScan(token, s) == Escaped(token, s)
    decreases |s|
  {
    if s != [] {
      EscapeScanIsEscaped(token, EscapeStep(token, s).1);
      if StartsToken(token, s) {
        EscapeJump(token, s);
      }
    }
  }

  /** Escaping one whole occurrence. */
  lemma EscapeJump(token: Text, s: Text)
    requires Plain(token) && Unbordered(token) && StartsToken(token, s)
    ensures |token| <= |s| && Escaped(token, s) == [s[0], ESCAPE_CHAR] + s[1..|token|] + Escaped(token, s[|token|..])
  {
    TokenFits(token, s);
    CopiedBehind(token, s, 1, |token|);
    EscapeFirst(token, s, s[1..|token|], Escaped(token, s[|token|..]));
  }

  lemma CopiedBehind(token: Text, s: Text, i: nat, j: nat)
    requires Plain(token) && Unbordered(token) && StartsToken(token, s)
    requires 0 < i <= j <= EscapeRun(s[1..]) + |token| && j <= |s|
    ensures Escaped(token, s[i..]) == s[i..j] + Escaped(token, s[j..])
  {
    QuietInside(token, s, i, j);
    EscapedSpan(token, s, i, j);
  }

  lemma EscapeFirst(token: Text, s: Text, body: Text, rest: Text)
    requires token != [] && StartsToken(token, s) && Escaped(token, s[1..]) == body + rest
    ensures Escaped(token, s) == [s[0], ESCAPE_CHAR] + body + rest
  {
    Regroup([s[0], ESCAPE_CHAR], body, rest);
  }

  lemma Regroup(a: Text, b: Text, c: Text)
    ensures a + b + c == a + (b + c)
  {
  }

  lemma {:induction false} UnescapeScanIsUnescaped(token: Text, s: Text)
    requires Plain(token) && Unbordered(token)
    ensures UnescapeScan(token, s) == Unescaped(token, s)
    decreases |s|
  {
    if s != [] {
      UnescapeScanIsUnescaped(token, UnescapeStep(token, s).1);
      UnescapedByStep(token, s);
    }
  }

  /** Unescaping one whole occurrence, or one other character. */
  lemma UnescapedByStep(token: Text, s: Text)
    requires Plain(token) && Unbordered(token) && s != []
    ensures Unescaped(token, s) == UnescapeStep(token, s).0 + Unescaped(token, UnescapeStep(token, s).1)
  {
    if StartsToken(token, s) {
      TokenFits(token, s);
      var n := EscapeRun(s[1..]);
      var skip := if n > 0 then 2 else 1;
      RestoredBehind(token, s, skip, n + |token|);
      UnescapeFirst(token, s, skip, s[skip..n + |token|], Unescaped(token, s[n + |token|..]));
    }
  }

  lemma RestoredBehind(token: Text, s: Text, i: nat, j: nat)
    requires Plain(token) && Unbordered(token) && StartsToken(token, s)
    requires 0 < i <= j <= EscapeRun(s[1..]) + |token| && j <= |s|
    ensures Unescaped(token, s[i..]) == s[i..j] + Unescaped(token, s[j..])
  {
    QuietInside(token, s, i, j);
    UnescapedSpan(token, s, i, j);
  }

  lemma UnescapeFirst(token: Text, s: Text, skip: nat, body: Text, rest: Text)
    requires token != [] && StartsToken(token, s) && skip == (if EscapeRun(s[1..]) > 0 then 2 else 1) <= |s|
    requires Unescaped(token, s[skip..]) == body + rest
    ensures Unescaped(token, s) == [s[0]] + body + rest
  {
    assert EscapeRun(s[1..]) > 0 <==> |s| > 1 && s[1] == ESCAPE_CHAR;
    Regroup([s[0]], body, rest);
  }

  // --- When the scan leaves no raw token ----------------------------------------------------------

  /** A text shorter than the token is copied. */
  lemma {:induction false} ShortIsCopied(token: Text, s: Text)
    requires Plain(token) && |s| < |token|
    ensures EscapeScan(token, s) == s
    decreases |s|
  {
    if s != [] {
      if StartsToken(token, s) {
        TokenFits(token, s);
      }
      ShortIsCopied(token, s[1..]);
    }
  }

  /** A raw token at the start of a text. */
  lemma RawStarts(token: Text, s: Text)
    requires Plain(token) && token <= s
    ensures StartsToken(token, s)
    ensures EscapeScan(token, s) == [s[0], ESCAPE_CHAR] + s[1..|token|] + EscapeScan(token, s[|token|..])
  {
    assert s[1] == token[1];
    assert StripEscapes(s[1..]) == s[1..];
    assert token[1..] == s[1..][..|token| - 1];
  }

  /** Two overlapping occurrences: only the first is escaped. */
  lemma OverlapLeavesRaw(token: Text, k: nat)
    requires Plain(token) && 0 < k < |token| && token[k..] == token[..|token| - k]
    ensures HasRaw(token, EscapeScan(token, token[..k] + token))
  {
    var s := token[..k] + token;
    var tail := token[|token| - k..];
    OverlappedText(token, k);
    RawStarts(token, s);
    ShortIsCopied(token, tail);
    RawBehind(s, |token|, k, [s[0], ESCAPE_CHAR] + s[1..|token|] + tail);
    assert token <= EscapeScan(token, s)[k + 1..];
  }

  lemma OverlappedText(token: Text, k: nat)
    requires 0 < k < |token| && token[k..] == token[..|token| - k]
    ensures var s := token[..k] + token;
            s[..|token|] == token && s[|token|..] == token[|token| - k..] && s[k..] == token && token <= s
  {
    assert token[..k] + token[..|token| - k] == token;
  }

  lemma RawBehind(s: Text, n: nat, k: nat, out: Text)
    requires 0 < k < n <= |s| && out == [s[0], ESCAPE_CHAR] + s[1..n] + s[n..]
    ensures out[k + 1..] == s[k..]
  {
    assert out == [s[0], ESCAPE_CHAR] + s[1..];
  }

  ghost predicate ScanLeavesNoRaw(token: Text)
    requires |token| >= 2
  {
    forall s: Text :: !HasRaw(token, EscapeScan(token, s))
  }

  /** The scan of escape_tag leaves no raw token in any text if and only if the token
      has no border.  The HTML sentinels of output.cc, which begin and end with the
      same character, have one. */
  lemma ScanLeavesNoRawIffUnbordered(token: Text)
    requires Plain(token)
    ensures ScanLeavesNoRaw(token) <==> Unbordered(token)
  {
    if Unbordered(token) {
      forall s: Text ensures !HasRaw(token, EscapeScan(token, s)) {
        EscapeScanIsEscaped(token, s);
        forall i | 0 <= i <= |Escaped(token, s)| ensures !(token <= Escaped(token, s)[i..]) {
          NoRawLeft(token, s, i);
        }
      }
    } else {
      var k :| 0 < k < |token| && token[k..] == token[..|token| - k];
      OverlapLeavesRaw(token, k);
      var s := token[..k] + token;
      assert HasRaw(token, EscapeScan(token, s));
    }
  }

  lemma SentinelIsBordered()
    ensures Plain("%lt%") && !Unbordered("%lt%") && HasRaw("%lt%", EscapeScan("%lt%", "%lt%lt%"))
  {
    assert "%lt%"[3..] == "%lt%"[..1];
    OverlapLeavesRaw("%lt%", 3);
    assert "%lt%"[..3] + "%lt%" == "%lt%lt%";
  }

  lemma ReservedIsUnbordered(tokens: seq<Text>, at: nat)
    requires Reserved(tokens) && at < |tokens|
    ensures Unbordered(tokens[at])
  {
    var t := tokens[at];
    forall k | 0 < k < |t| ensures t[k..] != t[..|t| - k] {
      assert t[k] == t[1..][k - 1];
      assert t[k..][0] == t[k] && t[..|t| - k][0] == t[0];
    }
  }

  // --- The loops of parsers.cc -----------------------------------------------------------------

  /** Skip a run of escape characters. */
  method SkipEscapes(s: Text, start: nat) returns (scan: nat)
    requires start <= |s|
    ensures scan == start + EscapeRun(s[start..]) <= |s|
  {
    scan := start;
    while scan < |s| && s[scan] == ESCAPE_CHAR
      invariant start <= scan <= |s|
      invariant EscapeRun(s[start..]) == scan - start + EscapeRun(s[scan..])
    {
      assert s[scan..][1..] == s[scan + 1..];
      scan := scan + 1;
    }
  }

  method SuffixAt(s: Text, scan: nat, suffix: Text) returns (matches: bool)
    requires scan <= |s|
    ensures matches <==> suffix <= s[scan..]
  {
    matches := true;
    var k := 0;
    while k < |suffix| && matches
      invariant 0 <= k <= |suffix|
      invariant matches ==> scan + k <= |s| && suffix[..k] == s[scan..scan + k]
      invariant !matches ==> !(suffix <= s[scan..])
      decreases |suffix| - k, matches
    {
      if scan + k >= |s| || s[scan + k] != suffix[k] {
        if scan + k < |s| {
          assert s[scan..][k] == s[scan + k];
        }
        matches := false;
      } else {
        k := k + 1;
      }
    }
    if matches {
      assert suffix == suffix[..k] == s[scan..][..k];
    }
  }

  /** Does an occurrence of the token, escaped or not, start behind `done`? */
  method TokenAt(s: Text, token: Text, ghost done: Text, ghost rest: Text, pos: nat) returns (run: nat, matches: bool)
    requires |token| >= 2 && s == done + rest && pos == |done| && rest != [] && rest[0] == token[0]
    ensures matches <==> StartsToken(token, rest)
    ensures run == EscapeRun(rest[1..])
  {
    assert s[pos + 1..] == rest[1..];
    var scan := SkipEscapes(s, pos + 1);
    run := scan - pos - 1;
    assert s[scan..] == rest[1..][run..];
    matches := SuffixAt(s, scan, token[1..]);
  }

  /** escape_tag.  The text is split into what is done and what is still to scan. */
  method EscapeTag(str: Text, token: Text) returns (out: Text)
    ensures out == if |token| < 2 then str else EscapeScan(token, str)
    ensures Plain(token) && Unbordered(token) ==> out == Escaped(token, str)
  {
    out := str;
    if |token| >= 2 {
      var start := 0;
      ghost var done, rest := [], str;
      while start < |out|
        invariant out == done + rest && |done| == start <= |out|
        invariant EscapeScan(token, str) == done + EscapeScan(token, rest)
        decreases |rest|
      {
        out, start, done, rest := EscapeNext(out, token, start, done, rest);
      }
      assert rest == [];
    }
    if Plain(token) && Unbordered(token) {
      EscapeScanIsEscaped(token, str);
    }
  }

  /** Find and handle the next candidate position. */
  method EscapeNext(str: Text, token: Text, start: nat, ghost done: Text, ghost rest: Text)
    returns (out: Text, next: nat, ghost done': Text, ghost rest': Text)
    requires |token| >= 2 && str == done + rest && |done| == start && rest != []
    ensures out == done' + rest' && |done'| == next && |rest'| < |rest|
    ensures done + EscapeScan(token, rest) == done' + EscapeScan(token, rest')
  {
    var pos := FindChar(str, token[0], start);
    ghost var skip, found := str[start..pos], str[pos..];
    Split(str, done, rest, pos);
    EscapeScanSkips(token, skip, found);
    Regroup(done, skip, EscapeScan(token, found));
    if pos == |str| {
      out, next, done', rest' := str, |str|, str, [];
    } else {
      out, next := EscapeAt(str, token, pos, done + skip, found);
      EscapeScanStep(token, done + skip, found);
      done', rest' := done + skip + EscapeStep(token, found).0, EscapeStep(token, found).1;
    }
  }

  method EscapeAt(str: Text, token: Text, pos: nat, ghost done: Text, ghost rest: Text) returns (out: Text, next: nat)
    requires |token| >= 2 && str == done + rest && |done| == pos && rest != [] && rest[0] == token[0]
    ensures out == done + EscapeStep(token, rest).0 + EscapeStep(token, rest).1
    ensures next == |done| + |EscapeStep(token, rest).0|
  {
    var run, matches := TokenAt(str, token, done, rest, pos);
    if matches {
      TokenFits(token, rest);
      Inserted(done, rest, |token|);
      out, next := str[..pos + 1] + [ESCAPE_CHAR] + str[pos + 1..], pos + 1 + |token|;
    } else {
      OneOver(done, rest);
      out, next := str, pos + 1;
    }
  }

  lemma OneOver(done: Text, rest: Text)
    requires rest != []
    ensures done + rest == done + [rest[0]] + rest[1..]
  {
  }

  lemma EscapeScanStep(token: Text, done: Text, rest: Text)
    requires |token| >= 2 && rest != []
    ensures done + EscapeScan(token, rest) ==
            (done + EscapeStep(token, rest).0) + EscapeScan(token, EscapeStep(token, rest).1)
  {
    Regroup(done, EscapeStep(token, rest).0, EscapeScan(token, EscapeStep(token, rest).1));
  }

  /** Scans copy up to the next candidate. */
  lemma {:induction false} EscapeScanSkips(token: Text, skip: Text, rest: Text)
    requires |token| >= 2 && token[0] !in skip
    ensures EscapeScan(token, skip + rest) == skip + EscapeScan(token, rest)
    decreases |skip|
  {
    if skip == [] {
      assert skip + rest == rest;
    } else {
      EscapeScanSkips(token, skip[1..], rest);
      assert (skip + rest)[1..] == skip[1..] + rest;
      Regroup([skip[0]], skip[1..], EscapeScan(token, rest));
      assert skip == [skip[0]] + skip[1..];
    }
  }

  lemma {:induction false} UnescapeScanSkips(token: Text, skip: Text, rest: Text)
    requires |token| >= 2 && token[0] !in skip
    ensures UnescapeScan(token, skip + rest) == skip + UnescapeScan(token, rest)
    decreases |skip|
  {
    if skip == [] {
      assert skip + rest == rest;
    } else {
      UnescapeScanSkips(token, skip[1..], rest);
      assert (skip + rest)[1..] == skip[1..] + rest;
      Regroup([skip[0]], skip[1..], UnescapeScan(token, rest));
      assert skip == [skip[0]] + skip[1..];
    }
  }

  lemma Split(s: Text, done: Text, rest: Text, pos: nat)
    requires s == done + rest && |done| <= pos <= |s|
    ensures rest == s[|done|..pos] + s[pos..] && s == (done + s[|done|..pos]) + s[pos..]
  {
  }

  lemma Inserted(done: Text, rest: Text, n: nat)
    requires 0 < n <= |rest|
    ensures var s := done + rest;
            s[..|done| + 1] + [ESCAPE_CHAR] + s[|done| + 1..] == (done + ([rest[0],
                ESCAPE_CHAR] + rest[1..n])) + rest[n..]
  {
    var s := done + rest;
    assert s[|done| + 1..] == rest[1..] == rest[1..n] + rest[n..];
    assert s[..|done| + 1] == done + [rest[0]];
  }

  /** unescape_one_token */
  method UnescapeTag(str: Text, token: Text) returns (out: Text)
    ensures out == if |token| < 2 then str else UnescapeScan(token, str)
    ensures Plain(token) && Unbordered(token) ==> out == Unescaped(token, str)
  {
    out := str;
    if |token| >= 2 {
      var start := 0;
      ghost var done, rest := [], str;
      while start < |out|
        invariant out == done + rest && |done| == start <= |out|
        invariant UnescapeScan(token, str) == done + UnescapeScan(token, rest)
        decreases |rest|
      {
        out, start, done, rest := UnescapeNext(out, token, start, done, rest);
      }
      assert rest == [];
    }
    if Plain(token) && Unbordered(token) {
      UnescapeScanIsUnescaped(token, str);
    }
  }

  method UnescapeNext(str: Text, token: Text, start: nat, ghost done: Text, ghost rest: Text)
    returns (out: Text, next: nat, ghost done': Text, ghost rest': Text)
    requires |token| >= 2 && str == done + rest && |done| == start && rest != []
    ensures out == done' + rest' && |done'| == next && |rest'| < |rest|
    ensures done + UnescapeScan(token, rest) == done' + UnescapeScan(token, rest')
  {
    var pos := FindChar(str, token[0], start);
    ghost var skip, found := str[start..pos], str[pos..];
    Split(str, done, rest, pos);
    UnescapeScanSkips(token, skip, found);
    Regroup(done, skip, UnescapeScan(token, found));
    if pos == |str| {
      out, next, done', rest' := str, |str|, str, [];
    } else {
      out, next := UnescapeAt(str, token, pos, done + skip, found);
      UnescapeScanStep(token, done + skip, found);
      done', rest' := done + skip + UnescapeStep(token, found).0, UnescapeStep(token, found).1;
    }
  }

  lemma UnescapeScanStep(token: Text, done: Text, rest: Text)
    requires |token| >= 2 && rest != []
    ensures done + UnescapeScan(token, rest) ==
            (done + UnescapeStep(token, rest).0) + UnescapeScan(token, UnescapeStep(token, rest).1)
  {
    Regroup(done, UnescapeStep(token, rest).0, UnescapeScan(token, UnescapeStep(token, rest).1));
  }

  method UnescapeAt(str: Text, token: Text, pos: nat, ghost done: Text, ghost rest: Text) returns (out: Text, next: nat)
    requires |token| >= 2 && str == done + rest && |done| == pos && rest != [] && rest[0] == token[0]
    ensures out == done + UnescapeStep(token, rest).0 + UnescapeStep(token, rest).1
    ensures next == |done| + |UnescapeStep(token, rest).0|
  {
    var run, matches := TokenAt(str, token, done, rest, pos);
    if !matches {
      OneOver(done, rest);
      out, next := str, pos + 1;
    } else {
      TokenFits(token, rest);
      if run > 0 {
        Removed(done, rest, run + |token|);
        out, next := str[..pos + 1] + str[pos + 2..], pos + run + |token| - 1;
      } else {
        Kept(done, rest, |token|);
        out, next := str, pos + |token|;
      }
    }
  }

  lemma Removed(done: Text, rest: Text, n: nat)
    requires 2 <= n <= |rest|
    ensures (done + rest)[..|done| + 1] + (done + rest)[|done| + 2..] == done + ([rest[0]] + rest[2..n]) + rest[n..]
  {
    assert (done + rest)[|done| + 2..] == rest[2..] == rest[2..n] + rest[n..];
    assert (done + rest)[..|done| + 1] == done + [rest[0]];
  }

  lemma Kept(done: Text, rest: Text, n: nat)
    requires 0 < n <= |rest|
    ensures done + rest == done + ([rest[0]] + rest[1..n]) + rest[n..]
  {
    assert rest == [rest[0]] + rest[1..n] + rest[n..];
  }

  // --- The reserved tokens of a model --------------------------------------------------------------

  /** Escape or unescape every reserved token, in order: PARAM_END first, then the
      model's turn tokens. */
  method EscapeReserved(str: Text, tokens: seq<Text>) returns (out: Text)
    requires Reserved(tokens)
    ensures out == EscapedAll(tokens, str)
    ensures UnescapedAll(tokens, out) == str
    ensures forall k :: 0 <= k < |tokens| ==> !HasRaw(tokens[k], out)
  {
    out := str;
    var i := 0;
    while i < |tokens|
      invariant i <= |tokens| && Reserved(tokens[i..])
      invariant EscapedAll(tokens[i..], out) == EscapedAll(tokens, str)
    {
      ReservedIsUnbordered(tokens, i);
      out := EscapeTag(out, tokens[i]);
      assert tokens[i..][1..] == tokens[i + 1..];
      i := i + 1;
    }
    RoundTrip(tokens, str);
    forall k | 0 <= k < |tokens| ensures !HasRaw(tokens[k], EscapedAll(tokens, str)) {
      NoRawLeftAll(tokens, str, k);
    }
  }

  method UnescapeReserved(str: Text, tokens: seq<Text>) returns (out: Text)
    requires Reserved(tokens)
    ensures out == UnescapedAll(tokens, str)
  {
    out := str;
    var i := 0;
    while i < |tokens|
      invariant i <= |tokens| && Reserved(tokens[i..])
      invariant UnescapedAll(tokens[i..], out) == UnescapedAll(tokens, str)
    {
      ReservedIsUnbordered(tokens, i);
      out := UnescapeTag(out, tokens[i]);
      assert tokens[i..][1..] == tokens[i + 1..];
      i := i + 1;
    }
  }
}
