/** Reading a parameter's value out of a tool call. */
module Parameters {
  import opened Escape
  import opened TextSearch
  import opened ToolCall

  predicate IsSpace(c: char) {
    c == ' ' || c == '\t' || c == '\r' || c == '\n'
  }

  function WithoutQuotes(s: Text): Text {
    if s == [] then []
    else if s[0] == '"' || s[0] == '\'' then WithoutQuotes(s[1..])
    else [s[0]] + WithoutQuotes(s[1..])
  }

  function TrimLeft(s: Text): Text {
    if s != [] && IsSpace(s[0]) then TrimLeft(s[1..]) else s
  }

  function TrimRight(s: Text): Text {
    if s != [] && IsSpace(s[|s| - 1]) then TrimRight(s[..|s| - 1]) else s
  }

  /** strip_quotes_from_name */
  function PlainName(s: Text): Text {
    TrimRight(TrimLeft(WithoutQuotes(s)))
  }

  /** The text behind the first parameter tag, canonical form, with this name. */
  function TagContent(g: Schema, s: Text, name: Text): Content {
    if s == [] then Missing
    else if g.paramStart <= s && Behind(">", s[|g.paramStart|..]).Content?
            && PlainName(Before(">", s[|g.paramStart|..])) == name
    then Behind(">", s[|g.paramStart|..])
    else TagContent(g, s[1..], name)
  }

  /** extract_param_block: the bare tag counts if there is no canonical one; a
      missing PARAM_END ends at the end of the text. */
  function Block(g: Schema, s: Text, name: Text): Text {
    var content := if TagContent(g, s, name).Content? then TagContent(g, s, name) else Behind("<" + name + ">", s);
    if content.Content? then Before(g.paramEnd, content.text) else []
  }

  /** Stray quotes and surrounding white space do not count. */
  predicate IsPadding(s: Text) {
    forall k :: 0 <= k < |s| ==> IsSpace(s[k]) || s[k] == '"' || s[k] == '\''
  }

  lemma PaddedName(left: Text, name: Text, right: Text)
    requires IsPadding(left) && IsPadding(right) && '"' !in name && '\'' !in name
    requires name != [] ==> !IsSpace(name[0]) && !IsSpace(name[|name| - 1])
    ensures PlainName(left + name + right) == name
  {
    hide WithoutQuotes, TrimLeft, TrimRight, IsPadding;
    QuotesOfJoined(left + name, right);
    QuotesOfJoined(left, name);
    QuotesOfPadding(left);
    QuotesOfPadding(right);
    QuotelessKept(name);
    var l, r := WithoutQuotes(left), WithoutQuotes(right);
    assert WithoutQuotes(left + name + right) == l + (name + r);
    Trimmed(l, name, r);
  }

  lemma Trimmed(left: Text, name: Text, right: Text)
    requires Spaces(left) && Spaces(right) && (name != [] ==> !IsSpace(name[0]) && !IsSpace(name[|name| - 1]))
    ensures TrimRight(TrimLeft(left + (name + right))) == name
  {
    if name == [] {
      TrimSpaces(left + (name + right));
    } else {
      TrimLeftOf(left, name + right);
      TrimRightOf(name, right);
    }
  }

  lemma {:induction false} QuotesOfJoined(a: Text, b: Text)
    ensures WithoutQuotes(a + b) == WithoutQuotes(a) + WithoutQuotes(b)
  {
    if a == [] {
      assert a + b == b;
    } else {
      assert (a + b)[1..] == a[1..] + b;
      QuotesOfJoined(a[1..], b);
    }
  }

  /** Nor do quotes inside the name. */
  lemma QuoteIsDropped(before: Text, quote: Text, behind: Text)
    requires quote == "\"" || quote == "'"
    ensures PlainName(before + quote + behind) == PlainName(before + behind)
  {
    QuotesOfJoined(before + quote, behind);
    QuotesOfJoined(before, quote);
    QuotesOfJoined(before, behind);
    assert quote[1..] == [] && WithoutQuotes(quote) == [];
    assert WithoutQuotes(before) + [] == WithoutQuotes(before);
  }

  lemma {:induction false} QuotesOfPadding(s: Text)
    requires IsPadding(s)
    ensures Spaces(WithoutQuotes(s))
  {
    if s != [] {
      QuotesOfPadding(s[1..]);
    }
  }

  lemma {:induction false} QuotelessKept(s: Text)
    requires forall k :: 0 <= k < |s| ==> s[k] != '"' && s[k] != '\''
    ensures WithoutQuotes(s) == s
  {
    if s != [] {
      QuotelessKept(s[1..]);
    }
  }

  predicate Spaces(s: Text) {
    forall k :: 0 <= k < |s| ==> IsSpace(s[k])
  }

  lemma {:induction false} TrimSpaces(s: Text)
    requires Spaces(s)
    ensures TrimLeft(s) == []
  {
    if s != [] {
      TrimSpaces(s[1..]);
    }
  }

  lemma {:induction false} TrimLeftOf(spaces: Text, s: Text)
    requires Spaces(spaces) && s != [] && !IsSpace(s[0])
    ensures TrimLeft(spaces + s) == s
    decreases |spaces|
  {
    if spaces == [] {
      assert spaces + s == s;
    } else {
      assert (spaces + s)[1..] == spaces[1..] + s;
      TrimLeftOf(spaces[1..], s);
    }
  }

  lemma {:induction false} TrimRightOf(s: Text, spaces: Text)
    requires s != [] && !IsSpace(s[|s| - 1]) && Spaces(spaces)
    ensures TrimRight(s + spaces) == s
    decreases |spaces|
  {
    if spaces == [] {
      assert s + spaces == s;
    } else {
      assert (s + spaces)[..|s + spaces| - 1] == s + spaces[..|spaces| - 1];
      TrimRightOf(s, spaces[..|spaces| - 1]);
    }
  }

  /** No '<' is lost in reading a name. */
  lemma {:induction false} LessIsKept(s: Text)
    ensures Clean(PlainName(s)) <==> Clean(s)
  {
    LessBehindQuotes(s);
    LessTrimmedLeft(WithoutQuotes(s));
    LessTrimmedRight(TrimLeft(WithoutQuotes(s)));
  }

  lemma {:induction false} LessBehindQuotes(s: Text)
    ensures Clean(WithoutQuotes(s)) <==> Clean(s)
  {
    if s != [] {
      LessBehindQuotes(s[1..]);
      assert s == [s[0]] + s[1..];
    }
  }

  lemma {:induction false} LessTrimmedLeft(s: Text)
    ensures Clean(TrimLeft(s)) <==> Clean(s)
  {
    if s != [] && IsSpace(s[0]) {
      LessTrimmedLeft(s[1..]);
      assert s == [s[0]] + s[1..];
    }
  }

  lemma {:induction false} LessTrimmedRight(s: Text)
    ensures Clean(TrimRight(s)) <==> Clean(s)
  {
    if s != [] && IsSpace(s[|s| - 1]) {
      LessTrimmedRight(s[..|s| - 1]);
      assert s == s[..|s| - 1] + [s[|s| - 1]];
    }
  }

  lemma {:induction false} BeforeFirst(word: Text, s: Text, rest: Text)
    requires |word| > 0 && word[0] !in word[1..] && !HasRaw(word, s)
    ensures Before(word, s + (word + rest)) == s
    ensures Behind(word, s + (word + rest)) == Content(rest)
  {
    var t := s + (word + rest);
    if s == [] {
      assert t == word + rest;
    } else {
      if |word| > |s| {
        assert t[|s|] == word[0];
        assert word[|s|] == word[1..][|s| - 1];
      }
      assert s[0..] == s;
      assert t[1..] == s[1..] + (word + rest);
      RawInTail(word, s, 1);
      BeforeFirst(word, s[1..], rest);
    }
  }

  /** No parameter tag starts in clean text. */
  lemma {:induction false} ContentSkipsClean(g: Schema, skip: Text, rest: Text, name: Text)
    requires g.Valid() && Clean(skip)
    ensures TagContent(g, skip + rest, name) == TagContent(g, rest, name)
    decreases |skip|
  {
    if skip == [] {
      assert skip + rest == rest;
    } else {
      assert (skip + rest)[1..] == skip[1..] + rest;
      ContentSkipsClean(g, skip[1..], rest, name);
    }
  }

  /** A complete canonical parameter tag in the text reads as this name. */
  ghost predicate Mentions(g: Schema, s: Text, name: Text) {
    exists i: nat, j: nat :: NamedAt(g, s, i, j, name)
  }

  /** PARAM_START at i, and the text up to the next '>', at j, reads as this name. */
  predicate NamedAt(g: Schema, s: Text, i: nat, j: nat, name: Text) {
    && StartsAt(s, i, g.paramStart)
    && var start := i + |g.paramStart|;
       start <= j < |s| && s[j] == '>' && '>' !in s[start..j] && PlainName(s[start..j]) == name
  }

  /** A value is passed over if none of its tags reads as the wanted name. */
  lemma {:induction false} ContentSkipsValue(g: Schema, value: Text, rest: Text, name: Text)
    requires g.Valid() && Clean(name) && !Mentions(g, value, name) && (rest != [] ==> rest[0] == '<')
    ensures TagContent(g, value + rest, name) == TagContent(g, rest, name)
    decreases |value|
  {
    if value == [] {
      assert value + rest == rest;
    } else {
      ContentStepsOver(g, value, rest, name);
      MentionInTail(g, value, name);
      ContentSkipsValue(g, value[1..], rest, name);
    }
  }

  lemma MentionInTail(g: Schema, s: Text, name: Text)
    requires s != [] && !Mentions(g, s, name)
    ensures !Mentions(g, s[1..], name)
  {
    hide PlainName;
    forall i: nat, j: nat ensures !NamedAt(g, s[1..], i, j, name) {
      var start := i + |g.paramStart|;
      assert !NamedAt(g, s, i + 1, j + 1, name);
      assert i <= |s[1..]| ==> s[1..][i..] == s[i + 1..];
      assert start <= j < |s[1..]| ==> s[1..][start..j] == s[start + 1..j + 1] && s[1..][j] == s[j + 1];
    }
  }

  lemma {:induction false} FirstGreater(s: Text) returns (k: nat)
    ensures k <= |s| && '>' !in s[..k] && (k < |s| ==> s[k] == '>')
  {
    k := 0;
    while k < |s| && s[k] != '>'
      invariant k <= |s| && '>' !in s[..k]
    {
      k := k + 1;
    }
  }

  lemma ContentStepsOver(g: Schema, value: Text, rest: Text, name: Text)
    requires g.Valid() && Clean(name) && !Mentions(g, value, name) && (rest != [] ==> rest[0] == '<') && value != []
    ensures TagContent(g, value + rest, name) == TagContent(g, value[1..] + rest, name)
  {
    hide PlainName, Behind, Before, Mentions, TagContent;
    var s, n := value + rest, |g.paramStart|;
    assert s[1..] == value[1..] + rest;
    if g.paramStart <= s {
      TagNotBehind(g.paramStart, value, rest);
      NotNamed(g, value, rest, name);
    }
    ContentStep(g, s, name);
  }

  lemma ContentStep(g: Schema, s: Text, name: Text)
    requires s != []
    requires g.paramStart <= s ==>
               !(Behind(">", s[|g.paramStart|..]).Content? && PlainName(Before(">", s[|g.paramStart|..])) == name)
    ensures TagContent(g, s, name) == TagContent(g, s[1..], name)
  {
    hide PlainName, Behind, Before;
  }

  lemma NotNamed(g: Schema, value: Text, rest: Text, name: Text)
    requires Clean(name) && !Mentions(g, value, name) && (rest != [] ==> rest[0] == '<') && g.paramStart <= value
    ensures var s := (value + rest)[|g.paramStart|..];
            !(Behind(">", s).Content? && PlainName(Before(">", s)) == name)
  {
    hide PlainName, Behind, Before, Mentions;
    var s, n := value + rest, |g.paramStart|;
    var k := FirstGreater(s[n..]);
    SplitAtGreater(s[n..], k);
    assert s[n..][..k] == s[n..n + k];
    if k < |s[n..]| {
      ReadsOtherwise(g, value, rest, n + k, name);
    }
  }

  lemma TagNotBehind(tag: Text, value: Text, rest: Text)
    requires IsTag(tag) && tag <= value + rest && value != [] && (rest != [] ==> rest[0] == '<')
    ensures tag <= value
  {
    if rest != [] {
      TagInside(tag, value, rest);
    } else {
      assert value + rest == value;
    }
  }

  /** A tag that ends inside the value reads as another name; one that ends behind it holds a '<'. */
  lemma ReadsOtherwise(g: Schema, value: Text, rest: Text, greater: nat, name: Text)
    requires Clean(name) && !Mentions(g, value, name) && (rest != [] ==> rest[0] == '<') && g.paramStart <= value
    requires |g.paramStart| <= greater < |value + rest| && (value + rest)[greater] == '>'
    requires '>' !in (value + rest)[|g.paramStart|..greater]
    ensures PlainName((value + rest)[|g.paramStart|..greater]) != name
  {
    hide PlainName;
    var s, n := value + rest, |g.paramStart|;
    if greater < |value| {
      assert value[0..] == value && StartsAt(value, 0, g.paramStart);
      assert s[n..greater] == value[n..greater];
      assert !NamedAt(g, value, 0, greater, name);
    } else {
      assert s[|value|] == '<' && s[n..greater][|value| - n] == '<';
      LessIsKept(s[n..greater]);
    }
  }

  /** Another tag is passed over. */
  lemma ContentSkipsTag(g: Schema, tag: Text, rest: Text, name: Text)
    requires g.Valid() && IsTag(tag) && Distinct(g.paramStart, tag)
    ensures TagContent(g, tag + rest, name) == TagContent(g, rest, name)
  {
    PrefixExclusive(g.paramStart, tag, rest);
    assert (tag + rest)[1..] == tag[1..] + rest;
    ContentSkipsClean(g, tag[1..], rest, name);
  }

  /** The name a parameter is read by. */
  function Name(p: Param): Text {
    match p.opener
    case Canonical(written) => PlainName(written)
    case Bare(word) => word
  }

  /** A parameter with the wanted name gives everything behind its tag. */
  lemma ContentFound(g: Schema, p: Param, gap: Text, rest: Text)
    requires g.Valid() && p.opener.Canonical? && '>' !in p.opener.written
    ensures TagContent(g, PrintParam(g, p, gap) + rest, Name(p)) == Content(p.value + (g.paramEnd + (gap + rest)))
  {
    hide PlainName, Behind, Before;
    var written, behind := p.opener.written, p.value + (g.paramEnd + (gap + rest));
    var s := g.paramStart + (written + ">" + behind);
    assert PrintParam(g, p, gap) + rest == s;
    TagReads(g, written, behind);
  }

  /** What a parameter tag reads as. */
  lemma TagReads(g: Schema, written: Text, rest: Text)
    requires '>' !in written
    ensures var s := g.paramStart + (written + ">" + rest);
            Behind(">", s[|g.paramStart|..]) == Content(rest) && Before(">", s[|g.paramStart|..]) == written
  {
    hide Behind, Before;
    var s := g.paramStart + (written + ">" + rest);
    var t := s[|g.paramStart|..];
    assert t == written + ">" + rest && t[..|written|] == written && t[|written| + 1..] == rest;
    SplitAtGreater(t, |written|);
  }

  /** The search for a canonical tag of this name passes over the parameter. */
  ghost predicate Unread(g: Schema, p: Param, name: Text) {
    && (p.opener.Canonical? ==> '>' !in p.opener.written && PlainName(p.opener.written) != name)
    && !Mentions(g, p.value, name)
  }

  lemma ContentSkipsParam(g: Schema, p: Param, gap: Text, rest: Text, name: Text)
    requires g.Valid() && PrintableParam(g, p) && Clean(gap) && Clean(name) && Unread(g, p, name)
    ensures TagContent(g, PrintParam(g, p, gap) + rest, name) == TagContent(g, rest, name)
  {
    hide TagContent, PlainName, Mentions, HasRaw, Distinct, IsTag;
    var behind := p.value + (g.paramEnd + (gap + rest));
    ContentSkipsRest(g, p.value, gap, rest, name);
    match p.opener
    case Canonical(written) =>
      assert PrintParam(g, p, gap) + rest == g.paramStart + (written + ">" + behind);
      ContentMisses(g, written, behind, name);
    case Bare(word) =>
      BareIsTag(g, word);
      DistinctSwaps(BareTag(word), g.paramStart);
      assert PrintParam(g, p, gap) + rest == BareTag(word) + behind;
      ContentSkipsTag(g, BareTag(word), behind, name);
  }

  lemma BareIsTag(g: Schema, word: Text)
    requires g.Valid() && BareTag(word) in g.bare
    ensures g.IsBareTag(BareTag(word)) && Clean(word)
  {
    var k :| 0 <= k < |g.bare| && g.bare[k] == BareTag(word);
    assert g.IsBareTag(g.bare[k]);
    assert BareTag(word)[1..] == word + ">";
  }

  lemma ContentMisses(g: Schema, written: Text, rest: Text, name: Text)
    requires g.Valid() && Clean(written) && '>' !in written && PlainName(written) != name
    ensures TagContent(g, g.paramStart + (written + ">" + rest), name) == TagContent(g, rest, name)
  {
    hide PlainName, Behind, Before;
    var s, head := g.paramStart + (written + ">" + rest), g.paramStart[1..] + (written + ">");
    TagReads(g, written, rest);
    assert s[1..] == head + rest;
    ContentSkipsClean(g, head, rest, name);
  }

  lemma ContentSkipsRest(g: Schema, value: Text, gap: Text, rest: Text, name: Text)
    requires g.Valid() && Clean(gap) && Clean(name) && !Mentions(g, value, name)
    ensures TagContent(g, value + (g.paramEnd + (gap + rest)), name) == TagContent(g, rest, name)
  {
    hide TagContent, Mentions;
    ContentSkipsValue(g, value, g.paramEnd + (gap + rest), name);
    ContentSkipsTag(g, g.paramEnd, gap + rest, name);
    ContentSkipsClean(g, gap, rest, name);
  }

  lemma {:induction false} ContentOfParams(g: Schema, params: seq<Param>, gap: Text, rest: Text, k: nat)
      returns (behind: Text)
    requires g.Valid() && Clean(gap) && PrintableParams(g, params) && k < |params| && ReadByName(g, params, k)
    ensures TagContent(g, PrintParams(g, params, gap) + rest, Name(params[k]))
         == Content(params[k].value + (g.paramEnd + behind))
    decreases |params|
  {
    hide TagContent, PlainName, Mentions, PrintParam, HasRaw;
    var first, others := PrintParam(g, params[0], gap), PrintParams(g, params[1..], gap);
    assert first + others + rest == first + (others + rest);
    if k == 0 {
      ContentFound(g, params[0], gap, others + rest);
      behind := gap + (others + rest);
    } else {
      LessIsKept(params[k].opener.written);
      ContentSkipsParam(g, params[0], gap, others + rest, Name(params[k]));
      behind := ContentOfParams(g, params[1..], gap, rest, k - 1);
    }
  }

  lemma {:induction false} ContentSkipsParams(g: Schema, params: seq<Param>, gap: Text, rest: Text, name: Text)
    requires g.Valid() && Clean(gap) && Clean(name) && PrintableParams(g, params)
    requires forall j :: 0 <= j < |params| ==> Unread(g, params[j], name)
    ensures TagContent(g, PrintParams(g, params, gap) + rest, name) == TagContent(g, rest, name)
    decreases |params|
  {
    hide TagContent, PlainName, Mentions, PrintParam, HasRaw;
    if params == [] {
      assert [] + rest == rest;
    } else {
      var first, others := PrintParam(g, params[0], gap), PrintParams(g, params[1..], gap);
      assert first + others + rest == first + (others + rest);
      ContentSkipsParam(g, params[0], gap, others + rest, name);
      ContentSkipsParams(g, params[1..], gap, rest, name);
    }
  }

  // The search for a bare tag.

  lemma BehindSkipsClean(word: Text, skip: Text, rest: Text)
    requires IsTag(word) && Clean(skip)
    ensures Behind(word, skip + rest) == Behind(word, rest)
  {
    forall i | 0 <= i < |skip| ensures !StartsAt(skip + rest, i, word) {
      assert (skip + rest)[i..][0] == skip[i];
    }
    BehindPast(word, skip, rest);
  }

  lemma BehindSkipsTag(word: Text, tag: Text, rest: Text)
    requires IsTag(word) && IsTag(tag) && Distinct(word, tag)
    ensures Behind(word, tag + rest) == Behind(word, rest)
  {
    PrefixExclusive(word, tag, rest);
    assert (tag + rest)[1..] == tag[1..] + rest;
    BehindSkipsClean(word, tag[1..], rest);
  }

  lemma BehindSkipsValue(word: Text, value: Text, rest: Text)
    requires IsTag(word) && !HasRaw(word, value) && rest != [] && rest[0] == '<'
    ensures Behind(word, value + rest) == Behind(word, rest)
  {
    forall i | 0 <= i < |value| ensures !StartsAt(value + rest, i, word) {
      assert (value + rest)[i..] == value[i..] + rest;
      TagInside(word, value[i..], rest);
    }
    BehindPast(word, value, rest);
  }

  /** Two bare tags are the same or unrelated. */
  lemma BareTagsDiffer(g: Schema, a: Text, b: Text)
    requires g.Valid() && BareTag(a) in g.bare && BareTag(b) in g.bare && a != b
    ensures Distinct(BareTag(a), BareTag(b))
  {
    var s, t := BareTag(a), BareTag(b);
    BareIsTag(g, a);
    BareIsTag(g, b);
    assert s[1..|s| - 1] == a && t[1..|t| - 1] == b;
    if s <= t {
      SameBare(s, t, t);
    } else if t <= s {
      SameBare(s, t, s);
    }
  }

  lemma BehindSkipsParam(g: Schema, p: Param, gap: Text, rest: Text, word: Text)
    requires g.Valid() && PrintableParam(g, p) && Clean(gap) && BareTag(word) in g.bare
    requires p.opener != Bare(word) && !HasRaw(BareTag(word), p.value)
    ensures Behind(BareTag(word), PrintParam(g, p, gap) + rest) == Behind(BareTag(word), rest)
  {
    hide Behind, HasRaw, BareTag, Distinct, IsTag;
    var behind := p.value + (g.paramEnd + (gap + rest));
    BareIsTag(g, word);
    BehindSkipsOpening(g, p, behind, word);
    assert PrintParam(g, p, gap) + rest == Opening(g, p) + (Written(p) + behind);
    BehindSkipsRest(g, p.value, gap, rest, BareTag(word));
  }

  lemma BehindSkipsOpening(g: Schema, p: Param, rest: Text, word: Text)
    requires g.Valid() && PrintableParam(g, p) && BareTag(word) in g.bare && p.opener != Bare(word)
    ensures Behind(BareTag(word), Opening(g, p) + (Written(p) + rest)) == Behind(BareTag(word), rest)
  {
    hide Behind, HasRaw, IsTag, Distinct;
    var tag := BareTag(word);
    BareIsTag(g, word);
    if p.opener.Bare? {
      BareIsTag(g, p.opener.word);
      BareTagsDiffer(g, word, p.opener.word);
    } else {
      assert Distinct(tag, g.paramStart) by {
        DistinctSwaps(g.paramStart, tag);
      }
    }
    assert Clean(Written(p));
    BehindSkipsTag(tag, Opening(g, p), Written(p) + rest);
    BehindSkipsClean(tag, Written(p), rest);
  }

  lemma DistinctSwaps(a: Text, b: Text)
    ensures Distinct(a, b) == Distinct(b, a)
  {
  }

  lemma BehindSkipsRest(g: Schema, value: Text, gap: Text, rest: Text, tag: Text)
    requires g.Valid() && Clean(gap) && g.IsBareTag(tag) && !HasRaw(tag, value)
    ensures Behind(tag, value + (g.paramEnd + (gap + rest))) == Behind(tag, rest)
  {
    hide Behind, HasRaw;
    BehindSkipsValue(tag, value, g.paramEnd + (gap + rest));
    BehindSkipsTag(tag, g.paramEnd, gap + rest);
    BehindSkipsClean(tag, gap, rest);
  }

  lemma {:induction false} BehindOfParams(g: Schema, params: seq<Param>, gap: Text, rest: Text, k: nat)
      returns (behind: Text)
    requires g.Valid() && Clean(gap) && PrintableParams(g, params) && k < |params| && FirstBare(params, k)
    ensures Behind(BareTag(params[k].opener.word), PrintParams(g, params, gap) + rest)
         == Content(params[k].value + (g.paramEnd + behind))
    decreases |params|
  {
    hide Behind, PrintParam, HasRaw;
    var first, others := PrintParam(g, params[0], gap), PrintParams(g, params[1..], gap);
    assert first + others + rest == first + (others + rest);
    if k == 0 {
      behind := gap + (others + rest);
      BehindOpening(g, params[0], gap, others + rest);
    } else {
      BehindSkipsParam(g, params[0], gap, others + rest, params[k].opener.word);
      behind := BehindOfParams(g, params[1..], gap, rest, k - 1);
    }
  }

  lemma BehindOpening(g: Schema, p: Param, gap: Text, rest: Text)
    requires p.opener.Bare?
    ensures Behind(BareTag(p.opener.word),
            PrintParam(g, p, gap) + rest) == Content(p.value + (g.paramEnd + (gap + rest)))
  {
    var tag := BareTag(p.opener.word);
    PrintedParamFollowed(g, p, gap, rest);
    assert (tag + (p.value + (g.paramEnd + (gap + rest))))[|tag|..] == p.value + (g.paramEnd + (gap + rest));
  }

  // Which parameters can be read.

  /** The k-th parameter has a canonical tag, and nothing in front of it reads as its name. */
  ghost predicate ReadByName(g: Schema, params: seq<Param>, k: nat)
    requires k < |params|
  {
    && params[k].opener.Canonical? && '>' !in params[k].opener.written
    && forall j :: 0 <= j < k ==> Unread(g, params[j], Name(params[k]))
  }

  /** The k-th parameter has the first bare tag with its word, in the values before it too. */
  ghost predicate FirstBare(params: seq<Param>, k: nat)
    requires k < |params|
  {
    && params[k].opener.Bare?
    && forall j :: 0 <= j < k ==>
         params[j].opener != params[k].opener && !HasRaw(BareTag(params[k].opener.word), params[j].value)
  }

  /** A bare tag counts only if no canonical tag reads as its word, anywhere. */
  ghost predicate ReadByBareTag(g: Schema, params: seq<Param>, tail: Text, k: nat)
    requires k < |params|
  {
    && FirstBare(params, k)
    && (forall j :: 0 <= j < |params| ==> Unread(g, params[j], params[k].opener.word))
    && !Mentions(g, tail, params[k].opener.word)
  }

  ghost predicate Readable(g: Schema, c: Call, tail: Text, k: nat)
    requires k < |c.params|
  {
    ReadByName(g, c.params, k) || ReadByBareTag(g, c.params, tail, k)
  }

  /** The raw block of a printed call's parameter is its value, whichever tag opens it. */
  lemma BlockIsValue(g: Schema, c: Call, tail: Text, k: nat)
    requires g.Valid() && Printable(g, c) && k < |c.params| && Readable(g, c, tail, k)
    ensures Block(g, Print(g, c) + tail, Name(c.params[k])) == c.params[k].value
  {
    hide Behind, Before, HasRaw, PlainName, Mentions, TagContent, Clean;
    if ReadByName(g, c.params, k) {
      NamedBlock(g, c, tail, k);
    } else {
      BareBlock(g, c, tail, k);
    }
  }

  lemma PrintedFollowed(g: Schema, c: Call, tail: Text)
    ensures Print(g, c) + tail
         == g.funcStart + ((c.name + ">" + c.gap) + (PrintParams(g, c.params, c.gap) + (g.funcEnd + tail)))
  {
  }

  /** No canonical tag stands in front of the parameters. */
  lemma ContentBehindHead(g: Schema, c: Call, tail: Text, name: Text)
    requires g.Valid() && Clean(c.name) && Clean(c.gap)
    ensures TagContent(g, Print(g, c) + tail, name) == TagContent(g,
            PrintParams(g, c.params, c.gap) + (g.funcEnd + tail), name)
  {
    hide TagContent, PrintParams;
    var head, rest := c.name + ">" + c.gap, PrintParams(g, c.params, c.gap) + (g.funcEnd + tail);
    PrintedFollowed(g, c, tail);
    ContentSkipsTag(g, g.funcStart, head + rest, name);
    ContentSkipsClean(g, head, rest, name);
  }

  lemma NamedBlock(g: Schema, c: Call, tail: Text, k: nat)
    requires g.Valid() && Printable(g, c) && k < |c.params| && ReadByName(g, c.params, k)
    ensures Block(g, Print(g, c) + tail, Name(c.params[k])) == c.params[k].value
  {
    hide TagContent, PrintParams, Print, Name, ReadByName, Behind, Before, HasRaw;
    ContentBehindHead(g, c, tail, Name(c.params[k]));
    var behind := ContentOfParams(g, c.params, c.gap, g.funcEnd + tail, k);
    BeforeFirst(g.paramEnd, c.params[k].value, behind);
  }

  lemma BareBlock(g: Schema, c: Call, tail: Text, k: nat)
    requires g.Valid() && Printable(g, c) && k < |c.params| && ReadByBareTag(g, c.params, tail, k)
    ensures Block(g, Print(g, c) + tail, c.params[k].opener.word) == c.params[k].value
  {
    hide TagContent, PrintParams, Print, Behind, Before, HasRaw, Mentions;
    var word := c.params[k].opener.word;
    assert PrintableParam(g, c.params[k]);
    BareIsTag(g, word);
    ContentBehindHead(g, c, tail, word);
    ContentSkipsParams(g, c.params, c.gap, g.funcEnd + tail, word);
    ContentSkipsTag(g, g.funcEnd, tail, word);
    assert tail + [] == tail;
    ContentSkipsValue(g, tail, [], word);
    NoContent(g, word);
    var behind := BehindBareTag(g, c, tail, k);
    BeforeFirst(g.paramEnd, c.params[k].value, behind);
  }

  lemma BehindBareTag(g: Schema, c: Call, tail: Text, k: nat) returns (behind: Text)
    requires g.Valid() && Printable(g, c) && k < |c.params| && FirstBare(c.params, k)
    ensures Behind(BareTag(c.params[k].opener.word),
            Print(g, c) + tail) == Content(c.params[k].value + (g.paramEnd + behind))
  {
    hide PrintParams, Print, Behind, HasRaw;
    var head, rest := c.name + ">" + c.gap, PrintParams(g, c.params, c.gap) + (g.funcEnd + tail);
    var tag := BareTag(c.params[k].opener.word);
    assert PrintableParam(g, c.params[k]);
    BareIsTag(g, c.params[k].opener.word);
    PrintedFollowed(g, c, tail);
    BehindSkipsTag(tag, g.funcStart, head + rest);
    BehindSkipsClean(tag, head, rest);
    behind := BehindOfParams(g, c.params, c.gap, g.funcEnd + tail, k);
  }

  /** A value printed with every reserved token escaped comes back unchanged, whatever
      it contains and whichever tag opens it. */
  lemma ParsedBack(g: Schema, c: Call, tail: Text, k: nat, tokens: seq<Text>, original: Text)
    requires g.Valid() && k < |c.params| && Readable(g, c, tail, k)
    requires Printable(g, c.(params := c.params[k := c.params[k].(value := [])]))
    requires Reserved(tokens) && g.paramEnd in tokens && c.params[k].value == EscapedAll(tokens, original)
    ensures ToolEnd(g, PrintBody(g, c) + g.funcEnd + tail, 1, false) == End(|PrintBody(g, c)|)
    ensures UnescapedAll(tokens, Block(g, Print(g, c) + tail, Name(c.params[k]))) == original
  {
    hide ToolEnd, Block, PrintBody, Print, Readable, Name, HasRaw;
    var at :| 0 <= at < |tokens| && tokens[at] == g.paramEnd;
    NoRawLeftAll(tokens, original, at);
    var blank := c.params[k := c.params[k].(value := [])];
    forall j | 0 <= j < |c.params| ensures PrintableParam(g, c.params[j]) {
      assert PrintableParam(g, blank[j]);
    }
    PrintedCallEnds(g, c, tail);
    BlockIsValue(g, c, tail, k);
    RoundTrip(tokens, original);
  }

  // --- Extraction, as the source loops over it ------------------------------------------------

  /** The scan for a parameter tag moves over positions where none starts. */
  lemma {:induction false} ContentSkipsTo(g: Schema, text: Text, pos: nat, next: nat, name: Text)
    requires pos <= next <= |text| && forall i :: pos <= i < next ==> !StartsAt(text, i, g.paramStart)
    ensures TagContent(g, text[pos..], name) == TagContent(g, text[next..], name)
    decreases next - pos
  {
    if pos < next {
      assert !StartsAt(text, pos, g.paramStart);
      assert text[pos..][1..] == text[pos + 1..];
      ContentSkipsTo(g, text, pos + 1, next, name);
    }
  }

  lemma {:induction false} SplitAtGreater(s: Text, k: nat)
    requires k <= |s| && '>' !in s[..k] && (k < |s| ==> s[k] == '>')
    ensures k < |s| ==> Behind(">", s) == Content(s[k + 1..]) && Before(">", s) == s[..k]
    ensures k == |s| ==> Behind(">", s) == Missing
    decreases k
  {
    if k > 0 {
      assert s[0] == s[..k][0] && s[1..][..k - 1] == s[..k][1..];
      SplitAtGreater(s[1..], k - 1);
      assert k < |s| ==> s[1..][k..] == s[k + 1..];
    } else if s != [] {
      assert ">" <= s;
    }
  }

  /** One candidate tag. */
  lemma CandidateTag(g: Schema, text: Text, pos: nat, greater: nat, name: Text)
    requires g.Valid() && StartsAt(text, pos, g.paramStart) && pos + |g.paramStart| <= greater <= |text|
    requires '>' !in text[pos + |g.paramStart|..greater] && (greater < |text| ==> text[greater] == '>')
    ensures pos < |text|
    ensures if greater < |text| && PlainName(text[pos + |g.paramStart|..greater]) == name
            then TagContent(g, text[pos..], name) == Content(text[greater + 1..])
            else TagContent(g, text[pos..], name) == TagContent(g, text[pos + 1..], name)
  {
    hide PlainName, Behind, Before;
    var start := pos + |g.paramStart|;
    var s := text[start..];
    assert text[pos..][|g.paramStart|..] == s && text[pos..][1..] == text[pos + 1..];
    assert s[..greater - start] == text[start..greater];
    SplitAtGreater(s, greater - start);
    assert greater < |text| ==> s[greater - start + 1..] == text[greater + 1..];
  }

  lemma NoContent(g: Schema, name: Text)
    ensures TagContent(g, [], name) == Missing
  {
  }

  /** The tag that counts ends at this position: the first canonical one that reads as the name,
      or the first bare one if there is no such. */
  ghost predicate TagBefore(g: Schema, text: Text, content: nat, name: Text) {
    if Mentions(g, text, name) then
      && content > 0
      && exists p: nat :: NamedAt(g, text, p, content - 1, name) && NoneNamedBefore(g, text, p, name)
    else
      var tag := "<" + name + ">";
      && content >= |tag| && StartsAt(text, content - |tag|, tag)
      && forall i :: 0 <= i < content - |tag| ==> !StartsAt(text, i, tag)
  }

  ghost predicate NoneNamedBefore(g: Schema, text: Text, pos: nat, name: Text) {
    forall i: nat, j: nat :: i < pos ==> !NamedAt(g, text, i, j, name)
  }

  lemma NotNamedHere(g: Schema, text: Text, pos: nat, greater: nat, name: Text)
    requires StartsAt(text, pos, g.paramStart) ==>
               && pos + |g.paramStart| <= greater <= |text| && '>' !in text[pos + |g.paramStart|..greater]
               && (greater < |text| ==>
                     text[greater] == '>' && PlainName(text[pos + |g.paramStart|..greater]) != name)
    ensures forall j: nat :: !NamedAt(g, text, pos, j, name)
  {
    hide PlainName;
    forall j: nat ensures !NamedAt(g, text, pos, j, name) {
      var start := pos + |g.paramStart|;
      if start <= j < |text| && StartsAt(text, pos, g.paramStart) {
        assert j < greater ==> text[start..greater][j - start] == text[j];
        assert j > greater ==> text[start..j][greater - start] == text[greater];
      }
    }
  }

  lemma ValidTag(g: Schema)
    requires g.Valid()
    ensures g.paramStart != []
  {
  }

  lemma SearchStarts(g: Schema, text: Text, next: nat, name: Text)
    requires next <= |text| && forall i :: 0 <= i < next ==> !StartsAt(text, i, g.paramStart)
    ensures NoneNamedBefore(g, text, next, name) && TagContent(g, text, name) == TagContent(g, text[next..], name)
  {
    hide TagContent, PlainName, StartsAt, NamedAt;
    assert text[0..] == text;
    ContentSkipsTo(g, text, 0, next, name);
    NoneStarts(g, text, 0, next, name);
  }

  lemma SearchGoesOn(g: Schema, text: Text, pos: nat, greater: nat, next: nat, name: Text)
    requires StartsAt(text, pos, g.paramStart) && pos + |g.paramStart| <= greater <= |text|
    requires '>' !in text[pos + |g.paramStart|..greater]
    requires greater < |text| ==> text[greater] == '>' && PlainName(text[pos + |g.paramStart|..greater]) != name
    requires pos < next <= |text| && forall i :: pos + 1 <= i < next ==> !StartsAt(text, i, g.paramStart)
    requires NoneNamedBefore(g, text, pos, name)
    ensures NoneNamedBefore(g, text, next, name)
    ensures TagContent(g, text[pos + 1..], name) == TagContent(g, text[next..], name)
  {
    hide TagContent, PlainName, StartsAt, NamedAt;
    NotNamedHere(g, text, pos, greater, name);
    ContentSkipsTo(g, text, pos + 1, next, name);
    NoneStarts(g, text, pos + 1, next, name);
  }

  /** The first pass: the first canonical tag that reads as the name. */
  method FindNamedTag(g: Schema, text: Text, name: Text) returns (found: bool, content: nat)
    requires g.Valid()
    ensures content <= |text|
    ensures found <==> Mentions(g, text, name)
    ensures found ==> TagBefore(g, text, content, name)
    ensures TagContent(g, text, name) == if found then Content(text[content..]) else Missing
  {
    hide TagContent, PlainName, StartsAt, NamedAt, NoneNamedBefore, Mentions, TagBefore, Schema.Valid;
    ValidTag(g);
    var pos := Find(text, g.paramStart, 0);
    SearchStarts(g, text, pos, name);
    while pos < |text|
      invariant pos <= |text| && (pos < |text| ==> StartsAt(text, pos, g.paramStart))
      invariant NoneNamedBefore(g, text, pos, name)
      invariant TagContent(g, text, name) == TagContent(g, text[pos..], name)
    {
      StartFits(text, pos, g.paramStart);
      var greater := FindChar(text, '>', pos + |g.paramStart|);
      CandidateTag(g, text, pos, greater, name);
      if greater < |text| && PlainName(text[pos + |g.paramStart|..greater]) == name {
        IsNamed(g, text, pos, greater, name);
        NamedCounts(g, text, pos, greater, name);
        return true, greater + 1;
      }
      var next := Find(text, g.paramStart, pos + 1);
      SearchGoesOn(g, text, pos, greater, next, name);
      pos := next;
    }
    NoneMentioned(g, text, name);
    NoContent(g, name);
    found, content := false, 0;
  }

  /** find_param_tag: the canonical form first, the bare form as a fallback. */
  method FindParamTag(g: Schema, text: Text, name: Text) returns (found: bool, content: nat)
    requires g.Valid() && name != []
    ensures content <= |text|
    ensures found <==> Mentions(g, text, name) || HasRaw("<" + name + ">", text)
    ensures found ==> TagBefore(g, text, content, name)
    ensures var tag := TagContent(g, text, name);
            var whole := if tag.Content? then tag else Behind("<" + name + ">", text);
            whole == if found then Content(text[content..]) else Missing
  {
    hide TagContent, Behind, StartsAt, HasRaw, Mentions, TagBefore, Schema.Valid;
    found, content := FindNamedTag(g, text, name);
    if found {
      return;
    }
    var bare := "<" + name + ">";
    var pos := Find(text, bare, 0);
    BehindIs(bare, text, pos);
    RawFound(bare, text, 0, pos);
    if pos < |text| {
      BareCounts(g, text, pos, name);
      found, content := true, pos + |bare|;
    } else {
      found, content := false, 0;
    }
  }

  lemma NamedCounts(g: Schema, text: Text, pos: nat, greater: nat, name: Text)
    requires NamedAt(g, text, pos, greater, name) && NoneNamedBefore(g, text, pos, name) && Mentions(g, text, name)
    ensures TagBefore(g, text, greater + 1, name)
  {
    hide NamedAt, NoneNamedBefore, Mentions;
  }

  lemma BareCounts(g: Schema, text: Text, pos: nat, name: Text)
    requires !Mentions(g, text, name) && StartsAt(text, pos, "<" + name + ">")
    requires forall i :: 0 <= i < pos ==> !StartsAt(text, i, "<" + name + ">")
    ensures TagBefore(g, text, pos + |"<" + name + ">"|, name)
  {
    hide StartsAt, Mentions;
  }

  lemma StartFits(text: Text, pos: nat, word: Text)
    requires StartsAt(text, pos, word)
    ensures pos + |word| <= |text|
  {
  }

  lemma IsNamed(g: Schema, text: Text, pos: nat, greater: nat, name: Text)
    requires StartsAt(text, pos, g.paramStart) && pos + |g.paramStart| <= greater < |text| && text[greater] == '>'
    requires '>' !in text[pos + |g.paramStart|..greater] && PlainName(text[pos + |g.paramStart|..greater]) == name
    ensures NamedAt(g, text, pos, greater, name) && Mentions(g, text, name)
  {
    hide PlainName, StartsAt;
    assert NamedAt(g, text, pos, greater, name);
  }

  lemma NoneStarts(g: Schema, text: Text, from: nat, next: nat, name: Text)
    requires forall i :: from <= i < next ==> !StartsAt(text, i, g.paramStart)
    ensures forall i: nat, j: nat :: from <= i < next ==> !NamedAt(g, text, i, j, name)
  {
  }

  lemma NoneMentioned(g: Schema, text: Text, name: Text)
    requires g.Valid() && NoneNamedBefore(g, text, |text|, name)
    ensures !Mentions(g, text, name)
  {
    hide PlainName;
    forall i: nat, j: nat ensures !NamedAt(g, text, i, j, name) {
      if i >= |text| {
        assert !StartsAt(text, i, g.paramStart);
      }
    }
  }

  lemma {:induction false} BehindFrom(word: Text, s: Text, from: nat, pos: nat)
    requires word != [] && from <= pos <= |s| && forall i :: from <= i < pos ==> !StartsAt(s, i, word)
    requires pos < |s| ==> StartsAt(s, pos, word)
    ensures Behind(word, s[from..]) == if pos < |s| then Content(s[pos..][|word|..]) else Missing
    ensures Before(word, s[from..]) == s[from..pos]
    decreases pos - from
  {
    if from < pos {
      assert !StartsAt(s, from, word);
      assert s[from..][1..] == s[from + 1..];
      BehindFrom(word, s, from + 1, pos);
      assert s[from..pos] == [s[from]] + s[from + 1..pos];
    }
  }

  lemma BehindIs(word: Text, s: Text, pos: nat)
    requires word != [] && pos <= |s| && forall i :: 0 <= i < pos ==> !StartsAt(s, i, word)
    requires pos < |s| ==> StartsAt(s, pos, word)
    ensures Behind(word, s) == if pos < |s| then Content(s[pos + |word|..]) else Missing
    ensures pos < |s| ==> pos + |word| <= |s|
  {
    assert s[0..] == s;
    BehindFrom(word, s, 0, pos);
    if pos < |s| {
      assert s[pos..][|word|..] == s[pos + |word|..];
    }
  }

  /** extract_param_block */
  method ExtractParamBlock(g: Schema, text: Text, name: Text) returns (block: Text)
    requires g.Valid() && name != []
    ensures block == Block(g, text, name)
    ensures !Mentions(g, text, name) && !HasRaw("<" + name + ">", text) ==> block == []
    ensures Mentions(g, text, name) || HasRaw("<" + name + ">", text) ==>
              exists i: nat, j: nat :: TagBefore(g, text, i, name) && FirstEnd(g, text, i, j) && block == text[i..j]
  {
    hide Mentions, TagBefore, HasRaw, TagContent, Behind, Before, StartsAt, FirstEnd;
    var found, content := FindParamTag(g, text, name);
    if !found {
      return [];
    }
    var end := Find(text, g.paramEnd, content);
    BlockEnds(g, text, content, end);
    block := text[content..end];
  }

  lemma BlockEnds(g: Schema, text: Text, content: nat, end: nat)
    requires g.Valid() && content <= end <= |text| && (end < |text| ==> StartsAt(text, end, g.paramEnd))
    requires forall i :: content <= i < end ==> !StartsAt(text, i, g.paramEnd)
    ensures FirstEnd(g, text, content, end) && Before(g.paramEnd, text[content..]) == text[content..end]
  {
    BehindFrom(g.paramEnd, text, content, end);
  }

  /** The first PARAM_END, or the end of the text. */
  ghost predicate FirstEnd(g: Schema, text: Text, from: nat, end: nat) {
    && from <= end <= |text| && (end < |text| ==> StartsAt(text, end, g.paramEnd))
    && forall i :: from <= i < end ==> !StartsAt(text, i, g.paramEnd)
  }
}
