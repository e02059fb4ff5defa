/** The tool-call text layer: the tags of a tool schema, and the end of a call in generated text. */
module ToolCall {
  import opened Escape
  import opened TextSearch

  /** The tags of a tool schema; `bare` are the bare parameter tags. */
  datatype Schema = Schema(funcStart: Text, funcEnd: Text, paramStart: Text, paramEnd: Text, bare: seq<Text>)
  {
    /** Every tag starts with '<' and has no other; none is the start of another. */
    ghost predicate Valid() {
      && IsTag(funcStart) && IsTag(funcEnd) && IsTag(paramStart) && IsTag(paramEnd)
      && Distinct(paramStart, paramEnd) && Distinct(paramStart, funcStart) && Distinct(paramStart, funcEnd)
      && Distinct(paramEnd, funcStart) && Distinct(paramEnd, funcEnd) && Distinct(funcStart, funcEnd)
      && (forall k :: 0 <= k < |bare| ==> IsBareTag(bare[k]))
    }

    /** A bare tag is no other tag, nor the start of one. */
    predicate IsBareTag(t: Text) {
      && IsTag(t) && t[|t| - 1] == '>' && '>' !in t[..|t| - 1]
      && Distinct(t, funcStart) && Distinct(t, funcEnd) && Distinct(t, paramStart) && Distinct(t, paramEnd)
    }
  }

  predicate Distinct(a: Text, b: Text) {
    !(a <= b) && !(b <= a)
  }

  predicate IsTag(t: Text) {
    |t| >= 2 && t[0] == '<' && '<' !in t[1..] && ESCAPE_CHAR !in t
  }

  const FUNC_START: Text := "<function="
  const FUNC_END: Text := "</function>"
  const PARAM_START: Text := "<parameter="
  const PARAM_END: Text := "</parameter>"

  const TOOL_SCHEMA: Schema := Schema(FUNC_START, FUNC_END, PARAM_START, PARAM_END,
    ["<paths>", "<path>", "<content>", "<old>", "<new>", "<text>", "<begin>", "<end>", "<command>", "<query>"])

  lemma DifferAt(a: Text, b: Text, i: nat)
    requires i < |a| && i < |b| && a[i] != b[i]
    ensures Distinct(a, b)
  {
  }

  lemma MainTagsValid()
    ensures IsTag(FUNC_START) && IsTag(FUNC_END) && IsTag(PARAM_START) && IsTag(PARAM_END)
    ensures Distinct(PARAM_START, PARAM_END) && Distinct(PARAM_START, FUNC_START) && Distinct(PARAM_START, FUNC_END)
    ensures Distinct(PARAM_END, FUNC_START) && Distinct(PARAM_END, FUNC_END) && Distinct(FUNC_START, FUNC_END)
  {
    DifferAt(PARAM_START, PARAM_END, 1);
    DifferAt(PARAM_START, FUNC_START, 1);
    DifferAt(PARAM_START, FUNC_END, 1);
    DifferAt(PARAM_END, FUNC_START, 1);
    DifferAt(PARAM_END, FUNC_END, 2);
    DifferAt(FUNC_START, FUNC_END, 1);
  }

  lemma BareTagValid(t: Text, i: nat)
    requires IsTag(t) && |t| > 3 && t[1] != 'f' && t[1] != '/' && t[|t| - 1] == '>' && '>' !in t[..|t| - 1]
    requires i == 1 || i == 3
    requires t[i] != PARAM_START[i]
    ensures TOOL_SCHEMA.IsBareTag(t)
  {
    DifferAt(t, FUNC_START, 1);
    DifferAt(t, FUNC_END, 1);
    DifferAt(t, PARAM_START, i);
    DifferAt(t, PARAM_END, 1);
  }

  lemma PathTagsValid()
    ensures TOOL_SCHEMA.IsBareTag("<paths>")
    ensures TOOL_SCHEMA.IsBareTag("<path>")
    ensures TOOL_SCHEMA.IsBareTag("<content>")
  {
    BareTagValid("<paths>", 3);
    BareTagValid("<path>", 3);
    BareTagValid("<content>", 1);
  }

  lemma EditTagsValid()
    ensures TOOL_SCHEMA.IsBareTag("<old>")
    ensures TOOL_SCHEMA.IsBareTag("<new>")
    ensures TOOL_SCHEMA.IsBareTag("<text>")
  {
    BareTagValid("<old>", 1);
    BareTagValid("<new>", 1);
    BareTagValid("<text>", 1);
  }

  lemma RangeTagsValid()
    ensures TOOL_SCHEMA.IsBareTag("<begin>")
    ensures TOOL_SCHEMA.IsBareTag("<end>")
  {
    BareTagValid("<begin>", 1);
    BareTagValid("<end>", 1);
  }

  lemma TextTagsValid()
    ensures TOOL_SCHEMA.IsBareTag("<command>")
    ensures TOOL_SCHEMA.IsBareTag("<query>")
  {
    BareTagValid("<command>", 1);
    BareTagValid("<query>", 1);
  }

  lemma BareTagAt(k: nat)
    requires k < |TOOL_SCHEMA.bare|
    ensures TOOL_SCHEMA.IsBareTag(TOOL_SCHEMA.bare[k])
  {
    if k < 3 {
      PathTagsValid();
    } else if k < 6 {
      EditTagsValid();
    } else if k < 8 {
      RangeTagsValid();
    } else {
      TextTagsValid();
    }
  }

  /** The tags of tokens.h meet the requirements of everything below. */
  lemma ToolSchemaValid()
    ensures TOOL_SCHEMA.Valid()
  {
    MainTagsValid();
    forall k | 0 <= k < |TOOL_SCHEMA.bare| ensures TOOL_SCHEMA.IsBareTag(TOOL_SCHEMA.bare[k]) {
      BareTagAt(k);
    }
  }

  // --- What the scan for the end of a call means ---------------------------------------

  datatype Tag = NoTag | FuncStart | FuncEnd | ParamStart | ParamEnd | BareStart(length: nat)

  function TagLength(g: Schema, t: Tag): nat {
    match t
    case NoTag => 1
    case FuncStart => |g.funcStart|
    case FuncEnd => |g.funcEnd|
    case ParamStart => |g.paramStart|
    case ParamEnd => |g.paramEnd|
    case BareStart(n) => n
  }

  /** The length of the first listed tag the text starts with, 0 if there is none. */
  function BareLength(tags: seq<Text>, s: Text): (n: nat)
    ensures n <= |s|
  {
    if tags == [] then 0 else if tags[0] <= s then |tags[0]| else BareLength(tags[1..], s)
  }

  /** The tag that starts here, as far as it counts: inside a parameter PARAM_END
      closes it and bare tags are text; outside, PARAM_END is text. */
  function TagAt(g: Schema, s: Text, inParameter: bool): Tag {
    if g.paramStart <= s then ParamStart
    else if inParameter && g.paramEnd <= s then ParamEnd
    else if !inParameter && BareLength(g.bare, s) > 0 then BareStart(BareLength(g.bare, s))
    else if g.funcStart <= s then FuncStart
    else if g.funcEnd <= s then FuncEnd
    else NoTag
  }

  /** Where the call ends, or the state of the scan at the end of the text. */
  datatype Found = End(at: nat) | Unfinished(inParameter: bool)

  function Shift(f: Found, n: nat): Found {
    match f
    case End(at) => End(at + n)
    case Unfinished(p) => f
  }

  function NextDepth(t: Tag, depth: nat, inParameter: bool): nat {
    if inParameter then depth
    else if t == FuncStart then depth + 1
    else if t == FuncEnd && depth > 0 then depth - 1
    else depth
  }

  function NextInParameter(t: Tag, inParameter: bool): bool {
    match t
    case ParamStart => true
    case BareStart(_) => true
    case ParamEnd => false
    case _ => inParameter
  }

  /** Scan tag by tag: the call ends at the FUNC_END, outside any parameter, that
      closes the outermost FUNC_START. */
  function ToolEnd(g: Schema, s: Text, depth: nat, inParameter: bool): Found
    decreases |s|
  {
    if s == [] then Unfinished(inParameter)
    else
      var t := TagAt(g, s, inParameter);
      if t == FuncEnd && !inParameter && depth <= 1 then End(0)
      else
        var n := if 0 < TagLength(g, t) <= |s| then TagLength(g, t) else 1;
        Shift(ToolEnd(g, s[n..], NextDepth(t, depth, inParameter), NextInParameter(t, inParameter)), n)
  }

  /** Where the last tag of the scan ends. */
  function LastTagEnd(g: Schema, s: Text, depth: nat, inParameter: bool): nat
    decreases |s|
  {
    if s == [] then 0
    else
      var t := TagAt(g, s, inParameter);
      var n := if 0 < TagLength(g, t) <= |s| then TagLength(g, t) else 1;
      var rest := LastTagEnd(g, s[n..], NextDepth(t, depth, inParameter), NextInParameter(t, inParameter));
      if t == NoTag && rest == 0 then 0 else n + rest
  }

  // --- Printed calls --------------------------------------------------------------------

  /** How a parameter is opened: by PARAM_START, its name as it is written and '>', or by a bare tag. */
  datatype Opener = Canonical(written: Text) | Bare(word: Text)

  datatype Param = Param(opener: Opener, value: Text)

  datatype Call = Call(name: Text, gap: Text, params: seq<Param>)

  /** Text that cannot be mistaken for part of a tag. */
  predicate Clean(s: Text) {
    '<' !in s
  }

  function BareTag(word: Text): Text {
    "<" + word + ">"
  }

  /** The tag that opens a parameter. */
  function Opening(g: Schema, p: Param): Text {
    match p.opener
    case Canonical(_) => g.paramStart
    case Bare(word) => BareTag(word)
  }

  /** What stands between that tag and the value: behind PARAM_START, the name. */
  function Written(p: Param): Text {
    match p.opener
    case Canonical(written) => written + ">"
    case Bare(_) => []
  }

  function Inner(p: Param): Text {
    Written(p) + p.value
  }

  /** A parameter as a model writes it: the value stands between the tags as is. */
  function PrintParam(g: Schema, p: Param, gap: Text): Text {
    Opening(g, p) + (Inner(p) + (g.paramEnd + gap))
  }

  function PrintParams(g: Schema, params: seq<Param>, gap: Text): Text {
    if params == [] then [] else PrintParam(g, params[0], gap) + PrintParams(g, params[1..], gap)
  }

  function PrintBody(g: Schema, c: Call): Text {
    (c.name + ">" + c.gap) + PrintParams(g, c.params, c.gap)
  }

  function Print(g: Schema, c: Call): Text {
    g.funcStart + (PrintBody(g, c) + g.funcEnd)
  }

  /** Either opener will do, and values may hold any tags but a raw PARAM_END. */
  ghost predicate PrintableParam(g: Schema, p: Param) {
    && (p.opener.Canonical? ==> Clean(p.opener.written))
    && (p.opener.Bare? ==> BareTag(p.opener.word) in g.bare)
    && !HasRaw(g.paramEnd, p.value)
  }

  ghost predicate PrintableParams(g: Schema, params: seq<Param>) {
    forall k :: 0 <= k < |params| ==> PrintableParam(g, params[k])
  }

  ghost predicate Printable(g: Schema, c: Call) {
    Clean(c.name) && Clean(c.gap) && PrintableParams(g, c.params)
  }

  // --- The end of a printed call is its own FUNC_END -------------------------------------

  /** No tag starts with another character than '<'. */
  lemma {:induction false} NoBareHere(tags: seq<Text>, s: Text)
    requires forall k :: 0 <= k < |tags| ==> tags[k] != [] && tags[k][0] == '<'
    requires s == [] || s[0] != '<'
    ensures BareLength(tags, s) == 0
  {
    if tags != [] {
      NoBareHere(tags[1..], s);
    }
  }

  lemma NoTagHere(g: Schema, s: Text, inParameter: bool)
    requires g.Valid() && (s == [] || s[0] != '<')
    ensures TagAt(g, s, inParameter) == NoTag
  {
    NoBareHere(g.bare, s);
  }

  /** Nothing starts in clean text. */
  lemma {:induction false} CleanIsSkipped(g: Schema, gap: Text, rest: Text, depth: nat, inParameter: bool)
    requires g.Valid() && Clean(gap)
    ensures ToolEnd(g, gap + rest, depth, inParameter) == Shift(ToolEnd(g, rest, depth, inParameter), |gap|)
    decreases |gap|
  {
    if gap == [] {
      assert gap + rest == rest;
    } else {
      assert (gap + rest)[1..] == gap[1..] + rest;
      NoTagHere(g, gap + rest, inParameter);
      CleanIsSkipped(g, gap[1..], rest, depth, inParameter);
    }
  }

  /** A tag that starts in a text followed by '<' lies inside the text. */
  lemma TagInside(tag: Text, text: Text, rest: Text)
    requires IsTag(tag) && text != [] && rest != [] && rest[0] == '<'
    ensures tag <= text + rest <==> tag <= text
  {
    if |tag| > |text| {
      assert tag[|text|] == tag[1..][|text| - 1];
      assert (text + rest)[|text|] == '<';
    }
  }

  /** Inside a parameter the next position is the same with or without what follows. */
  lemma TagInValue(g: Schema, value: Text, rest: Text)
    requires g.Valid() && value != [] && rest != [] && rest[0] == '<'
    ensures TagAt(g, value + rest, true) == TagAt(g, value, true)
    ensures 0 < TagLength(g, TagAt(g, value, true)) <= |value|
  {
    TagInside(g.paramStart, value, rest);
    TagInside(g.paramEnd, value, rest);
    TagInside(g.funcStart, value, rest);
    TagInside(g.funcEnd, value, rest);
  }

  lemma RawInTail(token: Text, s: Text, n: nat)
    requires n <= |s| && !HasRaw(token, s)
    ensures !HasRaw(token, s[n..])
  {
    forall i | 0 <= i <= |s[n..]| ensures !(token <= s[n..][i..]) {
      assert s[n..][i..] == s[n + i..];
    }
  }

  /** Inside a parameter, everything up to the first raw PARAM_END is skipped, whatever
      tags it holds. */
  lemma {:induction false} ValueIsSkipped(g: Schema, value: Text, rest: Text, depth: nat)
    requires g.Valid() && !HasRaw(g.paramEnd, value)
    ensures ToolEnd(g, value + (g.paramEnd + rest), depth, true)
         == Shift(ToolEnd(g, rest, depth, false), |value| + |g.paramEnd|)
    decreases |value|
  {
    var tail := g.paramEnd + rest;
    if value == [] {
      assert value + tail == tail;
      ParamEndHere(g, rest);
      assert tail[|g.paramEnd|..] == rest;
    } else {
      var n := TagLength(g, TagAt(g, value, true));
      ValueStep(g, value, tail, depth);
      RawInTail(g.paramEnd, value, n);
      ValueIsSkipped(g, value[n..], rest, depth);
    }
  }

  /** One step inside a value stays inside it. */
  lemma ValueStep(g: Schema, value: Text, tail: Text, depth: nat)
    requires g.Valid() && value != [] && !HasRaw(g.paramEnd, value) && tail != [] && tail[0] == '<'
    ensures 0 < TagLength(g, TagAt(g, value, true)) <= |value|
    ensures var n := TagLength(g, TagAt(g, value, true));
            ToolEnd(g, value + tail, depth, true) == Shift(ToolEnd(g, value[n..] + tail, depth, true), n)
  {
    TagInValue(g, value, tail);
    assert value[0..] == value && !(g.paramEnd <= value[0..]);
    assert (value + tail)[TagLength(g, TagAt(g, value, true))..] == value[TagLength(g, TagAt(g, value, true))..] + tail;
  }

  lemma ParamEndHere(g: Schema, rest: Text)
    requires g.Valid()
    ensures TagAt(g, g.paramEnd + rest, true) == ParamEnd
  {
    PrefixExclusive(g.paramStart, g.paramEnd, rest);
  }

  /** A text that starts with one tag does not start with an unrelated one. */
  lemma PrefixExclusive(a: Text, b: Text, rest: Text)
    requires !(a <= b) && !(b <= a)
    ensures !(a <= b + rest)
  {
    if |a| <= |b| {
      assert (b + rest)[..|a|] == b[..|a|];
    } else {
      var i :| 0 <= i < |b| && a[i] != b[i];
      assert (b + rest)[i] == b[i];
    }
  }

  lemma {:induction false} NoBareIn(g: Schema, tags: seq<Text>, s: Text)
    requires forall k :: 0 <= k < |tags| ==> !(tags[k] <= s)
    ensures BareLength(tags, s) == 0
  {
    if tags != [] {
      NoBareIn(g, tags[1..], s);
    }
  }

  lemma FuncEndHere(g: Schema, rest: Text)
    requires g.Valid()
    ensures TagAt(g, g.funcEnd + rest, false) == FuncEnd
  {
    PrefixExclusive(g.paramStart, g.funcEnd, rest);
    PrefixExclusive(g.funcStart, g.funcEnd, rest);
    forall k | 0 <= k < |g.bare| ensures !(g.bare[k] <= g.funcEnd + rest) {
      PrefixExclusive(g.bare[k], g.funcEnd, rest);
    }
    NoBareIn(g, g.bare, g.funcEnd + rest);
  }

  predicate IsOpener(g: Schema, tag: Text) {
    tag == g.paramStart || tag in g.bare
  }

  /** Both openers open a parameter. */
  lemma OpenerHere(g: Schema, tag: Text, rest: Text)
    requires g.Valid() && IsOpener(g, tag)
    ensures IsTag(tag)
    ensures var t := TagAt(g, tag + rest, false); t.ParamStart? || t.BareStart?
    ensures TagLength(g, TagAt(g, tag + rest, false)) == |tag|
  {
    if tag != g.paramStart {
      var k :| 0 <= k < |g.bare| && g.bare[k] == tag;
      assert g.IsBareTag(g.bare[k]);
      OnlyTag(g, tag + rest, BareStart(|tag|), false);
    }
  }

  lemma ParamOpens(g: Schema, tag: Text, rest: Text, depth: nat)
    requires g.Valid() && IsOpener(g, tag)
    ensures ToolEnd(g, tag + rest, depth, false) == Shift(ToolEnd(g, rest, depth, true), |tag|)
  {
    hide TagAt;
    OpenerHere(g, tag, rest);
    assert (tag + rest)[|tag|..] == rest;
  }

  lemma RawBehindClean(g: Schema, head: Text, value: Text)
    requires g.Valid() && Clean(head) && !HasRaw(g.paramEnd, value)
    ensures !HasRaw(g.paramEnd, head + value)
  {
    forall i | 0 <= i <= |head + value| ensures !(g.paramEnd <= (head + value)[i..]) {
      if i < |head| {
        assert (head + value)[i..][0] == head[i];
      } else {
        assert (head + value)[i..] == value[i - |head|..];
      }
    }
  }

  lemma PrintableOpens(g: Schema, p: Param)
    requires g.Valid() && PrintableParam(g, p)
    ensures IsOpener(g, Opening(g, p)) && !HasRaw(g.paramEnd, Inner(p))
  {
    RawBehindClean(g, Written(p), p.value);
  }

  /** One printed parameter is skipped as a whole. */
  lemma ParamIsSkipped(g: Schema, p: Param, gap: Text, rest: Text, depth: nat)
    requires g.Valid() && Clean(gap) && PrintableParam(g, p)
    ensures ToolEnd(g, PrintParam(g, p, gap) + rest, depth, false)
         == Shift(ToolEnd(g, rest, depth, false), |PrintParam(g, p, gap)|)
  {
    hide Opening, Inner;
    PrintableOpens(g, p);
    PrintedParamFollowed(g, p, gap, rest);
    ParamOpens(g, Opening(g, p), Inner(p) + (g.paramEnd + (gap + rest)), depth);
    ValueAndGap(g, Inner(p), gap, rest, depth);
  }

  lemma PrintedParamFollowed(g: Schema, p: Param, gap: Text, rest: Text)
    ensures PrintParam(g, p, gap) + rest == Opening(g, p) + (Inner(p) + (g.paramEnd + (gap + rest)))
    ensures |PrintParam(g, p, gap)| == |Opening(g, p)| + |Inner(p)| + |g.paramEnd| + |gap|
  {
  }

  lemma ValueAndGap(g: Schema, value: Text, gap: Text, rest: Text, depth: nat)
    requires g.Valid() && Clean(gap) && !HasRaw(g.paramEnd, value)
    ensures ToolEnd(g, value + (g.paramEnd + (gap + rest)), depth, true)
         == Shift(ToolEnd(g, rest, depth, false), |value| + |g.paramEnd| + |gap|)
  {
    ValueIsSkipped(g, value, gap + rest, depth);
    CleanIsSkipped(g, gap, rest, depth, false);
  }

  lemma FuncCloses(g: Schema, rest: Text)
    requires g.Valid()
    ensures ToolEnd(g, g.funcEnd + rest, 1, false) == End(0)
  {
    FuncEndHere(g, rest);
  }

  lemma {:induction false} ParamsAreSkipped(g: Schema, params: seq<Param>, gap: Text, rest: Text, depth: nat)
    requires g.Valid() && Clean(gap) && PrintableParams(g, params)
    ensures ToolEnd(g, PrintParams(g, params, gap) + rest, depth, false)
         == Shift(ToolEnd(g, rest, depth, false), |PrintParams(g, params, gap)|)
    decreases |params|
  {
    if params == [] {
      assert [] + rest == rest;
    } else {
      var first, others := PrintParam(g, params[0], gap), PrintParams(g, params[1..], gap);
      assert first + others + rest == first + (others + rest);
      ParamIsSkipped(g, params[0], gap, others + rest, depth);
      ParamsAreSkipped(g, params[1..], gap, rest, depth);
    }
  }

  /** The scan of a printed call ends at the call's own final FUNC_END, whatever its
      values hold and whatever follows it. */
  lemma PrintedCallEnds(g: Schema, c: Call, tail: Text)
    requires g.Valid() && Printable(g, c)
    ensures ToolEnd(g, PrintBody(g, c) + g.funcEnd + tail, 1, false) == End(|PrintBody(g, c)|)
  {
    hide PrintParams, ToolEnd, PrintableParam;
    var head, params := c.name + ">" + c.gap, PrintParams(g, c.params, c.gap);
    assert PrintBody(g, c) + g.funcEnd + tail == head + (params + (g.funcEnd + tail));
    CleanIsSkipped(g, head, params + (g.funcEnd + tail), 1, false);
    ParamsThenEnd(g, c, tail);
  }

  /** A whole call that stands outside the parameters is passed over: its FUNC_END closes its own
      FUNC_START. */
  lemma NestedCallIsPassed(g: Schema, c: Call, rest: Text, depth: nat)
    requires g.Valid() && Printable(g, c) && depth >= 1
    ensures ToolEnd(g, Print(g, c) + rest, depth, false) == Shift(ToolEnd(g, rest, depth, false), |Print(g, c)|)
  {
    hide PrintParams, ToolEnd, PrintableParam;
    var head, params := c.name + ">" + c.gap, PrintParams(g, c.params, c.gap);
    var behind := g.funcEnd + rest;
    assert Print(g, c) + rest == g.funcStart + (head + (params + behind));
    FuncOpens(g, head + (params + behind), depth);
    CleanIsSkipped(g, head, params + behind, depth + 1, false);
    ParamsAreSkipped(g, c.params, c.gap, behind, depth + 1);
    InnerFuncCloses(g, rest, depth);
  }

  lemma FuncOpens(g: Schema, rest: Text, depth: nat)
    requires g.Valid()
    ensures ToolEnd(g, g.funcStart + rest, depth, false) == Shift(ToolEnd(g, rest, depth + 1, false), |g.funcStart|)
  {
    OnlyTag(g, g.funcStart + rest, FuncStart, false);
    assert (g.funcStart + rest)[|g.funcStart|..] == rest;
  }

  lemma InnerFuncCloses(g: Schema, rest: Text, depth: nat)
    requires g.Valid() && depth >= 1
    ensures ToolEnd(g, g.funcEnd + rest, depth + 1, false) == Shift(ToolEnd(g, rest, depth, false), |g.funcEnd|)
  {
    FuncEndHere(g, rest);
    assert (g.funcEnd + rest)[|g.funcEnd|..] == rest;
  }

  /** A PARAM_END outside a parameter is text. */
  lemma StrayEndIsText(g: Schema, rest: Text, depth: nat)
    requires g.Valid()
    ensures ToolEnd(g, g.paramEnd + rest, depth, false) == Shift(ToolEnd(g, rest, depth, false), |g.paramEnd|)
  {
    hide TagAt;
    StrayEndIsNone(g, rest);
    assert (g.paramEnd + rest)[1..] == g.paramEnd[1..] + rest;
    CleanIsSkipped(g, g.paramEnd[1..], rest, depth, false);
  }

  lemma StrayEndIsNone(g: Schema, rest: Text)
    requires g.Valid()
    ensures TagAt(g, g.paramEnd + rest, false) == NoTag
  {
    var s := g.paramEnd + rest;
    PrefixExclusive(g.paramStart, g.paramEnd, rest);
    PrefixExclusive(g.funcStart, g.paramEnd, rest);
    PrefixExclusive(g.funcEnd, g.paramEnd, rest);
    forall k | 0 <= k < |g.bare| ensures !(g.bare[k] <= s) {
      PrefixExclusive(g.bare[k], g.paramEnd, rest);
    }
    NoBareIn(g, g.bare, s);
  }

  /** So the end of a call is its own last FUNC_END even if a stray PARAM_END and another call stand
      behind its parameters. */
  lemma NestedCallEnds(g: Schema, c: Call, inner: Call, tail: Text)
    requires g.Valid() && Printable(g, c) && Printable(g, inner)
    ensures ToolEnd(g, PrintBody(g, c) + g.paramEnd + Print(g, inner) + g.funcEnd + tail, 1, false)
         == End(|PrintBody(g, c) + g.paramEnd + Print(g, inner)|)
  {
    hide PrintParams, Print, ToolEnd, PrintableParam;
    var head, params, nested := c.name + ">" + c.gap, PrintParams(g, c.params, c.gap), Print(g, inner);
    var behind := g.paramEnd + (nested + (g.funcEnd + tail));
    assert PrintBody(g, c) + g.paramEnd + nested + g.funcEnd + tail == head + (params + behind);
    CleanIsSkipped(g, head, params + behind, 1, false);
    ParamsAreSkipped(g, c.params, c.gap, behind, 1);
    StrayEndIsText(g, nested + (g.funcEnd + tail), 1);
    NestedCallIsPassed(g, inner, g.funcEnd + tail, 1);
    FuncCloses(g, tail);
  }

  lemma ParamsThenEnd(g: Schema, c: Call, tail: Text)
    requires g.Valid() && Printable(g, c)
    ensures ToolEnd(g, PrintParams(g, c.params, c.gap) + (g.funcEnd + tail), 1,
            false) == End(|PrintParams(g, c.params, c.gap)|)
  {
    ParamsAreSkipped(g, c.params, c.gap, g.funcEnd + tail, 1);
    FuncCloses(g, tail);
  }

  // --- The loops of the source --------------------------------------------------------------

  /** find_bare_param_open: the earliest of the bare tags, with its length. */
  method FindBareOpen(text: Text, tags: seq<Text>, start: nat) returns (best: nat, length: nat)
    requires start <= |text|
    requires forall k :: 0 <= k < |tags| ==> IsTag(tags[k])
    ensures start <= best <= |text|
    ensures best < |text| ==> exists k :: 0 <= k < |tags| && StartsAt(text, best, tags[k]) && length == |tags[k]|
    ensures forall i, k :: start <= i < best && 0 <= k < |tags| ==> !StartsAt(text, i, tags[k])
  {
    best, length := |text|, 0;
    var j := 0;
    while j < |tags|
      invariant 0 <= j <= |tags| && start <= best <= |text|
      invariant best < |text| ==> exists k :: 0 <= k < j && StartsAt(text, best, tags[k]) && length == |tags[k]|
      invariant forall i, k :: start <= i < best && 0 <= k < j ==> !StartsAt(text, i, tags[k])
    {
      var pos := Find(text, tags[j], start);
      if pos < best {
        best, length := pos, |tags[j]|;
      }
      j := j + 1;
    }
  }

  /** No tag that counts starts at this position. */
  predicate Tagless(g: Schema, text: Text, i: nat, inParameter: bool) {
    i <= |text| && TagAt(g, text[i..], inParameter) == NoTag
  }

  /** The earliest of the five events of the scan. */
  method NextEvent(g: Schema, text: Text, pos: nat, inParameter: bool) returns (next: nat, tag: Tag)
    requires g.Valid() && pos <= |text|
    ensures pos <= next <= |text|
    ensures forall i :: pos <= i < next ==> Tagless(g, text, i, inParameter)
    ensures next < |text| ==> tag == TagAt(g, text[next..], inParameter) != NoTag
  {
    var start := Find(text, g.funcStart, pos);
    var end := Find(text, g.funcEnd, pos);
    var paramStart := Find(text, g.paramStart, pos);
    var paramEnd, bare, length := |text|, |text|, 0;
    if inParameter {
      paramEnd := Find(text, g.paramEnd, pos);
    } else {
      bare, length := FindBareOpen(text, g.bare, pos);
    }
    next, tag := start, FuncStart;
    if end < next {
      next, tag := end, FuncEnd;
    }
    if paramStart < next {
      next, tag := paramStart, ParamStart;
    }
    if paramEnd < next {
      next, tag := paramEnd, ParamEnd;
    }
    if bare < next {
      next, tag := bare, BareStart(length);
    }
    forall i | pos <= i < next ensures Tagless(g, text, i, inParameter) {
      NothingAt(g, text, i, inParameter);
    }
    if next < |text| {
      OnlyTag(g, text[next..], tag, inParameter);
    }
  }

  lemma NothingAt(g: Schema, text: Text, i: nat, inParameter: bool)
    requires i <= |text| && !StartsAt(text, i, g.funcStart) && !StartsAt(text, i, g.funcEnd)
            && !StartsAt(text, i, g.paramStart)
    requires inParameter ==> !StartsAt(text, i, g.paramEnd)
    requires !inParameter ==> forall k :: 0 <= k < |g.bare| ==> !StartsAt(text, i, g.bare[k])
    ensures Tagless(g, text, i, inParameter)
  {
    if !inParameter {
      forall k | 0 <= k < |g.bare| ensures !(g.bare[k] <= text[i..]) {
        assert !StartsAt(text, i, g.bare[k]);
      }
      NoBareIn(g, g.bare, text[i..]);
    }
  }

  /** The text starts with the tag. */
  ghost predicate Carries(g: Schema, s: Text, tag: Tag, inParameter: bool) {
    match tag
    case NoTag => false
    case FuncStart => g.funcStart <= s
    case FuncEnd => g.funcEnd <= s
    case ParamStart => g.paramStart <= s
    case ParamEnd => inParameter && g.paramEnd <= s
    case BareStart(n) => !inParameter && exists k :: 0 <= k < |g.bare| && g.bare[k] <= s && n == |g.bare[k]|
  }

  lemma NotBoth(a: Text, b: Text, s: Text)
    requires Distinct(a, b) && a <= s
    ensures !(b <= s)
  {
    if |a| <= |b| {
      assert s[..|a|] == a;
      assert |b| <= |s| ==> s[..|b|][..|a|] == a;
    } else {
      assert |b| <= |s| ==> a[..|b|] == s[..|b|];
    }
  }

  lemma EndsAtFirstGreater(a: Text, s: Text)
    requires |a| > 0 && a <= s && a[|a| - 1] == '>' && '>' !in a[..|a| - 1]
    ensures s[|a| - 1] == '>' && forall i :: 0 <= i < |a| - 1 ==> s[i] != '>'
  {
    forall i | 0 <= i < |a| - 1 ensures s[i] != '>' {
      assert a[..|a| - 1][i] == a[i] == s[i];
    }
  }

  /** Two bare tags at one position are the same: both end at the first '>'. */
  lemma SameBare(a: Text, b: Text, s: Text)
    requires |a| > 0 && |b| > 0 && a <= s && b <= s
    requires a[|a| - 1] == '>' && '>' !in a[..|a| - 1] && b[|b| - 1] == '>' && '>' !in b[..|b| - 1]
    ensures |a| == |b|
  {
    EndsAtFirstGreater(a, s);
    EndsAtFirstGreater(b, s);
  }

  lemma {:induction false} BareLengthIs(g: Schema, tags: seq<Text>, s: Text, k: nat)
    requires k < |tags| && tags[k] <= s && forall j :: 0 <= j < |tags| ==> g.IsBareTag(tags[j])
    ensures BareLength(tags, s) == |tags[k]|
  {
    assert g.IsBareTag(tags[0]) && g.IsBareTag(tags[k]);
    if tags[0] <= s {
      SameBare(tags[0], tags[k], s);
    } else {
      BareLengthIs(g, tags[1..], s, k - 1);
    }
  }

  lemma NoBareWith(g: Schema, tag: Text, s: Text)
    requires g.Valid() && tag <= s && (tag == g.funcStart || tag == g.funcEnd)
    ensures BareLength(g.bare, s) == 0
  {
    forall k | 0 <= k < |g.bare| ensures !(g.bare[k] <= s) {
      assert g.IsBareTag(g.bare[k]);
      NotBoth(tag, g.bare[k], s);
    }
    NoBareIn(g, g.bare, s);
  }

  /** At most one tag starts at a position. */
  lemma OnlyTag(g: Schema, s: Text, tag: Tag, inParameter: bool)
    requires g.Valid() && Carries(g, s, tag, inParameter)
    ensures TagAt(g, s, inParameter) == tag
  {
    match tag
    case FuncStart =>
      NotBoth(g.funcStart, g.paramStart, s);
      NotBoth(g.funcStart, g.paramEnd, s);
      NoBareWith(g, g.funcStart, s);
    case FuncEnd =>
      NotBoth(g.funcEnd, g.paramStart, s);
      NotBoth(g.funcEnd, g.paramEnd, s);
      NotBoth(g.funcEnd, g.funcStart, s);
      NoBareWith(g, g.funcEnd, s);
    case ParamStart =>
    case ParamEnd =>
      NotBoth(g.paramEnd, g.paramStart, s);
    case BareStart(n) =>
      var k :| 0 <= k < |g.bare| && g.bare[k] <= s && n == |g.bare[k]|;
      assert g.IsBareTag(g.bare[k]);
      NotBoth(g.bare[k], g.paramStart, s);
      BareLengthIs(g, g.bare, s, k);
  }

  /** The scan moves over positions where nothing starts. */
  lemma {:induction false} SkipTo(g: Schema, text: Text, pos: nat, next: nat, depth: nat, inParameter: bool)
    requires pos <= next <= |text| && forall i :: pos <= i < next ==> Tagless(g, text, i, inParameter)
    ensures ToolEnd(g, text[pos..], depth, inParameter) == Shift(ToolEnd(g, text[next..], depth, inParameter),
            next - pos)
    ensures var rest := LastTagEnd(g, text[next..], depth, inParameter);
            LastTagEnd(g, text[pos..], depth, inParameter) == if rest == 0 then 0 else next - pos + rest
    decreases next - pos
  {
    if pos < next {
      assert Tagless(g, text, pos, inParameter);
      assert text[pos..][1..] == text[pos + 1..];
      SkipTo(g, text, pos + 1, next, depth, inParameter);
    }
  }

  /** One event of the scan. */
  lemma EventStep(g: Schema, text: Text, at: nat, tag: Tag, depth: nat, inParameter: bool)
    requires g.Valid() && at < |text| && tag == TagAt(g, text[at..], inParameter) != NoTag
    ensures 0 < TagLength(g, tag) && at + TagLength(g, tag) <= |text|
    ensures tag == FuncEnd && !inParameter && depth <= 1 ==> ToolEnd(g, text[at..], depth, inParameter) == End(0)
    ensures !(tag == FuncEnd && !inParameter && depth <= 1) ==>
              ToolEnd(g, text[at..], depth, inParameter)
              == Shift(ToolEnd(g, text[at + TagLength(g, tag)..], NextDepth(tag, depth, inParameter),
                  NextInParameter(tag, inParameter)),
                       TagLength(g, tag))
    ensures LastTagEnd(g, text[at..], depth, inParameter)
         == TagLength(g, tag)
            + LastTagEnd(g, text[at + TagLength(g, tag)..], NextDepth(tag, depth, inParameter),
                NextInParameter(tag, inParameter))
  {
    BareFits(g.bare, text[at..]);
    assert text[at..][TagLength(g, tag)..] == text[at + TagLength(g, tag)..];
  }

  lemma {:induction false} BareFits(tags: seq<Text>, s: Text)
    ensures BareLength(tags, s) <= |s|
  {
  }

  /** The state in which the call's text is scanned. */
  ghost predicate ScannedTo(g: Schema, text: Text, start: nat, pos: nat, depth: nat, inParameter: bool) {
    && start <= pos <= |text| && depth > 0
    && ToolEnd(g, text[start..], 1, false) == Shift(ToolEnd(g, text[pos..], depth, inParameter), pos - start)
    && LastTagEnd(g, text[start..], 1, false) == pos - start + LastTagEnd(g, text[pos..], depth, inParameter)
  }

  /** FUNC_END without its last character. */
  predicate PartialEndAt(g: Schema, text: Text, i: nat)
    requires g.funcEnd != []
  {
    StartsAt(text, i, g.funcEnd[..|g.funcEnd| - 1])
  }

  ghost predicate FirstPartialEnd(g: Schema, text: Text, from: int, i: int)
    requires g.funcEnd != []
  {
    0 <= from <= i && PartialEndAt(g, text, i) && forall j :: from <= j < i ==> !PartialEndAt(g, text, j)
  }

  /** find_tool_end_robust.  A complete call is found exactly where the scan says; of an
      incomplete one that does not stop inside a parameter, the first closing tag behind the
      last tag that lacks its last character, if there is one. */
  method FindToolEnd(g: Schema, text: Text, origin: nat) returns (found: bool, end: nat, inParameter: bool)
    requires g.Valid() && origin <= |text|
    ensures var start := if StartsAt(text, origin, g.funcStart) then origin + |g.funcStart| else origin;
            match ToolEnd(g, text[start..], 1, false)
            case End(at) => found && end == start + at && !inParameter
            case Unfinished(p) =>
              && inParameter == p
              && var last := start + LastTagEnd(g, text[start..], 1, false);
              && (found ==> !p && last + |g.funcEnd| - 1 <= end <= |text| && FirstPartialEnd(g, text, last, end - (|g.funcEnd| - 1)))
              && (!found && !p ==> forall i :: last <= i < |text| ==> !PartialEndAt(g, text, i))
  {
    hide ToolEnd, TagAt, LastTagEnd, PartialEndAt, FirstPartialEnd, Tagless;
    var pos := origin;
    if g.funcStart <= text[origin..] {
      pos := pos + |g.funcStart|;
    }
    ghost var start := pos;
    var depth := 1;
    found, end, inParameter := false, |text|, false;
    var more := true;
    while pos < |text| && more && !found
      invariant start <= pos <= |text| && depth > 0
      invariant !found ==> ScannedTo(g, text, start, pos, depth, inParameter)
      invariant found ==> start <= end && !inParameter && ToolEnd(g, text[start..], 1, false) == End(end - start)
      invariant !more && !found ==> forall i :: pos <= i < |text| ==> Tagless(g, text, i, inParameter)
      decreases |text| - pos, more, !found
    {
      ghost var from, was, inside := pos, depth, inParameter;
      more, found, end, pos, depth, inParameter := ScanEvent(g, text, pos, depth, inParameter);
      Compose(ToolEnd(g, text[start..], 1, false), ToolEnd(g, text[from..], was, inside), from - start);
    }
    if !found {
      ScanStopped(g, text, start, pos, depth, inParameter);
      found, end := FindPartialEnd(g, text, pos, inParameter);
    }
  }

  lemma Compose(whole: Found, part: Found, m: nat)
    requires whole == Shift(part, m)
    ensures forall f: Found, n: nat :: part == Shift(f, n) ==> whole == Shift(f, m + n)
  {
  }

  lemma ScanStopped(g: Schema, text: Text, start: nat, pos: nat, depth: nat, inParameter: bool)
    requires ScannedTo(g, text, start, pos, depth, inParameter)
    requires forall i :: pos <= i < |text| ==> Tagless(g, text, i, inParameter)
    ensures ToolEnd(g, text[start..], 1, false) == Unfinished(inParameter)
    ensures LastTagEnd(g, text[start..], 1, false) == pos - start
  {
    SkipTo(g, text, pos, |text|, depth, inParameter);
  }

  /** One trip around the scan's loop. */
  method ScanEvent(g: Schema, text: Text, pos: nat, depth: nat, inParameter: bool)
    returns (more: bool, found: bool, end: nat, pos': nat, depth': nat, inParameter': bool)
    requires g.Valid() && pos < |text| && depth > 0
    ensures pos <= pos' <= |text| && depth' > 0 && (found || !more || pos < pos')
    ensures found ==> more && pos' == pos <= end && !inParameter' && ToolEnd(g, text[pos..], depth, inParameter) == End(end - pos)
    ensures !found ==> ToolEnd(g, text[pos..], depth, inParameter) == Shift(ToolEnd(g, text[pos'..], depth', inParameter'), pos' - pos)
    ensures !found ==> LastTagEnd(g, text[pos..], depth, inParameter) == pos' - pos + LastTagEnd(g, text[pos'..],
            depth', inParameter')
    ensures !found && !more ==> forall i :: pos' <= i < |text| ==> Tagless(g, text, i, inParameter')
  {
    hide ToolEnd, TagAt, LastTagEnd;
    var next, tag := NextEvent(g, text, pos, inParameter);
    more, found, end, pos', depth', inParameter' := true, false, |text|, pos, depth, inParameter;
    if next == |text| {
      more := false;
      Stay(ToolEnd(g, text[pos..], depth, inParameter));
    } else if tag == FuncEnd && !inParameter && depth <= 1 {
      found, end := true, next;
      ScanFinds(g, text, pos, next, depth);
    } else {
      depth', inParameter' := NextDepth(tag, depth, inParameter), NextInParameter(tag, inParameter);
      pos' := next + TagLength(g, tag);
      ScanPasses(g, text, pos, next, tag, depth, inParameter);
    }
  }

  lemma ScanFinds(g: Schema, text: Text, pos: nat, next: nat, depth: nat)
    requires g.Valid() && pos <= next < |text| && depth == 1 && TagAt(g, text[next..], false) == FuncEnd
    requires forall i :: pos <= i < next ==> Tagless(g, text, i, false)
    ensures ToolEnd(g, text[pos..], depth, false) == End(next - pos)
  {
    SkipTo(g, text, pos, next, depth, false);
    EventStep(g, text, next, FuncEnd, depth, false);
  }

  lemma ScanPasses(g: Schema, text: Text, pos: nat, next: nat, tag: Tag, depth: nat, inParameter: bool)
    requires g.Valid() && pos <= next < |text| && tag == TagAt(g, text[next..], inParameter) != NoTag
    requires !(tag == FuncEnd && !inParameter && depth <= 1)
    requires forall i :: pos <= i < next ==> Tagless(g, text, i, inParameter)
    ensures 0 < TagLength(g, tag) && next + TagLength(g, tag) <= |text|
    ensures ToolEnd(g, text[pos..], depth, inParameter)
         == Shift(ToolEnd(g, text[next + TagLength(g, tag)..], NextDepth(tag, depth, inParameter),
             NextInParameter(tag, inParameter)),
                  next - pos + TagLength(g, tag))
    ensures LastTagEnd(g, text[pos..], depth, inParameter)
         == next - pos + TagLength(g, tag)
            + LastTagEnd(g, text[next + TagLength(g, tag)..], NextDepth(tag, depth, inParameter),
                NextInParameter(tag, inParameter))
  {
    SkipTo(g, text, pos, next, depth, inParameter);
    EventStep(g, text, next, tag, depth, inParameter);
  }

  lemma Stay(f: Found)
    ensures f == Shift(f, 0)
  {
  }

  /** The fallback for a closing tag that is cut short.  No tag starts behind `pos`, so
      the tags it looks for are not there and the parameter state cannot change. */
  method FindPartialEnd(g: Schema, text: Text, origin: nat, inParameter: bool) returns (found: bool, end: nat)
    requires g.Valid() && origin <= |text|
    requires forall i :: origin <= i < |text| ==> Tagless(g, text, i, inParameter)
    ensures found ==>
              && !inParameter && origin + |g.funcEnd| - 1 <= end <= |text|
              && FirstPartialEnd(g, text, origin, end - (|g.funcEnd| - 1))
    ensures !found && !inParameter ==> forall i :: origin <= i < |text| ==> !PartialEndAt(g, text, i)
  {
    var partial := g.funcEnd[..|g.funcEnd| - 1];
    var pos := origin;
    found, end := false, |text|;
    assert forall i: nat :: PartialEndAt(g, text, i) == StartsAt(text, i, partial);
    while pos < |text|
      invariant origin <= pos <= |text|
      invariant !inParameter ==> pos == origin
      decreases |text| - pos
    {
      var next := Find(text, partial, pos);
      if next == |text| {
        break;
      }
      if inParameter {
        pos := next + |partial|;
      } else {
        return true, next + |partial|;
      }
    }
  }

  lemma RawFound(token: Text, text: Text, origin: nat, found: nat)
    requires token != [] && origin <= found <= |text| && (found < |text| ==> StartsAt(text, found, token))
    requires forall i :: origin <= i < found ==> !StartsAt(text, i, token)
    ensures HasRaw(token, text[origin..]) <==> found < |text|
  {
    if found < |text| {
      assert text[origin..][found - origin..] == text[found..];
    }
    forall i | 0 <= i <= |text[origin..]| && token <= text[origin..][i..] ensures found < |text| {
      assert text[origin..][i..] == text[origin + i..];
      assert StartsAt(text, origin + i, token);
    }
  }
}
