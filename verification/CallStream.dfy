/** The check for the end of a call after every token while it is being generated. */
module CallStream {
  import opened Escape
  import opened TextSearch
  import opened ToolCall

  /** What find_tool_end_robust reports of a text: nothing, the end of the call, or a closing tag
      that lacks its last character. */
  datatype Report = Nothing | Complete(at: nat) | Cut(at: nat)

  ghost predicate ReportIs(g: Schema, s: Text, inParameter: bool, r: Report)
    requires g.Valid()
  {
    match r
    case Complete(at) => ToolEnd(g, s, 1, inParameter) == End(at)
    case Cut(at) =>
      ToolEnd(g, s, 1, inParameter) == Unfinished(false) && FirstPartialEnd(g, s, LastTagEnd(g, s, 1, inParameter), at)
    case Nothing =>
      && ToolEnd(g, s, 1, inParameter).Unfinished?
      && (!ToolEnd(g, s, 1, inParameter).inParameter ==> NoPartialEnd(g, s, LastTagEnd(g, s, 1, inParameter)))
  }

  ghost predicate NoPartialEnd(g: Schema, s: Text, from: nat)
    requires g.funcEnd != []
  {
    forall i :: from <= i < |s| ==> !PartialEndAt(g, s, i)
  }

  function Moved(r: Report, n: nat): Report {
    match r
    case Nothing => Nothing
    case Complete(at) => Complete(at + n)
    case Cut(at) => Cut(at + n)
  }

  /** What is reported of the first n characters of a text that ends with FUNC_END. */
  function Expected(g: Schema, total: nat, n: nat): Report
    requires |g.funcEnd| <= total
  {
    if n == total then Complete(total - |g.funcEnd|)
    else if n == total - 1 then Cut(total - |g.funcEnd|)
    else Nothing
  }

  /** Every start of this text is reported as it should be. */
  ghost predicate Streamed(g: Schema, s: Text, inParameter: bool)
    requires g.Valid()
  {
    |g.funcEnd| <= |s| && forall n :: 0 <= n <= |s| ==> ReportIs(g, s[..n], inParameter, Expected(g, |s|, n))
  }

  /** A text that was passed as a whole. */
  ghost predicate Passed(g: Schema, u: Text, rest: Text, inParameter: bool, after: bool)
    requires g.Valid()
  {
    var last, whole := LastTagEnd(g, rest, 1, after), LastTagEnd(g, u + rest, 1, inParameter);
    && ToolEnd(g, u + rest, 1, inParameter) == Shift(ToolEnd(g, rest, 1, after), |u|)
    && (whole == |u| + last || (whole == 0 == last && Clean(u)))
  }

  lemma PartialBehind(g: Schema, u: Text, rest: Text, i: nat)
    requires g.Valid() && i <= |rest|
    ensures PartialEndAt(g, u + rest, |u| + i) == PartialEndAt(g, rest, i)
  {
    assert (u + rest)[|u| + i..] == rest[i..];
  }

  lemma CleanHasNone(g: Schema, u: Text, rest: Text, i: nat)
    requires g.Valid() && Clean(u) && i < |u|
    ensures !PartialEndAt(g, u + rest, i)
  {
    assert (u + rest)[i..][0] == u[i];
    assert g.funcEnd[..|g.funcEnd| - 1][0] == '<';
  }

  lemma ReportPasses(g: Schema, u: Text, rest: Text, inParameter: bool, after: bool, r: Report)
    requires g.Valid() && Passed(g, u, rest, inParameter, after) && ReportIs(g, rest, after, r)
    ensures ReportIs(g, u + rest, inParameter, Moved(r, |u|))
  {
    hide ToolEnd, LastTagEnd;
    var last, whole := LastTagEnd(g, rest, 1, after), LastTagEnd(g, u + rest, 1, inParameter);
    forall i | whole <= i < |u + rest|
      ensures PartialEndAt(g, u + rest, i) == (i >= |u| && PartialEndAt(g, rest, i - |u|))
    {
      if i < |u| {
        CleanHasNone(g, u, rest, i);
      } else {
        PartialBehind(g, u, rest, i - |u|);
      }
    }
    if r.Cut? {
      PartialBehind(g, u, rest, r.at);
    }
  }

  lemma StreamPass(g: Schema, u: Text, rest: Text, inParameter: bool, after: bool)
    requires g.Valid() && Streamed(g, rest, after)
    requires forall n :: 0 <= n <= |rest| ==> Passed(g, u, rest[..n], inParameter, after)
    requires forall n :: 0 <= n < |u| ==> ReportIs(g, u[..n], inParameter, Nothing)
    ensures Streamed(g, u + rest, inParameter)
  {
    hide ReportIs, Passed;
    forall n | 0 <= n <= |u + rest| ensures ReportIs(g, (u + rest)[..n], inParameter, Expected(g, |u + rest|, n)) {
      if n < |u| {
        assert (u + rest)[..n] == u[..n];
      } else {
        assert (u + rest)[..n] == u + rest[..n - |u|];
        ReportPasses(g, u, rest[..n - |u|], inParameter, after, Expected(g, |rest|, n - |u|));
      }
    }
  }

  lemma {:induction false} CleanLast(g: Schema, u: Text, rest: Text, inParameter: bool)
    requires g.Valid() && Clean(u)
    ensures var last := LastTagEnd(g, rest, 1, inParameter);
            LastTagEnd(g, u + rest, 1, inParameter) == if last == 0 then 0 else |u| + last
    decreases |u|
  {
    if u == [] {
      assert u + rest == rest;
    } else {
      assert (u + rest)[1..] == u[1..] + rest;
      NoTagHere(g, u + rest, inParameter);
      CleanLast(g, u[1..], rest, inParameter);
    }
  }

  lemma PassClean(g: Schema, u: Text, rest: Text, inParameter: bool)
    requires g.Valid() && Clean(u)
    ensures Passed(g, u, rest, inParameter, inParameter)
  {
    CleanIsSkipped(g, u, rest, 1, inParameter);
    CleanLast(g, u, rest, inParameter);
  }

  lemma CleanNothing(g: Schema, u: Text, inParameter: bool)
    requires g.Valid() && Clean(u)
    ensures ReportIs(g, u, inParameter, Nothing)
    ensures ToolEnd(g, u, 1, inParameter) == Unfinished(inParameter) && LastTagEnd(g, u, 1, inParameter) == 0
  {
    assert u + [] == u;
    CleanIsSkipped(g, u, [], 1, inParameter);
    CleanLast(g, u, [], inParameter);
    forall i | 0 <= i < |u| ensures !PartialEndAt(g, u, i) {
      CleanHasNone(g, u, [], i);
    }
  }

  lemma StreamClean(g: Schema, u: Text, rest: Text, inParameter: bool)
    requires g.Valid() && Clean(u) && Streamed(g, rest, inParameter)
    ensures Streamed(g, u + rest, inParameter)
  {
    hide ReportIs, Passed;
    forall n | 0 <= n <= |rest| ensures Passed(g, u, rest[..n], inParameter, inParameter) {
      PassClean(g, u, rest[..n], inParameter);
    }
    forall n | 0 <= n < |u| ensures ReportIs(g, u[..n], inParameter, Nothing) {
      CleanNothing(g, u[..n], inParameter);
    }
    StreamPass(g, u, rest, inParameter, inParameter);
  }

  // Tags that are not complete yet.

  /** A tag that the scan looks for outside a parameter. */
  predicate Sought(g: Schema, tag: Text) {
    IsOpener(g, tag) || tag == g.funcEnd
  }

  lemma SoughtIsTag(g: Schema, tag: Text)
    requires g.Valid() && Sought(g, tag)
    ensures IsTag(tag)
    ensures forall other :: other in [g.paramStart, g.funcStart, g.funcEnd] + g.bare ==> tag == other || !(other <= tag)
  {
    if tag in g.bare {
      var k :| 0 <= k < |g.bare| && g.bare[k] == tag;
      assert g.IsBareTag(g.bare[k]);
    }
    forall other | other in [g.paramStart, g.funcStart, g.funcEnd] + g.bare && other <= tag ensures other == tag {
      if other in g.bare {
        var k :| 0 <= k < |g.bare| && g.bare[k] == other;
        assert g.IsBareTag(g.bare[k]);
        if tag in g.bare {
          SameBare(other, tag, tag);
        }
      }
    }
  }

  /** The start of a tag is no other tag. */
  lemma CutTagIsNone(g: Schema, tag: Text, n: nat)
    requires g.Valid() && Sought(g, tag) && 0 < n < |tag|
    ensures TagAt(g, tag[..n], false) == NoTag
  {
    var s, known := tag[..n], [g.paramStart, g.funcStart, g.funcEnd] + g.bare;
    assert s <= tag;
    SoughtIsTag(g, tag);
    forall other | other in known ensures !(other <= s) {
      Within(other, s, tag);
    }
    assert g.paramStart == known[0] && g.funcStart == known[1] && g.funcEnd == known[2];
    forall k | 0 <= k < |g.bare| ensures !(g.bare[k] <= s) {
      assert g.bare[k] == known[3 + k];
    }
    NoBareIn(g, g.bare, s);
  }

  lemma Within(a: Text, s: Text, b: Text)
    requires s <= b && (a == b || !(a <= b)) && |s| < |b|
    ensures !(a <= s)
  {
    assert |a| <= |s| ==> s[..|a|] == b[..|a|];
  }

  lemma CutTagScans(g: Schema, tag: Text, n: nat)
    requires g.Valid() && Sought(g, tag) && n < |tag|
    ensures ToolEnd(g, tag[..n], 1, false) == Unfinished(false) && LastTagEnd(g, tag[..n], 1, false) == 0
    ensures forall i :: 0 < i < n ==> !PartialEndAt(g, tag[..n], i)
  {
    hide PartialEndAt, TagAt, Clean, Sought;
    if n > 0 {
      var s := tag[..n];
      CutTagIsNone(g, tag, n);
      CutTagIsClean(g, tag, n);
      CleanNothing(g, s[1..], false);
      assert s == [s[0]] + s[1..] && s[1..] + [] == s[1..];
      forall i | 0 < i < n ensures !PartialEndAt(g, s, i) {
        PartialBehind(g, [s[0]], s[1..], i - 1);
        CleanHasNone(g, s[1..], [], i - 1);
      }
    }
  }

  lemma CutTagIsClean(g: Schema, tag: Text, n: nat)
    requires g.Valid() && Sought(g, tag) && 0 < n < |tag|
    ensures Clean(tag[..n][1..])
  {
    SoughtIsTag(g, tag);
    assert tag[..n][1..] == tag[1..n] && forall i :: 0 <= i < n - 1 ==> tag[1..n][i] == tag[1..][i];
  }

  /** FUNC_END without its last character starts no tag that opens a parameter. */
  ghost predicate CutIsOwn(g: Schema) {
    g.funcEnd != [] && forall tag :: IsOpener(g, tag) ==> !(g.funcEnd[..|g.funcEnd| - 1] <= tag)
  }

  lemma OpenNothing(g: Schema, tag: Text, n: nat)
    requires g.Valid() && CutIsOwn(g) && IsOpener(g, tag) && n < |tag|
    ensures ReportIs(g, tag[..n], false, Nothing)
  {
    hide ToolEnd, LastTagEnd;
    var s := tag[..n];
    CutTagScans(g, tag, n);
    assert s[0..] == s;
    Within(g.funcEnd[..|g.funcEnd| - 1], s, tag);
  }

  lemma StreamEnd(g: Schema)
    requires g.Valid()
    ensures Streamed(g, g.funcEnd, false)
  {
    hide ToolEnd, LastTagEnd;
    forall n | 0 <= n <= |g.funcEnd| ensures ReportIs(g, g.funcEnd[..n], false, Expected(g, |g.funcEnd|, n)) {
      if n == |g.funcEnd| {
        FuncCloses(g, []);
        assert g.funcEnd + [] == g.funcEnd == g.funcEnd[..n];
      } else {
        var s := g.funcEnd[..n];
        CutTagScans(g, g.funcEnd, n);
        assert s[0..] == s;
      }
    }
  }

  lemma StreamOpen(g: Schema, tag: Text, rest: Text)
    requires g.Valid() && CutIsOwn(g) && IsOpener(g, tag) && Streamed(g, rest, true)
    ensures Streamed(g, tag + rest, false)
  {
    hide ReportIs, Passed, IsOpener;
    forall n | 0 <= n <= |rest| ensures Passed(g, tag, rest[..n], false, true) {
      PassOpener(g, tag, rest[..n]);
    }
    forall n | 0 <= n < |tag| ensures ReportIs(g, tag[..n], false, Nothing) {
      OpenNothing(g, tag, n);
    }
    StreamPass(g, tag, rest, false, true);
  }

  lemma PassOpener(g: Schema, tag: Text, rest: Text)
    requires g.Valid() && IsOpener(g, tag)
    ensures Passed(g, tag, rest, false, true)
  {
    hide TagAt;
    ParamOpens(g, tag, rest, 1);
    OpenerHere(g, tag, rest);
    assert (tag + rest)[|tag|..] == rest;
  }

  // Values.

  lemma {:induction false} ValueLast(g: Schema, value: Text, rest: Text)
    requires g.Valid() && !HasRaw(g.paramEnd, value)
    ensures LastTagEnd(g, value + (g.paramEnd + rest), 1, true) == |value| + |g.paramEnd| + LastTagEnd(g, rest, 1,
            false)
    decreases |value|
  {
    hide LastTagEnd, HasRaw, TagAt;
    var tail := g.paramEnd + rest;
    if value == [] {
      assert value + tail == tail;
      ParamEndLast(g, rest);
    } else {
      var n := TagLength(g, TagAt(g, value, true));
      ValueStep(g, value, tail, 1);
      RawInTail(g.paramEnd, value, n);
      ValueLast(g, value[n..], rest);
      ValueStepLast(g, value, tail);
    }
  }

  lemma ParamEndLast(g: Schema, rest: Text)
    requires g.Valid()
    ensures LastTagEnd(g, g.paramEnd + rest, 1, true) == |g.paramEnd| + LastTagEnd(g, rest, 1, false)
  {
    hide TagAt;
    ParamEndHere(g, rest);
    assert (g.paramEnd + rest)[|g.paramEnd|..] == rest;
  }

  lemma ValueStepLast(g: Schema, value: Text, tail: Text)
    requires g.Valid() && value != [] && !HasRaw(g.paramEnd, value) && tail != [] && tail[0] == '<'
    requires 0 < TagLength(g, TagAt(g, value, true)) <= |value|
    requires LastTagEnd(g, value[TagLength(g, TagAt(g, value, true))..] + tail, 1, true) > 0
    ensures var n := TagLength(g, TagAt(g, value, true));
            LastTagEnd(g, value + tail, 1, true) == n + LastTagEnd(g, value[n..] + tail, 1, true)
  {
    hide TagAt, HasRaw;
    var n := TagLength(g, TagAt(g, value, true));
    TagInValue(g, value, tail);
    StaysInValue(g, value);
    assert (value + tail)[n..] == value[n..] + tail;
  }

  lemma StaysInValue(g: Schema, value: Text)
    requires g.Valid() && !HasRaw(g.paramEnd, value)
    ensures NextInParameter(TagAt(g, value, true), true)
  {
    assert value[0..] == value && !(g.paramEnd <= value[0..]);
  }

  /** Inside a parameter nothing ends while there is no PARAM_END. */
  lemma {:induction false} ValueGoesOn(g: Schema, s: Text)
    requires g.Valid() && !HasRaw(g.paramEnd, s)
    ensures ToolEnd(g, s, 1, true) == Unfinished(true)
    decreases |s|
  {
    if s != [] {
      assert s[0..] == s && !(g.paramEnd <= s[0..]);
      var t := TagAt(g, s, true);
      var n := if 0 < TagLength(g, t) <= |s| then TagLength(g, t) else 1;
      RawInTail(g.paramEnd, s, n);
      ValueGoesOn(g, s[n..]);
    }
  }

  /** A tag that is not complete does not complete one across the border. */
  lemma CutValueHasNoEnd(g: Schema, value: Text, n: nat)
    requires g.Valid() && !HasRaw(g.paramEnd, value) && n < |value| + |g.paramEnd|
    ensures !HasRaw(g.paramEnd, (value + g.paramEnd)[..n])
  {
    var s := (value + g.paramEnd)[..n];
    forall i | 0 <= i <= |s| ensures !(g.paramEnd <= s[i..]) {
      if i < |value| {
        assert !(g.paramEnd <= value[i..]);
        if n <= |value| {
          assert i <= n ==> s[i..] == value[i..][..n - i];
        } else {
          assert s[i..] == value[i..] + s[|value|..];
          TagInside(g.paramEnd, value[i..], s[|value|..]);
        }
      }
    }
  }

  lemma StreamValue(g: Schema, value: Text, rest: Text)
    requires g.Valid() && !HasRaw(g.paramEnd, value) && Streamed(g, rest, false)
    ensures Streamed(g, (value + g.paramEnd) + rest, true)
  {
    hide ReportIs, HasRaw;
    var u := value + g.paramEnd;
    forall n | 0 <= n <= |rest| ensures Passed(g, u, rest[..n], true, false) {
      assert u + rest[..n] == value + (g.paramEnd + rest[..n]);
      ValueIsSkipped(g, value, rest[..n], 1);
      ValueLast(g, value, rest[..n]);
    }
    forall n | 0 <= n < |u| ensures ReportIs(g, u[..n], true, Nothing) {
      CutValueHasNoEnd(g, value, n);
      ValueNothing(g, u[..n]);
    }
    StreamPass(g, u, rest, true, false);
  }

  lemma ValueNothing(g: Schema, s: Text)
    requires g.Valid() && !HasRaw(g.paramEnd, s)
    ensures ReportIs(g, s, true, Nothing)
  {
    ValueGoesOn(g, s);
  }

  // Calls.

  lemma StreamParam(g: Schema, p: Param, gap: Text, rest: Text)
    requires g.Valid() && CutIsOwn(g) && PrintableParam(g, p) && Clean(gap) && Streamed(g, rest, false)
    ensures Streamed(g, PrintParam(g, p, gap) + rest, false)
  {
    hide Streamed, HasRaw, Opening, Inner, PrintableParam, CutIsOwn;
    PrintableOpens(g, p);
    StreamClean(g, gap, rest, false);
    StreamValue(g, Inner(p), gap + rest);
    StreamOpen(g, Opening(g, p), (Inner(p) + g.paramEnd) + (gap + rest));
    assert PrintParam(g, p, gap) + rest == Opening(g, p) + ((Inner(p) + g.paramEnd) + (gap + rest));
  }

  lemma {:induction false} StreamParams(g: Schema, params: seq<Param>, gap: Text, rest: Text)
    requires g.Valid() && CutIsOwn(g) && Clean(gap) && PrintableParams(g, params) && Streamed(g, rest, false)
    ensures Streamed(g, PrintParams(g, params, gap) + rest, false)
    decreases |params|
  {
    hide Streamed, HasRaw;
    if params == [] {
      assert [] + rest == rest;
    } else {
      var first, others := PrintParam(g, params[0], gap), PrintParams(g, params[1..], gap);
      StreamParams(g, params[1..], gap, rest);
      StreamParam(g, params[0], gap, others + rest);
      assert first + others + rest == first + (others + rest);
    }
  }

  /** While a call is generated, whatever other tags its values hold: its end is reported exactly
      when its closing tag is complete but for the last character, and then when it is complete. */
  lemma CallStreams(g: Schema, c: Call, n: nat)
    requires g.Valid() && CutIsOwn(g) && Printable(g, c) && n <= |PrintBody(g, c) + g.funcEnd|
    ensures ReportIs(g, (PrintBody(g, c) + g.funcEnd)[..n], false, Expected(g, |PrintBody(g, c) + g.funcEnd|, n))
  {
    hide ReportIs, PrintParams, PrintableParam, CutIsOwn;
    var head, params := c.name + ">" + c.gap, PrintParams(g, c.params, c.gap);
    StreamEnd(g);
    StreamParams(g, c.params, c.gap, g.funcEnd);
    StreamClean(g, head, params + g.funcEnd, false);
    assert PrintBody(g, c) + g.funcEnd == head + (params + g.funcEnd);
  }

  /** While a parameter is generated, whichever tag opens it, the scan says that the text stops
      inside a parameter, until PARAM_END is complete. */
  lemma InsideIsSeen(g: Schema, c: Call, k: nat, n: nat)
    requires g.Valid() && Printable(g, c) && k < |c.params| && n < |Inner(c.params[k]) + g.paramEnd|
    ensures var before := (c.name + ">" + c.gap) + PrintParams(g, c.params[..k], c.gap);
            ToolEnd(g, before + (Opening(g, c.params[k]) + (Inner(c.params[k]) + g.paramEnd)[..n]), 1,
                false) == Unfinished(true)
  {
    hide ToolEnd, PrintParams, Opening, Inner, HasRaw, Clean;
    var p, inner := c.params[k], (Inner(c.params[k]) + g.paramEnd)[..n];
    assert PrintableParam(g, p);
    PrintableOpens(g, p);
    CutValueHasNoEnd(g, Inner(p), n);
    ValueGoesOn(g, inner);
    ParamOpens(g, Opening(g, p), inner, 1);
    BehindParams(g, c, k, Opening(g, p) + inner);
  }

  /** And between the parameters that it does not, until the next opener is complete. */
  lemma OutsideIsSeen(g: Schema, c: Call, k: nat, between: Text, tag: Text, n: nat)
    requires g.Valid() && Printable(g, c) && k <= |c.params| && Clean(between) && Sought(g, tag) && n < |tag|
    ensures var before := (c.name + ">" + c.gap) + PrintParams(g, c.params[..k], c.gap);
            ToolEnd(g, before + (between + tag[..n]), 1, false) == Unfinished(false)
  {
    hide ToolEnd, PrintParams, HasRaw, Clean, Sought;
    CutTagScans(g, tag, n);
    CleanIsSkipped(g, between, tag[..n], 1, false);
    BehindParams(g, c, k, between + tag[..n]);
  }

  lemma BehindParams(g: Schema, c: Call, k: nat, rest: Text)
    requires g.Valid() && Printable(g, c) && k <= |c.params|
    ensures var before := (c.name + ">" + c.gap) + PrintParams(g, c.params[..k], c.gap);
            ToolEnd(g, before + rest, 1, false) == Shift(ToolEnd(g, rest, 1, false), |before|)
  {
    hide ToolEnd, PrintParams, PrintableParam;
    var head, params := c.name + ">" + c.gap, PrintParams(g, c.params[..k], c.gap);
    assert (head + params) + rest == head + (params + rest);
    CleanIsSkipped(g, head, params + rest, 1, false);
    ParamsAreSkipped(g, c.params[..k], c.gap, rest, 1);
  }

  /** Nor FUNC_START. */
  predicate CutStartsNoCall(g: Schema) {
    g.funcEnd != [] && !(g.funcEnd[..|g.funcEnd| - 1] <= g.funcStart)
  }

  lemma ToolSchemaCutIsOwn()
    ensures CutIsOwn(TOOL_SCHEMA) && CutStartsNoCall(TOOL_SCHEMA) && EndsTag(TOOL_SCHEMA)
  {
    DifferAt(FUNC_END[..|FUNC_END| - 1], FUNC_START, 1);
    DifferAt(FUNC_END[..|FUNC_END| - 1], PARAM_START, 1);
    forall tag | tag in TOOL_SCHEMA.bare ensures !(FUNC_END[..|FUNC_END| - 1] <= tag) {
      var k :| 0 <= k < |TOOL_SCHEMA.bare| && TOOL_SCHEMA.bare[k] == tag;
      assert tag[1] != '/';
    }
  }

  /** repair_malformed_tool_end: put the missing '>' where the closing tag was cut,
      replacing whatever stands before the next one. */
  method RepairToolEnd(text: Text, pos: nat) returns (out: Text)
    requires pos <= |text|
    ensures pos == |text| ==> out == text
    ensures pos < |text| ==> pos < |out| && out[..pos] == text[..pos] && out[pos] == '>'
    ensures pos < |text| && text[pos] == '>' ==> out == text
    ensures pos < |text| && '>' !in text[pos..] ==> out == text[..pos] + ">" + text[pos..]
    ensures pos < |text| && '>' in text[pos..] ==>
              exists k :: pos <= k < |text| && text[k] == '>' && '>' !in text[pos..k] && out == text[..pos] + ">" + text[k + 1..]
  {
    if pos >= |text| || text[pos] == '>' {
      if pos < |text| {
        assert text == text[..pos] + ">" + text[pos + 1..];
      }
      return text;
    }
    var garbage := FindChar(text, '>', pos);
    if garbage == |text| {
      assert text[pos..garbage] == text[pos..];
      out := text[..pos] + ">" + text[pos..];
    } else {
      assert text[pos..][garbage - pos] == '>';
      out := text[..pos] + ">" + text[garbage + 1..];
    }
  }

  /** The reports of a text exclude each other. */
  lemma OneReport(g: Schema, s: Text, inParameter: bool, a: Report, b: Report)
    requires g.Valid() && ReportIs(g, s, inParameter, a) && ReportIs(g, s, inParameter, b)
    ensures a == b
  {
    hide ToolEnd, LastTagEnd;
  }

  function BodyStart(g: Schema, text: Text, origin: nat): nat {
    if StartsAt(text, origin, g.funcStart) then origin + |g.funcStart| else origin
  }

  /** The check after every token of an open call: find the end, and if there is no FUNC_END in
      the text, repair the one that was cut and look for it.  A cut closing tag at the very end of
      the text cannot be repaired yet and is left for the next token; but if the text holds a
      FUNC_END elsewhere, in a parameter's value, the cut one is taken as it is. */
  method SeeToolEnd(g: Schema, text: Text, origin: nat) returns (out: Text, end: int)
    requires g.Valid() && EndsTag(g) && origin <= |text|
    ensures BodyStart(g, text, origin) <= |text|
    ensures forall r :: ReportIs(g, text[BodyStart(g, text, origin)..], false, r) ==> Seen(g, text, origin, r, out, end)
  {
    hide ToolEnd, LastTagEnd, FirstPartialEnd, PartialEndAt, HasRaw, ReportIs;
    out, end := text, -1;
    var found, pos, inParameter := FindToolEnd(g, text, origin);
    ghost var start := BodyStart(g, text, origin);
    ghost var r := Reported(g, text, start, found, pos);
    if found {
      end := pos;
      var exact := Find(text, g.funcEnd, origin);
      RawFound(g.funcEnd, text, origin, exact);
      if exact == |text| {
        assert r.Cut?;
        out, end := RepairAndFind(g, text, origin, pos);
      }
    }
    assert Seen(g, text, origin, r, out, end);
    forall other | ReportIs(g, text[start..], false, other) ensures Seen(g, text, origin, other, out, end) {
      OneReport(g, text[start..], false, r, other);
    }
  }

  /** What is made of a report. */
  ghost predicate Seen(g: Schema, text: Text, origin: nat, r: Report, out: Text, end: int)
    requires g.Valid() && origin <= |text|
  {
    var start := BodyStart(g, text, origin);
    match r
    case Nothing => out == text && end == -1
    case Complete(at) => out == text && end == start + at
    case Cut(at) =>
      var cut := start + at + |g.funcEnd| - 1;
      && cut <= |text|
      && if HasRaw(g.funcEnd, text[origin..]) then out == text && end == cut
         else if cut == |text| then out == text && end == -1
         else end == start + at && cut < |out| && out[..cut] == text[..cut] && StartsAt(out, end, g.funcEnd)
  }

  method RepairAndFind(g: Schema, text: Text, origin: nat, pos: nat) returns (out: Text, end: int)
    requires g.Valid() && EndsTag(g) && origin + |g.funcEnd| - 1 <= pos <= |text|
            && PartialEndAt(g, text, pos - (|g.funcEnd| - 1))
    requires forall i :: origin <= i < |text| ==> !StartsAt(text, i, g.funcEnd)
    ensures pos == |text| ==> out == text && end == -1
    ensures pos < |text| ==>
              end == pos - (|g.funcEnd| - 1) && pos < |out| && out[..pos] == text[..pos]
                  && StartsAt(out, end, g.funcEnd)
  {
    hide StartsAt, PartialEndAt;
    out := RepairToolEnd(text, pos);
    end := Find(out, g.funcEnd, origin);
    RepairFound(g, text, origin, pos, out, end);
    if end == |out| {
      end := -1;
    }
  }

  lemma Reported(g: Schema, text: Text, start: nat, found: bool, pos: nat) returns (r: Report)
    requires g.Valid() && start <= |text|
    requires match ToolEnd(g, text[start..], 1, false)
             case End(at) => found && pos == start + at
             case Unfinished(p) =>
               var last := start + LastTagEnd(g, text[start..], 1, false);
               && (found ==> !p && last + |g.funcEnd| - 1 <= pos <= |text| && FirstPartialEnd(g, text, last, pos - (|g.funcEnd| - 1)))
               && (!found && !p ==> forall i :: last <= i < |text| ==> !PartialEndAt(g, text, i))
    ensures ReportIs(g, text[start..], false, r)
    ensures found <==> !r.Nothing?
    ensures r.Complete? ==> pos == start + r.at && StartsAt(text, pos, g.funcEnd)
    ensures r.Cut? ==> pos == start + r.at + |g.funcEnd| - 1 <= |text| && PartialEndAt(g, text, start + r.at)
  {
    hide ToolEnd, LastTagEnd, PartialEndAt;
    var s := text[start..];
    match ToolEnd(g, s, 1, false)
    case End(at) =>
      r := Complete(at);
      EndIsThere(g, s, 1, false);
      assert text[pos..] == s[at..];
    case Unfinished(p) =>
      r := if found then Cut(pos - (|g.funcEnd| - 1) - start) else Nothing;
      PartialsMove(g, text, start);
  }

  lemma PartialsMove(g: Schema, text: Text, start: nat)
    requires g.Valid() && start <= |text|
    ensures forall i :: 0 <= i <= |text| - start ==>
            PartialEndAt(g, text[start..], i) == PartialEndAt(g, text, start + i)
    ensures forall i :: start <= i <= |text| ==> PartialEndAt(g, text, i) == PartialEndAt(g, text[start..], i - start)
  {
    hide PartialEndAt;
    var s := text[start..];
    assert text == text[..start] + s;
    forall i | start <= i <= |text| ensures PartialEndAt(g, text, i) == PartialEndAt(g, s, i - start) {
      PartialBehind(g, text[..start], s, i - start);
    }
    forall i | 0 <= i <= |s| ensures PartialEndAt(g, s, i) == PartialEndAt(g, text, start + i) {
      PartialBehind(g, text[..start], s, i);
    }
  }

  /** Where the scan ends there is a FUNC_END. */
  lemma {:induction false} EndIsThere(g: Schema, s: Text, depth: nat, inParameter: bool)
    requires ToolEnd(g, s, depth, inParameter).End?
    ensures var at := ToolEnd(g, s, depth, inParameter).at; StartsAt(s, at, g.funcEnd)
    decreases |s|
  {
    hide TagAt;
    var t := TagAt(g, s, inParameter);
    if t == FuncEnd && !inParameter && depth <= 1 {
      FuncEndIsThere(g, s, inParameter);
    } else {
      var n := if 0 < TagLength(g, t) <= |s| then TagLength(g, t) else 1;
      var rest := ToolEnd(g, s[n..], NextDepth(t, depth, inParameter), NextInParameter(t, inParameter));
      EndIsThere(g, s[n..], NextDepth(t, depth, inParameter), NextInParameter(t, inParameter));
      StartsBehind(s, n, rest.at, g.funcEnd);
    }
  }

  lemma FuncEndIsThere(g: Schema, s: Text, inParameter: bool)
    requires TagAt(g, s, inParameter) == FuncEnd
    ensures StartsAt(s, 0, g.funcEnd)
  {
    assert s[0..] == s;
  }

  lemma StartsBehind(s: Text, n: nat, at: nat, word: Text)
    requires n <= |s| && StartsAt(s[n..], at, word)
    ensures StartsAt(s, n + at, word)
  {
    assert s[n..][at..] == s[n + at..];
  }

  /** The repaired FUNC_END is the first one. */
  lemma RepairFound(g: Schema, text: Text, origin: nat, pos: nat, out: Text, again: nat)
    requires g.Valid() && EndsTag(g) && origin + |g.funcEnd| - 1 <= pos <= |text|
            && PartialEndAt(g, text, pos - (|g.funcEnd| - 1))
    requires forall i :: origin <= i < |text| ==> !StartsAt(text, i, g.funcEnd)
    requires pos == |text| ==> out == text
    requires pos < |text| ==> pos < |out| && out[..pos] == text[..pos] && out[pos] == '>'
    requires origin <= again <= |out| && (again < |out| ==> StartsAt(out, again, g.funcEnd))
    requires forall i :: origin <= i < again ==> !StartsAt(out, i, g.funcEnd)
    ensures pos == |text| ==> again == |out|
    ensures pos < |text| ==> again == pos - (|g.funcEnd| - 1) && StartsAt(out, again, g.funcEnd)
  {
    hide StartsAt, PartialEndAt;
    if pos < |text| {
      var at := pos - (|g.funcEnd| - 1);
      RepairedThere(g, text, pos, out);
      forall i | origin <= i < at ensures !StartsAt(out, i, g.funcEnd) {
        SameStart(text, out, pos, i, g.funcEnd);
      }
    }
  }

  predicate EndsTag(g: Schema) {
    g.funcEnd != [] && g.funcEnd[|g.funcEnd| - 1] == '>'
  }

  lemma RepairedThere(g: Schema, text: Text, pos: nat, out: Text)
    requires g.Valid() && EndsTag(g) && |g.funcEnd| - 1 <= pos < |text|
            && PartialEndAt(g, text, pos - (|g.funcEnd| - 1))
    requires pos < |out| && out[..pos] == text[..pos] && out[pos] == '>'
    ensures StartsAt(out, pos - (|g.funcEnd| - 1), g.funcEnd)
  {
    var n, at := |g.funcEnd|, pos - (|g.funcEnd| - 1);
    forall k | 0 <= k < n ensures g.funcEnd[k] == out[at..][k] {
      if k < n - 1 {
        assert g.funcEnd[k] == g.funcEnd[..n - 1][k] == text[at..][k] == text[..pos][at + k] == out[..pos][at + k];
      }
    }
  }

  /** What ends in front of a change is not touched by it. */
  lemma SameStart(a: Text, b: Text, pos: nat, i: nat, word: Text)
    requires i + |word| <= pos <= |a| && pos <= |b| && a[..pos] == b[..pos]
    ensures StartsAt(a, i, word) == StartsAt(b, i, word)
  {
    forall k | i <= k < i + |word| ensures a[k] == b[k] {
      assert a[..pos][k] == b[..pos][k];
    }
    assert a[i..][..|word|] == b[i..][..|word|];
  }

  /** So a call is seen to end exactly when it is complete, and the text is never changed; unless
      it holds a FUNC_END in a value, when the end is seen one character too early. */
  method WatchCall(g: Schema, c: Call, n: nat) returns (text: Text, end: int)
    requires g.Valid() && CutIsOwn(g) && EndsTag(g) && Printable(g, c) && n <= |PrintBody(g, c) + g.funcEnd|
    ensures text == g.funcStart + (PrintBody(g, c) + g.funcEnd)[..n]
    ensures var total := |PrintBody(g, c) + g.funcEnd|;
            end == if n == total then |g.funcStart| + |PrintBody(g, c)|
                   else if n == total - 1 && HasRaw(g.funcEnd, text) then |text|
                   else -1
  {
    hide ReportIs, HasRaw, PrintBody, Printable;
    var generated := g.funcStart + (PrintBody(g, c) + g.funcEnd)[..n];
    assert generated[0..] == generated && generated[|g.funcStart|..] == (PrintBody(g, c) + g.funcEnd)[..n];
    text, end := SeeToolEnd(g, generated, 0);
    CallStreams(g, c, n);
    assert Seen(g, generated, 0, Expected(g, |PrintBody(g, c) + g.funcEnd|, n), text, end);
  }

  // A closing tag that is mangled.

  lemma ParamPasses(g: Schema, p: Param, gap: Text, rest: Text, r: Report)
    requires g.Valid() && PrintableParam(g, p) && Clean(gap) && ReportIs(g, rest, false, r)
    ensures ReportIs(g, PrintParam(g, p, gap) + rest, false, Moved(r, |PrintParam(g, p, gap)|))
  {
    hide ReportIs, Passed, HasRaw, Opening, Inner;
    var inner := Inner(p) + g.paramEnd;
    PrintableOpens(g, p);
    PassClean(g, gap, rest, false);
    ReportPasses(g, gap, rest, false, false, r);
    PassValue(g, Inner(p), gap + rest);
    ReportPasses(g, inner, gap + rest, true, false, Moved(r, |gap|));
    PassOpener(g, Opening(g, p), inner + (gap + rest));
    ReportPasses(g, Opening(g, p), inner + (gap + rest), false, true, Moved(r, |inner + gap|));
    assert PrintParam(g, p, gap) + rest == Opening(g, p) + (inner + (gap + rest));
  }

  lemma PassValue(g: Schema, value: Text, rest: Text)
    requires g.Valid() && !HasRaw(g.paramEnd, value)
    ensures Passed(g, value + g.paramEnd, rest, true, false)
  {
    hide HasRaw;
    assert (value + g.paramEnd) + rest == value + (g.paramEnd + rest);
    ValueIsSkipped(g, value, rest, 1);
    ValueLast(g, value, rest);
  }

  lemma {:induction false} ParamsPass(g: Schema, params: seq<Param>, gap: Text, rest: Text, r: Report)
    requires g.Valid() && PrintableParams(g, params) && Clean(gap) && ReportIs(g, rest, false, r)
    ensures ReportIs(g, PrintParams(g, params, gap) + rest, false, Moved(r, |PrintParams(g, params, gap)|))
    decreases |params|
  {
    hide ReportIs, PrintableParam, PrintParam;
    if params == [] {
      assert [] + rest == rest;
    } else {
      var first, others := PrintParam(g, params[0], gap), PrintParams(g, params[1..], gap);
      ParamsPass(g, params[1..], gap, rest, r);
      ParamPasses(g, params[0], gap, others + rest, Moved(r, |others|));
      assert first + others + rest == first + (others + rest);
    }
  }

  /** Whatever is reported of the text behind a call's body is reported of the whole. */
  lemma BodyPasses(g: Schema, c: Call, rest: Text, r: Report)
    requires g.Valid() && Printable(g, c) && ReportIs(g, rest, false, r)
    ensures ReportIs(g, PrintBody(g, c) + rest, false, Moved(r, |PrintBody(g, c)|))
  {
    hide ReportIs, PrintableParam, PrintParams, Passed;
    var head, params := c.name + ">" + c.gap, PrintParams(g, c.params, c.gap);
    ParamsPass(g, c.params, c.gap, rest, r);
    PassClean(g, head, params + rest, false);
    ReportPasses(g, head, params + rest, false, false, Moved(r, |params|));
    assert PrintBody(g, c) + rest == head + (params + rest);
  }

  /** FUNC_END with something else in place of its last character is reported as cut. */
  lemma MangledIsCut(g: Schema, junk: Text)
    requires g.Valid() && CutIsOwn(g) && CutStartsNoCall(g)
    requires Clean(junk) && (junk != [] ==> junk[0] != g.funcEnd[|g.funcEnd| - 1])
    ensures ReportIs(g, g.funcEnd[..|g.funcEnd| - 1] + junk, false, Cut(0))
  {
    hide TagAt, ToolEnd, LastTagEnd, CutIsOwn;
    var cut := g.funcEnd[..|g.funcEnd| - 1];
    var s := cut + junk;
    MangledIsNone(g, junk);
    assert g.funcEnd[0] == '<' && Clean(s[1..]) by {
      forall i | 0 <= i < |s[1..]| ensures s[1..][i] != '<' {
        assert i < |cut| - 1 ==> s[1..][i] == g.funcEnd[1..][i];
      }
    }
    NoneThenClean(g, s);
    assert s[0..] == s;
  }

  lemma MangledIsNone(g: Schema, junk: Text)
    requires g.Valid() && CutIsOwn(g) && CutStartsNoCall(g) && (junk != [] ==> junk[0] != g.funcEnd[|g.funcEnd| - 1])
    ensures TagAt(g, g.funcEnd[..|g.funcEnd| - 1] + junk, false) == NoTag
  {
    var cut := g.funcEnd[..|g.funcEnd| - 1];
    var s := cut + junk;
    forall k | 0 <= k < |g.bare| ensures !(g.bare[k] <= s) {
      assert IsOpener(g, g.bare[k]) && g.IsBareTag(g.bare[k]);
      NotInMangled(g.funcEnd, g.bare[k], junk);
    }
    NoBareIn(g, g.bare, s);
    assert IsOpener(g, g.paramStart);
    NotInMangled(g.funcEnd, g.paramStart, junk);
    NotInMangled(g.funcEnd, g.funcStart, junk);
    assert junk != [] ==> s[|cut|] != g.funcEnd[|cut|];
  }

  lemma NotInMangled(tag: Text, other: Text, junk: Text)
    requires tag != [] && Distinct(tag, other) && !(tag[..|tag| - 1] <= other)
    ensures !(other <= tag[..|tag| - 1] + junk)
  {
    var cut := tag[..|tag| - 1];
    if |other| <= |cut| {
      var k :| 0 <= k < |other| && other[k] != tag[k];
      assert (cut + junk)[k] == tag[k];
    } else {
      var k :| 0 <= k < |cut| && cut[k] != other[k];
      assert (cut + junk)[k] == cut[k];
    }
  }

  lemma NoneThenClean(g: Schema, s: Text)
    requires g.Valid() && s != [] && TagAt(g, s, false) == NoTag && Clean(s[1..])
    ensures ToolEnd(g, s, 1, false) == Unfinished(false) && LastTagEnd(g, s, 1, false) == 0
  {
    hide TagAt;
    CleanNothing(g, s[1..], false);
  }

  /** A call whose closing tag is mangled, once more text follows it: the tag is repaired, together
      with what stands before the next '>', and the call ends at its own closing tag. */
  method WatchMangled(g: Schema, c: Call, junk: Text) returns (text: Text, end: int)
    requires g.Valid() && EndsTag(g) && CutIsOwn(g) && CutStartsNoCall(g)
    requires Printable(g, c) && Clean(junk) && junk != [] && junk[0] != '>'
    requires !HasRaw(g.funcEnd, g.funcStart + (PrintBody(g, c) + (g.funcEnd[..|g.funcEnd| - 1] + junk)))
    ensures end == |g.funcStart + PrintBody(g, c)|
    ensures StartsAt(text, end, g.funcEnd) && text[..end] == g.funcStart + PrintBody(g, c)
  {
    hide ReportIs, HasRaw, PrintBody, Printable, ToolEnd, CutIsOwn;
    var cut := g.funcEnd[..|g.funcEnd| - 1];
    var generated := g.funcStart + (PrintBody(g, c) + (cut + junk));
    assert generated[0..] == generated && generated[|g.funcStart|..] == PrintBody(g, c) + (cut + junk);
    text, end := SeeToolEnd(g, generated, 0);
    MangledIsCut(g, junk);
    BodyPasses(g, c, cut + junk, Cut(0));
    assert Seen(g, generated, 0, Cut(|PrintBody(g, c)|), text, end);
    assert text[..end] == text[..end + |cut|][..end] == generated[..end + |cut|][..end] == generated[..end];
  }

  lemma RawInside(token: Text, before: Text, v: Text, behind: Text)
    requires HasRaw(token, v)
    ensures HasRaw(token, before + v + behind)
  {
    var i :| 0 <= i <= |v| && token <= v[i..];
    assert (before + v + behind)[|before| + i..] == v[i..] + behind;
  }

  /** That happens to every call whose value holds one: here, with one parameter. */
  lemma EarlyEnd(g: Schema, name: Text, gap: Text, p: Param)
    requires g.Valid() && HasRaw(g.funcEnd, p.value)
    ensures var whole := PrintBody(g, Call(name, gap, [p])) + g.funcEnd; HasRaw(g.funcEnd,
            g.funcStart + whole[..|whole| - 1])
  {
    hide HasRaw, PrintBody;
    var body := PrintBody(g, Call(name, gap, [p]));
    var before, behind := OneParam(g, name, gap, p);
    var cut := g.funcEnd[..|g.funcEnd| - 1];
    assert (body + g.funcEnd)[..|body + g.funcEnd| - 1] == body + cut;
    assert g.funcStart + (body + cut) == (g.funcStart + before) + p.value + (behind + cut);
    RawInside(g.funcEnd, g.funcStart + before, p.value, behind + cut);
  }

  lemma PrintOne(g: Schema, p: Param, gap: Text)
    ensures PrintParams(g, [p], gap) == PrintParam(g, p, gap)
  {
    hide PrintParam;
    var params := [p];
    var rest := params[1..];
    assert rest == [];
    var printed := PrintParam(g, params[0], gap);
    assert PrintParams(g, params, gap) == printed + PrintParams(g, rest, gap);
    assert PrintParams(g, rest, gap) == [];
    assert printed + [] == printed;
  }

  lemma OneParam(g: Schema, name: Text, gap: Text, p: Param) returns (before: Text, behind: Text)
    ensures PrintBody(g, Call(name, gap, [p])) == before + p.value + behind
  {
    PrintOne(g, p, gap);
    behind := g.paramEnd + gap;
    before := name + ">" + gap + Opening(g, p) + Written(p);
    assert PrintParam(g, p, gap) == Opening(g, p) + (Written(p) + p.value) + behind;
  }
}
