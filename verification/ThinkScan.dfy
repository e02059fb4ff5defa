/** The incremental scans of token_generator.cc: after every token the thinking block
    and the start of a tool call are looked for again, but only where the new text can
    have changed the answer. */
module ThinkScan {
  import opened TextSearch

  type Text = seq<char>

  /** The tags of one model.  `probe` marks the canary, which tolerates nested openers;
      `inside` a generation that resumes in an open thinking block. */
  datatype Tags = Tags(open: Text, close: Text, func: Text, probe: bool, inside: bool)
  {
    /** The tool tag does not overlap itself; and of a model that thinks, no tag that could be
        waited for hides another one that would be acted on first. */
    ghost predicate Valid() {
      && func != [] && (forall d :: 0 < d < |func| ==> !(func[d..] <= func))
      && if Thinks() then Distinct() else !inside
    }

    /** The model has thinking tags. */
    predicate Thinks() {
      open != [] && close != []
    }

    ghost predicate Distinct() {
      !Hides(open, close) && !Hides(close, open) && !Hides(open, func) && !(open <= close) && !(func <= open)
    }

    function Longest(): nat {
      if |open| < |close| then |close| else |open|
    }

    /** Where the scan of a block starts that starts at `start`. */
    function From(start: nat): nat {
      if inside then 0 else start + |open|
    }

    /** The block of this text starts here. */
    ghost predicate OpensAt(text: Text, start: nat) {
      Thinks() && if inside then start == 0 else IsFirst(text, open, start)
    }
  }

  /** The inner tag is complete inside the outer one before that is. */
  ghost predicate Hides(outer: Text, inner: Text) {
    exists d :: 0 < d <= |outer| && d + |inner| < |outer| && inner <= outer[d..]
  }

  /** A word can hide only where its first character is. */
  lemma HidesNowhere(outer: Text, inner: Text)
    requires outer != [] && inner != [] && inner[0] !in outer[1..]
    ensures !Hides(outer, inner)
  {
    forall d | 0 < d <= |outer| && d + |inner| < |outer| ensures !(inner <= outer[d..]) {
      assert outer[d..][0] == outer[1..][d - 1];
    }
  }

  lemma HidesOnlyAt(outer: Text, inner: Text, k: nat)
    requires 0 < k < |outer| && inner != [] && inner[0] !in outer[1..k] && inner[0] !in outer[k + 1..]
    requires !(inner <= outer[k..])
    ensures !Hides(outer, inner)
  {
    forall d | 0 < d <= |outer| && d + |inner| < |outer| ensures !(inner <= outer[d..]) {
      if d < k {
        assert outer[d..][0] == outer[1..k][d - 1];
      } else if d > k {
        assert outer[d..][0] == outer[k + 1..][d - k - 1];
      }
    }
  }

  const CALL := "<function="

  lemma CallStandsAlone()
    ensures forall d :: 0 < d < |CALL| ==> !(CALL[d..] <= CALL)
  {
    assert '<' !in CALL[1..] by {
      assert CALL[1..] == "function=";
    }
    forall d | 0 < d < |CALL| ensures !(CALL[d..] <= CALL) {
      assert CALL[d..][0] == CALL[1..][d - 1];
    }
  }

  /** The default tags can be scanned for. */
  lemma DefaultTagsValid(probe: bool, inside: bool)
    ensures Tags("<think>", "</think>", CALL, probe, inside).Valid()
  {
    var open, close := "<think>", "</think>";
    assert open[1..] == "think>" && close[1..] == "/think>";
    HidesNowhere(open, close);
    HidesNowhere(close, open);
    HidesNowhere(open, CALL);
    CallStandsAlone();
    assert open[1] != close[1] && CALL[1] != open[1];
  }

  /** So can the tool tag of a model that does not think. */
  lemma NoThinkingTagsValid(open: Text, close: Text, probe: bool)
    requires open == [] || close == []
    ensures Tags(open, close, CALL, probe, false).Valid()
  {
    CallStandsAlone();
  }

  const CHANNEL := "<|channel|>analysis"
  const MESSAGE := "<|message|>"
  const END := "<|end|>"

  /** And so can those of a bundled template whose opening tag repeats its first characters. */
  lemma ChannelTagsValid(probe: bool, inside: bool)
    ensures Tags(CHANNEL + MESSAGE, END, CALL, probe, inside).Valid()
  {
    var open := CHANNEL + MESSAGE;
    assert open[..19] == CHANNEL && open[19..] == MESSAGE;
    assert open[1..19] == CHANNEL[1..] && open[20..] == MESSAGE[1..];
    ChannelParts();
    HidesOnlyAt(open, END, 19);
    HidesNowhere(END, open);
    HidesOnlyAt(open, CALL, 19);
    CallStandsAlone();
    assert open[1] == CHANNEL[1] && open[2] == CHANNEL[2];
  }

  lemma ChannelParts()
    ensures CHANNEL[0] == END[0] == CALL[0] == '<' && CHANNEL[1] != CALL[1] && CHANNEL[2] != END[2]
    ensures '<' !in CHANNEL[1..] && '<' !in MESSAGE[1..] && '<' !in END[1..]
    ensures !(END <= MESSAGE) && !(CALL <= MESSAGE)
  {
    assert CHANNEL[1..] == "|channel|>analysis" && MESSAGE[1..] == "|message|>" && END[1..] == "|end|>";
    assert END[2] != MESSAGE[2] && CALL[1] != MESSAGE[1];
  }

  // --- One scan of the whole text -----------------------------------------------------

  datatype Outcome = Ended(at: nat) | Tripped(at: nat) | Inside(depth: nat)

  /** Count the tags of a block from position i on. */
  function ScanFrom(g: Tags, text: Text, i: nat, depth: nat): Outcome
    decreases |text| - i
  {
    if i >= |text| then Inside(depth)
    else if StartsAt(text, i, g.close) then
      if depth <= 1 then Ended(i) else ScanFrom(g, text, i + 1, depth - 1)
    else if StartsAt(text, i, g.open) then
      if g.probe then ScanFrom(g, text, i + 1, depth + 1) else Tripped(i)
    else ScanFrom(g, text, i + 1, depth)
  }

  ghost predicate IsFirst(text: Text, tag: Text, p: nat) {
    StartsAt(text, p, tag) && forall i :: 0 <= i < p ==> !StartsAt(text, i, tag)
  }

  ghost predicate Absent(text: Text, tag: Text) {
    forall i :: 0 <= i <= |text| ==> !StartsAt(text, i, tag)
  }

  /** What one scan says: where the block starts and how it ends. */
  datatype Block = NoBlock | Block(start: nat, outcome: Outcome)

  ghost predicate IsBlock(g: Tags, text: Text, b: Block) {
    match b
    case NoBlock => !g.inside && (g.Thinks() ==> Absent(text, g.open))
    case Block(start, outcome) => g.OpensAt(text, start) && outcome == ScanFrom(g, text, g.From(start), 1)
  }

  /** Outside a probe a block ends at its first closing tag, unless an opening tag comes before
      that and trips the wire. */
  lemma {:induction false} PlainScan(g: Tags, text: Text, i: nat)
    requires !g.probe && i <= |text| && g.open != [] && g.close != []
    ensures match ScanFrom(g, text, i, 1)
            case Ended(e) =>
              && i <= e && StartsAt(text, e, g.close)
              && forall k :: i <= k < e ==> !StartsAt(text, k, g.open) && !StartsAt(text, k, g.close)
            case Tripped(t) =>
              && i <= t && StartsAt(text, t, g.open) && !StartsAt(text, t, g.close)
              && forall k :: i <= k < t ==> !StartsAt(text, k, g.open) && !StartsAt(text, k, g.close)
            case Inside(d) =>
              d == 1 && forall k :: i <= k <= |text| ==> !StartsAt(text, k, g.open) && !StartsAt(text, k, g.close)
    decreases |text| - i
  {
    if i < |text| && !StartsAt(text, i, g.close) && !StartsAt(text, i, g.open) {
      PlainScan(g, text, i + 1);
    }
  }

  /** How many blocks are open in front of position j, counted from i on. */
  function Level(g: Tags, text: Text, i: nat, j: nat, depth: int): int
    requires i <= j
    decreases j - i
  {
    if i == j then depth
    else Level(g, text, i + 1, j, if StartsAt(text, i, g.close) then depth - 1 else if StartsAt(text, i, g.open)
        then depth + 1 else depth)
  }

  /** In a probe a block ends at the closing tag that pairs with its opening tag. */
  lemma {:induction false} ProbeScan(g: Tags, text: Text, i: nat, depth: nat)
    requires g.probe && i <= |text| && g.close != [] && depth > 0
    ensures match ScanFrom(g, text, i, depth)
            case Ended(e) =>
              && i <= e && StartsAt(text, e, g.close) && Level(g, text, i, e, depth) == 1
              && forall k :: i <= k < e && StartsAt(text, k, g.close) ==> Level(g, text, i, k, depth) > 1
            case Inside(d) =>
              && d == Level(g, text, i, |text|, depth)
              && forall k :: i <= k <= |text| && StartsAt(text, k, g.close) ==> Level(g, text, i, k, depth) > 1
            case Tripped(_) => false
    decreases |text| - i
  {
    if i < |text| && !(StartsAt(text, i, g.close) && depth <= 1) {
      var next := if StartsAt(text, i, g.close) then depth - 1 else if StartsAt(text, i, g.open) then depth + 1
          else depth;
      ProbeScan(g, text, i + 1, next);
    }
  }

  // --- Longer text does not change what was found ----------------------------------------

  lemma StartsInside(text: Text, more: Text, i: nat, tag: Text)
    requires i + |tag| <= |text|
    ensures StartsAt(text + more, i, tag) == StartsAt(text, i, tag)
  {
    assert (text + more)[i..] == text[i..] + more;
    assert (text[i..] + more)[..|tag|] == text[i..][..|tag|];
  }

  /** In front of a tag that is there, no tag becomes complete later that does not hide it. */
  lemma NoLateStart(text: Text, more: Text, i: nat, a: Text, p: nat, b: Text)
    requires a != [] && b != [] && !Hides(a, b) && i < p && StartsAt(text, p, b)
    ensures StartsAt(text + more, i, a) == StartsAt(text, i, a)
  {
    if i + |a| <= |text| {
      StartsInside(text, more, i, a);
    } else {
      StartsInside(text, more, p, b);
      if StartsAt(text + more, i, a) {
        HiddenThere(text + more, i, a, p, b);
      }
    }
  }

  lemma HiddenThere(t: Text, i: nat, a: Text, p: nat, b: Text)
    requires StartsAt(t, i, a) && StartsAt(t, p, b) && i < p && p + |b| < i + |a|
    ensures Hides(a, b)
  {
    var d := p - i;
    assert t[i..][..|a|] == a && t[p..][..|b|] == b;
    assert t[i..][d..] == t[p..];
    assert a[d..] == t[i..][d..|a|];
    assert a[d..][..|b|] == t[p..][..|b|];
  }

  lemma FirstStays(text: Text, more: Text, tag: Text, p: nat)
    requires IsFirst(text, tag, p)
    ensures IsFirst(text + more, tag, p)
  {
    StartsInside(text, more, p, tag);
    forall i | 0 <= i < p ensures !StartsAt(text + more, i, tag) {
      StartsInside(text, more, i, tag);
    }
  }

  /** Neither tag of the block starts at these positions. */
  ghost predicate Quiet(g: Tags, text: Text, i: nat, j: nat) {
    forall k :: i <= k < j ==> !StartsAt(text, k, g.open) && !StartsAt(text, k, g.close)
  }

  lemma {:induction false} QuietScan(g: Tags, text: Text, i: nat, j: nat, depth: nat)
    requires i <= j <= |text| && Quiet(g, text, i, j)
    ensures ScanFrom(g, text, i, depth) == ScanFrom(g, text, j, depth)
    decreases j - i
  {
    if i < j {
      assert !StartsAt(text, i, g.open) && !StartsAt(text, i, g.close);
      QuietScan(g, text, i + 1, j, depth);
    }
  }

  /** Far enough from the end, or in front of a tag, silence lasts. */
  lemma QuietStays(g: Tags, text: Text, more: Text, i: nat, j: nat)
    requires g.Valid() && g.Thinks() && Quiet(g, text, i, j) && i <= j <= |text|
    requires j + g.Longest() <= |text| + 1 || StartsAt(text, j, g.open) || StartsAt(text, j, g.close)
    ensures Quiet(g, text + more, i, j)
  {
    forall k | i <= k < j
      ensures !StartsAt(text + more, k, g.open) && !StartsAt(text + more, k, g.close)
    {
      if StartsAt(text, j, g.open) {
        NoLateStart(text, more, k, g.open, j, g.open);
        NoLateStart(text, more, k, g.close, j, g.open);
      } else if StartsAt(text, j, g.close) {
        NoLateStart(text, more, k, g.open, j, g.close);
        NoLateStart(text, more, k, g.close, j, g.close);
      } else {
        StartsInside(text, more, k, g.open);
        StartsInside(text, more, k, g.close);
      }
    }
  }

  // --- Tool calls --------------------------------------------------------------------------

  /** The position lies inside the thinking block: tool tags there are prose. */
  predicate InBlock(g: Tags, b: Block, i: int) {
    b.Block? && i >= b.start && (b.outcome.Ended? ==> i < b.outcome.at + |g.close|)
  }

  /** Every tool tag in front of p is prose. */
  ghost predicate OnlyProse(g: Tags, text: Text, b: Block, p: nat) {
    forall i :: 0 <= i < p && StartsAt(text, i, g.func) ==> InBlock(g, b, i)
  }

  /** p is where a single scan of the text would see the tool call start. */
  ghost predicate IsToolStart(g: Tags, text: Text, b: Block, p: nat) {
    StartsAt(text, p, g.func) && !InBlock(g, b, p) && OnlyProse(g, text, b, p)
  }

  /** A block that ends inside a text already ended there. */
  lemma {:induction false} EndedBefore(g: Tags, text: Text, more: Text, i: nat, depth: nat, e: nat)
    requires g.Valid() && g.Thinks() && ScanFrom(g, text + more, i, depth) == Ended(e) && e + |g.close| <= |text|
    ensures ScanFrom(g, text, i, depth) == Ended(e)
    decreases |text| - i
  {
    EndedAtClose(g, text + more, i, depth, e);
    StartsInside(text, more, e, g.close);
    if i < e {
      NoLateStart(text, more, i, g.open, e, g.close);
      NoLateStart(text, more, i, g.close, e, g.close);
      if StartsAt(text, i, g.close) {
        EndedBefore(g, text, more, i + 1, depth - 1, e);
      } else if StartsAt(text, i, g.open) {
        EndedBefore(g, text, more, i + 1, depth + 1, e);
      } else {
        EndedBefore(g, text, more, i + 1, depth, e);
      }
    }
  }

  lemma {:induction false} EndedAtClose(g: Tags, text: Text, i: nat, depth: nat, e: nat)
    requires ScanFrom(g, text, i, depth) == Ended(e)
    ensures i <= e < |text| && StartsAt(text, e, g.close)
    ensures i < e && StartsAt(text, i, g.close) ==> depth > 1 && ScanFrom(g, text, i + 1, depth - 1) == Ended(e)
    ensures i < e && !StartsAt(text, i, g.close) && StartsAt(text, i, g.open) ==>
            g.probe && ScanFrom(g, text, i + 1, depth + 1) == Ended(e)
    ensures i < e && !StartsAt(text, i, g.open) && !StartsAt(text, i, g.close) ==>
            ScanFrom(g, text, i + 1, depth) == Ended(e)
    ensures i == e ==> depth <= 1
    decreases |text| - i
  {
    if StartsAt(text, i, g.close) {
      if depth > 1 {
        EndedAtClose(g, text, i + 1, depth - 1, e);
      }
    } else if StartsAt(text, i, g.open) {
      EndedAtClose(g, text, i + 1, depth + 1, e);
    } else {
      EndedAtClose(g, text, i + 1, depth, e);
    }
  }

  /** Of two words at one place the shorter one starts the longer one. */
  lemma Nested(t: Text, p: nat, a: Text, b: Text)
    requires StartsAt(t, p, a) && StartsAt(t, p, b) && |a| <= |b|
    ensures a <= b
  {
    assert t[p..][..|b|][..|a|] == t[p..][..|a|];
  }

  /** Prose stays prose, and a call stays a call, when the text grows. */
  lemma ProseStays(g: Tags, text: Text, more: Text, b: Block, later: Block, i: nat)
    requires g.Valid() && IsBlock(g, text, b) && IsBlock(g, text + more, later) && StartsAt(text, i, g.func)
    ensures InBlock(g, b, i) == InBlock(g, later, i)
  {
    if b.Block? {
      if !g.inside {
        FirstStays(text, more, g.open, b.start);
        SameFirst(text + more, g.open, b.start, later);
      }
      if b.start <= i {
        EndStays(g, text, more, b, later, i);
      }
    } else if later.Block? && later.start < i {
      NoLateStart(text, more, later.start, g.open, i, g.func);
    } else if later.Block? && later.start == i {
      NoCallAtOpener(g, text, more, i);
    }
  }

  /** A call that is complete where no block starts yet is not the start of one. */
  lemma NoCallAtOpener(g: Tags, text: Text, more: Text, i: nat)
    requires g.Valid() && g.Thinks() && StartsAt(text, i, g.func) && !StartsAt(text, i, g.open)
    ensures !StartsAt(text + more, i, g.open)
  {
    StartsInside(text, more, i, g.func);
    if |g.open| <= |g.func| {
      StartsInside(text, more, i, g.open);
    } else if StartsAt(text + more, i, g.open) {
      Nested(text + more, i, g.func, g.open);
    }
  }

  lemma SameFirst(text: Text, tag: Text, p: nat, b: Block)
    requires IsFirst(text, tag, p)
    requires match b case NoBlock => Absent(text, tag) case Block(start, _) => IsFirst(text, tag, start)
    ensures b.Block? && b.start == p
  {
  }

  lemma {:induction false} EndedLater(g: Tags, text: Text, more: Text, i: nat, depth: nat, e: nat)
    requires g.Valid() && g.Thinks() && ScanFrom(g, text, i, depth) == Ended(e)
    ensures ScanFrom(g, text + more, i, depth) == Ended(e)
    decreases |text| - i
  {
    EndedAtClose(g, text, i, depth, e);
    StartsInside(text, more, e, g.close);
    if i < e {
      NoLateStart(text, more, i, g.open, e, g.close);
      NoLateStart(text, more, i, g.close, e, g.close);
      if StartsAt(text, i, g.close) {
        EndedLater(g, text, more, i + 1, depth - 1, e);
      } else if StartsAt(text, i, g.open) {
        EndedLater(g, text, more, i + 1, depth + 1, e);
      } else {
        EndedLater(g, text, more, i + 1, depth, e);
      }
    }
  }

  lemma EndStays(g: Tags, text: Text, more: Text, b: Block, later: Block, i: nat)
    requires g.Valid() && IsBlock(g, text, b) && IsBlock(g, text + more, later) && StartsAt(text, i, g.func)
    requires b.Block? && later.Block? && b.start == later.start <= i
    ensures InBlock(g, b, i) == InBlock(g, later, i)
  {
    if b.outcome.Ended? {
      EndedLater(g, text, more, g.From(b.start), 1, b.outcome.at);
    } else if later.outcome.Ended? {
      if later.outcome.at + |g.close| <= |text| {
        EndedBefore(g, text, more, g.From(b.start), 1, later.outcome.at);
      }
    }
  }

  // --- The incremental scanner ---------------------------------------------------------------

  class Scanner {
    const g: Tags
    var text: Text           // generated_text_
    var start: int           // think_start_, -1 for none
    var depth: nat           // think_depth_
    var scanPos: nat         // think_scan_pos_
    var end: int             // think_end_, -1 for none
    var tripped: bool        // thinking_sim_abort
    var funcPos: nat         // func_search_pos_
    var toolStart: int       // tool_start_, -1 for none

    /** The block's scan is at `scanPos`: nothing is left to find in the text, and
        whatever is appended, a scan of the whole block may resume there. */
    ghost predicate Resumable(from: nat)
      reads this
      requires start >= 0
    {
      && ScanFrom(g, text, g.From(start), 1) == ScanFrom(g, text, from, depth)
      && forall more: Text :: ScanFrom(g, text + more, g.From(start), 1) == ScanFrom(g, text + more, from, depth)
    }

    ghost predicate Decided(outcome: Outcome)
      reads this
      requires start >= 0
    {
      && ScanFrom(g, text, g.From(start), 1) == outcome
      && forall more: Text :: ScanFrom(g, text + more, g.From(start), 1) == outcome
    }

    ghost predicate Valid()
      reads this
    {
      && g.Valid() && -1 <= start && -1 <= end && scanPos <= |text|
      && (start < 0 ==> !g.inside && (g.Thinks() ==> Absent(text, g.open)) && end < 0 && !tripped)
      && (start >= 0 ==>
            && g.OpensAt(text, start)
            && (if tripped then end < 0 && ScanFrom(g, text, g.From(start), 1).Tripped?
                else if end >= 0 then Decided(Ended(end))
                else Resumable(scanPos) && ScanFrom(g, text, scanPos, depth) == Inside(depth)))
    }

    /** What one scan of the whole text would say. */
    ghost function View(): Block
      reads this
      requires Valid()
    {
      if start < 0 then NoBlock else Block(start, ScanFrom(g, text, g.From(start), 1))
    }

    constructor (g: Tags)
      requires g.Valid()
      ensures Valid() && ToolScanned() && text == [] && this.g == g && !tripped && toolStart < 0
    {
      this.g := g;
      text, start, depth, scanPos, end, tripped := [], if g.inside then 0 else -1, 1, 0, -1, false;
      funcPos, toolStart := 0, -1;
    }

    /** The state before the new text is scanned. */
    ghost predicate Pending()
      reads this
    {
      && g.Valid() && -1 <= start && -1 <= end && scanPos <= |text| && !tripped
      && (start < 0 ==> !g.inside && end < 0)
      && (start >= 0 ==>
            && g.OpensAt(text, start)
            && (if end >= 0 then Decided(Ended(end)) else Resumable(scanPos)))
    }

    method Extend(piece: Text)
      requires Valid() && !tripped
      modifies this`text
      ensures Pending() && text == old(text) + piece
    {
      hide ScanFrom;
      ghost var before := text;
      text := text + piece;
      if start >= 0 {
        if !g.inside {
          FirstStays(before, piece, g.open, start);
        }
        forall more: Text ensures text + more == before + (piece + more) {
        }
      }
    }

    /** The outer opening tag has appeared. */
    method OpenBlock(p: nat)
      requires Pending() && start < 0 && g.Thinks() && p < |text| && IsFirst(text, g.open, p)
      modifies this`start, this`depth, this`scanPos
      ensures Pending() && start >= 0 && end < 0
    {
      hide ScanFrom;
      start, depth, scanPos := p, 1, p + |g.open|;
    }

    /** Follow one tag of the block. */
    lemma TagFound(scan: nat, p: nat)
      requires g.Valid() && g.Thinks() && start >= 0 && Resumable(scan) && scan <= p < |text| && Quiet(g, text, scan, p)
      requires StartsAt(text, p, g.open) || StartsAt(text, p, g.close)
      ensures ScanFrom(g, text, g.From(start), 1) == ScanFrom(g, text, p, depth)
      ensures forall more: Text :: ScanFrom(g, text + more, g.From(start), 1) == ScanFrom(g, text + more, p, depth)
      ensures forall more: Text :: StartsAt(text, p, g.open) ==> StartsAt(text + more, p, g.open)
      ensures forall more: Text :: StartsAt(text + more, p, g.close) == StartsAt(text, p, g.close)
    {
      hide ScanFrom;
      QuietScan(g, text, scan, p, depth);
      forall more: Text
        ensures ScanFrom(g, text + more, g.From(start), 1) == ScanFrom(g, text + more, p, depth)
      {
        QuietStays(g, text, more, scan, p);
        QuietScan(g, text + more, scan, p, depth);
      }
      forall more: Text
        ensures StartsAt(text, p, g.open) ==> StartsAt(text + more, p, g.open)
        ensures StartsAt(text + more, p, g.close) == StartsAt(text, p, g.close)
      {
        TagStays(text, more, p);
      }
    }

    /** At a tag, a closing tag is there for good or not at all; and without one, so is an
        opening tag. */
    lemma TagStays(t: Text, more: Text, p: nat)
      requires g.Valid() && g.Thinks() && (StartsAt(t, p, g.open) || StartsAt(t, p, g.close))
      ensures StartsAt(t + more, p, g.close) == StartsAt(t, p, g.close)
      ensures StartsAt(t, p, g.open) ==> StartsAt(t + more, p, g.open)
    {
      if StartsAt(t, p, g.open) {
        StartsInside(t, more, p, g.open);
        if |g.close| <= |g.open| {
          StartsInside(t, more, p, g.close);
        } else if StartsAt(t + more, p, g.close) {
          Nested(t + more, p, g.open, g.close);
        }
      } else {
        StartsInside(t, more, p, g.close);
      }
    }

    /** Scan for tags of the open block up to the end of the text. */
    method ScanBlock()
      requires Pending() && g.Thinks() && start >= 0 && end < 0
      modifies this`depth, this`scanPos, this`end, this`tripped
      ensures Valid()
    {
      hide ScanFrom, StartsAt, IsFirst, Tags.OpensAt, Hides;
      var scan := scanPos;
      var more := true;
      while more
        invariant scan <= |text| && scanPos <= |text| && end == -1 && !tripped
        invariant Resumable(scan)
        invariant !more ==> Quiet(g, text, scan, |text|)
        decreases |text| - scan, more
      {
        var opens := Find(text, g.open, scan);
        var closes := Find(text, g.close, scan);
        if opens == |text| && closes == |text| {
          more := false;
        } else {
          var stopped;
          stopped, scan := TakeTag(scan, opens, closes);
          if stopped {
            return;
          }
        }
      }
      var tail := if |text| > g.Longest() - 1 then |text| - (g.Longest() - 1) else 0;
      ResumeAtTail(scan, if scan < tail then tail else scan);
      scanPos := if scan < tail then tail else scan;
    }

    method TakeTag(scan: nat, opens: nat, closes: nat) returns (stopped: bool, next: nat)
      requires g.Valid() && g.Thinks() && start >= 0 && g.OpensAt(text, start) && scanPos <= |text| && !tripped
      requires end == -1 && scan <= |text| && Resumable(scan)
      requires scan <= opens <= |text| && scan <= closes <= |text| && (opens < |text| || closes < |text|)
      requires opens < |text| ==> StartsAt(text, opens, g.open)
      requires closes < |text| ==> StartsAt(text, closes, g.close)
      requires forall i :: scan <= i < opens ==> !StartsAt(text, i, g.open)
      requires forall i :: scan <= i < closes ==> !StartsAt(text, i, g.close)
      modifies this`depth, this`end, this`tripped
      ensures stopped ==> Valid()
      ensures !stopped ==> scan < next <= |text| && Resumable(next) && end == -1 && !tripped
    {
      hide ScanFrom, StartsAt, IsFirst, Tags.OpensAt, Hides;
      var isOpen := opens < closes;
      var p := if isOpen then opens else closes;
      TagFound(scan, p);
      TagFollowed(p);
      next := p + 1;
      if isOpen && !g.probe {
        tripped, stopped := true, true;
        return;
      }
      if !isOpen && depth <= 1 {
        end, stopped := p, true;
        return;
      }
      depth, stopped := if isOpen then depth + 1 else depth - 1, false;
    }

    lemma TagFollowed(p: nat)
      requires g.Valid() && g.Thinks() && p < |text| && (StartsAt(text, p, g.open) || StartsAt(text, p, g.close))
      ensures TagStep(g, text, p, depth) && forall more: Text :: TagStep(g, text + more, p, depth)
    {
      ScanAtTag(g, text, p, depth);
      forall more: Text ensures TagStep(g, text + more, p, depth) {
        TagStays(text, more, p);
        StartsInText(text, more, p);
        ScanAtTag(g, text + more, p, depth);
      }
    }

    lemma StartsInText(t: Text, more: Text, p: nat)
      requires g.Valid() && g.Thinks() && p < |t|
      ensures p < |t + more|
    {
    }

    /** No tag is left: the next scan may start at the tail window. */
    lemma ResumeAtTail(scan: nat, next: nat)
      requires g.Valid() && g.Thinks() && start >= 0 && scan <= next <= |text| && Resumable(scan)
              && Quiet(g, text, scan, |text|)
      requires next == scan || next + g.Longest() <= |text| + 1
      ensures Resumable(next) && ScanFrom(g, text, next, depth) == Inside(depth)
    {
      hide ScanFrom;
      QuietScan(g, text, scan, next, depth);
      QuietScan(g, text, next, |text|, depth);
      ScanEnds(g, text, depth);
      forall more: Text
        ensures ScanFrom(g, text + more, g.From(start), 1) == ScanFrom(g, text + more, next, depth)
      {
        if scan < next {
          QuietStays(g, text, more, scan, next);
        }
        QuietScan(g, text + more, scan, next, depth);
      }
    }

    /** Append one token's text and scan for the block again.  Whatever the pieces
        were, the result is that of a single scan of the whole text. */
    method Append(piece: Text)
      requires Valid() && !tripped
      modifies this`text, this`start, this`depth, this`scanPos, this`end, this`tripped
      ensures Valid() && text == old(text) + piece
      ensures IsBlock(g, text, View())
      ensures tripped <==> View().Block? && View().outcome.Tripped?
      ensures end >= 0 <==> View().Block? && View().outcome.Ended?
      ensures end >= 0 ==> View().outcome == Ended(end)
      ensures start < 0 ==>
                !g.inside && end < 0 && !tripped
                    && (g.Thinks() ==> forall i :: 0 <= i <= |text| ==> !StartsAt(text, i, g.open))
      ensures start >= 0 ==>
                && g.Thinks()
                && if g.inside then start == 0
                   else StartsAt(text, start, g.open) && forall i :: 0 <= i < start ==> !StartsAt(text, i, g.open)
      ensures start >= 0 && !g.probe ==>
                var from := if g.inside then 0 else start + |g.open|;
                if end >= 0 then
                  && from <= end && StartsAt(text, end, g.close)
                  && forall k :: from <= k < end ==> !StartsAt(text, k, g.open) && !StartsAt(text, k, g.close)
                else if tripped then
                  exists t :: from <= t && StartsAt(text, t, g.open) && !StartsAt(text, t, g.close)
                              && forall k :: from <= k < t ==> !StartsAt(text, k, g.open) && !StartsAt(text, k, g.close)
                else forall k :: from <= k <= |text| ==> !StartsAt(text, k, g.open) && !StartsAt(text, k, g.close)
    {
      AppendBlock(piece);
      ViewTold();
    }

    /** What the view says of the text. */
    lemma ViewTold()
      requires Valid()
      requires tripped <==> View().Block? && View().outcome.Tripped?
      requires end >= 0 <==> View().Block? && View().outcome.Ended?
      requires end >= 0 ==> View().outcome == Ended(end)
      ensures start < 0 ==>
                !g.inside && end < 0 && !tripped
                    && (g.Thinks() ==> forall i :: 0 <= i <= |text| ==> !StartsAt(text, i, g.open))
      ensures start >= 0 ==>
                && g.Thinks()
                && if g.inside then start == 0
                   else StartsAt(text, start, g.open) && forall i :: 0 <= i < start ==> !StartsAt(text, i, g.open)
      ensures start >= 0 && !g.probe ==>
                var from := if g.inside then 0 else start + |g.open|;
                if end >= 0 then
                  && from <= end && StartsAt(text, end, g.close)
                  && forall k :: from <= k < end ==> !StartsAt(text, k, g.open) && !StartsAt(text, k, g.close)
                else if tripped then
                  exists t :: from <= t && StartsAt(text, t, g.open) && !StartsAt(text, t, g.close)
                              && forall k :: from <= k < t ==> !StartsAt(text, k, g.open) && !StartsAt(text, k, g.close)
                else forall k :: from <= k <= |text| ==> !StartsAt(text, k, g.open) && !StartsAt(text, k, g.close)
    {
      if start >= 0 && !g.probe {
        assert g.From(start) <= |text|;
        PlainScan(g, text, g.From(start));
        hide ScanFrom;
      }
    }

    method AppendBlock(piece: Text)
      requires Valid() && !tripped
      modifies this`text, this`start, this`depth, this`scanPos, this`end, this`tripped
      ensures Valid() && text == old(text) + piece
      ensures IsBlock(g, text, View())
      ensures tripped <==> View().Block? && View().outcome.Tripped?
      ensures end >= 0 <==> View().Block? && View().outcome.Ended?
      ensures end >= 0 ==> View().outcome == Ended(end)
    {
      hide ScanFrom;
      Extend(piece);
      if start < 0 && g.Thinks() {
        var p := Find(text, g.open, 0);
        if p < |text| {
          OpenBlock(p);
        } else {
          NoneAtEnd(text, g.open);
        }
      }
      if start >= 0 && end < 0 {
        ScanBlock();
      }
    }

    // --- The tool scan ------------------------------------------------------------------------

    /** Everything in front of the search position has been looked at, and cannot
        become a call any more. */
    ghost predicate ToolScanned()
      reads this
      requires Valid()
    {
      if toolStart >= 0 then IsToolStart(g, text, View(), toolStart)
      else
        && OnlyProse(g, text, View(), |text|)
        && funcPos <= |text| && (funcPos == 0 || funcPos + |g.func| <= |text|)
    }

    lemma ViewIsBlock()
      requires Valid()
      ensures IsBlock(g, text, View())
    {
    }

    /** One token: the block first, then, unless the tripwire fired, the tool tag.  The
        call is seen to start exactly where a single scan of the whole text sees it. */
    method Feed(piece: Text)
      requires Valid() && ToolScanned() && !tripped
      modifies this
      ensures Valid() && text == old(text) + piece && IsBlock(g, text, View())
      ensures tripped <==> View().Block? && View().outcome.Tripped?
      ensures !tripped ==> ToolScanned()
      ensures old(toolStart) >= 0 ==> toolStart == old(toolStart)
      ensures BlockTold(g, text, start, end, tripped)
      ensures !tripped && toolStart >= 0 ==>
                && StartsAt(text, toolStart, g.func)
                && (start < 0 || toolStart < start || (end >= 0 && toolStart >= end + |g.close|))
                && forall i :: 0 <= i < toolStart && StartsAt(text, i, g.func) ==>
                     !(start < 0 || i < start || (end >= 0 && i >= end + |g.close|))
      ensures !tripped && toolStart < 0 ==>
                forall i :: 0 <= i < |text| && StartsAt(text, i, g.func) ==>
                              !(start < 0 || i < start || (end >= 0 && i >= end + |g.close|))
    {
      hide ScanFrom, StartsAt, IsFirst, Tags.OpensAt, Hides;
      ViewIsBlock();
      ghost var before, block := text, View();
      Append(piece);
      if toolStart >= 0 {
        CallStays(before, piece, block, View(), toolStart);
      } else {
        ProseStaysProse(before, piece, block, View(), funcPos);
      }
      if !tripped && toolStart < 0 {
        ScanTool();
      }
    }

    lemma CallStays(t: Text, more: Text, b: Block, later: Block, p: nat)
      requires g.Valid() && IsBlock(g, t, b) && IsBlock(g, t + more, later) && IsToolStart(g, t, b, p)
      ensures IsToolStart(g, t + more, later, p)
    {
      hide IsBlock;
      StartsInside(t, more, p, g.func);
      ProseStays(g, t, more, b, later, p);
      forall i | 0 <= i < p && StartsAt(t + more, i, g.func) ensures InBlock(g, later, i) {
        NoLateStart(t, more, i, g.func, p, g.func);
        ProseStays(g, t, more, b, later, i);
      }
    }

    lemma ProseStaysProse(t: Text, more: Text, b: Block, later: Block, p: nat)
      requires g.Valid() && IsBlock(g, t, b) && IsBlock(g, t + more, later) && OnlyProse(g, t, b, |t|)
      requires p == 0 || p + |g.func| <= |t|
      ensures OnlyProse(g, t + more, later, p)
    {
      hide IsBlock;
      forall i | 0 <= i < p && StartsAt(t + more, i, g.func) ensures InBlock(g, later, i) {
        StartsInside(t, more, i, g.func);
        ProseStays(g, t, more, b, later, i);
      }
    }

    method ScanTool()
      requires Valid() && !tripped && toolStart < 0 && funcPos <= |text| && OnlyProse(g, text, View(), funcPos)
      modifies this`funcPos, this`toolStart
      ensures Valid() && ToolScanned()
    {
      hide ScanFrom, StartsAt, IsFirst, Tags.OpensAt, Hides;
      var from := funcPos;
      ghost var view := View();
      while true
        invariant Valid() && view == View() && from <= |text| && toolStart < 0 && OnlyProse(g, text, view, from)
        decreases |text| - from
      {
        var found := Find(text, g.func, from);
        if found == |text| {
          break;
        }
        TagFits(found);
        if start >= 0 && found >= start && (end < 0 || found < end + |g.close|) {
          NoneBehind(view, found);
          from := found + |g.func|;
        } else {
          toolStart := found;
          break;
        }
      }
      if toolStart < 0 {
        funcPos := if |text| > 2 * |g.func| then |text| - 2 * |g.func| else 0;
      }
    }

    lemma TagFits(p: nat)
      requires g.Valid() && StartsAt(text, p, g.func)
      ensures p + |g.func| <= |text|
    {
    }

    /** Two tool tags do not overlap. */
    lemma NoneBehind(b: Block, p: nat)
      requires g.Valid() && StartsAt(text, p, g.func) && OnlyProse(g, text, b, p) && InBlock(g, b, p)
      ensures OnlyProse(g, text, b, p + |g.func|)
    {
      forall i | p < i < p + |g.func| ensures !StartsAt(text, i, g.func) {
        assert !(g.func[i - p..] <= g.func);
        if StartsAt(text, i, g.func) {
          Overlapping(text, p, i, g.func);
        }
      }
    }
  }

  lemma Overlapping(t: Text, p: nat, i: nat, w: Text)
    requires StartsAt(t, p, w) && StartsAt(t, i, w) && p < i < p + |w|
    ensures w[i - p..] <= w
  {
    var d := i - p;
    assert t[p..][..|w|] == w && t[p..][d..] == t[i..] && t[i..][..|w|] == w;
    assert w[d..] == t[i..][..|w| - d];
    assert t[i..][..|w|][..|w| - d] == t[i..][..|w| - d];
  }

  lemma NoneAtEnd(text: Text, tag: Text)
    requires tag != [] && forall i :: 0 <= i < |text| ==> !StartsAt(text, i, tag)
    ensures Absent(text, tag)
  {
  }

  lemma ScanEnds(g: Tags, text: Text, depth: nat)
    ensures ScanFrom(g, text, |text|, depth) == Inside(depth)
  {
  }

  /** The scan at a tag. */
  ghost predicate TagStep(g: Tags, text: Text, p: nat, depth: nat) {
    ScanFrom(g, text, p, depth) ==
      if StartsAt(text, p, g.close) then
        if depth <= 1 then Ended(p) else ScanFrom(g, text, p + 1, depth - 1)
      else if g.probe then ScanFrom(g, text, p + 1, depth + 1)
      else Tripped(p)
  }

  lemma ScanAtTag(g: Tags, text: Text, p: nat, depth: nat)
    requires p < |text| && (StartsAt(text, p, g.open) || StartsAt(text, p, g.close))
    ensures TagStep(g, text, p, depth)
  {
  }

  /** Where the block of a text is said to start and to end. */
  ghost predicate BlockTold(g: Tags, text: Text, start: int, end: int, tripped: bool) {
    && (end >= 0 ==> !tripped)
    && (start < 0 ==> end < 0 && !tripped && (g.Thinks() ==> forall i :: 0 <= i <= |text| ==>
        !StartsAt(text, i, g.open)))
    && (start >= 0 ==> if g.inside then start == 0 else StartsAt(text, start, g.open))
    && (start >= 0 && !g.probe ==>
          var from := if g.inside then 0 else start + |g.open|;
          if end >= 0 then from <= end && StartsAt(text, end, g.close)
          else if tripped then exists t :: from <= t && StartsAt(text, t, g.open)
          else forall k :: from <= k <= |text| ==> !StartsAt(text, k, g.open) && !StartsAt(text, k, g.close))
  }

  // --- A thought and a call, piece by piece -----------------------------------------------------

  function Joined(pieces: seq<Text>): Text {
    if pieces == [] then [] else Joined(pieces[..|pieces| - 1]) + pieces[|pieces| - 1]
  }

  lemma {:induction false} JoinedUpTo(pieces: seq<Text>, n: nat)
    requires n <= |pieces|
    ensures Joined(pieces[..n]) <= Joined(pieces)
    decreases |pieces|
  {
    if n == |pieces| {
      assert pieces[..n] == pieces;
    } else {
      var front := pieces[..|pieces| - 1];
      JoinedUpTo(front, n);
      assert front[..n] == pieces[..n];
    }
  }

  /** The tags stand in this text where they were put, and nowhere else. */
  ghost predicate TagsOnly(g: Tags, thought: Text, prose: Text) {
    var text := Thoughtful(g, thought, prose);
    && (forall i :: 0 < i <= |text| ==> !StartsAt(text, i, g.open))
    && (forall i :: 0 <= i <= |text| && i != |g.open| + |thought| ==> !StartsAt(text, i, g.close))
    && (forall i :: 0 <= i <= |text| && i != |text| - |g.func| ==> !StartsAt(text, i, g.func))
  }

  function Thoughtful(g: Tags, thought: Text, prose: Text): Text {
    g.open + thought + g.close + prose + g.func
  }

  predicate Bracketed(t: Text) {
    t != [] && t[0] == '<' && '<' !in t[1..]
  }

  predicate Apart(a: Text, b: Text) {
    !(a <= b) && !(b <= a)
  }

  /** With tags that begin with a bracket and hold no other, every thought and every prose without
      brackets will do. */
  lemma AnyThought(g: Tags, thought: Text, prose: Text)
    requires Bracketed(g.open) && Bracketed(g.close) && Bracketed(g.func)
    requires Apart(g.open, g.close) && Apart(g.open, g.func) && Apart(g.close, g.func)
    requires '<' !in thought && '<' !in prose
    ensures TagsOnly(g, thought, prose)
  {
    hide Thoughtful, StartsAt;
    var text := Thoughtful(g, thought, prose);
    TagsThere(g, thought, prose);
    TagPlaces(g, thought, prose, g.open);
    TagPlaces(g, thought, prose, g.close);
    TagPlaces(g, thought, prose, g.func);
    var c, f := |g.open| + |thought|, |text| - |g.func|;
    OnlyOne(text, 0, g.open, g.close);
    OnlyOne(text, 0, g.open, g.func);
    OnlyOne(text, c, g.close, g.open);
    OnlyOne(text, c, g.close, g.func);
    OnlyOne(text, f, g.func, g.open);
    OnlyOne(text, f, g.func, g.close);
  }

  lemma OnlyOne(text: Text, i: nat, a: Text, b: Text)
    requires i <= |text| && StartsAt(text, i, a) && Apart(a, b)
    ensures !StartsAt(text, i, b)
  {
    var k :| 0 <= k < |a| && k < |b| && a[k] != b[k];
    assert text[i..][k] == a[k];
  }

  lemma TagsThere(g: Tags, thought: Text, prose: Text)
    ensures var text := Thoughtful(g, thought, prose);
            && StartsAt(text, 0, g.open) && StartsAt(text, |g.open| + |thought|, g.close)
                && StartsAt(text, |text| - |g.func|, g.func)
            && |g.open| + |thought| + |g.close| + |prose| + |g.func| == |text|
  {
    var text := Thoughtful(g, thought, prose);
    assert text[0..] == g.open + (thought + g.close + prose + g.func);
    assert text[|g.open| + |thought|..] == g.close + (prose + g.func);
    assert text[|text| - |g.func|..] == g.func;
  }

  /** A bracketed tag starts only where one of the three was put. */
  lemma TagPlaces(g: Tags, thought: Text, prose: Text, t: Text)
    requires Bracketed(g.open) && Bracketed(g.close) && Bracketed(g.func) && Bracketed(t) && '<' !in thought
            && '<' !in prose
    ensures var text := Thoughtful(g, thought, prose);
            forall i :: 0 <= i <= |text| && i != 0 && i != |g.open| + |thought| && i != |text| - |g.func| ==>
                !StartsAt(text, i, t)
  {
    var text := Thoughtful(g, thought, prose);
    NoOtherBracket(g, thought, prose);
    forall i | 0 <= i < |text| && text[i] != '<' ensures !StartsAt(text, i, t) {
      assert text[i..][0] == text[i];
    }
  }

  lemma NoOtherBracket(g: Tags, thought: Text, prose: Text)
    requires Bracketed(g.open) && Bracketed(g.close) && Bracketed(g.func) && '<' !in thought && '<' !in prose
    ensures var text := Thoughtful(g, thought, prose);
            forall i :: 0 < i < |text| && i != |g.open| + |thought| && i != |text| - |g.func| ==> text[i] != '<'
  {
    var text := Thoughtful(g, thought, prose);
    var a, b := |g.open|, |g.open| + |thought|;
    var c := b + |g.close|;
    var d := c + |prose|;
    forall i | 0 < i < a ensures text[i] != '<' {
      assert text[i] == g.open[i] == g.open[1..][i - 1];
    }
    forall i | a <= i < b ensures text[i] != '<' {
      assert text[i] == thought[i - a];
    }
    forall i | b < i < c ensures text[i] != '<' {
      assert text[i] == g.close[i - b] == g.close[1..][i - b - 1];
    }
    forall i | c <= i < d ensures text[i] != '<' {
      assert text[i] == prose[i - c];
    }
    forall i | d < i < |text| ensures text[i] != '<' {
      assert text[i] == g.func[i - d] == g.func[1..][i - d - 1];
    }
  }

  ghost predicate ToolTold(g: Tags, text: Text, start: int, end: int, toolStart: int) {
    if toolStart >= 0 then StartsAt(text, toolStart, g.func)
    else forall i :: 0 <= i < |text| && StartsAt(text, i, g.func) ==>
        !(start < 0 || i < start || (end >= 0 && i >= end + |g.close|))
  }

  lemma NoTrip(g: Tags, thought: Text, prose: Text, text: Text, start: int, end: int, tripped: bool)
    requires g.Thinks() && !g.inside && !g.probe && TagsOnly(g, thought, prose)
    requires text <= Thoughtful(g, thought, prose) && BlockTold(g, text, start, end, tripped)
    ensures !tripped
  {
    var whole := Thoughtful(g, thought, prose);
    assert whole == text + whole[|text|..];
    if start >= 0 && tripped && end < 0 {
      var t :| start + |g.open| <= t && StartsAt(text, t, g.open);
      StartsInside(text, whole[|text|..], t, g.open);
    }
  }

  lemma SeenThere(g: Tags, thought: Text, prose: Text, start: int, end: int, toolStart: int)
    requires g.Thinks() && !g.inside && !g.probe && g.func != [] && TagsOnly(g, thought, prose)
    requires BlockTold(g, Thoughtful(g, thought, prose), start, end, false)
            && ToolTold(g, Thoughtful(g, thought, prose), start, end, toolStart)
    ensures start == 0 && end == |g.open| + |thought| && toolStart == |g.open| + |thought| + |g.close| + |prose|
  {
    var whole := Thoughtful(g, thought, prose);
    var closes, calls := |g.open| + |thought|, |whole| - |g.func|;
    assert whole[0..] == whole && g.open <= whole;
    assert whole[closes..] == g.close + prose + g.func && g.close <= g.close + prose + g.func;
    assert whole[calls..] == g.func;
    assert StartsAt(whole, 0, g.open) && StartsAt(whole, closes, g.close) && StartsAt(whole, calls, g.func);
  }

  /** However a thought and a call behind it are split into pieces, the call is seen where it
      starts, and not before it is complete. */
  method CallBehindThought(g: Tags, thought: Text, prose: Text, pieces: seq<Text>) returns (start: int, end: int,
      toolStart: int)
    requires g.Valid() && g.Thinks() && !g.inside && !g.probe && TagsOnly(g, thought, prose)
    requires Joined(pieces) == g.open + thought + g.close + prose + g.func
    ensures start == 0 && end == |g.open| + |thought| && toolStart == |g.open| + |thought| + |g.close| + |prose|
  {
    hide ScanFrom, StartsAt;
    ghost var whole := Thoughtful(g, thought, prose);
    var scanner := new Scanner(g);
    var i := 0;
    assert pieces[..0] == [];
    while i < |pieces|
      invariant i <= |pieces| && fresh(scanner) && scanner.g == g
      invariant scanner.Valid() && scanner.ToolScanned() && !scanner.tripped
      invariant scanner.text == Joined(pieces[..i]) && (i == 0 ==> scanner.toolStart < 0)
      invariant i > 0 ==> BlockTold(g, scanner.text, scanner.start, scanner.end, false)
      invariant i > 0 ==> ToolTold(g, scanner.text, scanner.start, scanner.end, scanner.toolStart)
    {
      assert pieces[..i + 1][..i] == pieces[..i];
      JoinedUpTo(pieces, i + 1);
      scanner.Feed(pieces[i]);
      NoTrip(g, thought, prose, scanner.text, scanner.start, scanner.end, scanner.tripped);
      i := i + 1;
    }
    assert pieces[..|pieces|] == pieces;
    start, end, toolStart := scanner.start, scanner.end, scanner.toolStart;
    SeenThere(g, thought, prose, start, end, toolStart);
  }
}
