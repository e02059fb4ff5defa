/** The auto-continue loop around the generations of one user turn: tool calls,
    self-fixes, corrections, simulation recovery and the resume at 90% context. */
module TurnLoop {

  /** nCtx: context size; cap: LIM_MAX_AUTO_CONTINUE, at least 5. */
  datatype Limits = Limits(nCtx: nat, cap: nat)
  {
    predicate Valid() {
      cap >= 5
    }

    /** The 90% line. */
    function Line(): nat {
      nCtx * 9 / 10
    }
  }

  datatype Turn = Turn(
    nPast: nat,
    checked: nat,           // last_context_: n_past at the latest 90% check
    depth: nat,             // g_auto_continue_depth_
    auto: bool,             // auto_continue
    corrected: bool,        // correction_attempted_this_turn
    selfFixed: bool,        // minor_tool_error_self_fix_used
    named: bool,            // last_user_input_ is not empty
    func: nat,              // tool_correction_n_past: behind the latest FUNC_START
    mid: bool,              // the next generation resumes inside the call that starts there
    reborn: bool)           // reincarnate_first_turn
  {
    predicate Valid() {
      mid ==> func <= nPast
    }
  }

  datatype CallClass = ValidCall | MinorError | StructuralError

  /** What a correction cycle comes to; `checked` is where its regeneration last looked at the
      90% line. */
  datatype Correction =
    | NotCorrected                                     // anything that ejects to the prompt
    | Injected(body: nat, result: nat, fed: bool, checked: nat)
    | InPlace(grown: nat, result: nat, fed: bool, checked: nat)

  datatype End =
    | Finished                                         // interrupt, timeout, exhaustion, failure
    | EndOfTurn                                        // an end-of-generation token outside a call
    | Crossing                                         // the 90% line was crossed
    | Simulates(recovery: nat, fed: bool)              // thinking-simulation tripwire
    | Calls(kind: CallClass, result: nat, fed: bool, correction: Correction)
    | Loops(correction: Correction)                    // silent-loop abort

  /** One generation: how many tokens it committed, behind how many of them it last looked at
      the 90% line, behind which of them a call started (0 for none), and how it ended. */
  datatype Generation = Generation(grown: nat, seen: nat, opens: nat, end: End)

  /** Facts about a generation: every turn that is fed takes at least one position; it crosses
      the line only from below; and a call that ends in it started in it, unless it resumed
      inside the call, and then no other call starts. */
  predicate Possible(l: Limits, t: Turn, g: Generation) {
    && g.seen <= g.grown && g.opens <= g.grown && (t.mid ==> g.opens == 0)
    && match g.end
       case Finished => true
       case EndOfTurn => g.grown > 0
       case Crossing => g.seen == g.grown && l.Line() <= t.nPast + g.grown
           && (t.checked < l.Line() || t.nPast < l.Line())
       case Simulates(recovery, _) => recovery > 0
       case Calls(_, result, _, c) => g.grown > 0 && result > 0 && (t.mid || g.opens > 0) && CorrectionPossible(c)
       case Loops(c) => g.grown > 0 && (t.mid || g.opens > 0) && CorrectionPossible(c)
  }

  predicate CorrectionPossible(c: Correction) {
    match c
    case NotCorrected => true
    case Injected(_, result, _, _) => result > 0
    case InPlace(_, result, _, _) => result > 0
  }

  /** A generation samples only while there is room in the context. */
  predicate Fits(l: Limits, t: Turn, g: Generation) {
    g.grown > 0 || g.end.Simulates? ==> t.nPast < l.nCtx
  }

  datatype Next = Prompt | Again(t: Turn)

  /** generate_response's own bookkeeping, with that of the FUNC_START hook. */
  function Generate(t: Turn, g: Generation): Turn {
    t.(nPast := t.nPast + g.grown,
       checked := t.nPast + g.seen,
       depth := if t.auto then t.depth else 0,
       func := if g.opens > 0 then t.nPast + g.opens else t.func,
       mid := false)
  }

  /** ToolExecutor::execute once the call is accepted: feed the result and count. */
  function FeedResult(l: Limits, t: Turn, result: nat, fed: bool): Next {
    if !fed || t.depth + 1 > l.cap then Prompt
    else Again(t.(nPast := t.nPast + result, depth := t.depth + 1, auto := true))
  }

  /** The correction cycle: back to the latest FUNC_START, wherever that is, and on with the
      corrected call.  The regeneration runs with auto_continue off, so it starts the depth
      count over. */
  function Correct(l: Limits, t: Turn, c: Correction): Next {
    match c
    case NotCorrected => Prompt
    case Injected(body, result, fed, checked) =>
      FeedResult(l, t.(nPast := t.func + body, depth := 0, auto := false, corrected := false, selfFixed := false,
          checked := checked),
                 result, fed)
    case InPlace(grown, result, fed, checked) =>
      FeedResult(l, t.(nPast := t.nPast + grown, depth := 0, auto := false, corrected := false, selfFixed := false,
          checked := checked),
                 result, fed)
  }

  /** One trip around the loop. */
  function Step(l: Limits, start: Turn, g: Generation): Next {
    var t := Generate(start, g);
    var open := start.mid || g.opens > 0;
    match g.end
    case Finished => Prompt
    case EndOfTurn =>
      if t.reborn && t.auto then Again(t.(reborn := false, corrected := false, selfFixed := false, named := false))
          else Prompt
    case Crossing => if t.named then Again(t.(auto := true, corrected := false, selfFixed := false, mid := open))
        else Prompt
    case Simulates(recovery, fed) =>
      if t.depth >= l.cap || !fed then Prompt
      else Again(t.(nPast := t.nPast + recovery, depth := t.depth + 1, auto := true, mid := open))
    case Loops(c) => if t.corrected then Prompt else Correct(l, t.(corrected := true), c)
    case Calls(kind, result, fed, c) =>
      if kind == ValidCall then FeedResult(l, t.(selfFixed := false), result, fed)
      else
        var u := if kind == StructuralError then t.(selfFixed := false) else t;
        if kind == MinorError && !u.selfFixed then FeedResult(l, u.(selfFixed := true), result, fed)
        else if u.corrected then Prompt
        else Correct(l, u.(corrected := true), c)
  }

  /** When the loop goes on: a result or a recovery that was fed, while the count is below the cap;
      a correction that was fed, if none was attempted since; at the 90% line if there is a
      request to name; and behind the first turn of a reborn session. */
  lemma GoesOn(l: Limits, t: Turn, g: Generation)
    requires l.Valid()
    ensures var depth := if t.auto then t.depth else 0;
            Step(l, t, g).Again? <==>
              match g.end
              case Finished => false
              case EndOfTurn => t.reborn && t.auto
              case Crossing => t.named
              case Simulates(_, fed) => fed && depth < l.cap
              case Loops(c) => !t.corrected && !c.NotCorrected? && c.fed
              case Calls(kind, _, fed, c) =>
                if kind == ValidCall || (kind == MinorError && !t.selfFixed) then fed && depth < l.cap
                else !t.corrected && !c.NotCorrected? && c.fed
  {
  }

  /** And where: behind everything that was committed and fed, one further in the count. */
  lemma GoesOnBehind(l: Limits, t: Turn, g: Generation)
    requires Step(l, t, g).Again? && !UsesCorrection(g, t)
    ensures var u := Step(l, t, g).t;
            var fed := if g.end.Calls? then g.end.result else if g.end.Simulates? then g.end.recovery else 0;
            var depth := if t.auto then t.depth else 0;
            && u.nPast == t.nPast + g.grown + fed && u.auto
            && u.depth == if g.end.Calls? || g.end.Simulates? then depth + 1 else depth
  {
    hide Limits.Line, Correct;
  }

  /** Behind a correction: the corrected call stands where the latest call starts, or the repair
      behind what was committed, and the count is one. */
  lemma CorrectionGoesOn(l: Limits, t: Turn, g: Generation)
    requires Step(l, t, g).Again? && UsesCorrection(g, t)
    ensures var u := Step(l, t, g).t;
            && u.depth == 1 && u.auto
            && match g.end.correction
               case NotCorrected => false
               case Injected(body, result, _, _) =>
                 u.nPast == (if g.opens > 0 then t.nPast + g.opens else t.func) + body + result
               case InPlace(grown, result, _, _) => u.nPast == t.nPast + g.grown + grown + result
  {
    hide Limits.Line;
  }

  // --- Termination -------------------------------------------------------------------------

  /** Room left behind a position. */
  function Room(l: Limits, p: nat): nat {
    if p < l.nCtx then l.nCtx - p else 0
  }

  /** No correction goes back further: to the start of the call that is open, or to a call yet
      to come. */
  function Floor(t: Turn): nat {
    if t.mid then t.func else t.nPast
  }

  /** Whether the next check could still see the 90% line being crossed. */
  function Below(l: Limits, t: Turn): nat {
    if t.checked < l.Line() || t.nPast < l.Line() then 1 else 0
  }

  /** First the floor, then the position, then the line. */
  function Weight(l: Limits, t: Turn): nat {
    (2 * l.nCtx + 2) * Room(l, Floor(t)) + 2 * Room(l, t.nPast) + Below(l, t)
  }

  /** Every trip that does not return to the prompt raises the floor; or leaves it and uses up
      context; or, at the 90% line, uses up the one resume it is good for. */
  lemma StepDecreases(l: Limits, t: Turn, g: Generation)
    requires t.Valid() && Possible(l, t, g) && Fits(l, t, g) && Step(l, t, g).Again?
    ensures var u := Step(l, t, g).t;
            && u.Valid() && Floor(u) >= Floor(t)
            && (|| Room(l, Floor(u)) < Room(l, Floor(t))
                || (Floor(u) == Floor(t) && Room(l, u.nPast) < Room(l, t.nPast))
                || (Floor(u) == Floor(t) && u.nPast == t.nPast && Below(l, u) < Below(l, t)))
  {
    hide Limits.Line;
    if g.end.Calls? || g.end.Loops? {
      CallRaisesFloor(l, t, g);
    }
  }

  lemma CallRaisesFloor(l: Limits, t: Turn, g: Generation)
    requires t.Valid() && Possible(l, t, g) && Fits(l, t, g) && Step(l, t, g).Again? && (g.end.Calls? || g.end.Loops?)
    ensures !Step(l, t, g).t.mid && Step(l, t, g).t.nPast > Floor(t)
  {
    hide Limits.Line, Correct;
    var u := Generate(t, g);
    CorrectionLands(l, u.(corrected := true), g.end.correction);
    CorrectionLands(l, u.(corrected := true, selfFixed := false), g.end.correction);
  }

  /** A correction goes on behind the latest FUNC_START, or behind the tokens. */
  lemma CorrectionLands(l: Limits, t: Turn, c: Correction)
    requires CorrectionPossible(c)
    ensures Correct(l, t, c).Again? ==>
              Correct(l, t, c).t.mid == t.mid && Correct(l, t, c).t.nPast > if c.Injected? then t.func else t.nPast
  {
  }

  lemma WeightDecreases(l: Limits, t: Turn, g: Generation)
    requires t.Valid() && Possible(l, t, g) && Fits(l, t, g) && Step(l, t, g).Again?
    ensures Weight(l, Step(l, t, g).t) < Weight(l, t)
  {
    hide Step, Possible, Fits, Floor, Limits.Line;
    StepDecreases(l, t, g);
    var u := Step(l, t, g).t;
    Lexicographic(l.nCtx, Room(l, Floor(u)), Room(l, u.nPast), Below(l, u), Room(l, Floor(t)), Room(l, t.nPast),
        Below(l, t));
  }

  lemma Lexicographic(n: nat, a: nat, b: nat, c: nat, a0: nat, b0: nat, c0: nat)
    requires b <= n && c <= 1 && (a < a0 || (a == a0 && b < b0 && c <= 1) || (a == a0 && b == b0 && c < c0))
    ensures (2 * n + 2) * a + 2 * b + c < (2 * n + 2) * a0 + 2 * b0 + c0
  {
    if a < a0 {
      assert (2 * n + 2) * (a + 1) <= (2 * n + 2) * a0;
    }
  }

  /** The position itself may fall: a call that the 90% crossing cut in two is corrected to
      where it started, which lies in front of the resume. */
  lemma CorrectionGoesBack()
    ensures var l := Limits(1000, 500);
            var t := Turn(950, 950, 1, true, false, false, true, 895, true, false);
            var g := Generation(5, 4, 0, Calls(StructuralError, 1, true, Injected(20, 10, true, 990)));
            && t.Valid() && Possible(l, t, g) && Fits(l, t, g)
            && Step(l, t, g).Again? && Step(l, t, g).t.nPast == 925 < t.nPast
  {
  }

  /** The generations of a turn, in order. */
  type Oracle = (Turn, nat) -> Generation

  ghost predicate Sane(l: Limits, o: Oracle) {
    forall t: Turn, i: nat :: t.Valid() ==> Possible(l, t, o(t, i)) && Fits(l, t, o(t, i))
  }

  /** Whatever the generations come to, the loop returns to the prompt; this is the
      number of trips it takes. */
  function Trips(l: Limits, t: Turn, o: Oracle, i: nat): (n: nat)
    requires t.Valid() && Possible(l, t, o(t, i)) && Fits(l, t, o(t, i)) && Sane(l, o)
    ensures 0 < n <= Weight(l, t) + 1
    decreases Weight(l, t)
  {
    var next := Step(l, t, o(t, i));
    if next.Prompt? then 1
    else
      StepDecreases(l, t, o(t, i));
      WeightDecreases(l, t, o(t, i));
      1 + Trips(l, next.t, o, i + 1)
  }

  // --- What the depth cap does and does not bound ---------------------------------------------

  predicate UsesCorrection(g: Generation, t: Turn) {
    match g.end
    case Loops(_) => true
    case Calls(kind, _, _, _) => kind == StructuralError || (kind == MinorError && t.selfFixed)
    case _ => false
  }

  /** How much of the cap is left: the count starts over unless the loop continues by itself. */
  function Budget(l: Limits, t: Turn): nat {
    var depth := if t.auto then t.depth else 0;
    if depth < l.cap then l.cap - depth else 0
  }

  /** What is left that the cap does not count: the resume at the 90% line, and the one a reborn
      session makes behind its first turn. */
  function Uncounted(l: Limits, t: Turn): nat {
    Below(l, t) + (if t.reborn then 1 else 0)
  }

  /** Without a correction, each tool result and each recovery is counted, up to the
      cap; the two resumes are not counted but each happens once. */
  lemma DepthCounts(l: Limits, t: Turn, g: Generation)
    requires Possible(l, t, g) && Step(l, t, g).Again? && !UsesCorrection(g, t)
    ensures var u := Step(l, t, g).t;
            && u.auto && Uncounted(l, u) <= Uncounted(l, t)
            && if g.end.Crossing? || g.end.EndOfTurn? then Budget(l, u) == Budget(l, t)
                && Uncounted(l, u) < Uncounted(l, t)
               else u.depth <= l.cap && Budget(l, u) == Budget(l, t) - 1
  {
    hide Limits.Line, FeedResult, Correct, Fits;
    var u := Generate(t, g);
    if g.end.Calls? {
      ResultCounts(l, u.(selfFixed := false), g.end.result, g.end.fed);
      ResultCounts(l, u.(selfFixed := true), g.end.result, g.end.fed);
    }
  }

  lemma ResultCounts(l: Limits, t: Turn, result: nat, fed: bool)
    ensures FeedResult(l, t, result, fed).Again? ==>
            FeedResult(l, t, result, fed).t == t.(nPast := t.nPast + result, depth := t.depth + 1, auto := true)
    ensures FeedResult(l, t, result, fed).Again? ==> t.depth + 1 <= l.cap
  {
  }

  ghost predicate Uncorrected(o: Oracle) {
    forall t: Turn, i: nat :: !UsesCorrection(o(t, i), t)
  }

  /** So the cap bounds every turn in which nothing is corrected. */
  lemma {:induction false} CapBoundsTrips(l: Limits, t: Turn, o: Oracle, i: nat)
    requires t.Valid() && Possible(l, t, o(t, i)) && Fits(l, t, o(t, i)) && Sane(l, o) && Uncorrected(o)
    ensures Trips(l, t, o, i) <= Budget(l, t) + Uncounted(l, t) + 1
    decreases Weight(l, t)
  {
    var next := Step(l, t, o(t, i));
    if next.Again? {
      DepthCounts(l, t, o(t, i));
      StepDecreases(l, t, o(t, i));
      WeightDecreases(l, t, o(t, i));
      CapBoundsTrips(l, next.t, o, i + 1);
    }
  }

  /** A successful correction starts the count over, whatever it was. */
  lemma CorrectionResetsDepth(l: Limits, t: Turn, g: Generation)
    requires l.Valid() && UsesCorrection(g, t) && Step(l, t, g).Again?
    ensures Step(l, t, g).t.depth == 1 && !Step(l, t, g).t.corrected
  {
  }

  /** A malformed call that the correction cycle repairs, two positions at a time. */
  const REPAIRED_CALL := Generation(1, 0, 1, Calls(StructuralError, 1, true, Injected(0, 1, true, 0)))

  function AfterRepairs(l: Limits, t: Turn, n: nat): Next
    decreases n
  {
    if n == 0 then Again(t)
    else match Step(l, t, REPAIRED_CALL)
         case Prompt => Prompt
         case Again(u) => AfterRepairs(l, u, n - 1)
  }

  /** So the cap does not bound a chain of corrected calls: for every number of calls
      there is a context in which all of them run, whatever the cap, with the count
      never above one.  Only the context ends such a chain. */
  lemma {:induction false} CapDoesNotBoundCorrections(l: Limits, t: Turn, n: nat)
    requires l.Valid() && !t.corrected && !t.mid
    ensures AfterRepairs(l, t, n).Again?
    ensures n > 0 ==> AfterRepairs(l, t, n).t.depth == 1 && AfterRepairs(l, t, n).t.nPast == t.nPast + 2 * n
    ensures t.nPast < l.nCtx ==> Possible(l, t, REPAIRED_CALL) && Fits(l, t, REPAIRED_CALL)
    decreases n
  {
    if n > 0 {
      var u := Step(l, t, REPAIRED_CALL).t;
      CapDoesNotBoundCorrections(l, u, n - 1);
    }
  }
}
