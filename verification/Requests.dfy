/** What a user can ask of a session, what each request needs of it, and what it does to the
    conversation: a decode that never fails and drafts that do not exist. */
module Requests {
  import opened KvMemory
  import opened PlainLoop
  import opened ChatSession

  /** Why the invariant was lost. */
  datatype Cause =
    | Kept                    // it was not
    | TripwireOnLastMatch     // a generation left the memory one token ahead
    | UnsettledOrigin         // the decode that closes a round failed over a stale snapshot
    | SavedPendingRollback    // a turn ended by rolling back verify rows
    | UndoTooShort            // an instant undo inside the snapshot window, or on a stale slot
    | CorrectionTooShort      // a correction inside the window, or behind a checkpoint
    | Drifted                 // mode 2 cut the cache behind live stack entries
    | UnsoundSave             // a loaded list the stack cannot be aligned with
    | ProbeTooShort           // the canary was rolled back inside the snapshot window
    | ForgottenSlot           // a reincarnation forgot an ejected correction's slot
    | OldBooks                // a reincarnation kept the old session's bookkeeping

  /** The conversation is right, whatever the stack holds. */
  predicate Unspoilt(cause: Cause) {
    cause == Kept || cause == SavedPendingRollback
  }

  /** Everything a run is given: the functions of the plain loop for a turn and for a probe, the
      context size, the number of drafts and the probe's token cap. */
  datatype Setup = Setup(env: Env, probe: Env, nCtx: nat, draftLen: nat, probeCap: nat)
  {
    /** A probe's text scan does not know the tripwire, and rounds fit the snapshot window. */
    ghost predicate Fits(session: Session)
      reads session
    {
      && probeCap > 0 && (session.mem.hybrid ==> draftLen <= session.mem.window)
      && NeverTrips(probe)
    }

    /** The setup as a probe sees it. */
    function Probing(): Setup {
      this.(env := probe)
    }

    function Turns(): Config {
      Config(nCtx, 0, false)
    }

    function Probes(): Config {
      Config(nCtx, probeCap, false)
    }

    /** A canary probe of these tokens outgrows the snapshot window. */
    predicate ProbeLong(tokens: Tokens, system: Tokens, lastContext: int, window: nat) {
      |Run(probe, Probes(), Position(tokens, [], [], 0, 0, lastContext, false, system != []),
           Exact(system)).at.tracker| > |tokens| + window
    }
  }

  /** No text makes the thinking tripwire fire. */
  ghost predicate NeverTrips(env: Env) {
    forall pieces :: env.verdict(pieces) != Tripwire
  }

  const CANARY_RETRIES := 2

  /** The tokens of a turn: never empty, since every turn has its markers. */
  type Fed = toks: Tokens | toks != [] witness [0]

  /** How the prompt reaches the context: appended, or as a whole request in the
      benchmark modes. */
  datatype Feeding = Append(turn: Fed) | Whole(request: Fed) | Delta(request: Fed)

  /** What follows a generation that does not end the turn: a tool's result, an abort message
      or the recovery's prompt, after which the turn goes on or not; or a correction, whose
      reminder may not fit and whose call may be no good. */
  datatype Round =
    | Result(tokens: Tokens, goOn: bool)
    | Correction(reminder: Fed, fits: bool, valid: bool, call: Fed, result: Fed, goOn: bool)

  /** How a reincarnation ends: without a prompt to follow, or with one. */
  datatype Rebirth = NoPrompt | Follow(prompt: Fed, fits: bool, title: string)

  /** The user's next request.  A restore is always made from a cleared session, which is the
      only one that accepts it; `corrupt` is how many probes of it are judged corrupted.  What a
      reborn session does by itself, its first generation and one resume, are requests to resume
      without a prefill. */
  datatype Request =
    | Prompt(text: string, feeding: Feeding, rounds: seq<Round>)
    | Resume(prefill: Tokens, rounds: seq<Round>)      // no prefill: from the batch as it was left
    | UndoTo(sel: nat)
    | Clear
    | Load(tokens: Tokens, saved: seq<PromptCheckpoint>)
    | FastLoad(cached: Fed, saved: seq<PromptCheckpoint>, canary: bool, corrupt: nat)
    | Reincarnation(ask: Fed, rounds: seq<Round>, rebirth: Rebirth)

  /** A user who looks at the session before every request. */
  type User = (View, nat) -> Request

  // --- What a request needs of the session it is made in -----------------------------------------

  /** Every correction's reminder outgrows the snapshot window. */
  predicate LongReminders(rounds: seq<Round>, window: nat) {
    forall i :: 0 <= i < |rounds| && rounds[i].Correction? && rounds[i].fits ==> |rounds[i].reminder| > window
  }

  /** The request can be trusted to keep the invariant. */
  ghost predicate Trusted(setup: Setup, system: Tokens, v: View, r: Request) {
    match r
    case Prompt(_, feeding, rounds) =>
      (v.cache.hybrid ==> LongReminders(rounds, v.cache.window)) && Feedable(v, feeding)
    case Resume(prefill, rounds) =>
      v.cache.hybrid ==> LongReminders(rounds, v.cache.window) && (prefill != [] || v.cache.rsIdx == 0)
    case UndoTo(sel) => sel + 1 < |v.cps| && v.InstantUndo(sel) ==> v.InstantUndoSound(sel)
    case Clear => true
    case Load(tokens, saved) => Sound(saved, |tokens|)
    case FastLoad(tokens, saved, canary, _) =>
      && FastSound(v.cache.hybrid, saved, |tokens|, canary)
      && (canary && v.cache.hybrid ==> forall last: int :: setup.ProbeLong(tokens, system, last, v.cache.window))
    case Reincarnation(_, rounds, rebirth) =>
      v.cache.hybrid ==> !v.slotSaved && LongReminders(rounds, v.cache.window) && (rebirth.Follow? ==> rebirth.fits)
  }

  /** The prompt can be put into the context. */
  ghost predicate Feedable(v: View, feeding: Feeding) {
    feeding.Delta? ==>
      forall m: nat :: IsMatch(v.tracker, feeding.request, m) ==>
                         && (v.cache.hybrid ==> m < |feeding.request|)
                         && (m < |v.tracker| ==> v.DriftSound(m, |feeding.request|))
  }

  /** Whatever the turn is called. */
  lemma NamedFeedable(v: View, text: string, feeding: Feeding)
    ensures Feedable(v.(lastInput := text, interruptedIdx := -1), feeding) <==> Feedable(v, feeding)
  {
    var w := v.(lastInput := text, interruptedIdx := -1);
    if feeding.Delta? {
      forall m: nat ensures v.DriftSound(m, |feeding.request|) == w.DriftSound(m, |feeding.request|) {
        SameAnchor(v, w, m, |v.cps|);
      }
    }
  }

  lemma {:induction false} SameAnchor(a: View, b: View, limit: int, n: nat)
    requires a.cps == b.cps && a.offset == b.offset && n <= |a.cps|
    ensures a.AnchorBelow(limit, n) == b.AnchorBelow(limit, n)
  {
    if n > 0 {
      SameAnchor(a, b, limit, n - 1);
    }
  }

  /** On a pure attention model every request can be trusted but the restore of an unsound
      list. */
  lemma PureAttentionTrusted(setup: Setup, system: Tokens, v: View, r: Request)
    requires !v.cache.hybrid
    ensures Trusted(setup, system, v, r) <==>
            match r
            case Load(tokens, saved) => Sound(saved, |tokens|)
            case FastLoad(tokens, saved, _, _) => Sound(saved, |tokens|)
            case _ => true
  {
  }

  /** The two agree on exactly their first m tokens. */
  ghost predicate IsMatch(cached: Tokens, request: Tokens, m: nat) {
    && m <= |cached| && m <= |request| && cached[..m] == request[..m]
    && (m < |cached| && m < |request| ==> cached[m] != request[m])
  }

  predicate NoCorrections(rounds: seq<Round>) {
    forall i :: 0 <= i < |rounds| ==> !rounds[i].Correction?
  }

  /** On every model, the everyday requests can be trusted: prompts and resumes without
      corrections, a mode 2 request that goes on where the cache ends, an undo that decodes again,
      a clear, and the restore of a list that is ordered, positive and within the tokens. */
  lemma EverydayTrusted(setup: Setup, system: Tokens, v: View, r: Request)
    requires match r
             case Prompt(_, feeding, rounds) =>
               NoCorrections(rounds) && (feeding.Delta? ==> v.tracker < feeding.request)
             case Resume(prefill, rounds) => NoCorrections(rounds) && prefill != []
             case UndoTo(sel) => sel < |v.cps| && sel < v.offset && v.cps[sel].nPast > 0
                 && |v.tracker| - v.cps[sel].nPast > v.cache.window
                                 && v.cps[sel].nPast < |v.tracker| && v.cache.hybrid
             case Clear => true
             case Load(tokens, saved) =>
               && (forall k :: 0 <= k < |saved| ==> 0 < saved[k].nPast <= |tokens|)
               && (forall j, k :: 0 <= j <= k < |saved| ==> saved[j].nPast <= saved[k].nPast)
             case _ => false
    ensures Trusted(setup, system, v, r)
  {
    if r.Prompt? && r.feeding.Delta? {
      forall m: nat | IsMatch(v.tracker, r.feeding.request, m) ensures m == |v.tracker| {
        assert v.tracker == r.feeding.request[..|v.tracker|];
      }
    }
  }

  // --- What a request does ------------------------------------------------------------------------

  /** A session between two steps, with the failed decodes and the interrupts so far. */
  datatype Moment = Moment(view: View, rows: seq<Row>, lastContext: int, faults: nat, stops: nat)

  ghost function Now(session: Session): Moment
    reads session, session.mem
  {
    Moment(session.Look(), session.rows, session.lastContext, session.mem.faults, session.stops)
  }

  /** No decode failed and no feed was interrupted from one to the other. */
  predicate Quiet(a: Moment, b: Moment) {
    a.faults == b.faults && a.stops == b.stops
  }

  predicate Later(a: Moment, b: Moment) {
    a.faults <= b.faults && a.stops <= b.stops
  }

  /** The batch predicts what follows the context. */
  predicate OwnRow(m: Moment) {
    m.rows != [] && m.rows[|m.rows| - 1] == Exact(m.view.tracker)
  }

  /** Tokens were fed. */
  predicate Extended(a: Moment, toks: Tokens, b: Moment) {
    && b.view.Filed() == a.view.Filed() && Later(a, b) && a.lastContext == b.lastContext
    && a.view.tracker <= b.view.tracker <= a.view.tracker + toks
    && (Quiet(a, b) ==> b.view.tracker == a.view.tracker + toks && if toks == [] then a == b else OwnRow(b))
  }

  /** A prompt was put into the context. */
  ghost predicate Put(a: Moment, feeding: Feeding, b: Moment) {
    match feeding
    case Append(turn) => Extended(a, turn, b)
    case Whole(request) =>
      && b.view.lastInput == a.view.lastInput && Later(a, b) && a.lastContext == b.lastContext
      && b.view.tracker <= request && b.view.cps == [] && b.view.interruptedIdx == -1
      && (Quiet(a, b) ==> b.view.tracker == request && OwnRow(b))
    case Delta(request) =>
      && b.view.lastInput == a.view.lastInput && b.view.interruptedIdx == a.view.interruptedIdx && Later(a, b)
      && a.lastContext == b.lastContext && b.view.tracker <= request && (Quiet(a, b) ==> b.view.tracker == request)
      && (Quiet(a, b) && b.view.cache.Coherent() ==>
          if request <= a.view.tracker then OwnRow(b) || b.rows == a.rows else OwnRow(b))
  }

  /** What the plain loop generates behind these tokens. */
  function Spoken(env: Env, cfg: Config, tracker: Tokens, rows: seq<Row>, lastContext: int): (o: Outcome)
    ensures o.Done?
  {
    Run(env, cfg, Position(tracker, [], [], 0, 0, lastContext, false, rows != []), LastOf(rows))
  }

  /** The text ends in a call, good or not, or in a simulated one. */
  predicate Asks(exit: Exit) {
    exit.TextBreak? || exit == EndOfGeneration(true)
  }

  /** The text ends in a complete call. */
  predicate ClosesCall(exit: Exit) {
    exit == TextBreak(ToolClosed) || exit == TextBreak(SlashLoop) || exit == EndOfGeneration(true)
  }

  /** A generation and what followed it.  It went from `start` to the tokens `text`, and a
      correction from there to `redone`; then the turn goes on, or back to the prompt, through the
      prompt-return block or without it. */
  datatype Leg = Leg(
    start: Moment,
    text: Tokens,
    exit: Exit,
    checked: int,        // last_context_ behind the generation
    redone: Tokens,
    cause: Cause,
    more: bool,
    back: bool,
    end: Moment)

  ghost predicate Legged(env: Env, cfg: Config, next: seq<Round>, leg: Leg) {
    Generated(env, cfg, leg) && (Unspoilt(leg.cause) ==> Followed(env, cfg, next, leg))
  }

  /** The text is the plain loop's. */
  ghost predicate Generated(env: Env, cfg: Config, leg: Leg) {
    && Later(leg.start, leg.end) && leg.start.view.tracker <= leg.text
    && (Quiet(leg.start, leg.end) ==>
          var o := Spoken(env, cfg, leg.start.view.tracker, leg.start.rows, leg.start.lastContext);
          leg.text == o.at.tracker && leg.exit == o.exit && leg.checked == o.at.lastContext)
  }

  /** The prompt return at the 90% line, or what the text asked for, or nothing. */
  ghost predicate Followed(env: Env, cfg: Config, next: seq<Round>, leg: Leg) {
    if leg.exit == ContextCrossing then
      && leg.end.lastContext == leg.checked && leg.end.view.tracker == leg.text && !leg.back
      && (Quiet(leg.start, leg.end) && OwnRow(leg.start) && NeverTrips(env) ==> OwnRow(leg.end))
      && leg.end.view.Filed() == leg.start.view.(tracker := leg.text).Recorded(true, true)
      && (leg.more <==> leg.cause == Kept && leg.start.view.lastInput != "" && next != [])
    else
      && leg.cause == Kept && leg.end.view.Filed() == leg.start.view.Filed()
      && if next == [] || !Asks(leg.exit) then Idle(leg) && leg.back else Answered(env, cfg, next[0], leg)
  }

  predicate Idle(leg: Leg) {
    leg.end.view.tracker == leg.text && leg.end.lastContext == leg.checked && !leg.more
  }

  /** What the text asked for was done. */
  ghost predicate Answered(env: Env, cfg: Config, round: Round, leg: Leg) {
    match round
    case Result(tokens, goOn) =>
      && leg.text <= leg.end.view.tracker <= leg.text + tokens && leg.end.lastContext == leg.checked
          && (leg.back <==> !leg.more)
      && (Quiet(leg.start, leg.end) ==>
            && leg.end.view.tracker == leg.text + tokens && (leg.more <==> goOn)
            && if tokens == [] then leg.end.rows == [] else OwnRow(leg.end))
    case Correction(_, fits, _, _, _, _) =>
      if leg.exit == TextBreak(Tripwire) then Idle(leg) && leg.back
      else
        && !leg.back
        && if !fits then Idle(leg)
           else leg.text <= leg.redone && (Quiet(leg.start, leg.end) ==> Corrected(env, cfg, round, leg))
  }

  /** An undisturbed correction: the plain loop speaks again behind the reminder, and if that
      gives a good call it takes the place of the bad one. */
  ghost predicate Corrected(env: Env, cfg: Config, round: Round, leg: Leg)
    requires round.Correction?
  {
    var reminded := leg.text + round.reminder;
    var o := Spoken(env, cfg, reminded, [Exact(reminded)], leg.checked);
    && leg.redone == o.at.tracker && leg.end.lastContext == o.at.lastContext
    && if !ClosesCall(o.exit) || !round.valid then leg.end.view.tracker == leg.redone && !leg.more
       else Replaced(round, leg)
  }

  /** The good call is executed: where it stands if there are no checkpoints, else at the start
      of the bad one, if the session can go back there. */
  predicate Replaced(round: Round, leg: Leg)
    requires round.Correction?
  {
    var v := leg.end.view.(tracker := leg.redone);
    if v.cps != [] && v.Reach() < 0 then leg.end.view.tracker == leg.redone && !leg.more
    else
      && (leg.more <==> round.goOn)
      && if v.cps == [] then leg.end.view.tracker == leg.redone + round.result
         else v.toolNPast <= |leg.redone| && leg.end.view.tracker == leg.redone[..v.toolNPast] + round.call + round.result
  }

  function RoundAt(rounds: seq<Round>, i: nat): seq<Round> {
    if i < |rounds| then [rounds[i]] else []
  }

  /** The generations of one turn, each where the one before ended. */
  ghost predicate Turned(env: Env, cfg: Config, rounds: seq<Round>, legs: seq<Leg>) {
    && (forall i :: 0 <= i < |legs| ==> Legged(env, cfg, RoundAt(rounds, i), legs[i]))
    && (forall i :: 0 < i < |legs| ==> Joined(legs, i))
  }

  predicate Joined(legs: seq<Leg>, i: nat)
    requires 0 < i < |legs|
  {
    legs[i].start == legs[i - 1].end && legs[i - 1].more && legs[i - 1].cause == Kept
  }

  /** A turn and its return to the prompt. */
  ghost predicate Closed(env: Env, cfg: Config, rounds: seq<Round>, legs: seq<Leg>, cause: Cause, after: Moment)
    requires legs != []
  {
    var last := legs[|legs| - 1];
    && Turned(env, cfg, rounds, legs) && !last.more
    && if last.cause == Kept && last.back then
         && after.view.tracker == last.end.view.tracker && Quiet(last.end, after)
             && after.lastContext == last.end.lastContext
         && after.view.Filed() == last.end.view.Recorded(last.exit == Interrupted || last.exit == TurnTimeout, false)
       else after == last.end && cause == last.cause
  }

  /** What a request has done to the conversation.  An undisturbed one does exactly what the
      plain loop would. */
  ghost predicate Served(setup: Setup, system: Tokens, before: Moment, r: Request, cause: Cause, legs: seq<Leg>,
      after: Moment) {
    match r
    case Prompt(text, feeding, rounds) =>
      var named := before.(view := before.view.(lastInput := text, interruptedIdx := -1));
      if legs == [] then Put(named, feeding, after) && (cause == Kept ==> !Quiet(before, after))
      else Put(named, feeding, legs[0].start) && legs[0].start.view.cache.Coherent() && Closed(setup.env, setup.Turns(), rounds, legs, cause, after)
    case Resume(prefill, rounds) =>
      if legs == [] then Extended(before, prefill, after) && after.view.tracker == []
      else Extended(before, prefill, legs[0].start) && Closed(setup.env, setup.Turns(), rounds, legs, cause, after)
    case UndoTo(sel) => Undone(system, before, sel, after)
    case Clear => Fresh(system, after.view) && (Quiet(before, after) ==> after.view.tracker == system)
    case Load(tokens, saved) => Restored(system, tokens, saved, before, after)
    case FastLoad(tokens, saved, _, _) =>
      if cause == Kept then Restored(system, tokens, saved, before, after)
      else tokens <= after.view.tracker && after.view.cps == saved
    case Reincarnation(ask, rounds, rebirth) =>
      if legs == [] then
        && before.view.tracker <= after.view.tracker <= before.view.tracker + ask && after.view.cps == before.view.cps
        && (cause == Kept ==> !Quiet(before, after))
      else
        && Extended(before.(view := before.view.(interruptedIdx := -1)), ask, legs[0].start)
        && Reborn(setup, system, rounds, rebirth, legs, cause, after)
  }

  /** The requests of a run were served one after the other, all but the last with the invariant
      kept; `turns` holds what the generations of each came to. */
  ghost predicate Told(setup: Setup, system: Tokens, user: User, cause: Cause, seen: seq<Moment>,
      turns: seq<seq<Leg>>) {
    && |seen| == |turns| + 1
    && forall i :: 0 <= i < |turns| ==>
         Served(setup, system, seen[i], user(seen[i].view, i), if i + 1 < |turns| then Kept
             else cause, turns[i], seen[i + 1])
  }

  lemma ToldOn(setup: Setup, system: Tokens, user: User, seen: seq<Moment>, turns: seq<seq<Leg>>, cause: Cause,
      legs: seq<Leg>, m: Moment)
    requires Told(setup, system, user, Kept, seen, turns)
    requires var last := seen[|turns|]; Served(setup, system, last, user(last.view, |turns|), cause, legs, m)
    ensures Told(setup, system, user, cause, seen + [m], turns + [legs])
  {
    hide Served;
    var s, t := seen + [m], turns + [legs];
    forall i | 0 <= i < |t|
      ensures Served(setup, system, s[i], user(s[i].view, i), if i + 1 < |t| then Kept else cause, t[i], s[i + 1])
    {
      assert i < |turns| ==>
          Served(setup, system, seen[i], user(seen[i].view, i), if i + 1 < |turns| then Kept
              else Kept, turns[i], seen[i + 1]);
    }
  }

  ghost predicate Fresh(system: Tokens, v: View) {
    v.cps == [] && v.tracker <= system
  }

  ghost predicate Undone(system: Tokens, before: Moment, sel: nat, after: Moment) {
    if sel + 1 >= |before.view.cps| then after == before
    else
      || (Fresh(system, after.view) && !Quiet(before, after))
      || (&& after.view.cps == before.view.cps[..sel + 1] && after.view.tracker <= before.view.tracker
          && |after.view.tracker| == before.view.cps[sel].nPast)
  }

  ghost predicate Restored(system: Tokens, tokens: Tokens, saved: seq<PromptCheckpoint>, before: Moment,
      after: Moment) {
    (after.view.tracker == tokens && after.view.cps == saved) || (Fresh(system, after.view) && !Quiet(before, after))
  }

  /** A reincarnation's turn, and the new session if its text was completed. */
  ghost predicate Reborn(setup: Setup, system: Tokens, rounds: seq<Round>, rebirth: Rebirth, legs: seq<Leg>,
      cause: Cause, after: Moment)
    requires legs != []
  {
    var last := legs[|legs| - 1];
    var cfg := setup.Turns().(reincarnating := true);
    if last.cause == Kept && last.back && (last.exit.EndOfGeneration? || last.exit.TextBreak?) then
      && Turned(setup.env, cfg, rounds, legs) && !last.more && Later(last.end, after)
      && match rebirth
         case NoPrompt => after == last.end
         case Follow(prompt, fits, title) =>
           if !Quiet(last.end, after) then |after.view.cps| <= 1
           else if fits then
             after.view.tracker == system + prompt && after.view.cps == [PromptCheckpoint(|after.view.tracker|, title)]
           else after.view.tracker == system && after.view.cps == []
    else Closed(setup.env, cfg, rounds, legs, cause, after)
  }

  // --- What that means for the user -----------------------------------------------------------------

  /** A leg without a correction only adds to the conversation; at the 90% line it also records
      the turn. */
  lemma LegGrows(env: Env, cfg: Config, next: seq<Round>, leg: Leg)
    requires Legged(env, cfg, next, leg) && NoCorrections(next) && Unspoilt(leg.cause)
            && leg.start.view.interruptedIdx < 0
    ensures var a, b := leg.start.view, leg.end.view;
            && a.tracker <= b.tracker && b.interruptedIdx < 0
            && (leg.cause != Kept ==> !leg.back) && (leg.back || leg.more || leg.exit == ContextCrossing)
            && if leg.exit == ContextCrossing then IsRecorded(a, b) && (leg.more ==> b.lastInput == a.lastInput)
                && !leg.back
               else b.Filed() == a.Filed()
  {
    hide Spoken;
    assert next != [] ==> !next[0].Correction?;
  }

  /** The turn is recorded, if it has a name: a checkpoint is added where the tokens end. */
  ghost predicate IsRecorded(a: View, b: View) {
    && a.cps <= b.cps
    && (a.lastInput != "" ==> |a.cps| < |b.cps| && b.cps[|b.cps| - 1].nPast == |b.tracker|)
  }

  /** So does a turn. */
  lemma {:induction false} TurnGrows(env: Env, cfg: Config, rounds: seq<Round>, legs: seq<Leg>, n: nat)
    requires 0 < n <= |legs| && Turned(env, cfg, rounds, legs) && NoCorrections(rounds)
    requires Unspoilt(legs[n - 1].cause) && legs[0].start.view.interruptedIdx < 0
    ensures var a, b := legs[0].start, legs[n - 1].end;
            && Later(a, b) && a.view.tracker <= b.view.tracker && a.view.cps <= b.view.cps && b.view.interruptedIdx < 0
            && (legs[n - 1].more || legs[n - 1].back ==> b.view.lastInput == a.view.lastInput)
            && (!legs[n - 1].more && !legs[n - 1].back ==> IsRecorded(a.view, b.view))
            && (legs[n - 1].cause != Kept ==> !legs[n - 1].back)
  {
    hide Legged, Spoken;
    assert Legged(env, cfg, RoundAt(rounds, n - 1), legs[n - 1]);
    if n > 1 {
      assert Joined(legs, n - 1);
      TurnGrows(env, cfg, rounds, legs, n - 1);
    }
    LegIsLater(env, cfg, RoundAt(rounds, n - 1), legs[n - 1]);
    LegGrows(env, cfg, RoundAt(rounds, n - 1), legs[n - 1]);
  }

  lemma LegIsLater(env: Env, cfg: Config, next: seq<Round>, leg: Leg)
    requires Legged(env, cfg, next, leg)
    ensures Later(leg.start, leg.end)
  {
  }

  /** A prompt that was answered is in the conversation, with whatever was said in its turn, and
      the turn is recorded where the conversation ends. */
  lemma PromptAnswered(setup: Setup, system: Tokens, before: Moment, text: string, feeding: Feeding,
      rounds: seq<Round>, cause: Cause,
                       legs: seq<Leg>, after: Moment)
    requires Served(setup, system, before, Prompt(text, feeding, rounds), cause, legs, after)
    requires (cause == Kept || cause == SavedPendingRollback) && NoCorrections(rounds) && text != "" && Quiet(before, after)
    requires legs == [] ==> cause == Kept
    ensures legs != [] && (feeding.Append? ==>
            before.view.tracker + feeding.turn <= after.view.tracker && before.view.cps <= after.view.cps)
    ensures feeding.Whole? || feeding.Delta? ==> feeding.request <= after.view.tracker
    ensures after.view.cps != [] && after.view.cps[|after.view.cps| - 1].nPast == |after.view.tracker|
    ensures feeding.Append? ==> |after.view.cps| > |before.view.cps|
  {
    hide Legged, Turned, Spoken;
    TurnGrows(setup.env, setup.Turns(), rounds, legs, |legs|);
    var last := legs[|legs| - 1];
    if last.cause == Kept && last.back {
      assert last.end.view.cps <= after.view.cps;
    }
  }

  /** A resumed turn goes on behind the old tokens and the prefill. */
  lemma ResumeAnswered(setup: Setup, system: Tokens, before: Moment, prefill: Tokens, rounds: seq<Round>, cause: Cause,
                       legs: seq<Leg>, after: Moment)
    requires Served(setup, system, before, Resume(prefill, rounds), cause, legs, after)
    requires cause == Kept && NoCorrections(rounds) && Quiet(before, after)
    ensures before.view.tracker + prefill <= after.view.tracker
    ensures legs == [] ==> before.view.tracker + prefill == []
  {
    hide Legged, Turned, Spoken;
    if legs != [] {
      ClosedIsLater(setup.env, setup.Turns(), rounds, legs, after);
      AnswerOnlyGrows(setup.env, setup.Turns(), rounds, legs, after);
    }
  }

  /** A reincarnation whose turn came to its end starts a session with the new prompt. */
  lemma RebornAsAsked(setup: Setup, system: Tokens, before: Moment, ask: Fed, rounds: seq<Round>, prompt: Fed,
      title: string, cause: Cause,
                      legs: seq<Leg>, after: Moment)
    requires Served(setup, system, before, Reincarnation(ask, rounds, Follow(prompt, true, title)), cause, legs, after)
    requires Quiet(before, after) && cause == Kept
    ensures legs != [] && legs[0].start.view.tracker == before.view.tracker + ask
    ensures var last := legs[|legs| - 1];
            last.cause == Kept && last.back && Quiet(last.end, after)
                && (last.exit.EndOfGeneration? || last.exit.TextBreak?) ==>
              after.view.tracker == system + prompt && after.view.cps == [PromptCheckpoint(|system| + |prompt|, title)]
  {
    hide Legged, Spoken;
    if legs != [] {
      TurnIsLater(setup.env, setup.Turns().(reincarnating := true), rounds, legs, 0, |legs|);
    }
  }

  /** Between two generations of an undisturbed turn stands exactly the result of the first one's
      call, once, and the turn goes on exactly if it should; where nothing is asked for, nothing is
      added.  And each generation is the plain loop's. */
  lemma ResultsInPlace(env: Env, cfg: Config, rounds: seq<Round>, legs: seq<Leg>, i: nat)
    requires i < |legs| && Turned(env, cfg, rounds, legs) && legs[i].cause == Kept && Quiet(legs[i].start, legs[i].end)
    ensures i + 1 < |legs| ==> legs[i + 1].start == legs[i].end && legs[i].more
    ensures var m := legs[i].start;
            var o := Run(env, cfg, Position(m.view.tracker, [], [], 0, 0, m.lastContext, false, m.rows != []),
                         if m.rows == [] then Exact([]) else m.rows[|m.rows| - 1]);
            legs[i].text == o.at.tracker && legs[i].exit == o.exit
    ensures (legs[i].exit.TextBreak? || legs[i].exit == EndOfGeneration(true)) && i < |rounds| && rounds[i].Result? ==>
              && legs[i].end.view.tracker == legs[i].text + rounds[i].tokens
              && (legs[i].more <==> rounds[i].goOn) && (legs[i].back <==> !rounds[i].goOn)
              && (rounds[i].tokens != [] ==> OwnRow(legs[i].end))
              && legs[i].end.view.cps == legs[i].start.view.cps
    ensures !(legs[i].exit.TextBreak? || legs[i].exit == EndOfGeneration(true) || legs[i].exit == ContextCrossing)
            || i >= |rounds| ==>
              legs[i].end.view.tracker == legs[i].text && !legs[i].more
    ensures legs[i].exit == ContextCrossing ==>
              && legs[i].end.view.tracker == legs[i].text && !legs[i].back
              && (legs[i].start.view.lastInput != "" ==>
                    legs[i].end.view.cps == legs[i].start.view.cps + [PromptCheckpoint(|legs[i].text|, "/continue")])
  {
    hide Run;
    assert Legged(env, cfg, RoundAt(rounds, i), legs[i]);
    assert i + 1 < |legs| ==> Joined(legs, i + 1);
  }

  /** And in place of an undisturbed correction stands the good call with its result, if the plain
      loop gave one behind the reminder and the session can go back to the bad one. */
  lemma CorrectionInPlace(env: Env, cfg: Config, rounds: seq<Round>, legs: seq<Leg>, i: nat)
    requires i < |legs| && Turned(env, cfg, rounds, legs) && legs[i].cause == Kept && Quiet(legs[i].start, legs[i].end)
    requires i < |rounds| && rounds[i].Correction?
    requires legs[i].exit == EndOfGeneration(true) || (legs[i].exit.TextBreak? && legs[i].exit.why != Tripwire)
    requires forall k :: 0 <= k < |legs[i].end.view.cps| ==> legs[i].end.view.cps[k].nPast > 0
    ensures !legs[i].back && legs[i].end.view.cps == legs[i].start.view.cps
    ensures !rounds[i].fits ==> legs[i].end.view.tracker == legs[i].text && !legs[i].more
    ensures var reminded := legs[i].text + rounds[i].reminder;
            var o := Run(env, cfg, Position(reminded, [], [], 0, 0, legs[i].checked, false, true), Exact(reminded));
            var good := rounds[i].valid
                        && (o.exit == TextBreak(ToolClosed) || o.exit == TextBreak(SlashLoop)
                            || o.exit == EndOfGeneration(true));
            var v := legs[i].end.view;
            var target := v.toolNPast;
            var reaches := target <= |o.at.tracker|
                           && (v.slotHasTarget || exists k :: 0 <= k < |v.cps| && k >= v.offset && v.cps[k].nPast <= target);
            rounds[i].fits ==>
              if !good then v.tracker == o.at.tracker && !legs[i].more
              else if v.cps == [] then v.tracker == o.at.tracker + rounds[i].result && (legs[i].more <==> rounds[i].goOn)
              else if !reaches then v.tracker == o.at.tracker && !legs[i].more
              else v.tracker == o.at.tracker[..target] + rounds[i].call + rounds[i].result && (legs[i].more <==> rounds[i].goOn)
  {
    hide Run;
    assert Legged(env, cfg, RoundAt(rounds, i), legs[i]);
  }

  // --- Speculation does not show ----------------------------------------------------------------------

  /** The same tokens, the same name of the turn and the same last check of the 90% line. */
  predicate SameWords(a: Moment, b: Moment) {
    a.view.tracker == b.view.tracker && a.lastContext == b.lastContext && a.view.lastInput == b.view.lastInput
  }

  predicate SameBooks(a: Moment, b: Moment) {
    a.view.Filed() == b.view.Filed()
  }

  /** The same conversation. */
  predicate SameTalk(a: Moment, b: Moment) {
    SameWords(a, b) && SameBooks(a, b)
  }

  /** A result that the turn goes on with has tokens, and nothing is corrected. */
  predicate Plain(rounds: seq<Round>) {
    forall i :: 0 <= i < |rounds| ==> rounds[i].Result? && (rounds[i].goOn ==> rounds[i].tokens != [])
  }

  /** Two legs ended alike. */
  predicate SameEnd(a: Leg, b: Leg) {
    && SameWords(a.end, b.end) && a.exit == b.exit && a.more == b.more && a.back == b.back
    && (a.more ==> OwnRow(a.end) && OwnRow(b.end))
  }

  lemma SameLeg(env: Env, cfg: Config, next: seq<Round>, a: Leg, b: Leg)
    requires Legged(env, cfg, next, a) && Legged(env, cfg, next, b) && a.cause == b.cause == Kept
    requires Quiet(a.start, a.end) && Quiet(b.start, b.end) && Plain(next) && NeverTrips(env)
    requires SameWords(a.start, b.start) && OwnRow(a.start) && OwnRow(b.start)
    ensures SameEnd(a, b) && (SameBooks(a.start, b.start) ==> SameBooks(a.end, b.end))
  {
    hide Run;
    assert Spoken(env, cfg, a.start.view.tracker, a.start.rows, a.start.lastContext) ==
           Spoken(env, cfg, b.start.view.tracker, b.start.rows, b.start.lastContext);
    assert next != [] ==> next[0].Result?;
    SameNames(a.start.view.(tracker := a.text), b.start.view.(tracker := b.text));
  }

  lemma SameNames(a: View, b: View)
    requires a.lastInput == b.lastInput && a.tracker == b.tracker
    ensures a.Recorded(true, true).lastInput == b.Recorded(true, true).lastInput
    ensures a.Filed() == b.Filed() ==> a.Recorded(true, true) == b.Recorded(true, true)
  {
  }

  lemma {:induction false} SameTurn(env: Env, cfg: Config, rounds: seq<Round>, a: seq<Leg>, b: seq<Leg>, n: nat)
    requires 0 < n <= |a| && n <= |b| && Turned(env, cfg, rounds, a) && Turned(env, cfg, rounds, b)
    requires Plain(rounds) && NeverTrips(env) && a[n - 1].cause == b[n - 1].cause == Kept
    requires SameWords(a[0].start, b[0].start) && OwnRow(a[0].start) && OwnRow(b[0].start)
    requires Quiet(a[0].start, a[n - 1].end) && Quiet(b[0].start, b[n - 1].end)
    ensures SameEnd(a[n - 1], b[n - 1]) && (SameBooks(a[0].start, b[0].start) ==> SameBooks(a[n - 1].end, b[n - 1].end))
  {
    hide Legged, NeverTrips;
    if n > 1 {
      assert Joined(a, n - 1) && Joined(b, n - 1);
      TurnIsLater(env, cfg, rounds, a, 0, n - 1);
      TurnIsLater(env, cfg, rounds, b, 0, n - 1);
    }
    TurnIsLater(env, cfg, rounds, a, n - 1, n);
    TurnIsLater(env, cfg, rounds, b, n - 1, n);
    if n > 1 {
      SameTurn(env, cfg, rounds, a, b, n - 1);
    }
    SameLeg(env, cfg, RoundAt(rounds, n - 1), a[n - 1], b[n - 1]);
  }

  lemma {:induction false} TurnIsLater(env: Env, cfg: Config, rounds: seq<Round>, legs: seq<Leg>, i: nat, n: nat)
    requires i < n <= |legs| && Turned(env, cfg, rounds, legs)
    ensures Later(legs[i].start, legs[n - 1].end)
  {
    hide Legged;
    LegIsLater(env, cfg, RoundAt(rounds, n - 1), legs[n - 1]);
    if i < n - 1 {
      assert Joined(legs, n - 1);
      TurnIsLater(env, cfg, rounds, legs, i, n - 1);
    }
  }

  /** Up to leg n a turn was undisturbed if it was so as a whole. */
  lemma QuietUpTo(env: Env, cfg: Config, rounds: seq<Round>, legs: seq<Leg>, n: nat, after: Moment)
    requires 0 < n <= |legs| && Closed(env, cfg, rounds, legs, Kept, after) && Quiet(legs[0].start, after)
    ensures Quiet(legs[0].start, legs[n - 1].end) && legs[n - 1].cause == Kept && (n < |legs| ==> legs[n - 1].more)
  {
    hide Legged;
    TurnIsLater(env, cfg, rounds, legs, 0, n);
    if n < |legs| {
      assert Joined(legs, n);
      TurnIsLater(env, cfg, rounds, legs, n, |legs|);
    }
  }

  /** Two undisturbed answers to a prompt are the same, for any two numbers of drafts and
      whatever the drafts were. */
  lemma SameAnswer(env: Env, cfg: Config, rounds: seq<Round>, a: seq<Leg>, after: Moment, b: seq<Leg>, after': Moment)
    requires a != [] && b != [] && Closed(env, cfg, rounds, a, Kept, after) && Closed(env, cfg, rounds, b, Kept, after')
    requires Plain(rounds) && NeverTrips(env)
    requires SameWords(a[0].start, b[0].start) && OwnRow(a[0].start) && OwnRow(b[0].start)
    requires Quiet(a[0].start, after) && Quiet(b[0].start, after')
    ensures SameWords(after, after') && (SameBooks(a[0].start, b[0].start) ==> SameBooks(after, after'))
  {
    hide Legged, NeverTrips, Turned;
    var n := if |a| < |b| then |a| else |b|;
    QuietUpTo(env, cfg, rounds, a, n, after);
    QuietUpTo(env, cfg, rounds, b, n, after');
    SameTurn(env, cfg, rounds, a, b, n);
    assert |a| == |b| == n;
    SameReturn(a[n - 1].end.view, b[n - 1].end.view, a[n - 1].exit == Interrupted || a[n - 1].exit == TurnTimeout);
  }

  lemma SameReturn(a: View, b: View, interrupted: bool)
    requires a.tracker == b.tracker && a.lastInput == b.lastInput
    ensures a.Recorded(interrupted, false).lastInput == b.Recorded(interrupted, false).lastInput
    ensures a.Filed() == b.Filed() ==> a.Recorded(interrupted, false) == b.Recorded(interrupted, false)
  {
  }

  /** Two sessions with the same conversation give the same one after the same prompt or resume,
      however many drafts each of them speculates with. */
  lemma DraftsDoNotShow(a: Setup, b: Setup, system: Tokens, r: Request, before: Moment, legs: seq<Leg>, after: Moment,
                        before': Moment, legs': seq<Leg>, after': Moment)
    requires a.env == b.env && a.nCtx == b.nCtx && NeverTrips(a.env) && Ordinary(r)
    requires Served(a, system, before, r, Kept, legs, after) && Served(b, system, before', r, Kept, legs', after')
    requires SameTalk(before, before') && Quiet(before, after) && Quiet(before', after')
    ensures SameTalk(after, after')
  {
    hide Legged, NeverTrips, Spoken, Turned;
    var rounds := r.rounds;
    ClosedIsLater(a.env, a.Turns(), rounds, legs, after);
    ClosedIsLater(b.env, b.Turns(), rounds, legs', after');
    SameAnswer(a.env, a.Turns(), rounds, legs, after, legs', after');
  }

  /** Benchmark mode 2 refines mode 1: whatever part of the request is in the cache, the answer is
      the one to the whole request, unless the cache already holds all of it. */
  lemma DeltaRefinesWhole(a: Setup, b: Setup, system: Tokens, text: string, request: Fed, rounds: seq<Round>,
                          before: Moment, legs: seq<Leg>, after: Moment, before': Moment, legs': seq<Leg>,
                              after': Moment)
    requires a.env == b.env && a.nCtx == b.nCtx && NeverTrips(a.env) && Plain(rounds)
    requires Served(a, system, before, Prompt(text, Delta(request), rounds), Kept, legs, after)
    requires Served(b, system, before', Prompt(text, Whole(request), rounds), Kept, legs', after')
    requires before.lastContext == before'.lastContext && Quiet(before, after) && Quiet(before', after')
    requires !(request <= before.view.tracker)
    ensures after.view.tracker == after'.view.tracker && after.lastContext == after'.lastContext
            && request <= after.view.tracker
  {
    hide Legged, NeverTrips, Spoken, Turned;
    ClosedIsLater(a.env, a.Turns(), rounds, legs, after);
    ClosedIsLater(b.env, b.Turns(), rounds, legs', after');
    SameAnswer(a.env, a.Turns(), rounds, legs, after, legs', after');
    PlainIsUncorrected(rounds);
    AnswerGrows(a.env, a.Turns(), rounds, legs, after);
  }

  lemma PlainIsUncorrected(rounds: seq<Round>)
    requires Plain(rounds)
    ensures NoCorrections(rounds)
  {
  }

  /** The same for a turn that may have a provisional checkpoint. */
  lemma AnswerOnlyGrows(env: Env, cfg: Config, rounds: seq<Round>, legs: seq<Leg>, after: Moment)
    requires legs != [] && Closed(env, cfg, rounds, legs, Kept, after) && NoCorrections(rounds)
    ensures legs[0].start.view.tracker <= after.view.tracker
  {
    hide Legged, Spoken, Turned;
    TokensGrow(env, cfg, rounds, legs, |legs|);
  }

  lemma {:induction false} TokensGrow(env: Env, cfg: Config, rounds: seq<Round>, legs: seq<Leg>, n: nat)
    requires 0 < n <= |legs| && Turned(env, cfg, rounds, legs) && NoCorrections(rounds) && legs[n - 1].cause == Kept
    ensures legs[0].start.view.tracker <= legs[n - 1].end.view.tracker
  {
    hide Legged, Spoken;
    assert Legged(env, cfg, RoundAt(rounds, n - 1), legs[n - 1]);
    if n > 1 {
      assert Joined(legs, n - 1);
      TokensGrow(env, cfg, rounds, legs, n - 1);
    }
    LegOnlyGrows(env, cfg, RoundAt(rounds, n - 1), legs[n - 1]);
  }

  lemma LegOnlyGrows(env: Env, cfg: Config, next: seq<Round>, leg: Leg)
    requires Legged(env, cfg, next, leg) && NoCorrections(next) && leg.cause == Kept
    ensures leg.start.view.tracker <= leg.end.view.tracker
  {
    hide Spoken;
    assert next != [] ==> !next[0].Correction?;
  }

  lemma AnswerGrows(env: Env, cfg: Config, rounds: seq<Round>, legs: seq<Leg>, after: Moment)
    requires legs != [] && Closed(env, cfg, rounds, legs, Kept, after) && NoCorrections(rounds)
    requires legs[0].start.view.interruptedIdx < 0
    ensures legs[0].start.view.tracker <= after.view.tracker
  {
    hide Legged, Spoken, Turned;
    TurnGrows(env, cfg, rounds, legs, |legs|);
  }

  /** A typed prompt, or a resume behind a prefill, without corrections. */
  predicate Ordinary(r: Request) {
    match r
    case Prompt(_, feeding, rounds) => feeding.Append? && Plain(rounds)
    case Resume(prefill, rounds) => prefill != [] && Plain(rounds)
    case _ => false
  }

  lemma ClosedIsLater(env: Env, cfg: Config, rounds: seq<Round>, legs: seq<Leg>, after: Moment)
    requires legs != [] && Closed(env, cfg, rounds, legs, Kept, after)
    ensures Later(legs[0].start, after)
  {
    hide Legged;
    TurnIsLater(env, cfg, rounds, legs, 0, |legs|);
  }

  /** The i-th request of a run, and its being undisturbed. */
  ghost predicate Asked(user: User, seen: seq<Moment>, i: nat, r: Request) {
    i + 1 < |seen| && user(seen[i].view, i) == r && Ordinary(r) && Quiet(seen[i], seen[i + 1])
  }

  /** So two undisturbed runs of the same requests hold the same conversation throughout. */
  lemma {:induction false} RunsAreAlike(a: Setup, b: Setup, system: Tokens, user: User, requests: seq<Request>,
                                        seen: seq<Moment>, turns: seq<seq<Leg>>, seen': seq<Moment>,
                                            turns': seq<seq<Leg>>, n: nat)
    requires a.env == b.env && a.nCtx == b.nCtx && NeverTrips(a.env)
    requires Told(a, system, user, Kept, seen, turns) && Told(b, system, user, Kept, seen', turns')
    requires n <= |requests| == |turns| == |turns'| && SameTalk(seen[0], seen'[0])
    requires forall i :: 0 <= i < n ==> Asked(user, seen, i, requests[i]) && Asked(user, seen', i, requests[i])
    ensures SameTalk(seen[n], seen'[n])
  {
    hide Served, NeverTrips, Ordinary;
    if n > 0 {
      RunsAreAlike(a, b, system, user, requests, seen, turns, seen', turns', n - 1);
      var i := n - 1;
      assert Asked(user, seen, i, requests[i]) && Asked(user, seen', i, requests[i]);
      assert Served(a, system, seen[i], user(seen[i].view, i), if i + 1 < |turns| then Kept
          else Kept, turns[i], seen[i + 1]);
      assert Served(b, system, seen'[i], user(seen'[i].view, i), if i + 1 < |turns'| then Kept
          else Kept, turns'[i], seen'[i + 1]);
      DraftsDoNotShow(a, b, system, requests[i], seen[i], turns[i], seen[i + 1], seen'[i], turns'[i], seen'[i + 1]);
    }
  }
}
