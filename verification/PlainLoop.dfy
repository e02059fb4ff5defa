/** Token generation without speculation: one sampled token, one decode.  This is
    the reference the speculative loop of token_generator.cc is compared with. */
module PlainLoop {
  import opened KvMemory

  /** A call on the sampler chain. */
  datatype Event = Sampled(row: Row) | Reset

  /** A committed token; `recovered` marks one that replaced a spurious
      end-of-generation token. */
  datatype Piece = Piece(token: Token, recovered: bool)

  /** What the text produced so far asks for. */
  datatype Verdict = Continue | ToolOpened | ToolClosed | SlashLoop | Stuck | Tripwire

  datatype Exit =
    | Interrupted | CanaryCap | TurnTimeout | ContextCrossing | ContextExhausted
    | EmptyBatch | TextBreak(why: Verdict)
    | EndOfGeneration(inCall: bool)   // inside a tool call, which is then closed and executed
    | DecodeFailed       // a decode inside the loop failed
    | SettleFailed       // the decode that closes a round after the loop failed

  /** Everything outside the loop, as functions: the sampler is a deterministic
      function of its own call history, the text scans of the pieces so far, the
      interrupt and the clock of the moment (named by the sampler history). */
  datatype Env = Env(
    sample: (seq<Event>, Row) -> Token,
    isEog: Token -> bool,
    maxPolls: nat,
    stop: seq<Event> -> bool,
    timeout: seq<Event> -> bool,
    verdict: seq<Piece> -> Verdict,
    inThinking: seq<Piece> -> bool,
    inCall: seq<Piece> -> bool)

  /** nCtx: context size; canaryMax: token cap of a canary probe, 0 for a turn. */
  datatype Config = Config(nCtx: nat, canaryMax: nat, reincarnating: bool)

  datatype Position = Position(
    tracker: Tokens,
    history: seq<Event>,
    pieces: seq<Piece>,
    thinkEogs: nat,
    count: nat,
    lastContext: int,
    warned: bool,
    ready: bool)         // the batch has a row to sample from

  datatype Outcome = Next(at: Position) | Done(at: Position, exit: Exit)

  // --- One iteration ----------------------------------------------------------

  /** The checks at the top of the loop. */
  function TopChecks(env: Env, cfg: Config, p: Position): Outcome {
    if env.stop(p.history) then Done(p, Interrupted)
    else if cfg.canaryMax > 0 then
      if p.count >= cfg.canaryMax then Done(p, CanaryCap)
      else if !p.ready then Done(p, EmptyBatch)
      else Next(p)
    else if env.timeout(p.history) then Done(p, TurnTimeout)
    else
      var line := cfg.nCtx * 9 / 10;
      var above := |p.tracker| >= line && !p.warned && !cfg.reincarnating;
      var q := p.(lastContext := |p.tracker|, warned := p.warned || above);
      if above && p.lastContext < line then Done(q, ContextCrossing)
      else if |p.tracker| >= cfg.nCtx - 10 then Done(q, ContextExhausted)
      else if !p.ready then Done(q, EmptyBatch)
      else Next(q)
  }

  datatype Polled = Polled(found: bool, token: Token, history: seq<Event>)

  /** Re-sample the row until something else than end-of-generation comes out. */
  function Poll(env: Env, history: seq<Event>, row: Row, left: nat): Polled
    decreases left
  {
    if left == 0 || env.stop(history) then Polled(false, 0, history)
    else
      var t := env.sample(history, row);
      var h := history + [Sampled(row)];
      if !env.isEog(t) then Polled(true, t, h) else Poll(env, h, row, left - 1)
  }

  /** The result of sampling a row: the token to commit, or (`ends`) the
      end-of-generation token that ends the turn. */
  datatype Pick = Pick(token: Token, recovered: bool, ends: bool, history: seq<Event>, thinkEogs: nat)

  function SampleRow(env: Env, p: Position, row: Row): Pick {
    var t := env.sample(p.history, row);
    var h := p.history + [Sampled(row)];
    if !env.isEog(t) then Pick(t, false, false, h, p.thinkEogs)
    else
      var inBlock := env.inThinking(p.pieces);
      var eogs := if inBlock then p.thinkEogs + 1 else 0;
      if inBlock && eogs <= env.maxPolls then Pick(t, false, false, h, eogs)
      else
        var again := env.sample(h, row);
        var h2 := h + [Sampled(row)];
        if !env.isEog(again) then Pick(again, true, false, h2 + [Reset], eogs)
        else
          var r := Poll(env, h2, row, env.maxPolls);
          if r.found then Pick(r.token, true, false, r.history + [Reset], eogs)
          else Pick(t, false, true, r.history, eogs)
  }

  function Commit(p: Position, token: Token): Position {
    p.(tracker := p.tracker + [token], ready := true)
  }

  /** Follow the verdict on the text, whose last piece is `token`. */
  function Judge(env: Env, q: Position, token: Token): Outcome {
    match env.verdict(q.pieces)
    case Tripwire => Done(q, if env.stop(q.history) then Interrupted else TextBreak(Tripwire))
    case Continue => Next(Commit(q, token).(count := q.count + 1))
    case ToolOpened => Next(Commit(q, token).(count := q.count + 1))
    case why => Done(Commit(q, token), TextBreak(why))
  }

  /** Sample a row, scan the text, decode the token. */
  function Take(env: Env, p: Position, row: Row): Outcome {
    var pick := SampleRow(env, p, row);
    var q := p.(history := pick.history, thinkEogs := pick.thinkEogs);
    if pick.ends then Done(Commit(q, pick.token), EndOfGeneration(env.inCall(q.pieces)))
    else Judge(env, q.(pieces := q.pieces + [Piece(pick.token, pick.recovered)]), pick.token)
  }

  function Step(env: Env, cfg: Config, p: Position, row: Row): Outcome {
    var top := TopChecks(env, cfg, p);
    if top.Done? then top else Take(env, top.at, row)
  }

  /** How many more iterations the loop can make. */
  function Remaining(cfg: Config, p: Position): nat {
    if cfg.canaryMax > 0 then
      if p.count < cfg.canaryMax then cfg.canaryMax - p.count else 0
    else if |p.tracker| < cfg.nCtx then cfg.nCtx - |p.tracker| else 0
  }

  /** Every iteration that does not exit commits exactly one token and uses up one
      of the remaining iterations; none starts within ten tokens of the end. */
  lemma StepProgress(env: Env, cfg: Config, p: Position, row: Row)
    requires Step(env, cfg, p, row).Next?
    ensures var q := Step(env, cfg, p, row).at;
            && |q.tracker| == |p.tracker| + 1 && p.tracker <= q.tracker
            && p.history <= q.history && p.pieces <= q.pieces
            && Remaining(cfg, q) == Remaining(cfg, p) - 1
            && (cfg.canaryMax == 0 ==> |p.tracker| < cfg.nCtx - 10)
  {
    var top := TopChecks(env, cfg, p);
    assert top.Next? && top.at.tracker == p.tracker && top.at.count == p.count;
    PickExtends(env, top.at, row);
  }

  /** The row that is sampled when no verify rows are compared. */
  function LastOf(rows: seq<Row>): Row {
    if rows == [] then Exact([]) else rows[|rows| - 1]
  }

  /** The whole generation.  The first row sampled is whatever the batch was left with;
      every later one is the row of the whole context. */
  function Run(env: Env, cfg: Config, p: Position, row: Row): (r: Outcome)
    ensures r.Done?
    decreases Remaining(cfg, p)
  {
    var s := Step(env, cfg, p, row);
    if s.Done? then s
    else
      StepProgress(env, cfg, p, row);
      Run(env, cfg, s.at, Exact(s.at.tracker))
  }

  /** A generation only ever extends the tracker, the sampler's calls and the text, and a
      turn (not a probe) never ends with more than the larger of its start and n_ctx - 10
      tokens, plus the one it ends on. */
  lemma {:induction false} RunExtends(env: Env, cfg: Config, p: Position, row: Row)
    ensures var q := Run(env, cfg, p, row).at;
            p.tracker <= q.tracker && p.history <= q.history && p.pieces <= q.pieces
    ensures cfg.canaryMax == 0 ==>
              |Run(env, cfg, p, row).at.tracker| <= Max(|p.tracker| + 1, cfg.nCtx - 10)
    ensures cfg.canaryMax > 0 ==>
              |Run(env, cfg, p, row).at.tracker| <= |p.tracker| + Remaining(cfg, p) + 1
    decreases Remaining(cfg, p)
  {
    var s := Step(env, cfg, p, row);
    if s.Next? {
      StepProgress(env, cfg, p, row);
      RunExtends(env, cfg, s.at, Exact(s.at.tracker));
    } else {
      DoneExtends(env, cfg, p, row);
    }
  }

  /** A batch that had a row to sample from still has one. */
  lemma {:induction false} RunStaysReady(env: Env, cfg: Config, p: Position, row: Row)
    requires p.ready
    ensures Run(env, cfg, p, row).at.ready
    decreases Remaining(cfg, p)
  {
    var s := Step(env, cfg, p, row);
    if s.Next? {
      StepProgress(env, cfg, p, row);
      RunStaysReady(env, cfg, s.at, Exact(s.at.tracker));
    }
  }

  lemma DoneExtends(env: Env, cfg: Config, p: Position, row: Row)
    requires Step(env, cfg, p, row).Done?
    ensures var q := Step(env, cfg, p, row).at;
            p.tracker <= q.tracker && |q.tracker| <= |p.tracker| + 1 && p.history <= q.history && p.pieces <= q.pieces
  {
    var top := TopChecks(env, cfg, p);
    assert top.at.tracker == p.tracker;
    if top.Next? {
      PickExtends(env, top.at, row);
    }
  }

  /** Sampling only appends to the history. */
  lemma PickExtends(env: Env, p: Position, row: Row)
    ensures p.history <= SampleRow(env, p, row).history
  {
    var h := p.history + [Sampled(row)];
    var h2 := h + [Sampled(row)];
    PollExtends(env, h2, row, env.maxPolls);
    assert p.history <= h <= h2;
  }

  lemma {:induction false} PollExtends(env: Env, history: seq<Event>, row: Row, left: nat)
    ensures history <= Poll(env, history, row, left).history
    decreases left
  {
    if left > 0 {
      PollExtends(env, history + [Sampled(row)], row, left - 1);
    }
  }

  // --- What a generation says ---------------------------------------------------------------------

  /** One committed piece, told by the sampler's calls from `from` to `to`: it is the answer to the
      last of them, and all of them asked about the same row.  Every earlier answer was an
      end-of-generation token, and was rejected; a piece that was not the first answer is marked,
      is followed by a reset and is no end-of-generation token; and a first answer that is one
      stands only inside the thinking block. */
  ghost predicate Heard(env: Env, row: Row, from: seq<Event>, to: seq<Event>, before: seq<Piece>, piece: Piece) {
    exists j :: |from| <= j < |to| && HeardAt(env, row, from, to, before, piece, j)
  }

  ghost predicate HeardAt(env: Env, row: Row, from: seq<Event>, to: seq<Event>, before: seq<Piece>, piece: Piece,
      j: nat)
    requires |from| <= j < |to|
  {
    && from <= to && piece.token == env.sample(to[..j], row)
    && (forall i :: |from| <= i <= j ==> to[i] == Sampled(row))
    && (forall i :: |from| <= i < j ==> env.isEog(env.sample(to[..i], row)))
    && (piece.recovered <==> j > |from|) && j <= |from| + env.maxPolls + 1
    && to[j + 1..] == (if piece.recovered then [Reset] else [])
    && (piece.recovered ==> !env.isEog(piece.token))
    && (env.isEog(piece.token) ==> env.inThinking(before))
  }

  /** The end of a turn: an end-of-generation token that nothing else came out for, however often
      the row was sampled again, or until the interrupt. */
  ghost predicate HeardEnd(env: Env, row: Row, from: seq<Event>, to: seq<Event>, token: Token) {
    && from <= to && |from| + 2 <= |to| && token == env.sample(from, row)
    && (forall i :: |from| <= i < |to| ==> to[i] == Sampled(row) && env.isEog(env.sample(to[..i], row)))
    && (|to| == |from| + env.maxPolls + 2 || env.stop(to))
  }

  lemma {:induction false} PollHeard(env: Env, from: seq<Event>, history: seq<Event>, row: Row, left: nat)
    requires from <= history
    requires forall i :: |from| <= i < |history| ==>
            history[i] == Sampled(row) && env.isEog(env.sample(history[..i], row))
    ensures var r := Poll(env, history, row, left);
            && history <= r.history && |r.history| <= |history| + left
            && (forall i :: |from| <= i < |r.history| ==> r.history[i] == Sampled(row))
            && if r.found then
                 && |history| < |r.history| && !env.isEog(r.token)
                     && r.token == env.sample(r.history[..|r.history| - 1], row)
                 && (forall i :: |from| <= i < |r.history| - 1 ==> env.isEog(env.sample(r.history[..i], row)))
               else
                 && (forall i :: |from| <= i < |r.history| ==> env.isEog(env.sample(r.history[..i], row)))
                 && (|r.history| == |history| + left || env.stop(r.history))
    decreases left
  {
    if left > 0 && !env.stop(history) {
      var t, h := env.sample(history, row), history + [Sampled(row)];
      assert h[..|history|] == history;
      forall i | |from| <= i < |history| ensures h[..i] == history[..i] {
      }
      if env.isEog(t) {
        PollHeard(env, from, h, row, left - 1);
      }
    }
  }

  /** What a row is sampled for, and how often end-of-generation tokens are swallowed. */
  lemma PickHeard(env: Env, p: Position, row: Row)
    ensures var pick := SampleRow(env, p, row);
            && p.history <= pick.history
            && (!pick.ends ==> Heard(env, row, p.history, pick.history, p.pieces, Piece(pick.token, pick.recovered)))
            && (pick.ends ==> HeardEnd(env, row, p.history, pick.history, pick.token))
            && pick.thinkEogs == (if !env.isEog(env.sample(p.history, row)) then p.thinkEogs
                                  else if env.inThinking(p.pieces) then p.thinkEogs + 1
                                  else 0)
            && (env.isEog(env.sample(p.history, row)) && env.inThinking(p.pieces) && p.thinkEogs < env.maxPolls <==>
                  !pick.ends && !pick.recovered && env.isEog(pick.token))
  {
    var from, t := p.history, env.sample(p.history, row);
    var h := from + [Sampled(row)];
    assert h[..|from|] == from;
    var pick := SampleRow(env, p, row);
    hide Heard, HeardEnd;
    if !env.isEog(t) || (env.inThinking(p.pieces) && p.thinkEogs < env.maxPolls) {
      FirstAnswer(env, p, row);
    } else if !env.isEog(env.sample(h, row)) {
      assert (h + [Sampled(row)])[..|h|] == h && (h + [Sampled(row)])[..|from|] == from;
      Resampled(env, p, row, h + [Sampled(row)], env.sample(h, row));
    } else {
      PolledAnswer(env, p, row);
    }
  }

  lemma FirstAnswer(env: Env, p: Position, row: Row)
    requires var t := env.sample(p.history, row); env.isEog(t) ==> env.inThinking(p.pieces)
    ensures Heard(env, row, p.history, p.history + [Sampled(row)], p.pieces, Piece(env.sample(p.history, row), false))
  {
    var to := p.history + [Sampled(row)];
    assert to[..|p.history|] == p.history;
    assert HeardAt(env, row, p.history, to, p.pieces, Piece(env.sample(p.history, row), false), |p.history|);
  }

  lemma PolledAnswer(env: Env, p: Position, row: Row)
    requires env.isEog(env.sample(p.history, row)) && env.isEog(env.sample(p.history + [Sampled(row)], row))
    ensures var r := Poll(env, p.history + [Sampled(row)] + [Sampled(row)], row, env.maxPolls);
            if r.found then Heard(env, row, p.history, r.history + [Reset], p.pieces, Piece(r.token, true))
            else HeardEnd(env, row, p.history, r.history, env.sample(p.history, row))
    ensures p.history <= Poll(env, p.history + [Sampled(row)] + [Sampled(row)], row, env.maxPolls).history
  {
    var from := p.history;
    var h := from + [Sampled(row)];
    var h2 := h + [Sampled(row)];
    assert h[..|from|] == from && h2[..|h|] == h && h2[..|from|] == from;
    PollHeard(env, from, h2, row, env.maxPolls);
    var r := Poll(env, h2, row, env.maxPolls);
    hide Poll, Heard;
    if r.found {
      Resampled(env, p, row, r.history, r.token);
    } else {
      assert r.history[..|from|] == from;
    }
  }

  /** The token is the answer to the last call. */
  lemma LastAnswer(env: Env, p: Position, row: Row)
    ensures var pick := SampleRow(env, p, row);
            if pick.ends then |pick.history| > |p.history| && env.isEog(pick.token)
                && pick.token == env.sample(p.history, row)
            else
              && (pick.recovered ==> !env.isEog(pick.token)) && (env.isEog(pick.token) ==> env.inThinking(p.pieces))
              && exists j ::
                   && |p.history| <= j < |pick.history| && pick.history[j] == Sampled(row)
                   && pick.token == env.sample(pick.history[..j], row)
                   && pick.history[j + 1..] == if pick.recovered then [Reset] else []
  {
    PickHeard(env, p, row);
    var pick := SampleRow(env, p, row);
    hide SampleRow;
    if pick.ends {
      assert pick.history[..|p.history|] == p.history;
    } else {
      var piece := Piece(pick.token, pick.recovered);
      var j :| |p.history| <= j < |pick.history| && HeardAt(env, row, p.history, pick.history, p.pieces, piece, j);
    }
  }

  /** A token that came out when the row was sampled again. */
  lemma Resampled(env: Env, p: Position, row: Row, calls: seq<Event>, token: Token)
    requires p.history <= calls && |p.history| + 2 <= |calls| <= |p.history| + env.maxPolls + 2
    requires token == env.sample(calls[..|calls| - 1], row) && !env.isEog(token)
    requires forall i :: |p.history| <= i < |calls| ==> calls[i] == Sampled(row)
    requires forall i :: |p.history| <= i < |calls| - 1 ==> env.isEog(env.sample(calls[..i], row))
    ensures Heard(env, row, p.history, calls + [Reset], p.pieces, Piece(token, true))
  {
    var to, j := calls + [Reset], |calls| - 1;
    forall i | 0 <= i <= j ensures to[..i] == calls[..i] {
    }
    assert HeardAt(env, row, p.history, to, p.pieces, Piece(token, true), j);
  }

  /** An iteration that goes on commits the piece it heard. */
  lemma StepTold(env: Env, cfg: Config, p: Position, row: Row)
    requires Step(env, cfg, p, row).Next?
    ensures var q := Step(env, cfg, p, row).at;
            && q.pieces != [] && var piece := q.pieces[|q.pieces| - 1];
            && q.pieces == p.pieces + [piece] && q.tracker == p.tracker + [piece.token] && q.ready
            && Heard(env, row, p.history, q.history, p.pieces, piece)
            && (env.verdict(q.pieces) == Continue || env.verdict(q.pieces) == ToolOpened)
            && p.ready && !env.stop(p.history) && q.count == p.count + 1
    ensures var q := Step(env, cfg, p, row).at;
            if cfg.canaryMax > 0 then p.count < cfg.canaryMax && q.lastContext == p.lastContext && q.warned == p.warned
            else
              && !env.timeout(p.history) && |p.tracker| < cfg.nCtx - 10 && q.lastContext == |p.tracker|
              && (|p.tracker| >= cfg.nCtx * 9 / 10 && !p.warned && !cfg.reincarnating ==>
                  p.lastContext >= cfg.nCtx * 9 / 10)
              && (q.warned <==> p.warned || (|p.tracker| >= cfg.nCtx * 9 / 10 && !cfg.reincarnating))
  {
    var top := TopChecks(env, cfg, p);
    hide SampleRow, Heard;
    PickHeard(env, top.at, row);
  }

  /** An iteration that ends the generation. */
  lemma StepEnds(env: Env, cfg: Config, p: Position, row: Row)
    requires Step(env, cfg, p, row).Done?
    ensures var q, exit := Step(env, cfg, p, row).at, Step(env, cfg, p, row).exit;
            match exit
            case EndOfGeneration(inCall) =>
              && q.pieces == p.pieces && |q.tracker| == |p.tracker| + 1 && q.tracker[..|p.tracker|] == p.tracker
              && HeardEnd(env, row, p.history, q.history, q.tracker[|p.tracker|]) && inCall == env.inCall(p.pieces)
            case TextBreak(why) =>
              && q.pieces != [] && var piece := q.pieces[|q.pieces| - 1];
              && q.pieces == p.pieces + [piece] && Heard(env, row, p.history, q.history, p.pieces, piece)
              && why == env.verdict(q.pieces) && why != Continue && why != ToolOpened
              && q.tracker == (if why == Tripwire then p.tracker else p.tracker + [piece.token])
              && (why == Tripwire ==> !env.stop(q.history))
            case Interrupted =>
              && env.stop(q.history) && q.tracker == p.tracker
              && ((q.pieces == p.pieces && q.history == p.history) ||
                  (&& q.pieces != [] && var piece := q.pieces[|q.pieces| - 1];
                   && q.pieces == p.pieces + [piece] && Heard(env, row, p.history, q.history, p.pieces, piece)
                   && env.verdict(q.pieces) == Tripwire))
            case CanaryCap => Same(p, q) && 0 < cfg.canaryMax <= p.count
            case TurnTimeout => Same(p, q) && cfg.canaryMax == 0 && env.timeout(p.history)
            case ContextCrossing =>
              && Same(p, q) && cfg.canaryMax == 0 && !cfg.reincarnating && !p.warned
              && p.lastContext < cfg.nCtx * 9 / 10 <= |p.tracker| && q.lastContext == |p.tracker|
            case ContextExhausted => Same(p, q) && cfg.canaryMax == 0 && |p.tracker| >= cfg.nCtx - 10
            case EmptyBatch => Same(p, q) && !p.ready
            case _ => false
  {
    var top := TopChecks(env, cfg, p);
    hide SampleRow, Heard, HeardEnd;
    if top.Next? {
      PickHeard(env, top.at, row);
    }
  }

  /** Nothing was said. */
  predicate Same(p: Position, q: Position) {
    q.tracker == p.tracker && q.pieces == p.pieces && q.history == p.history
  }

  /** Piece k of a generation from p to q, whose iterations begin at the calls `cuts`: it answers
      the row of exactly the context in front of it. */
  ghost predicate Said(env: Env, p: Position, row: Row, q: Position, cuts: seq<nat>, k: nat) {
    && k + 1 < |cuts| && |p.history| <= cuts[k] < cuts[k + 1] <= |q.history|
    && |p.pieces| + k < |q.pieces| && |p.tracker| + k <= |q.tracker|
    && Heard(env, if k == 0 then row else Exact(q.tracker[..|p.tracker| + k]),
             q.history[..cuts[k]], q.history[..cuts[k + 1]], q.pieces[..|p.pieces| + k], q.pieces[|p.pieces| + k])
    && !env.stop(q.history[..cuts[k]])
  }

  /** The last piece completed a nested thinking tag: it was not committed. */
  predicate Unspoken(env: Env, p: Position, o: Outcome)
    requires o.Done?
  {
    |o.at.pieces| > |p.pieces| && env.verdict(o.at.pieces) == Tripwire
        && (o.exit == Interrupted || o.exit == TextBreak(Tripwire))
  }

  /** The tale of a generation that went from p to its outcome, its iterations beginning at the
      calls `cuts`. */
  ghost predicate Tale(env: Env, p: Position, row: Row, o: Outcome, cuts: seq<nat>)
    requires o.Done? && cuts != []
  {
    var q, n := o.at, |cuts| - 1;
    && p.tracker <= q.tracker && p.pieces <= q.pieces && p.history <= q.history
    && |q.pieces| == |p.pieces| + n && cuts[0] == |p.history| && cuts[n] <= |q.history|
    && (forall k: nat :: k < n ==> Said(env, p, row, q, cuts, k))
    && |q.tracker| == |p.tracker| + n + (if o.exit.EndOfGeneration? then 1 else if Unspoken(env, p, o) then -1 else 0)
    && (forall i :: |p.tracker| <= i < |q.tracker| && i < |p.tracker| + n ==>
          q.tracker[i] == q.pieces[i - |p.tracker| + |p.pieces|].token)
    && (forall k: nat :: |p.pieces| < k < |q.pieces| ==> GoesOn(env, q.pieces[..k]))
    && if o.exit.EndOfGeneration? then
         HeardEnd(env, if n == 0 then row else Exact(q.tracker[..|q.tracker| - 1]), q.history[..cuts[n]], q.history,
                  q.tracker[|q.tracker| - 1])
         && o.exit.inCall == env.inCall(q.pieces)
       else cuts[n] == |q.history|
  }

  lemma {:induction false} RunTold(env: Env, cfg: Config, p: Position, row: Row) returns (cuts: seq<nat>)
    ensures cuts != [] && Tale(env, p, row, Run(env, cfg, p, row), cuts)
    decreases Remaining(cfg, p)
  {
    hide Step, Heard, HeardEnd;
    var s := Step(env, cfg, p, row);
    if s.Done? {
      cuts := TaleOfOne(env, cfg, p, row);
    } else {
      hide Tale;
      StepTold(env, cfg, p, row);
      StepProgress(env, cfg, p, row);
      var rest := RunTold(env, cfg, s.at, Exact(s.at.tracker));
      cuts := [|p.history|] + rest;
      TaleLonger(env, p, row, s.at, Run(env, cfg, p, row), rest);
    }
  }

  lemma TaleOfOne(env: Env, cfg: Config, p: Position, row: Row) returns (cuts: seq<nat>)
    requires Step(env, cfg, p, row).Done?
    ensures cuts != [] && Tale(env, p, row, Step(env, cfg, p, row), cuts)
  {
    hide Step, Heard, HeardEnd;
    var o := Step(env, cfg, p, row);
    StepEnds(env, cfg, p, row);
    StepIsNotStopped(env, cfg, p, row);
    assert p.history[..|p.history|] == p.history && p.tracker[..|p.tracker|] == p.tracker;
    assert o.at.history[..|o.at.history|] == o.at.history && o.at.history[..|p.history|] == p.history;
    cuts := if |o.at.pieces| == |p.pieces| then [|p.history|] else [|p.history|, |o.at.history|];
    if |cuts| == 2 {
      SaidFirst(env, p, row, o.at, cuts);
    } else {
      assert o.at.pieces == p.pieces;
    }
  }

  lemma StepIsNotStopped(env: Env, cfg: Config, p: Position, row: Row)
    ensures Step(env, cfg, p, row).at.pieces != p.pieces ==> !env.stop(p.history)
    ensures p.history <= Step(env, cfg, p, row).at.history
  {
    hide SampleRow;
    PickExtends(env, TopChecks(env, cfg, p).at, row);
  }

  /** The first piece. */
  lemma SaidFirst(env: Env, p: Position, row: Row, q: Position, cuts: seq<nat>)
    requires |cuts| >= 2 && cuts[0] == |p.history| <= cuts[1] <= |q.history| && p.pieces < q.pieces
            && p.tracker <= q.tracker
    requires p.history <= q.history && !env.stop(p.history)
    requires Heard(env, row, p.history, q.history[..cuts[1]], p.pieces, q.pieces[|p.pieces|])
    ensures Said(env, p, row, q, cuts, 0)
  {
    assert q.history[..cuts[0]] == p.history && q.pieces[..|p.pieces|] == p.pieces;
    HeardSomething(env, row, p.history, q.history[..cuts[1]], p.pieces, q.pieces[|p.pieces|]);
  }

  lemma HeardSomething(env: Env, row: Row, from: seq<Event>, to: seq<Event>, before: seq<Piece>, piece: Piece)
    requires Heard(env, row, from, to, before, piece)
    ensures |from| < |to|
  {
  }

  /** One iteration in front of a generation. */
  lemma TaleLonger(env: Env, p: Position, row: Row, mid: Position, o: Outcome, rest: seq<nat>)
    requires o.Done? && rest != [] && Tale(env, mid, Exact(mid.tracker), o, rest)
    requires |mid.pieces| == |p.pieces| + 1 && p.pieces <= mid.pieces && GoesOn(env, mid.pieces) && !env.stop(p.history)
    requires |mid.tracker| == |p.tracker| + 1 && p.tracker <= mid.tracker && p.history <= mid.history
    requires mid.tracker[|p.tracker|] == mid.pieces[|p.pieces|].token
    requires Heard(env, row, p.history, mid.history, p.pieces, mid.pieces[|p.pieces|])
    ensures Tale(env, p, row, o, [|p.history|] + rest)
  {
    hide Heard, HeardEnd;
    var cuts, q := [|p.history|] + rest, o.at;
    assert q.history[..cuts[1]] == mid.history && q.tracker[..|mid.tracker|] == mid.tracker;
    SaidFirst(env, p, row, q, cuts);
    forall k: nat | 0 < k < |cuts| - 1 ensures Said(env, p, row, q, cuts, k) {
      assert Said(env, mid, Exact(mid.tracker), q, rest, k - 1);
    }
    assert q.pieces[..|mid.pieces|] == mid.pieces && q.pieces[..|q.pieces|] == q.pieces;
    assert Unspoken(env, p, o) == Unspoken(env, mid, o);
    assert q.tracker[|p.tracker|] == mid.tracker[|p.tracker|] && q.pieces[|p.pieces|] == mid.pieces[|p.pieces|];
  }

  predicate GoesOn(env: Env, pieces: seq<Piece>) {
    env.verdict(pieces) == Continue || env.verdict(pieces) == ToolOpened
  }

  /** The row that a generation from p samples for the token at position i. */
  function RowFor(p: Position, row: Row, tracker: Tokens, i: nat): Row
    requires i <= |tracker|
  {
    if i <= |p.tracker| then row else Exact(tracker[..i])
  }

  /** Every committed token is what the sampler gave for the row of the context in front of it, in
      its last call about it; a recovered one is no end-of-generation token; and an
      end-of-generation token is committed only inside the thinking block, or as the last token
      of a finished turn. */
  lemma RunSays(env: Env, cfg: Config, p: Position, row: Row, i: nat)
    requires |p.tracker| <= i < |Run(env, cfg, p, row).at.tracker|
    ensures var o := Run(env, cfg, p, row);
            var q, k := o.at, |p.pieces| + i - |p.tracker|;
            if o.exit.EndOfGeneration? && i == |q.tracker| - 1 then
              k == |q.pieces| && env.isEog(q.tracker[i]) && o.exit.inCall == env.inCall(q.pieces)
            else
              && k < |q.pieces| && q.pieces[k].token == q.tracker[i]
              && (q.pieces[k].recovered ==> !env.isEog(q.tracker[i]))
              && (env.isEog(q.tracker[i]) ==> env.inThinking(q.pieces[..k]))
              && exists j ::
                   && |p.history| <= j < |q.history| && q.history[j] == Sampled(RowFor(p, row, q.tracker, i))
                   && q.tracker[i] == env.sample(q.history[..j], RowFor(p, row, q.tracker, i))
                   && (j + 1 == |q.history| ||
                     q.history[j + 1] == if q.pieces[k].recovered then Reset else Sampled(Exact(q.tracker[..i + 1])))
  {
    var o := Run(env, cfg, p, row);
    var cuts := RunTold(env, cfg, p, row);
    hide Run;
    if o.exit.EndOfGeneration? && i == |o.at.tracker| - 1 {
      EndIsEog(env, p, row, o, cuts);
    } else {
      PieceSays(env, p, row, o, cuts, i);
    }
  }

  lemma EndIsEog(env: Env, p: Position, row: Row, o: Outcome, cuts: seq<nat>)
    requires o.Done? && cuts != [] && Tale(env, p, row, o, cuts) && o.exit.EndOfGeneration?
    ensures |o.at.tracker| > |p.tracker| && env.isEog(o.at.tracker[|o.at.tracker| - 1])
            && o.exit.inCall == env.inCall(o.at.pieces)
  {
    var q, n := o.at, |cuts| - 1;
    assert q.history[..cuts[n]] == q.history[..|q.history[..cuts[n]]|];
  }

  /** A turn ends on an end-of-generation token only if, asked about the row of everything in front
      of it, the sampler gave nothing else, as often as it may be asked or until the interrupt. */
  lemma RunEnds(env: Env, cfg: Config, p: Position, row: Row) returns (from: nat)
    requires Run(env, cfg, p, row).exit.EndOfGeneration?
    ensures var q := Run(env, cfg, p, row).at;
            && |q.tracker| > |p.tracker| && |p.history| <= from && from + 2 <= |q.history|
            && var asked := RowFor(p, row, q.tracker, |q.tracker| - 1);
               && q.tracker[|q.tracker| - 1] == env.sample(q.history[..from], asked)
               && (forall i :: from <= i < |q.history| ==>
                     q.history[i] == Sampled(asked) && env.isEog(env.sample(q.history[..i], asked)))
               && (|q.history| == from + env.maxPolls + 2 || env.stop(q.history))
  {
    var cuts := RunTold(env, cfg, p, row);
    hide Run;
    from := cuts[|cuts| - 1];
    if |cuts| > 1 {
      assert Said(env, p, row, Run(env, cfg, p, row).at, cuts, |cuts| - 2);
    }
  }

  /** A generation goes on past a token only if the text so far asks for nothing. */
  lemma {:induction false} RunGoesOn(env: Env, cfg: Config, p: Position, row: Row)
    ensures var o := Run(env, cfg, p, row);
            && (forall k: nat :: |p.pieces| < k < |o.at.pieces| ==>
                  var verdict := env.verdict(o.at.pieces[..k]); verdict == Continue || verdict == ToolOpened)
            && (|o.at.pieces| > |p.pieces| && !o.exit.TextBreak? ==>
                  var verdict := env.verdict(o.at.pieces);
                  verdict == Continue || verdict == ToolOpened || (verdict == Tripwire && o.exit == Interrupted))
    decreases Remaining(cfg, p)
  {
    hide Step, Heard, HeardEnd;
    var s := Step(env, cfg, p, row);
    if s.Done? {
      StepEnds(env, cfg, p, row);
    } else {
      StepTold(env, cfg, p, row);
      StepProgress(env, cfg, p, row);
      RunGoesOn(env, cfg, s.at, Exact(s.at.tracker));
      RunExtends(env, cfg, s.at, Exact(s.at.tracker));
      var pieces := Run(env, cfg, p, row).at.pieces;
      assert pieces[..|s.at.pieces|] == s.at.pieces && pieces[..|pieces|] == pieces;
    }
  }

  lemma PieceSays(env: Env, p: Position, row: Row, o: Outcome, cuts: seq<nat>, i: nat)
    requires o.Done? && cuts != [] && Tale(env, p, row, o, cuts)
    requires |p.tracker| <= i < |o.at.tracker| && !(o.exit.EndOfGeneration? && i == |o.at.tracker| - 1)
    ensures var q, k := o.at, |p.pieces| + i - |p.tracker|;
            && k < |q.pieces| && q.pieces[k].token == q.tracker[i]
            && (q.pieces[k].recovered ==> !env.isEog(q.tracker[i]))
            && (env.isEog(q.tracker[i]) ==> env.inThinking(q.pieces[..k]))
            && exists j ::
                 && |p.history| <= j < |q.history| && q.history[j] == Sampled(RowFor(p, row, q.tracker, i))
                 && q.tracker[i] == env.sample(q.history[..j], RowFor(p, row, q.tracker, i))
                 && (j + 1 == |q.history| ||
                     q.history[j + 1] == if q.pieces[k].recovered then Reset else Sampled(Exact(q.tracker[..i + 1])))
  {
    hide HeardEnd;
    var q, n, k: nat := o.at, |cuts| - 1, i - |p.tracker|;
    assert Said(env, p, row, q, cuts, k);
    assert i < |p.tracker| + n;
    var to, asked := q.history[..cuts[k + 1]], RowFor(p, row, q.tracker, i);
    var piece := q.pieces[|p.pieces| + k];
    var j :| cuts[k] <= j < |to| && HeardAt(env, asked, q.history[..cuts[k]], to, q.pieces[..|p.pieces| + k], piece, j);
    assert q.history[..j] == to[..j] && q.history[j] == to[j];
    if piece.recovered {
      assert to[j + 1..][0] == Reset;
    } else {
      assert to[j + 1..] == [];
      assert j + 1 == cuts[k + 1] && |p.tracker| + (k + 1) == i + 1;
      NextCall(env, p, row, o, cuts, k + 1);
    }
  }

  /** The first call of an iteration asks about the whole context. */
  lemma NextCall(env: Env, p: Position, row: Row, o: Outcome, cuts: seq<nat>, k: nat)
    requires o.Done? && cuts != [] && Tale(env, p, row, o, cuts) && 0 < k < |cuts|
    ensures |p.tracker| + k <= |o.at.tracker| && cuts[k] < |o.at.history| ==>
              o.at.history[cuts[k]] == Sampled(Exact(o.at.tracker[..|p.tracker| + k]))
  {
    var q, n := o.at, |cuts| - 1;
    if k < n {
      assert Said(env, p, row, q, cuts, k);
      var from, to := q.history[..cuts[k]], q.history[..cuts[k + 1]];
      assert to[|from|] == q.history[cuts[k]];
    } else if o.exit.EndOfGeneration? {
      var from := q.history[..cuts[n]];
      assert q.history[|from|] == q.history[cuts[n]];
    }
  }

  /** A generation stops for the reason it gives, and for no other. */
  lemma {:induction false} RunStops(env: Env, cfg: Config, p: Position, row: Row)
    ensures var q, exit := Run(env, cfg, p, row).at, Run(env, cfg, p, row).exit;
            match exit
            case Interrupted => env.stop(q.history)
            case TurnTimeout => cfg.canaryMax == 0 && env.timeout(q.history) && !env.stop(q.history)
            case CanaryCap => 0 < cfg.canaryMax <= q.count && !env.stop(q.history)
            case ContextCrossing =>
              cfg.canaryMax == 0 && !cfg.reincarnating && !p.warned && |q.tracker| >= cfg.nCtx * 9 / 10
                  && q.lastContext == |q.tracker|
            case ContextExhausted => cfg.canaryMax == 0 && |q.tracker| >= cfg.nCtx - 10
            case EmptyBatch => q.tracker == p.tracker && q.pieces == p.pieces && !p.ready
            case EndOfGeneration(_) => |q.tracker| > |p.tracker|
            case TextBreak(why) =>
              |q.pieces| > |p.pieces| && why == env.verdict(q.pieces) && why != Continue && why != ToolOpened
            case _ => false
    ensures var q, exit := Run(env, cfg, p, row).at, Run(env, cfg, p, row).exit;
            cfg.canaryMax > 0 && exit == CanaryCap ==> q.count == p.count + |q.tracker| - |p.tracker|
    ensures var q, line := Run(env, cfg, p, row).at, cfg.nCtx * 9 / 10;
            Run(env, cfg, p, row).exit == ContextCrossing ==>
              if |q.tracker| == |p.tracker| then p.lastContext < line else |q.tracker| == line
    decreases Remaining(cfg, p)
  {
    hide Step, Heard, HeardEnd;
    var s := Step(env, cfg, p, row);
    if s.Done? {
      StepEnds(env, cfg, p, row);
      StepEndsClean(env, cfg, p, row);
    } else {
      StepTold(env, cfg, p, row);
      StepProgress(env, cfg, p, row);
      RunStops(env, cfg, s.at, Exact(s.at.tracker));
      RunExtends(env, cfg, s.at, Exact(s.at.tracker));
    }
  }

  lemma StepEndsClean(env: Env, cfg: Config, p: Position, row: Row)
    ensures var s := Step(env, cfg, p, row);
            && (s.Done? && (s.exit == TurnTimeout || s.exit == CanaryCap) ==>
                !env.stop(p.history) && s.at.count == p.count)
            && (s.Done? && s.exit == EmptyBatch ==> s.at.history == p.history)
  {
  }

  /** A turn that begins below the 90% line does not pass it: it stops there, or before. */
  lemma {:induction false} StopsAtTheLine(env: Env, cfg: Config, p: Position, row: Row)
    requires cfg.canaryMax == 0 && !cfg.reincarnating && !p.warned && p.lastContext < cfg.nCtx * 9 / 10
    ensures var o := Run(env, cfg, p, row);
            && |o.at.tracker| <= Max(|p.tracker|, cfg.nCtx * 9 / 10)
            && (|o.at.tracker| >= cfg.nCtx * 9 / 10 ==>
                  || o.exit == ContextCrossing || o.exit == Interrupted || o.exit == TurnTimeout
                  || o.exit.EndOfGeneration? || o.exit.TextBreak?)
    decreases Remaining(cfg, p)
  {
    hide Step, Heard, HeardEnd;
    var s := Step(env, cfg, p, row);
    if s.Done? {
      StepEnds(env, cfg, p, row);
      if |p.tracker| >= cfg.nCtx * 9 / 10 {
        EndsBelow(env, cfg, p, row);
      }
    } else {
      StepTold(env, cfg, p, row);
      StepProgress(env, cfg, p, row);
      StopsAtTheLine(env, cfg, s.at, Exact(s.at.tracker));
    }
  }

  lemma EndsBelow(env: Env, cfg: Config, p: Position, row: Row)
    requires cfg.canaryMax == 0 && !cfg.reincarnating && !p.warned && p.lastContext < cfg.nCtx * 9 / 10 <= |p.tracker|
    ensures var s := Step(env, cfg, p, row);
            s.Done? && s.at.tracker == p.tracker
                && (s.exit == ContextCrossing || s.exit == Interrupted || s.exit == TurnTimeout)
  {
  }

  function Max(a: int, b: int): int {
    if a < b then b else a
  }
}
