/** The turn tokens of a model, collected from its turn markers. */
module TurnTokens {
  import opened Escape
  import opened TextSearch
  import opened ToolCall
  import opened Parameters

  /** A turn token collected between "<|" and the next "|>". */
  predicate TurnToken(t: Text) {
    && |t| >= 4 && t[..2] == "<|" && t[|t| - 2..] == "|>"
    && forall i :: 2 <= i < |t| - 2 ==> t[i] != '|' || t[i + 1] != '>'
  }

  /** No collected turn token is the start of another one. */
  lemma TurnTokensPrefixFree(a: Text, b: Text)
    requires TurnToken(a) && TurnToken(b) && a <= b
    ensures a == b
  {
    var i := |a| - 2;
    assert a[i..][0] == a[i] == b[i] && a[i..][1] == a[i + 1] == b[i + 1];
  }

  /** Whole markers are collected too if they hold no opener.  Among everything collected, only
      such a marker can be the proper start of another token. */
  lemma PrefixesAreWholeMarkers(a: Text, b: Text)
    requires TurnToken(a) || !HasRaw("<|", a)
    requires TurnToken(b) || !HasRaw("<|", b)
    requires a <= b && a != b
    ensures !TurnToken(a)
  {
    assert TurnToken(a) ==> "<|" <= b[0..] by {
      assert |a| >= 2 ==> b[0..][..2] == a[..2];
    }
    if TurnToken(a) && TurnToken(b) {
      TurnTokensPrefixFree(a, b);
    }
  }

  /** The pieces "<|...|>" of a marker, from left to right. */
  function Pieces(m: Text): (r: seq<Text>)
    decreases |m|
  {
    match Behind("<|", m)
    case Missing => []
    case Content(inner) =>
      BehindIsShorter("<|", m);
      match Behind("|>", inner)
      case Missing => []
      case Content(rest) =>
        BehindIsShorter("|>", inner);
        ["<|" + Before("|>", inner) + "|>"] + Pieces(rest)
  }

  /** Every piece is collected, in order: what stands in front of an opener is not, and a piece
      ends at the next closer. */
  lemma PieceIsCollected(front: Text, inside: Text, rest: Text)
    requires !HasRaw("<|", front) && !HasRaw("|>", inside)
    ensures Pieces(front + ("<|" + (inside + ("|>" + rest)))) == ["<|" + inside + "|>"] + Pieces(rest)
  {
    hide Behind, Before, HasRaw;
    BeforeFirst("<|", front, inside + ("|>" + rest));
    BeforeFirst("|>", inside, rest);
  }

  lemma {:induction false} BehindIsShorter(word: Text, s: Text)
    requires word != []
    ensures Behind(word, s).Content? ==> |Behind(word, s).text| < |s|
  {
    if !(word <= s) && s != [] {
      BehindIsShorter(word, s[1..]);
    }
  }

  /** A token that a marker contributes: one of its pieces, or the whole of a marker without
      an opener. */
  ghost predicate Contributes(m: Text, t: Text) {
    t in Pieces(m) || (t == m && m != [] && !HasRaw("<|", m))
  }

  ghost predicate EachOnce(out: seq<Text>) {
    forall j, k :: 0 <= j < k < |out| ==> out[j] != out[k]
  }

  /** collect_base_turn_tokens: exactly what the markers contribute, each once. */
  method CollectTurnTokens(markers: seq<Text>) returns (out: seq<Text>)
    ensures EachOnce(out)
    ensures forall t :: t in out <==> exists m :: m in markers && Contributes(m, t)
    ensures forall t :: t in out ==> TurnToken(t) || (t in markers && !HasRaw("<|", t))
    ensures forall m :: m in markers && m != [] && !HasRaw("<|", m) ==> m in out
  {
    out := [];
    var i := 0;
    while i < |markers|
      invariant 0 <= i <= |markers| && EachOnce(out)
      invariant forall t :: t in out <==> exists m :: m in markers[..i] && Contributes(m, t)
      invariant forall t :: t in out ==> TurnToken(t) || (t in markers && !HasRaw("<|", t))
    {
      ghost var known := out;
      out := CollectFrom(out, markers[i]);
      assert markers[..i + 1] == markers[..i] + [markers[i]];
      forall t ensures t in out <==> exists m :: m in markers[..i + 1] && Contributes(m, t) {
        assert t in known <==> exists m :: m in markers[..i] && Contributes(m, t);
      }
      i := i + 1;
    }
    assert markers[..|markers|] == markers;
  }

  /** What one marker adds. */
  method CollectFrom(known: seq<Text>, m: Text) returns (out: seq<Text>)
    requires EachOnce(known)
    ensures EachOnce(out)
    ensures forall t :: t in out <==> t in known || Contributes(m, t)
    ensures forall t :: t in out ==> t in known || TurnToken(t) || (t == m && !HasRaw("<|", t))
  {
    hide Pieces, TurnToken, HasRaw, StartsAt;
    out := known;
    ghost var found: seq<Text> := [];
    var pos := Find(m, "<|", 0);
    assert m[0..] == m;
    var absent := pos == |m|;
    if absent {
      NoneFound(m, "<|");
    } else {
      OpenerFits(m, pos);
    }
    PiecesFrom(m, 0, pos);
    NoPieces(m);
    while pos < |m|
      invariant 0 <= pos <= |m| && EachOnce(out)
      invariant pos < |m| ==> StartsAt(m, pos, "<|")
      invariant Pieces(m) == found + Pieces(m[pos..])
      invariant forall t :: t in out <==> t in known || t in found
      invariant forall t :: t in found ==> TurnToken(t)
      decreases |m| - pos
    {
      OpenerFits(m, pos);
      var end := Find(m, "|>", pos + 2);
      PieceAt(m, pos, end);
      if end == |m| {
        break;
      }
      CutIsTurnToken(m, pos, end);
      var token := m[pos..end + 2];
      found := found + [token];
      if token !in out {
        out := out + [token];
      }
      pos := Find(m, "<|", end + 2);
      PiecesFrom(m, end + 2, pos);
    }
    if absent && m != [] && m !in out {
      out := out + [m];
    }
  }

  lemma NoPieces(m: Text)
    ensures Pieces(m[|m|..]) == []
  {
  }

  /** Up to the next opener nothing is contributed. */
  lemma PiecesFrom(m: Text, from: nat, pos: nat)
    requires from <= pos <= |m| && (forall i :: from <= i < pos ==> !StartsAt(m, i, "<|"))
    requires pos < |m| ==> StartsAt(m, pos, "<|")
    ensures Pieces(m[from..]) == Pieces(m[pos..])
  {
    BehindFrom("<|", m, from, pos);
    BehindFrom("<|", m, pos, pos);
  }

  /** An opener and its closer make a piece; an opener without one ends the search. */
  lemma PieceAt(m: Text, pos: nat, end: nat)
    requires StartsAt(m, pos, "<|") && pos + 2 <= end <= |m| && (end < |m| ==> StartsAt(m, end, "|>"))
    requires forall i :: pos + 2 <= i < end ==> !StartsAt(m, i, "|>")
    ensures end == |m| ==> Pieces(m[pos..]) == []
    ensures end < |m| ==> end + 2 <= |m| && Pieces(m[pos..]) == [m[pos..end + 2]] + Pieces(m[end + 2..])
  {
    assert m[pos..][2..] == m[pos + 2..] && Behind("<|", m[pos..]) == Content(m[pos + 2..]);
    BehindFrom("|>", m, pos + 2, end);
    if end < |m| {
      assert m[end..][2..] == m[end + 2..] && m[end..end + 2] == m[end..][..2] == "|>";
      assert m[pos..pos + 2] == m[pos..][..2] == "<|";
      assert m[pos..end + 2] == m[pos..pos + 2] + m[pos + 2..end] + m[end..end + 2];
    }
  }

  lemma NoneFound(m: Text, word: Text)
    requires word != [] && forall i :: 0 <= i < |m| ==> !StartsAt(m, i, word)
    ensures !HasRaw(word, m)
  {
    forall i | 0 <= i <= |m| ensures !(word <= m[i..]) {
      assert i < |m| ==> !StartsAt(m, i, word);
    }
  }

  lemma OpenerFits(m: Text, pos: nat)
    requires StartsAt(m, pos, "<|")
    ensures pos + 2 <= |m| && m[pos..pos + 2] == "<|" && HasRaw("<|", m)
  {
    assert m[pos..][..2] == m[pos..pos + 2];
  }

  lemma CutIsTurnToken(m: Text, pos: nat, end: nat)
    requires pos + 2 <= end < |m| && m[pos..pos + 2] == "<|" && StartsAt(m, end, "|>")
    requires forall i :: pos + 2 <= i < end ==> !StartsAt(m, i, "|>")
    ensures end + 2 <= |m| && TurnToken(m[pos..end + 2])
  {
    assert m[end..][..2] == m[end..end + 2];
    var t := m[pos..end + 2];
    assert t[..2] == m[pos..pos + 2] && t[|t| - 2..] == m[end..end + 2];
    forall i | 2 <= i < |t| - 2 ensures t[i] != '|' || t[i + 1] != '>' {
      assert !StartsAt(m, pos + i, "|>");
      assert m[pos + i..][0] == t[i] && m[pos + i..][1] == t[i + 1];
    }
  }

  /** PARAM_END and the turn tokens of a model may be escaped together, without loss,
      if no turn token holds a second '<' or a backslash. */
  lemma ReservedFromTurnTokens(tokens: seq<Text>)
    requires forall k :: 0 <= k < |tokens| ==>
            TurnToken(tokens[k]) && '<' !in tokens[k][1..] && ESCAPE_CHAR !in tokens[k]
    ensures Reserved([PARAM_END] + tokens)
  {
    MainTagsValid();
    var all := [PARAM_END] + tokens;
    forall k | 0 <= k < |all| ensures Plain(all[k]) && all[k][0] == '<' && '<' !in all[k][1..] {
      if k > 0 {
        assert all[k] == tokens[k - 1] && all[k][..2][0] == '<';
      }
    }
  }
}
