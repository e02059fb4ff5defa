/** The save file of filesystem.cc: a text header, the tokens and the prompt
    checkpoints as bytes.  A byte is a character with a code below 256. */
module SaveFile {
  import opened ChatSession
  import opened TextSearch

  type Bytes = seq<char>

  datatype Option<T> = None | Some(value: T)

  const MAGIC: Bytes := "LIM_SAVE_V3 "
  const TRUNCATION_MARKER: Bytes := "...[truncated]"
  const HEAD_WINDOW: nat := 256
  const LABEL_MAX: nat := 65535

  // --- Decimal numbers --------------------------------------------------------------

  predicate IsDigit(c: char) {
    '0' <= c <= '9'
  }

  /** std::to_string of a natural number. */
  function Decimal(n: nat): (s: Bytes)
    ensures |s| > 0 && forall i :: 0 <= i < |s| ==> IsDigit(s[i])
  {
    if n < 10 then [('0' as int + n) as char] else Decimal(n / 10) + [('0' as int + n % 10) as char]
  }

  /** The value of a string of digits; anything else is refused. */
  function ParseDecimal(s: Bytes): Option<nat> {
    if s == [] then None
    else if !IsDigit(s[|s| - 1]) then None
    else
      var last := s[|s| - 1] as int - '0' as int;
      if |s| == 1 then Some(last)
      else
        var front := ParseDecimal(s[..|s| - 1]);
        if front.None? then None else Some(10 * front.value + last)
  }

  lemma {:induction false} DecimalParses(n: nat)
    ensures ParseDecimal(Decimal(n)) == Some(n)
    decreases n
  {
    if n >= 10 {
      DecimalParses(n / 10);
      var s := Decimal(n);
      assert s[..|s| - 1] == Decimal(n / 10);
    }
  }

  function Power10(k: nat): nat {
    if k == 0 then 1 else 10 * Power10(k - 1)
  }

  lemma {:induction false} DecimalLength(n: nat, k: nat)
    requires k > 0 && n < Power10(k)
    ensures |Decimal(n)| <= k
    decreases k
  {
    if n >= 10 {
      DecimalLength(n / 10, k - 1);
    }
  }

  // --- Integers as bytes ---------------------------------------------------------------

  predicate FitsInt32(x: int) {
    -0x8000_0000 <= x < 0x8000_0000
  }

  function Low(n: nat): char {
    (n % 256) as char
  }

  /** Two's complement. */
  function Unsigned32(x: int): nat
    requires FitsInt32(x)
  {
    if x < 0 then x + 0x1_0000_0000 else x
  }

  function Signed32(n: nat): int {
    if n >= 0x8000_0000 then n - 0x1_0000_0000 else n
  }

  /** Least significant byte first. */
  function Int32Bytes(x: int): (b: Bytes)
    requires FitsInt32(x)
    ensures |b| == 4
  {
    var n := Unsigned32(x);
    [Low(n), Low(n / 0x100), Low(n / 0x1_0000), Low(n / 0x100_0000)]
  }

  function Code(c: char): nat {
    c as int % 256
  }

  function Int32Of(b: Bytes): int
    requires |b| == 4
  {
    Signed32(Code(b[0]) + 0x100 * Code(b[1]) + 0x1_0000 * Code(b[2]) + 0x100_0000 * Code(b[3]))
  }

  lemma Digits256(n: nat)
    requires n < 0x1_0000_0000
    ensures n == n % 256 + 0x100 * (n / 0x100 % 256) + 0x1_0000 * (n / 0x1_0000 % 256) + 0x100_0000 * (n / 0x100_0000 % 256)
  {
    assert n / 0x1_0000 == n / 0x100 / 0x100;
    assert n / 0x100_0000 == n / 0x100 / 0x100 / 0x100;
  }

  lemma Int32RoundTrip(x: int)
    requires FitsInt32(x)
    ensures Int32Of(Int32Bytes(x)) == x
  {
    var n := Unsigned32(x);
    LowCode(n);
    LowCode(n / 0x100);
    LowCode(n / 0x1_0000);
    LowCode(n / 0x100_0000);
    Digits256(n);
  }

  lemma LowCode(n: nat)
    ensures Code(Low(n)) == n % 256
  {
  }

  /** Four bytes, the least significant first, in two's complement. */
  lemma LeastFirst(x: int)
    requires FitsInt32(x)
    ensures var b := Int32Bytes(x);
            b[0] as int + 256 * b[1] as int + 65536 * b[2] as int + 16777216 * b[3] as int
            == if x < 0 then x + 4294967296 else x
  {
    Digits256(Unsigned32(x));
  }

  function UInt16Bytes(n: nat): (b: Bytes)
    requires n <= LABEL_MAX
    ensures |b| == 2 && b[0] as int + 256 * b[1] as int == n
  {
    [Low(n), Low(n / 0x100)]
  }

  function UInt16Of(b: Bytes): nat
    requires |b| == 2
  {
    Code(b[0]) + 0x100 * Code(b[1])
  }

  lemma UInt16RoundTrip(n: nat)
    requires n <= LABEL_MAX
    ensures UInt16Of(UInt16Bytes(n)) == n
  {
  }

  // --- The header line --------------------------------------------------------------------

  datatype Field = Field(name: Bytes, value: Bytes)

  predicate PlainField(f: Field) {
    '=' !in f.name && '=' !in f.value
  }

  function FieldText(f: Field): Bytes {
    f.name + "=" + f.value
  }

  function FieldsText(fields: seq<Field>): Bytes {
    if fields == [] then []
    else if |fields| == 1 then FieldText(fields[0])
    else FieldText(fields[0]) + " " + FieldsText(fields[1..])
  }

  predicate EndsWith(s: Bytes, tail: Bytes) {
    |tail| <= |s| && s[|s| - |tail|..] == tail
  }

  /** parse_v3_header's search: the text behind the key, up to a space. */
  function FieldValue(header: Bytes, key: Bytes): Content {
    match Behind(key + "=", header)
    case Missing => Missing
    case Content(t) => Content(Before(" ", t))
  }

  /** The key does not start inside another field. */
  lemma NotInField(key: Bytes, f: Field, rest: Bytes, i: nat)
    requires PlainField(f) && '=' !in key && ' ' !in key && !EndsWith(f.name, key)
    requires rest == [] || rest[0] == ' '
    requires i <= |FieldText(f)|
    ensures !StartsAt(FieldText(f) + rest, i, key + "=")
  {
    var s := FieldText(f) + rest;
    var e := i + |key|;
    assert rest != [] ==> s[|FieldText(f)|] == ' ';
    assert e < |FieldText(f)| ==> s[e] == FieldText(f)[e];
    assert i <= e == |f.name| ==> s[i..e] == f.name[i..];
    FieldChars(f, e);
    if StartsAt(s, i, key + "=") {
      WordAt(s, i, key + "=");
      WordChars(s, i, e, key);
    }
  }

  lemma WordAt(s: Bytes, i: nat, word: Bytes)
    requires StartsAt(s, i, word)
    ensures i + |word| <= |s| && s[i..i + |word|] == word
    ensures forall j :: 0 <= j < |word| ==> s[i + j] == word[j]
  {
    assert s[i..][..|word|] == s[i..i + |word|];
    forall j | 0 <= j < |word| ensures s[i + j] == word[j] {
      assert s[i..][j] == word[j];
    }
  }

  lemma WordChars(s: Bytes, i: nat, e: nat, key: Bytes)
    requires i <= e < |s| && e == i + |key| && s[i..e + 1] == key + "=" && ' ' !in key
    ensures s[e] == '=' && s[i..e] == key && forall j :: i <= j < e ==> s[j] != ' '
  {
    assert s[i..e + 1][e - i] == s[e];
    assert s[i..e] == s[i..e + 1][..|key|];
    forall j | i <= j < e ensures s[j] != ' ' {
      assert s[j] == s[i..e][j - i];
    }
  }

  lemma FieldChars(f: Field, e: nat)
    requires PlainField(f)
    ensures e < |FieldText(f)| && FieldText(f)[e] == '=' ==> e == |f.name|
  {
    assert e < |f.name| ==> FieldText(f)[e] == f.name[e];
    assert |f.name| < e < |FieldText(f)| ==> FieldText(f)[e] == f.value[e - |f.name| - 1];
  }

  lemma FieldSkipped(key: Bytes, f: Field, rest: Bytes)
    requires PlainField(f) && '=' !in key && ' ' !in key && !EndsWith(f.name, key)
    ensures Behind(key + "=", FieldText(f) + " " + rest) == Behind(key + "=", rest)
    ensures Behind(key + "=", FieldText(f)) == Missing
  {
    var skip := FieldText(f) + " ";
    forall i | 0 <= i < |skip| ensures !StartsAt(skip + rest, i, key + "=") {
      NotInField(key, f, " " + rest, i);
      assert skip + rest == FieldText(f) + (" " + rest);
    }
    BehindPast(key + "=", skip, rest);
    forall i | 0 <= i < |FieldText(f)| ensures !StartsAt(FieldText(f), i, key + "=") {
      NotInField(key, f, [], i);
      assert FieldText(f) + [] == FieldText(f);
    }
    BehindMissing(key + "=", FieldText(f));
  }

  /** A key is read from the field of that name, wherever it stands, if no other
      field's name ends in it; a key no field's name ends in is missing. */
  lemma {:induction false} FieldFound(fields: seq<Field>, key: Bytes, k: nat)
    requires forall j :: 0 <= j < |fields| ==> PlainField(fields[j]) && ' ' !in fields[j].value
    requires '=' !in key && ' ' !in key && k <= |fields|
    requires forall j :: 0 <= j < |fields| && j != k ==> !EndsWith(fields[j].name, key)
    requires k < |fields| ==> fields[k].name == key
    ensures FieldValue(FieldsText(fields), key) == if k < |fields| then Content(fields[k].value) else Missing
    decreases |fields|
  {
    if fields == [] {
      assert !((key + "=") <= []);
    } else if k == 0 {
      FieldRead(key, fields[0].value, FieldsText(fields), if |fields| == 1 then [] else " " + FieldsText(fields[1..]));
    } else {
      FieldSkipped(key, fields[0], FieldsText(fields[1..]));
      if |fields| > 1 {
        FieldFound(fields[1..], key, k - 1);
      }
    }
  }

  lemma FieldRead(key: Bytes, value: Bytes, s: Bytes, rest: Bytes)
    requires s == key + "=" + value + rest && ' ' !in value && (rest == [] || rest[0] == ' ')
    ensures FieldValue(s, key) == Content(value)
  {
    assert s[|key| + 1..] == value + rest;
    UpToSpace(value, rest);
  }

  lemma {:induction false} UpToSpace(value: Bytes, rest: Bytes)
    requires ' ' !in value && (rest == [] || rest[0] == ' ')
    ensures Before(" ", value + rest) == value
    decreases |value|
  {
    if value == [] {
      assert value + rest == rest;
      assert rest != [] ==> " " <= rest;
    } else {
      assert (value + rest)[1..] == value[1..] + rest;
      UpToSpace(value[1..], rest);
    }
  }

  // --- Writing ----------------------------------------------------------------------------

  predicate PlainSha(sha: Bytes) {
    |sha| <= 47 && '=' !in sha && ' ' !in sha && '\n' !in sha
  }

  /** The fields of the header; the magic word belongs to the first one's name. */
  function HeaderFields(sha: Bytes, tokens: nat, checkpoints: nat, session: int): seq<Field> {
    [Field("LIM_SAVE_V3 git_sha", sha), Field("n_tokens", Decimal(tokens)), Field("n_checkpoints", Decimal(checkpoints))]
    + (if session >= 0 then [Field("session", Decimal(session))] else [])
  }

  function HeaderLine(sha: Bytes, tokens: nat, checkpoints: nat, session: int): Bytes {
    FieldsText(HeaderFields(sha, tokens, checkpoints, session))
  }

  /** The header line, as it stands in the file. */
  lemma HeaderSays(sha: Bytes, tokens: nat, checkpoints: nat, session: int)
    ensures var first := "LIM_SAVE_V3 git_sha" + "=" + sha;
            var second, third := "n_tokens" + "=" + Decimal(tokens), "n_checkpoints" + "=" + Decimal(checkpoints);
            HeaderLine(sha, tokens, checkpoints, session)
            == if session >= 0 then first + " " + (second + " " + (third + " " + ("session" + "=" + Decimal(session))))
               else first + " " + (second + " " + third)
  {
    hide Decimal, FieldText;
    var a, b := Field("LIM_SAVE_V3 git_sha", sha), Field("n_tokens", Decimal(tokens));
    var c := Field("n_checkpoints", Decimal(checkpoints));
    Joined(a, b, [c]);
    OneField(c);
    if session >= 0 {
      var d := Field("session", Decimal(session));
      Joined(a, b, [c, d]);
      Joined(c, d, []);
      assert HeaderFields(sha, tokens, checkpoints, session) == [a, b] + [c, d];
      FieldReads(d);
      OneField(d);
    } else {
      assert HeaderFields(sha, tokens, checkpoints, session) == [a, b] + [c];
    }
    FieldReads(a);
    FieldReads(b);
    FieldReads(c);
  }

  lemma FieldReads(f: Field)
    ensures FieldText(f) == f.name + "=" + f.value
  {
  }

  lemma OneField(f: Field)
    ensures FieldsText([f]) == FieldText(f)
  {
  }

  lemma Joined(a: Field, b: Field, rest: seq<Field>)
    ensures var tail := if rest == [] then [] else " " + FieldsText(rest);
            FieldsText([a, b] + rest) == FieldText(a) + " " + (FieldText(b) + tail)
  {
    hide FieldText;
    var all := [a, b] + rest;
    assert all[1..] == [b] + rest && all[1..][1..] == rest;
    assert FieldText(b) + [] == FieldText(b);
  }

  function TokensBytes(tokens: seq<int>): (b: Bytes)
    requires forall i :: 0 <= i < |tokens| ==> FitsInt32(tokens[i])
    ensures |b| == 4 * |tokens|
  {
    if tokens == [] then [] else Int32Bytes(tokens[0]) + TokensBytes(tokens[1..])
  }

  /** Labels longer than 65535 bytes are cut to exactly that, ending in the marker. */
  function Label(prompt: Bytes): (r: Bytes)
    ensures |prompt| <= 65535 ==> r == prompt
    ensures |prompt| > 65535 ==> |r| == 65535 && r[..65521] == prompt[..65521] && r[65521..] == "...[truncated]"
  {
    if |prompt| > LABEL_MAX then prompt[..LABEL_MAX - |TRUNCATION_MARKER|] + TRUNCATION_MARKER else prompt
  }

  function CheckpointBytes(cp: PromptCheckpoint): Bytes
    requires FitsInt32(cp.nPast)
  {
    Int32Bytes(cp.nPast) + (UInt16Bytes(|Label(cp.prompt)|) + Label(cp.prompt))
  }

  function CheckpointsBytes(cps: seq<PromptCheckpoint>): Bytes
    requires forall i :: 0 <= i < |cps| ==> FitsInt32(cps[i].nPast)
  {
    if cps == [] then [] else CheckpointBytes(cps[0]) + CheckpointsBytes(cps[1..])
  }

  /** What can be saved: 32-bit tokens and positions, and counts a 64-bit size holds. */
  ghost predicate Savable(sha: Bytes, tokens: seq<int>, cps: seq<PromptCheckpoint>, session: int) {
    && PlainSha(sha) && session < 0x8000_0000
    && |tokens| < 0x1_0000_0000_0000_0000 && |cps| < 0x1_0000_0000_0000_0000
    && (forall i :: 0 <= i < |tokens| ==> FitsInt32(tokens[i]))
    && (forall i :: 0 <= i < |cps| ==> FitsInt32(cps[i].nPast))
  }

  function SaveBytes(sha: Bytes, tokens: seq<int>, cps: seq<PromptCheckpoint>, session: int): Bytes
    requires Savable(sha, tokens, cps, session)
  {
    HeaderLine(sha, |tokens|, |cps|, session) + ("\n" + (TokensBytes(tokens) + CheckpointsBytes(cps)))
  }

  /** write_token_save_v3 */
  method WriteSave(sha: Bytes, tokens: seq<int>, cps: seq<PromptCheckpoint>, session: int) returns (file: Bytes)
    requires Savable(sha, tokens, cps, session)
    ensures file == SaveBytes(sha, tokens, cps, session)
  {
    hide HeaderLine, CheckpointBytes, TokensBytes;
    file := HeaderLine(sha, |tokens|, |cps|, session) + "\n" + TokensBytes(tokens);
    ghost var start := file;
    var i := 0;
    assert cps[0..] == cps;
    while i < |cps|
      invariant 0 <= i <= |cps|
      invariant file + CheckpointsBytes(cps[i..]) == start + CheckpointsBytes(cps)
    {
      AppendStep(file, cps, i);
      file := WriteCheckpoint(file, cps[i]);
      i := i + 1;
    }
    assert file + CheckpointsBytes([]) == file;
    Regroup4(HeaderLine(sha, |tokens|, |cps|, session), "\n", TokensBytes(tokens), CheckpointsBytes(cps));
  }

  lemma Regroup4(a: Bytes, b: Bytes, c: Bytes, d: Bytes)
    ensures a + b + c + d == a + (b + (c + d))
  {
  }

  lemma AppendStep(file: Bytes, cps: seq<PromptCheckpoint>, i: nat)
    requires i < |cps| && forall k :: 0 <= k < |cps| ==> FitsInt32(cps[k].nPast)
    ensures file + CheckpointsBytes(cps[i..]) == file + CheckpointBytes(cps[i]) + CheckpointsBytes(cps[i + 1..])
  {
    assert cps[i..][1..] == cps[i + 1..];
  }

  method WriteCheckpoint(file: Bytes, cp: PromptCheckpoint) returns (out: Bytes)
    requires FitsInt32(cp.nPast)
    ensures out == file + CheckpointBytes(cp)
  {
    var prompt := cp.prompt;
    if |prompt| > LABEL_MAX {
      prompt := prompt[..LABEL_MAX - |TRUNCATION_MARKER|] + TRUNCATION_MARKER;
    }
    out := file + Int32Bytes(cp.nPast) + UInt16Bytes(|prompt|) + prompt;
  }

  // --- Reading ----------------------------------------------------------------------------

  /** read_save_header: the line up to the first newline of the first 256 bytes. */
  function HeaderOf(file: Bytes): Option<Bytes> {
    var head := if |file| < HEAD_WINDOW then file else file[..HEAD_WINDOW];
    if '\n' in head then Some(Before("\n", head)) else None
  }

  function DigitPrefix(s: Bytes): Bytes {
    if s != [] && IsDigit(s[0]) then [s[0]] + DigitPrefix(s[1..]) else []
  }

  /** A number as std::stoull reads it: the leading digits, refused when there are
      none or the value needs more than 64 bits. */
  function Number(s: Bytes): Option<nat> {
    var v := ParseDecimal(DigitPrefix(s));
    if v.Some? && v.value < 0x1_0000_0000_0000_0000 then v else None
  }

  function Count(header: Bytes, key: Bytes): Option<nat> {
    match FieldValue(header, key)
    case Missing => None
    case Content(t) => if MAGIC <= header then Number(t) else None
  }

  function TokensAt(b: Bytes, n: nat): (r: seq<int>)
    requires 4 * n <= |b|
    ensures |r| == n
  {
    if n == 0 then [] else [Int32Of(b[..4])] + TokensAt(b[4..], n - 1)
  }

  /** read_token_save */
  function TokensRead(file: Bytes): Option<seq<int>> {
    var header := HeaderOf(file);
    if header.None? || |header.value| >= |file| then None
    else
      var n := Count(header.value, "n_tokens");
      var body := file[|header.value| + 1..];
      if n.None? || |body| < 4 * n.value then None else Some(TokensAt(body, n.value))
  }

  function CheckpointsAt(b: Bytes, n: nat): Option<seq<PromptCheckpoint>> {
    if n == 0 then Some([])
    else if |b| < 6 then None
    else
      var length := UInt16Of(b[4..6]);
      if |b| < 6 + length then None
      else
        var rest := CheckpointsAt(b[6 + length..], n - 1);
        if rest.None? then None
        else Some([PromptCheckpoint(Int32Of(b[..4]), b[6..6 + length])] + rest.value)
  }

  /** read_checkpoint_offsets: no checkpoints on any failure. */
  function CheckpointsRead(file: Bytes): seq<PromptCheckpoint> {
    var header := HeaderOf(file);
    if header.None? || |header.value| >= |file| then []
    else
      var n := Count(header.value, "n_tokens");
      var m := Count(header.value, "n_checkpoints");
      var body := file[|header.value| + 1..];
      if n.None? || m.None? || |body| < 4 * n.value then []
      else
        var cps := CheckpointsAt(body[4 * n.value..], m.value);
        if cps.None? then [] else cps.value
  }

  /** read_save_session: -1 when there is none. */
  function SessionRead(file: Bytes): int {
    var header := HeaderOf(file);
    if header.None? || Count(header.value, "n_tokens").None? then -1
    else
      var s := Count(header.value, "session");
      if s.None? || s.value >= 0x8000_0000 then -1 else s.value
  }

  // --- Round trip ---------------------------------------------------------------------------

  lemma EndsDiffer(s: Bytes, tail: Bytes, i: nat)
    requires i < |s| && i < |tail| && s[|s| - 1 - i] != tail[|tail| - 1 - i]
    ensures !EndsWith(s, tail)
  {
    if |tail| <= |s| {
      assert s[|s| - |tail|..][|tail| - 1 - i] == s[|s| - 1 - i];
    }
  }

  /** No field name of the header ends in another one. */
  lemma NamesApart()
    ensures !EndsWith("LIM_SAVE_V3 git_sha", "n_tokens") && !EndsWith("LIM_SAVE_V3 git_sha", "n_checkpoints")
    ensures !EndsWith("LIM_SAVE_V3 git_sha", "session")
    ensures !EndsWith("n_tokens", "n_checkpoints") && !EndsWith("n_tokens", "session")
    ensures !EndsWith("n_checkpoints", "n_tokens") && !EndsWith("n_checkpoints", "session")
    ensures !EndsWith("session", "n_tokens") && !EndsWith("session", "n_checkpoints")
  {
    EndsDiffer("LIM_SAVE_V3 git_sha", "n_tokens", 0);
    EndsDiffer("LIM_SAVE_V3 git_sha", "n_checkpoints", 0);
    EndsDiffer("LIM_SAVE_V3 git_sha", "session", 0);
    EndsDiffer("n_tokens", "n_checkpoints", 1);
    EndsDiffer("n_tokens", "session", 0);
    EndsDiffer("n_checkpoints", "n_tokens", 1);
    EndsDiffer("n_checkpoints", "session", 0);
    EndsDiffer("session", "n_tokens", 0);
    EndsDiffer("session", "n_checkpoints", 0);
  }

  lemma NamesPlain()
    ensures '=' !in "LIM_SAVE_V3 git_sha" && '=' !in "n_tokens" && '=' !in "n_checkpoints" && '=' !in "session"
    ensures ' ' !in "n_tokens" && ' ' !in "n_checkpoints" && ' ' !in "session"
  {
  }

  lemma HeaderFieldsPlain(sha: Bytes, n: nat, m: nat, session: int)
    requires PlainSha(sha)
    ensures forall f :: f in HeaderFields(sha, n, m, session) ==> PlainField(f) && ' ' !in f.value
  {
    NamesPlain();
  }

  /** The three keys are read back from the header line. */
  lemma HeaderReads(sha: Bytes, n: nat, m: nat, session: int)
    requires PlainSha(sha)
    ensures var line := HeaderLine(sha, n, m, session);
            && FieldValue(line, "n_tokens") == Content(Decimal(n))
            && FieldValue(line, "n_checkpoints") == Content(Decimal(m))
            && FieldValue(line, "session") == if session >= 0 then Content(Decimal(session)) else Missing
  {
    hide EndsWith, FieldsText, FieldValue, Decimal;
    NamesPlain();
    NamesApart();
    KeyReads(sha, n, m, session, "n_tokens", 1);
    KeyReads(sha, n, m, session, "n_checkpoints", 2);
    KeyReads(sha, n, m, session, "session", 3);
  }

  lemma KeyReads(sha: Bytes, n: nat, m: nat, session: int, key: Bytes, k: nat)
    requires PlainSha(sha) && '=' !in key && ' ' !in key && 0 < k <= 3
    requires key == if k == 1 then "n_tokens" else if k == 2 then "n_checkpoints" else "session"
    requires !EndsWith("LIM_SAVE_V3 git_sha", key)
    requires k != 1 ==> !EndsWith("n_tokens", key)
    requires k != 2 ==> !EndsWith("n_checkpoints", key)
    requires k != 3 ==> !EndsWith("session", key)
    ensures FieldValue(HeaderLine(sha, n, m, session), key) ==
            if k == 1 then Content(Decimal(n)) else if k == 2 then Content(Decimal(m))
            else if session >= 0 then Content(Decimal(session)) else Missing
  {
    hide EndsWith, FieldsText, FieldValue, Decimal, PlainField;
    var fields := HeaderFields(sha, n, m, session);
    HeaderFieldsPlain(sha, n, m, session);
    forall j | 0 <= j < |fields| ensures PlainField(fields[j]) && ' ' !in fields[j].value {
      assert fields[j] in fields;
    }
    FieldFound(fields, key, k);
  }

  lemma {:induction false} DigitsKept(s: Bytes)
    requires forall i :: 0 <= i < |s| ==> IsDigit(s[i])
    ensures DigitPrefix(s) == s
  {
    if s != [] {
      DigitsKept(s[1..]);
    }
  }

  lemma NumberReads(n: nat)
    requires n < 0x1_0000_0000_0000_0000
    ensures Number(Decimal(n)) == Some(n)
  {
    DigitsKept(Decimal(n));
    DecimalParses(n);
  }

  lemma {:induction false} TokensReadBack(tokens: seq<int>, rest: Bytes)
    requires forall i :: 0 <= i < |tokens| ==> FitsInt32(tokens[i])
    ensures TokensAt(TokensBytes(tokens) + rest, |tokens|) == tokens
    decreases |tokens|
  {
    if tokens != [] {
      hide Int32Bytes, Int32Of;
      var first, others := Int32Bytes(tokens[0]), TokensBytes(tokens[1..]);
      TokensReadBack(tokens[1..], rest);
      Int32RoundTrip(tokens[0]);
      SplitFirst(first, others, rest);
    }
  }

  lemma SplitFirst(first: Bytes, others: Bytes, rest: Bytes)
    requires |first| == 4
    ensures (first + others + rest)[..4] == first && (first + others + rest)[4..] == others + rest
  {
  }

  /** The checkpoints with their labels cut to what the file can hold. */
  function Cut(cps: seq<PromptCheckpoint>): (r: seq<PromptCheckpoint>)
    ensures |r| == |cps|
    ensures forall i :: 0 <= i < |cps| ==> r[i] == PromptCheckpoint(cps[i].nPast, Label(cps[i].prompt))
  {
    if cps == [] then [] else [PromptCheckpoint(cps[0].nPast, Label(cps[0].prompt))] + Cut(cps[1..])
  }

  lemma CheckpointShape(cp: PromptCheckpoint, rest: Bytes)
    requires FitsInt32(cp.nPast)
    ensures var b := CheckpointBytes(cp) + rest;
            var length := |Label(cp.prompt)|;
            && |b| >= 6 + length && Int32Of(b[..4]) == cp.nPast && UInt16Of(b[4..6]) == length
            && b[6..6 + length] == Label(cp.prompt) && b[6 + length..] == rest
  {
    var b := CheckpointBytes(cp) + rest;
    Int32RoundTrip(cp.nPast);
    UInt16RoundTrip(|Label(cp.prompt)|);
    assert b[..4] == Int32Bytes(cp.nPast);
    assert b[4..6] == UInt16Bytes(|Label(cp.prompt)|);
  }

  lemma {:induction false} CheckpointsReadBack(cps: seq<PromptCheckpoint>)
    requires forall i :: 0 <= i < |cps| ==> FitsInt32(cps[i].nPast)
    ensures CheckpointsAt(CheckpointsBytes(cps), |cps|) == Some(Cut(cps))
    decreases |cps|
  {
    if cps != [] {
      hide CheckpointBytes, CheckpointsAt;
      CheckpointsReadBack(cps[1..]);
      OneReadBack(cps[0], CheckpointsBytes(cps[1..]), |cps| - 1, Cut(cps[1..]));
    }
  }

  lemma OneReadBack(cp: PromptCheckpoint, rest: Bytes, n: nat, back: seq<PromptCheckpoint>)
    requires FitsInt32(cp.nPast) && CheckpointsAt(rest, n) == Some(back)
    ensures CheckpointsAt(CheckpointBytes(cp) + rest,
            n + 1) == Some([PromptCheckpoint(cp.nPast, Label(cp.prompt))] + back)
  {
    hide CheckpointBytes, UInt16Of, Int32Of, CheckpointsAt, Label;
    CheckpointShape(cp, rest);
    CheckpointsStep(CheckpointBytes(cp) + rest, n + 1);
  }

  lemma PowersOfTen()
    ensures Power10(20) > 0x1_0000_0000_0000_0000 && Power10(10) > 0x8000_0000
  {
    assert Power10(5) == 100000;
    assert Power10(10) == 10000000000;
    assert Power10(15) == 1000000000000000;
    assert Power10(20) == 100000000000000000000;
  }

  /** The header, newline included, always fits the 256 bytes that are searched. */
  lemma HeaderFits(sha: Bytes, n: nat, m: nat, session: int)
    requires PlainSha(sha) && session < 0x8000_0000
    requires n < 0x1_0000_0000_0000_0000 && m < 0x1_0000_0000_0000_0000
    ensures |HeaderLine(sha, n, m, session)| + 1 <= HEAD_WINDOW
    ensures '\n' !in HeaderLine(sha, n, m, session) && MAGIC <= HeaderLine(sha, n, m, session)
  {
    hide FieldsText, FieldText, Decimal, HeaderLine;
    HeaderLength(sha, n, m, session);
    HeaderOneLine(sha, n, m, session);
    HeaderHasMagic(sha, n, m, session);
  }

  lemma HeaderHasMagic(sha: Bytes, n: nat, m: nat, session: int)
    ensures MAGIC <= HeaderLine(sha, n, m, session)
  {
    hide FieldsText, FieldText, Decimal;
    HeaderShape(sha, n, m, session);
    var tail := FieldText(Field("n_checkpoints", Decimal(m)));
    var tail' := if session >= 0 then tail + " " + FieldText(Field("session", Decimal(session))) else tail;
    var behind := FieldText(Field("n_tokens", Decimal(n))) + " " + tail';
    StartsWithMagic(sha, " " + behind);
    assert HeaderLine(sha, n, m, session) == FieldText(Field("LIM_SAVE_V3 git_sha", sha)) + (" " + behind);
  }

  lemma HeaderLength(sha: Bytes, n: nat, m: nat, session: int)
    requires PlainSha(sha) && session < 0x8000_0000
    requires n < 0x1_0000_0000_0000_0000 && m < 0x1_0000_0000_0000_0000
    ensures |HeaderLine(sha, n, m, session)| + 1 <= HEAD_WINDOW
  {
    hide FieldsText, Power10, Decimal;
    PowersOfTen();
    DecimalLength(n, 20);
    DecimalLength(m, 20);
    if session >= 0 {
      DecimalLength(session, 10);
    }
    HeaderShape(sha, n, m, session);
  }

  lemma HeaderOneLine(sha: Bytes, n: nat, m: nat, session: int)
    requires PlainSha(sha)
    ensures '\n' !in HeaderLine(sha, n, m, session)
  {
    hide FieldsText, Decimal;
    NamesOneLine();
    DecimalNoNewline(n);
    DecimalNoNewline(m);
    if session >= 0 {
      DecimalNoNewline(session);
    }
    HeaderShape(sha, n, m, session);
  }

  lemma NamesOneLine()
    ensures '\n' !in "LIM_SAVE_V3 git_sha" && '\n' !in "n_tokens" && '\n' !in "n_checkpoints" && '\n' !in "session"
  {
  }

  lemma HeaderShape(sha: Bytes, n: nat, m: nat, session: int)
    ensures var tail := FieldText(Field("n_checkpoints", Decimal(m)));
            var tail' := if session >= 0 then tail + " " + FieldText(Field("session", Decimal(session))) else tail;
            HeaderLine(sha, n, m, session) ==
            FieldText(Field("LIM_SAVE_V3 git_sha", sha)) + " " + (FieldText(Field("n_tokens", Decimal(n))) + " " + tail')
  {
    hide Decimal, FieldText;
    var fields := HeaderFields(sha, n, m, session);
    assert fields[1..][0] == fields[1] && fields[1..][1..] == fields[2..];
    assert fields[2..][0] == fields[2] && (session >= 0 ==> fields[2..][1..] == fields[3..] == [fields[3]]);
    assert FieldsText(fields) == FieldText(fields[0]) + " " + FieldsText(fields[1..]);
    assert FieldsText(fields[1..]) == FieldText(fields[1]) + " " + FieldsText(fields[2..]);
    assert session >= 0 ==> FieldsText(fields[2..]) == FieldText(fields[2]) + " " + FieldText(fields[3]);
    assert session < 0 ==> FieldsText(fields[2..]) == FieldText(fields[2]);
  }

  lemma DecimalNoNewline(n: nat)
    ensures '\n' !in Decimal(n)
  {
  }

  lemma StartsWithMagic(sha: Bytes, rest: Bytes)
    ensures MAGIC <= FieldText(Field("LIM_SAVE_V3 git_sha", sha)) + rest
  {
    assert "LIM_SAVE_V3 git_sha"[..12] == MAGIC;
  }

  lemma {:induction false} UpToNewline(line: Bytes, rest: Bytes)
    requires '\n' !in line
    ensures Before("\n", line + ("\n" + rest)) == line
    decreases |line|
  {
    if line == [] {
      assert line + ("\n" + rest) == "\n" + rest;
    } else {
      assert (line + ("\n" + rest))[1..] == line[1..] + ("\n" + rest);
      UpToNewline(line[1..], rest);
    }
  }

  lemma HeaderFound(line: Bytes, rest: Bytes)
    requires '\n' !in line && |line| + 1 <= HEAD_WINDOW
    ensures HeaderOf(line + ("\n" + rest)) == Some(line)
  {
    var file := line + ("\n" + rest);
    var n := if |file| < HEAD_WINDOW then |file| else HEAD_WINDOW;
    var head := file[..n];
    assert head == line + ("\n" + rest[..n - |line| - 1]);
    assert head[|line|] == '\n';
    UpToNewline(line, rest[..n - |line| - 1]);
    assert file == file[..|file|];
  }

  /** Reading a written save returns the tokens, the checkpoints with their labels cut
      and the session number, -1 if none was written. */
  lemma SaveRoundTrip(sha: Bytes, tokens: seq<int>, cps: seq<PromptCheckpoint>, session: int)
    requires Savable(sha, tokens, cps, session)
    ensures var file := SaveBytes(sha, tokens, cps, session);
            && TokensRead(file) == Some(tokens)
            && CheckpointsRead(file) == Cut(cps)
            && SessionRead(file) == if session >= 0 then session else -1
  {
    hide HeaderLine, Number, FieldValue, TokensBytes, CheckpointsBytes, TokensAt, CheckpointsAt, HeaderOf;
    var line := HeaderLine(sha, |tokens|, |cps|, session);
    var data := TokensBytes(tokens) + CheckpointsBytes(cps);
    var file := line + ("\n" + data);
    HeaderFits(sha, |tokens|, |cps|, session);
    HeaderFound(line, data);
    assert file[|line| + 1..] == data;
    HeaderReads(sha, |tokens|, |cps|, session);
    NumberReads(|tokens|);
    NumberReads(|cps|);
    if session >= 0 {
      NumberReads(session);
    }
    TokensReadBack(tokens, CheckpointsBytes(cps));
    assert data[4 * |tokens|..] == CheckpointsBytes(cps);
    CheckpointsReadBack(cps);
  }

  // --- The reading loops -----------------------------------------------------------------------

  /** fread of the tokens: all of them or none. */
  method ReadTokenSave(file: Bytes) returns (tokens: Option<seq<int>>)
    ensures tokens == TokensRead(file)
  {
    var header := HeaderOf(file);
    if header.None? || |header.value| >= |file| {
      return None;
    }
    var n := Count(header.value, "n_tokens");
    var at := |header.value| + 1;
    if n.None? || |file| - at < 4 * n.value {
      return None;
    }
    var read := ReadTokens(file[at..], n.value);
    tokens := Some(read);
  }

  method ReadTokens(data: Bytes, count: nat) returns (tokens: seq<int>)
    requires 4 * count <= |data|
    ensures tokens == TokensAt(data, count)
  {
    tokens := [];
    assert data[0..] == data;
    while |tokens| < count
      invariant |tokens| <= count
      invariant tokens + TokensAt(data[4 * |tokens|..], count - |tokens|) == TokensAt(data, count)
    {
      var at := 4 * |tokens|;
      assert data[at..][..4] == data[at..at + 4] && data[at..][4..] == data[at + 4..];
      tokens := tokens + [Int32Of(data[at..at + 4])];
    }
    assert tokens + [] == tokens;
  }

  /** The checkpoint loop: a record that is cut short discards them all. */
  method ReadCheckpoints(data: Bytes, count: nat) returns (cps: seq<PromptCheckpoint>)
    ensures cps == match CheckpointsAt(data, count) case Some(r) => r case None => []
  {
    hide CheckpointsAt, Int32Of, UInt16Of;
    cps := [];
    var at := 0;
    var i := 0;
    assert data[0..] == data;
    assert forall r: seq<PromptCheckpoint> :: cps + r == r;
    while i < count
      invariant 0 <= i <= count && 0 <= at <= |data|
      invariant match CheckpointsAt(data[at..], count - i)
                case Some(r) => CheckpointsAt(data, count) == Some(cps + r)
                case None => CheckpointsAt(data, count) == None
    {
      CheckpointsStep(data[at..], count - i);
      if |data| - at < 6 {
        return [];
      }
      var length := UInt16Of(data[at + 4..at + 6]);
      Record(data, at);
      if |data| - at - 6 < length {
        return [];
      }
      var cp := PromptCheckpoint(Int32Of(data[at..at + 4]), data[at + 6..at + 6 + length]);
      assert forall r: seq<PromptCheckpoint> :: cps + ([cp] + r) == cps + [cp] + r;
      cps := cps + [cp];
      at, i := at + 6 + length, i + 1;
    }
    CheckpointsStep(data[at..], 0);
    assert cps + [] == cps;
  }

  lemma CheckpointsStep(b: Bytes, n: nat)
    ensures CheckpointsAt(b, 0) == Some([])
    ensures n > 0 && |b| < 6 ==> CheckpointsAt(b, n) == None
    ensures n > 0 && |b| >= 6 ==>
              var length := UInt16Of(b[4..6]);
              if |b| < 6 + length then CheckpointsAt(b, n) == None
              else match CheckpointsAt(b[6 + length..], n - 1)
                   case None => CheckpointsAt(b, n) == None
                   case Some(r) => CheckpointsAt(b, n) == Some([PromptCheckpoint(Int32Of(b[..4]), b[6..6 + length])] + r)
  {
  }

  lemma Record(data: Bytes, at: nat)
    requires at + 6 <= |data|
    ensures data[at..][..4] == data[at..at + 4] && data[at..][4..6] == data[at + 4..at + 6]
    ensures var length := UInt16Of(data[at + 4..at + 6]);
            at + 6 + length <= |data| ==>
              data[at..][6..6 + length] == data[at + 6..at + 6 + length]
                  && data[at..][6 + length..] == data[at + 6 + length..]
  {
  }
}
