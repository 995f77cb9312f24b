/** Accepting a return path after login: percent-decoding to a fixed point, and checking every stage. */
module AuthReturn {
  import opened Wrappers
  import opened Text

  /** JavaScript strings are sequences of UTF-16 code units. */
  type CodeUnit = u: int | 0 <= u < 0x10000

  type JsString = seq<CodeUnit>

  const SLASH: CodeUnit := 0x2F
  const BACKSLASH: CodeUnit := 0x5C
  const PERCENT: CodeUnit := 0x25
  const DOT: CodeUnit := 0x2E
  const QUESTION_MARK: CodeUnit := 0x3F
  const HASH: CodeUnit := 0x23

  const MAX_PATH_LENGTH := 2048
  const MAX_DECODE_PASSES := 5
  const DEDUPLICATION_MS := 2000

  /** `/dashboard`. */
  const DEFAULT_PATH: JsString := [0x2F, 0x64, 0x61, 0x73, 0x68, 0x62, 0x6F, 0x61, 0x72, 0x64]

  // ----- decodeURIComponent, by section 19.2.6 of ECMA-262 -----

  predicate IsHex(u: CodeUnit) { 0x30 <= u <= 0x39 || 0x41 <= u <= 0x46 || 0x61 <= u <= 0x66 }

  function HexValue(u: CodeUnit): (v: int)
    requires IsHex(u)
    ensures 0 <= v < 16
  {
    if u <= 0x39 then u - 0x30 else if u <= 0x46 then u - 0x37 else u - 0x57
  }

  predicate IsEscapeAt(s: JsString, i: nat) {
    i + 3 <= |s| && s[i] == PERCENT && IsHex(s[i + 1]) && IsHex(s[i + 2])
  }

  function OctetAt(s: JsString, i: nat): (b: int)
    requires IsEscapeAt(s, i)
    ensures 0 <= b < 256
  {
    16 * HexValue(s[i + 1]) + HexValue(s[i + 2])
  }

  /** The number of octets that a leading octet announces; 0 when it cannot lead. */
  function OctetCount(lead: int): nat {
    if lead < 0x80 then 1
    else if lead < 0xC0 then 0
    else if lead < 0xE0 then 2
    else if lead < 0xF0 then 3
    else if lead < 0xF8 then 4
    else 0
  }

  predicate IsContinuation(s: JsString, i: nat) { IsEscapeAt(s, i) && 0x80 <= OctetAt(s, i) < 0xC0 }

  function ContinuationBits(s: JsString, i: nat): (v: int)
    requires IsContinuation(s, i)
    ensures 0 <= v < 64
  {
    OctetAt(s, i) - 0x80
  }

  /** The code point that the escapes at the start of `s` stand for, if they are valid UTF-8. */
  function LeadingCodePoint(s: JsString): (r: Option<int>)
    requires IsEscapeAt(s, 0)
    ensures r.Some? ==> 0 <= r.value <= 0x10FFFF && 3 * OctetCount(OctetAt(s, 0)) <= |s|
  {
    var lead := OctetAt(s, 0);
    match OctetCount(lead)
    case 1 => Some(lead)
    case 2 =>
      if !IsContinuation(s, 3) then None
      else
        var v := (lead - 0xC0) * 64 + ContinuationBits(s, 3);
        if v < 0x80 then None else Some(v)
    case 3 =>
      if !IsContinuation(s, 3) || !IsContinuation(s, 6) then None
      else
        var v := ((lead - 0xE0) * 64 + ContinuationBits(s, 3)) * 64 + ContinuationBits(s, 6);
        if v < 0x800 || 0xD800 <= v < 0xE000 then None else Some(v)
    case 4 =>
      if !IsContinuation(s, 3) || !IsContinuation(s, 6) || !IsContinuation(s, 9) then None
      else
        var v := (((lead - 0xF0) * 64 + ContinuationBits(s, 3)) * 64 + ContinuationBits(s, 6)) * 64
                 + ContinuationBits(s, 9);
        if v < 0x1_0000 || v > 0x10FFFF then None else Some(v)
    case _ => None
  }

  function Utf16(codePoint: int): (units: JsString)
    requires 0 <= codePoint <= 0x10FFFF
    ensures |units| == if codePoint < 0x1_0000 then 1 else 2
  {
    if codePoint < 0x1_0000 then [codePoint]
    else [0xD800 + (codePoint - 0x1_0000) / 0x400, 0xDC00 + (codePoint - 0x1_0000) % 0x400]
  }

  /** None where JavaScript throws a URIError. */
  function Decode(s: JsString): Option<JsString> {
    if s == [] then Some([])
    else if s[0] != PERCENT then
      match Decode(s[1..])
      case None => None
      case Some(rest) => Some([s[0]] + rest)
    else if !IsEscapeAt(s, 0) || LeadingCodePoint(s).None? then None
    else
      var count := OctetCount(OctetAt(s, 0));
      match Decode(s[3 * count..])
      case None => None
      case Some(rest) => Some(Utf16(LeadingCodePoint(s).value) + rest)
  }

  /** Decoding never lengthens; it shortens, by two units at least, exactly when there is a percent sign. */
  lemma {:induction false} DecodingShortens(s: JsString)
    requires Decode(s).Some?
    ensures PERCENT !in s ==> Decode(s).value == s
    ensures PERCENT in s ==> |Decode(s).value| <= |s| - 2
  {
    if s != [] {
      if s[0] != PERCENT {
        DecodingShortens(s[1..]);
        assert s == [s[0]] + s[1..];
      } else {
        var rest := s[3 * OctetCount(OctetAt(s, 0))..];
        DecodingShortens(rest);
        assert |Decode(rest).value| <= |rest|;
      }
    }
  }

  // ----- Decoding again and again -----

  /** The stages of decoding `s` until nothing changes, if that takes at most `passes` changing passes. */
  function Orbit(s: JsString, passes: nat): Option<seq<JsString>>
    decreases passes
  {
    match Decode(s)
    case None => None
    case Some(decoded) =>
      if decoded == s then Some([s])
      else if passes == 0 then None
      else
        match Orbit(decoded, passes - 1)
        case None => None
        case Some(rest) => Some([s] + rest)
  }

  /** `s` decoded `n` times. */
  function Iterate(s: JsString, n: nat): Option<JsString>
    decreases n
  {
    if n == 0 then Some(s)
    else
      match Decode(s)
      case None => None
      case Some(decoded) => Iterate(decoded, n - 1)
  }

  lemma {:induction false} FixedPointStays(s: JsString, n: nat)
    requires Decode(s) == Some(s)
    ensures Iterate(s, n) == Some(s)
  {
    if n > 0 {
      FixedPointStays(s, n - 1);
    }
  }

  /** After `n` passes no percent sign is left. */
  predicate IsPlainAfter(s: JsString, n: nat) { Iterate(s, n).Some? && PERCENT !in Iterate(s, n).value }

  ghost predicate IsPlainWithin(s: JsString, passes: nat) { exists n: nat :: n <= passes && IsPlainAfter(s, n) }

  /** `stages` are the iterates of `s`, the last of them for ever. */
  ghost predicate AreTheStages(s: JsString, stages: seq<JsString>) {
    && stages != [] && PERCENT !in stages[|stages| - 1]
    && forall n: nat :: Iterate(s, n) == Some(stages[if n < |stages| then n else |stages| - 1])
  }

  lemma OneMoreStage(s: JsString, stages: seq<JsString>)
    requires Decode(s).Some? && AreTheStages(Decode(s).value, stages)
    ensures AreTheStages(s, [s] + stages)
  {
    var all, decoded := [s] + stages, Decode(s).value;
    forall n: nat ensures Iterate(s, n) == Some(all[if n < |all| then n else |all| - 1]) {
      if n > 0 {
        assert Iterate(s, n) == Iterate(decoded, n - 1);
      }
    }
  }

  lemma OnlyStage(s: JsString)
    requires Decode(s) == Some(s) && PERCENT !in s
    ensures AreTheStages(s, [s])
  {
    forall n: nat ensures Iterate(s, n) == Some(s) {
      FixedPointStays(s, n);
    }
  }

  lemma PlainOneEarlier(s: JsString, passes: nat)
    requires Decode(s).Some? && PERCENT in s
    ensures IsPlainWithin(s, passes) <==> passes > 0 && IsPlainWithin(Decode(s).value, passes - 1)
  {
    var decoded := Decode(s).value;
    if IsPlainWithin(s, passes) {
      var n: nat :| n <= passes && IsPlainAfter(s, n);
      assert IsPlainAfter(decoded, n - 1);
    }
    if passes > 0 && IsPlainWithin(decoded, passes - 1) {
      var n: nat :| n <= passes - 1 && IsPlainAfter(decoded, n);
      assert IsPlainAfter(s, n + 1);
    }
  }

  lemma NeverPlain(s: JsString, passes: nat)
    requires Decode(s).None?
    ensures !IsPlainWithin(s, passes)
  {
    MalformedHasPercent(s);
    assert !IsPlainAfter(s, 0);
  }

  /**
   * The orbit is found exactly when some stage, after at most `passes` passes, has no percent
   * sign.  Then decoding succeeds any number of times, and every stage of it is in the orbit.
   */
  lemma {:induction false} OrbitHasEveryStage(s: JsString, passes: nat)
    ensures Orbit(s, passes).Some? <==> IsPlainWithin(s, passes)
    ensures Orbit(s, passes).Some? ==>
      |Orbit(s, passes).value| <= passes + 1 && AreTheStages(s, Orbit(s, passes).value)
    decreases passes
  {
    hide AreTheStages, IsPlainWithin;
    if Decode(s).None? {
      NeverPlain(s, passes);
    } else {
      var decoded := Decode(s).value;
      DecodingShortens(s);
      if decoded == s {
        OnlyStage(s);
        PlainAtOnce(s, passes);
      } else {
        PlainOneEarlier(s, passes);
        if passes > 0 {
          OrbitHasEveryStage(decoded, passes - 1);
          if Orbit(decoded, passes - 1).Some? {
            OneMoreStage(s, Orbit(decoded, passes - 1).value);
          }
        }
      }
    }
  }

  lemma PlainAtOnce(s: JsString, passes: nat)
    requires PERCENT !in s
    ensures IsPlainWithin(s, passes)
  {
    assert IsPlainAfter(s, 0);
  }

  lemma {:induction false} MalformedHasPercent(s: JsString)
    requires Decode(s).None?
    ensures PERCENT in s
  {
    if s[0] != PERCENT {
      MalformedHasPercent(s[1..]);
    }
  }

  // ----- Checking one stage -----

  predicate HasInvalidEscape(s: JsString) {
    exists i :: 0 <= i < |s| && s[i] == PERCENT && !IsEscapeAt(s, i)
  }

  predicate IsHighSurrogate(u: CodeUnit) { 0xD800 <= u < 0xDC00 }

  predicate IsLowSurrogate(u: CodeUnit) { 0xDC00 <= u < 0xE000 }

  function PairValue(high: CodeUnit, low: CodeUnit): int { (high - 0xD800) * 0x400 + (low - 0xDC00) + 0x1_0000 }

  /** Surrogate pairs are taken together, as `Array.from` does. */
  function CodePoints(s: JsString): seq<int> {
    if s == [] then []
    else if |s| >= 2 && IsHighSurrogate(s[0]) && IsLowSurrogate(s[1]) then [PairValue(s[0], s[1])] + CodePoints(s[2..])
    else [s[0]] + CodePoints(s[1..])
  }

  predicate IsControl(codePoint: int) { codePoint < 32 || codePoint == 127 }

  predicate ContainsControlCharacter(s: JsString) {
    exists c :: c in CodePoints(s) && IsControl(c)
  }

  lemma {:induction false} ControlCharactersAreUnits(s: JsString)
    ensures ContainsControlCharacter(s) <==> exists u :: u in s && IsControl(u)
  {
    if s != [] {
      var k := if |s| >= 2 && IsHighSurrogate(s[0]) && IsLowSurrogate(s[1]) then 2 else 1;
      ControlCharactersAreUnits(s[k..]);
      var first := CodePoints(s)[0];
      assert CodePoints(s) == [first] + CodePoints(s[k..]) && s == s[..k] + s[k..];
      assert forall u :: u in s <==> u in s[..k] || u in s[k..];
      assert IsControl(first) <==> k == 1 && IsControl(s[0]);
      assert forall u :: u in s[..k] <==> u == s[0] || (k == 2 && u == s[1]);
    }
  }

  /** The part before the first `?` or `#`. */
  function PathPart(s: JsString): JsString {
    if s == [] || s[0] == QUESTION_MARK || s[0] == HASH then [] else [s[0]] + PathPart(s[1..])
  }

  lemma {:induction false} PathPartEndsAtMark(s: JsString)
    ensures PathPart(s) <= s && QUESTION_MARK !in PathPart(s) && HASH !in PathPart(s)
    ensures PathPart(s) == s || s[|PathPart(s)|] == QUESTION_MARK || s[|PathPart(s)|] == HASH
  {
    if s != [] && s[0] != QUESTION_MARK && s[0] != HASH {
      PathPartEndsAtMark(s[1..]);
      assert s == [s[0]] + s[1..];
    }
  }

  predicate HasDotSegment(s: JsString) {
    [DOT] in Split(PathPart(s), SLASH) || [DOT, DOT] in Split(PathPart(s), SLASH)
  }

  /** An absolute path without host, backslash, control character or dot segment. */
  predicate IsPlainPath(s: JsString) {
    && s != [] && s[0] == SLASH
    && !(|s| >= 2 && s[1] == SLASH)
    && BACKSLASH !in s
    && !ContainsControlCharacter(s)
    && !HasDotSegment(s)
  }

  /** The part of `s` from `i` to `j` is a segment of the path: between slashes, before the first `?` or `#`. */
  predicate IsSegment(s: JsString, i: int, j: int) {
    && 0 <= i <= j <= |s|
    && (i == 0 || s[i - 1] == '/' as int) && (j == |s| || s[j] in ['/' as int, '?' as int, '#' as int])
    && '/' as int !in s[i..j] && '?' as int !in s[..j] && '#' as int !in s[..j]
  }

  lemma SegmentsArePieces(s: JsString, i: int, j: int)
    ensures IsSegment(s, i, j) <==> IsPiece(PathPart(s), SLASH, i, j)
    ensures IsSegment(s, i, j) ==> s[i..j] == PathPart(s)[i..j]
  {
    PathPartEndsAtMark(s);
    var path := PathPart(s);
    if 0 <= i <= j <= |path| {
      assert s[i..j] == path[i..j] && s[..j] == path[..j];
      assert forall u :: u in s[..j] ==> u in path;
    } else if 0 <= i <= j <= |s| {
      assert s[|path|] in s[..j];
    }
  }

  /** Some segment is one dot or two dots exactly when the split path has such a piece. */
  lemma DotSegmentIff(s: JsString)
    ensures HasDotSegment(s) <==>
      exists i, j :: IsSegment(s, i, j) && (s[i..j] == ['.' as int] || s[i..j] == ['.' as int, '.' as int])
  {
    var path := PathPart(s);
    PiecesLieBetween(path, SLASH, [DOT]);
    PiecesLieBetween(path, SLASH, [DOT, DOT]);
    PathPartEndsAtMark(s);
    hide PathPart, Split;
    forall i, j | IsSegment(s, i, j) ensures IsPiece(path, SLASH, i, j) && 0 <= i <= j <= |path| && s[i..j] == path[i..j] {
      SegmentsArePieces(s, i, j);
    }
    forall i, j | IsPiece(path, SLASH, i, j) ensures IsSegment(s, i, j) && s[i..j] == path[i..j] {
      SegmentsArePieces(s, i, j);
    }
  }

  /** What makes a stage safe: the checks of the loop, in its order. */
  lemma SafeStageIff(parser: UrlParser, s: JsString)
    ensures IsSafeStage(parser, s) <==>
      && s != [] && s[0] == '/' as int && !(|s| > 1 && s[1] == '/' as int)
      && (forall u :: u in s ==> u != '\\' as int && 32 <= u && u != 127)
      && parser.parse(s).Some? && parser.parse(s).value.origin == parser.origin
      && forall i, j :: IsSegment(s, i, j) ==> s[i..j] != ['.' as int] && s[i..j] != ['.' as int, '.' as int]
  {
    ControlCharactersAreUnits(s);
    DotSegmentIff(s);
    hide HasDotSegment, IsSegment, ContainsControlCharacter;
  }

  // ----- The resolver -----

  datatype Url = Url(origin: JsString, pathname: JsString, search: JsString, hash: JsString)

  /** The URL constructor on a base of this origin; None where it throws. */
  datatype UrlParser = UrlParser(origin: JsString, parse: JsString -> Option<Url>)

  predicate IsSafeStage(parser: UrlParser, s: JsString) {
    && IsPlainPath(s)
    && parser.parse(s).Some? && parser.parse(s).value.origin == parser.origin
  }

  function Serialized(url: Url): JsString { url.pathname + url.search + url.hash }

  /** The path after parsing, serialising and parsing once more. */
  function Verified(parser: UrlParser, s: JsString): Option<JsString> {
    match parser.parse(s)
    case None => None
    case Some(resolved) =>
      match parser.parse(Serialized(resolved))
      case None => None
      case Some(verified) => if verified.origin == parser.origin then Some(Serialized(verified)) else None
  }

  predicate IsWellFormedRequest(returnPath: Option<JsString>) {
    && returnPath.Some? && returnPath.value != [] && returnPath.value[0] == SLASH
    && |returnPath.value| <= MAX_PATH_LENGTH
    && !HasInvalidEscape(returnPath.value)
  }

  predicate AllSafe(parser: UrlParser, stages: seq<JsString>) {
    forall s :: s in stages ==> IsSafeStage(parser, s)
  }

  predicate IsAccepted(parser: UrlParser, returnPath: Option<JsString>) {
    && IsWellFormedRequest(returnPath)
    && Orbit(returnPath.value, MAX_DECODE_PASSES).Some?
    && AllSafe(parser, Orbit(returnPath.value, MAX_DECODE_PASSES).value)
    && Verified(parser, returnPath.value).Some?
  }

  function Resolved(parser: UrlParser, returnPath: Option<JsString>): JsString {
    if IsAccepted(parser, returnPath) then Verified(parser, returnPath.value).value else DEFAULT_PATH
  }

  function Behind(stages: seq<JsString>, more: Option<seq<JsString>>): Option<seq<JsString>> {
    match more
    case None => None
    case Some(rest) => Some(stages + rest)
  }

  /** The decoding loop: the stages collected so far, and the fixed point or the limit. */
  method DecodeRepeatedly(returnPath: JsString) returns (candidates: Option<seq<JsString>>)
    ensures candidates == Orbit(returnPath, MAX_DECODE_PASSES)
  {
    var stages := [returnPath];
    var decoded := returnPath;
    var stabilized := false;
    var iteration := 0;
    assert Orbit(returnPath, MAX_DECODE_PASSES) == Behind([], Orbit(returnPath, MAX_DECODE_PASSES)) by {
      EmptyInFront(Orbit(returnPath, MAX_DECODE_PASSES));
    }
    while iteration < MAX_DECODE_PASSES
      invariant 0 <= iteration <= MAX_DECODE_PASSES
      invariant |stages| == iteration + 1 && stages[iteration] == decoded && !stabilized
      invariant Orbit(returnPath, MAX_DECODE_PASSES)
             == Behind(stages[..iteration], Orbit(decoded, MAX_DECODE_PASSES - iteration))
    {
      var decodedOnce := Decode(decoded);
      if decodedOnce.None? {
        return None;
      }
      assert stages[..iteration] + [decoded] == stages;
      if decodedOnce.value == decoded {
        stabilized := true;
        break;
      }
      AnotherStage(decoded, MAX_DECODE_PASSES - iteration, stages[..iteration]);
      stages := stages + [decodedOnce.value];
      decoded := decodedOnce.value;
      iteration := iteration + 1;
      assert stages[..iteration] + [decoded] == stages;
    }
    if !stabilized {
      var decodedOnce := Decode(decoded);
      if decodedOnce != Some(decoded) {
        return None;
      }
    }
    assert stages[..iteration] + [decoded] == stages;
    candidates := Some(stages);
  }

  lemma EmptyInFront(more: Option<seq<JsString>>)
    ensures Behind([], more) == more
  {
    assert more.Some? ==> [] + more.value == more.value;
  }

  lemma AnotherStage(s: JsString, passes: nat, stages: seq<JsString>)
    requires passes > 0 && Decode(s).Some? && Decode(s).value != s
    ensures Behind(stages, Orbit(s, passes)) == Behind(stages + [s], Orbit(Decode(s).value, passes - 1))
  {
    var rest := Orbit(Decode(s).value, passes - 1);
    if rest.Some? {
      assert stages + ([s] + rest.value) == stages + [s] + rest.value;
    }
  }

  method ResolveSafeAuthReturnPath(parser: UrlParser, returnPath: Option<JsString>) returns (r: JsString)
    ensures r == Resolved(parser, returnPath)
  {
    hide IsSafeStage, Verified, HasInvalidEscape, Orbit, AllSafe;
    if returnPath.None? || returnPath.value == [] || returnPath.value[0] != SLASH {
      return DEFAULT_PATH;
    }
    var path := returnPath.value;
    if |path| > MAX_PATH_LENGTH || HasInvalidEscape(path) {
      return DEFAULT_PATH;
    }
    var decoded := DecodeRepeatedly(path);
    if decoded.None? {
      return DEFAULT_PATH;
    }
    var safe := CheckStages(parser, decoded.value);
    if !safe {
      return DEFAULT_PATH;
    }
    var verified := Verified(parser, path);
    r := if verified.Some? then verified.value else DEFAULT_PATH;
  }

  /** The checks of every stage, in order, up to the first that fails. */
  method CheckStages(parser: UrlParser, candidates: seq<JsString>) returns (safe: bool)
    ensures safe <==> AllSafe(parser, candidates)
  {
    hide IsSafeStage;
    for i := 0 to |candidates|
      invariant AllSafe(parser, candidates[..i])
    {
      if !IsSafeStage(parser, candidates[i]) {
        assert candidates[i] in candidates;
        return false;
      }
    }
    assert candidates[..|candidates|] == candidates;
    safe := true;
  }

  // ----- What acceptance means -----

  ghost predicate StaysSafe(parser: UrlParser, path: JsString) {
    forall n: nat :: Iterate(path, n).Some? && IsSafeStage(parser, Iterate(path, n).value)
  }

  lemma SafeStagesAreTheOrbit(parser: UrlParser, path: JsString, stages: seq<JsString>)
    requires AreTheStages(path, stages)
    ensures AllSafe(parser, stages) <==> StaysSafe(parser, path)
  {
    hide IsSafeStage;
    if AllSafe(parser, stages) {
      forall n: nat ensures Iterate(path, n).Some? && IsSafeStage(parser, Iterate(path, n).value) {
        assert stages[if n < |stages| then n else |stages| - 1] in stages;
      }
    }
    if StaysSafe(parser, path) {
      forall s | s in stages ensures IsSafeStage(parser, s) {
        var k: nat :| k < |stages| && stages[k] == s;
        assert Iterate(path, k) == Some(s);
      }
    }
  }

  /** Path, query and fragment of the parsed path parse again, to this origin. */
  ghost predicate ParsesTwice(parser: UrlParser, path: JsString) {
    exists first, second ::
      && parser.parse(path) == Some(first)
      && parser.parse(first.pathname + first.search + first.hash) == Some(second)
      && second.origin == parser.origin
  }

  lemma ParsesTwiceIff(parser: UrlParser, path: JsString)
    ensures Verified(parser, path).Some? <==> ParsesTwice(parser, path)
  {
    if parser.parse(path).Some? {
      var first := parser.parse(path).value;
      assert Serialized(first) == first.pathname + first.search + first.hash;
    }
  }

  /**
   * A path is accepted exactly when it is short, starts with a slash, is free of percent signs
   * after at most five passes of decoding, is safe however often it is decoded, and parses to
   * this origin; everything else leads to the default page.
   */
  lemma AcceptanceByEveryStage(parser: UrlParser, path: JsString)
    ensures IsAccepted(parser, Some(path)) <==>
      && path != [] && path[0] == '/' as int && |path| <= 2048 && !HasInvalidEscape(path)
      && IsPlainWithin(path, 5)
      && StaysSafe(parser, path)
      && ParsesTwice(parser, path)
  {
    ParsesTwiceIff(parser, path);
    hide IsPlainWithin, StaysSafe, AllSafe, Verified, ParsesTwice, Iterate, HasInvalidEscape;
    OrbitHasEveryStage(path, MAX_DECODE_PASSES);
    if Orbit(path, MAX_DECODE_PASSES).Some? {
      SafeStagesAreTheOrbit(parser, path, Orbit(path, MAX_DECODE_PASSES).value);
    }
  }

  /** However often an accepted path is decoded, it never becomes a network path, and never leaves its directory. */
  lemma AcceptedPathsStayPlain(parser: UrlParser, path: JsString, n: nat)
    requires IsAccepted(parser, Some(path))
    ensures Iterate(path, n).Some?
    ensures var s := Iterate(path, n).value;
      && s != [] && s[0] == SLASH && (|s| >= 2 ==> s[1] != SLASH)
      && BACKSLASH !in s && (forall u :: u in s ==> !IsControl(u))
      && [DOT] !in Split(PathPart(s), SLASH) && [DOT, DOT] !in Split(PathPart(s), SLASH)
    ensures n >= MAX_DECODE_PASSES ==> PERCENT !in Iterate(path, n).value
  {
    AcceptanceByEveryStage(parser, path);
    OrbitHasEveryStage(path, MAX_DECODE_PASSES);
    StageIsPlain(parser, path, n);
  }

  lemma StageIsPlain(parser: UrlParser, path: JsString, n: nat)
    requires StaysSafe(parser, path) && Orbit(path, MAX_DECODE_PASSES).Some?
    ensures Iterate(path, n).Some? && IsPlainPath(Iterate(path, n).value)
    ensures forall u :: u in Iterate(path, n).value ==> !IsControl(u)
    ensures n >= MAX_DECODE_PASSES ==> PERCENT !in Iterate(path, n).value
  {
    assert IsSafeStage(parser, Iterate(path, n).value);
    ControlCharactersAreUnits(Iterate(path, n).value);
    OrbitHasEveryStage(path, MAX_DECODE_PASSES);
  }

  /** What comes back: the parts of the path as parsed a second time, or the default page. */
  lemma ResolvedIs(parser: UrlParser, path: JsString)
    ensures IsAccepted(parser, Some(path)) ==>
      exists first, second ::
        && parser.parse(path) == Some(first)
        && parser.parse(first.pathname + first.search + first.hash) == Some(second)
        && second.origin == parser.origin
        && Resolved(parser, Some(path)) == second.pathname + second.search + second.hash
    ensures Resolved(parser, None) == DEFAULT_PATH
    ensures !IsAccepted(parser, Some(path)) ==> Resolved(parser, Some(path)) == DEFAULT_PATH
  {
    if IsAccepted(parser, Some(path)) {
      hide IsAccepted, IsSafeStage, AllSafe, Orbit;
      var first := parser.parse(path).value;
      var second := parser.parse(Serialized(first)).value;
      assert Serialized(first) == first.pathname + first.search + first.hash;
    }
  }

  // ----- The bound of five passes -----

  /** `k` times the digits of an escaped percent sign. */
  function Layers(k: nat): JsString { if k == 0 then [] else [0x32, 0x35] + Layers(k - 1) }

  /** `/A`, with the letter escaped `k` times over. */
  function Nested(k: nat): JsString {
    if k == 0 then [SLASH, 0x41] else [SLASH, PERCENT] + Layers(k - 1) + [0x34, 0x31]
  }

  lemma {:induction false} LayersHaveNoPercent(k: nat)
    ensures PERCENT !in Layers(k)
  {
    if k > 0 {
      LayersHaveNoPercent(k - 1);
    }
  }

  lemma {:induction false} PlainDecodesToItself(s: JsString)
    requires PERCENT !in s
    ensures Decode(s) == Some(s)
  {
    if s != [] {
      PlainDecodesToItself(s[1..]);
      assert s == [s[0]] + s[1..];
    }
  }

  lemma AsciiEscapeLeads(s: JsString)
    requires IsEscapeAt(s, 0) && OctetAt(s, 0) < 0x80
    ensures LeadingCodePoint(s) == Some(OctetAt(s, 0)) && OctetCount(OctetAt(s, 0)) == 1
    ensures Utf16(OctetAt(s, 0)) == [OctetAt(s, 0)]
  {
  }

  lemma DecodeLeadingEscape(high: CodeUnit, low: CodeUnit, plain: JsString)
    requires IsHex(high) && IsHex(low) && HexValue(high) < 8 && Decode(plain) == Some(plain)
    ensures Decode([PERCENT, high, low] + plain) == Some([16 * HexValue(high) + HexValue(low)] + plain)
  {
    var s := [PERCENT, high, low] + plain;
    assert s[0] == PERCENT && s[1] == high && s[2] == low && s[3..] == plain;
    AsciiEscapeLeads(s);
    hide LeadingCodePoint, OctetCount, Utf16, HexValue, IsHex;
    assert s[3 * OctetCount(OctetAt(s, 0))..] == plain;
  }

  lemma DecodeBehindSlash(s: JsString)
    requires Decode(s).Some?
    ensures Decode([SLASH] + s) == Some([SLASH] + Decode(s).value)
  {
    hide LeadingCodePoint, OctetCount, Utf16, IsEscapeAt;
    assert ([SLASH] + s)[1..] == s;
  }

  lemma DecodeAsciiEscape(high: CodeUnit, low: CodeUnit, plain: JsString)
    requires IsHex(high) && IsHex(low) && HexValue(high) < 8 && PERCENT !in plain
    ensures Decode([SLASH, PERCENT, high, low] + plain) == Some([SLASH, 16 * HexValue(high) + HexValue(low)] + plain)
  {
    hide Decode, HexValue, IsHex;
    var v := 16 * HexValue(high) + HexValue(low);
    PlainDecodesToItself(plain);
    DecodeLeadingEscape(high, low, plain);
    DecodeBehindSlash([PERCENT, high, low] + plain);
    assert [SLASH] + ([PERCENT, high, low] + plain) == [SLASH, PERCENT, high, low] + plain;
    assert [SLASH] + ([v] + plain) == [SLASH, v] + plain;
  }

  lemma NestedLosesOneLayer(k: nat)
    requires k > 0
    ensures Decode(Nested(k)) == Some(Nested(k - 1))
  {
    hide Decode, Nested, Layers;
    if k == 1 {
      DecodeAsciiEscape(0x34, 0x31, []);
      NestedOnce();
    } else {
      var plain := Layers(k - 2) + [0x34, 0x31];
      LayersHaveNoPercent(k - 2);
      DecodeAsciiEscape(0x32, 0x35, plain);
      NestedShape(k, plain);
    }
  }

  lemma NestedOnce()
    ensures Nested(1) == [SLASH, PERCENT, 0x34, 0x31] + [] && Nested(0) == [SLASH, 0x41] + []
  {
    assert Layers(0) == [];
  }

  lemma NestedShape(k: nat, plain: JsString)
    requires k > 1 && plain == Layers(k - 2) + [0x34, 0x31]
    ensures Nested(k) == [SLASH, PERCENT, 0x32, 0x35] + plain
    ensures Nested(k - 1) == [SLASH, PERCENT] + plain
  {
    assert Layers(k - 1) == [0x32, 0x35] + Layers(k - 2);
  }

  lemma {:induction false} NestedStages(k: nat, n: nat)
    requires n <= k
    ensures Iterate(Nested(k), n) == Some(Nested(k - n))
  {
    if n > 0 {
      NestedLosesOneLayer(k);
      NestedStages(k - 1, n - 1);
    }
  }

  /** Five layers of escaping are undone, six are too many. */
  lemma FivePassesIsTheLimit(k: nat)
    ensures Orbit(Nested(k), MAX_DECODE_PASSES).Some? <==> k <= 5
  {
    OrbitHasEveryStage(Nested(k), MAX_DECODE_PASSES);
    if k <= MAX_DECODE_PASSES {
      NestedStages(k, k);
      assert IsPlainAfter(Nested(k), k);
    } else {
      forall n: nat | n <= MAX_DECODE_PASSES ensures !IsPlainAfter(Nested(k), n) {
        NestedStages(k, n);
        assert Nested(k - n)[1] == PERCENT;
      }
    }
  }

  // ----- Claiming the redirect to the login page -----

  /** The last redirect handed out, and when, in milliseconds. */
  datatype Claim = Claim(path: JsString, claimedAt: int)

  predicate IsRecent(last: Option<Claim>, path: JsString, now: int) {
    && last.Some? && last.value.path == path
    && last.value.claimedAt <= now < last.value.claimedAt + DEDUPLICATION_MS
  }

  /** `/auth/login?next=`. */
  const LOGIN_PREFIX: JsString := [
    0x2F, 0x61, 0x75, 0x74, 0x68, 0x2F, 0x6C, 0x6F, 0x67, 0x69, 0x6E, 0x3F, 0x6E, 0x65, 0x78, 0x74, 0x3D]

  class LoginRedirects {
    const parser: UrlParser
    const encode: JsString -> JsString
    var last: Option<Claim>

    function LoginPath(returnPath: Option<JsString>): JsString {
      LOGIN_PREFIX + encode(Resolved(parser, returnPath))
    }

    method ClaimLoginRedirectPath(returnPath: Option<JsString>, now: int) returns (claimed: Option<JsString>)
      modifies this
      ensures claimed == if IsRecent(old(last), LoginPath(returnPath), now) then None else Some(LoginPath(returnPath))
      ensures last == After(old(last), LoginPath(returnPath), now)
    {
      var resolved := ResolveSafeAuthReturnPath(parser, returnPath);
      var path := LOGIN_PREFIX + encode(resolved);
      if last.Some? && last.value.path == path && now >= last.value.claimedAt
        && now - last.value.claimedAt < DEDUPLICATION_MS
      {
        return None;
      }
      last := Some(Claim(path, now));
      claimed := Some(path);
    }
  }

  function After(last: Option<Claim>, path: JsString, now: int): Option<Claim> {
    if IsRecent(last, path, now) then last else Some(Claim(path, now))
  }

  /** The claims granted in a run of requests. */
  function Granted(last: Option<Claim>, requests: seq<Claim>): seq<Claim>
    decreases requests
  {
    if requests == [] then []
    else
      var r := requests[0];
      (if IsRecent(last, r.path, r.claimedAt) then [] else [r])
      + Granted(After(last, r.path, r.claimedAt), requests[1..])
  }

  /** The same path, not before the earlier claim and less than two seconds after it. */
  predicate IsRepeat(earlier: Claim, later: Claim) {
    earlier.path == later.path && 0 <= later.claimedAt - earlier.claimedAt < 2000
  }

  /** Two grants in a row are never for the same path within two seconds. */
  lemma {:induction false} GrantsAreApart(last: Option<Claim>, requests: seq<Claim>)
    ensures var granted := Granted(last, requests);
      && (granted != [] && last.Some? ==> !IsRepeat(last.value, granted[0]))
      && forall i :: 0 < i < |granted| ==> !IsRepeat(granted[i - 1], granted[i])
    decreases requests
  {
    if requests != [] {
      var r := requests[0];
      var rest := Granted(After(last, r.path, r.claimedAt), requests[1..]);
      GrantsAreApart(After(last, r.path, r.claimedAt), requests[1..]);
      if !IsRecent(last, r.path, r.claimedAt) {
        assert Granted(last, requests) == [r] + rest;
      }
    }
  }

  /** The redirect that counts as the last one: the latest grant, or the one before all of them. */
  function Latest(last: Option<Claim>, granted: seq<Claim>): Option<Claim> {
    if granted == [] then last else Some(granted[|granted| - 1])
  }

  lemma LatestBehind(last: Option<Claim>, q: Claim, granted: seq<Claim>)
    ensures var first := if IsRecent(last, q.path, q.claimedAt) then [] else [q];
      Latest(last, first + granted) == Latest(After(last, q.path, q.claimedAt), granted)
  {
  }

  lemma {:induction false} GrantedOneMore(last: Option<Claim>, requests: seq<Claim>, r: Claim)
    ensures var granted := Granted(last, requests);
      Granted(last, requests + [r]) ==
        granted + if IsRecent(Latest(last, granted), r.path, r.claimedAt) then [] else [r]
    decreases requests
  {
    if requests == [] {
      assert [r][1..] == [];
    } else {
      var q := requests[0];
      var next := After(last, q.path, q.claimedAt);
      var first := if IsRecent(last, q.path, q.claimedAt) then [] else [q];
      hide IsRecent;
      GrantedOneMore(next, requests[1..], r);
      assert (requests + [r])[1..] == requests[1..] + [r] && (requests + [r])[0] == q;
      LatestBehind(last, q, Granted(next, requests[1..]));
      var more := if IsRecent(Latest(last, Granted(last, requests)), r.path, r.claimedAt) then [] else [r];
      assert first + (Granted(next, requests[1..]) + more) == first + Granted(next, requests[1..]) + more;
    }
  }

  /** In every run the next request is refused exactly when it repeats the latest grant, and granted otherwise. */
  lemma RefusalsAreRepeats(last: Option<Claim>, requests: seq<Claim>, i: nat)
    requires i < |requests|
    ensures var granted := Granted(last, requests[..i]);
      var latest := Latest(last, granted);
      Granted(last, requests[..i + 1]) ==
        if latest.Some? && IsRepeat(latest.value, requests[i]) then granted else granted + [requests[i]]
  {
    GrantedOneMore(last, requests[..i], requests[i]);
    assert requests[..i + 1] == requests[..i] + [requests[i]];
    assert Granted(last, requests[..i]) + [] == Granted(last, requests[..i]);
  }
}
