/** Removing webhook tokens from query strings before they reach the application and its logs. */
module QueryRedaction {
  import opened Wrappers
  import opened Text

  type Byte = b: int | 0 <= b < 256

  const AMPERSAND: Byte := 38
  const EQUALS: Byte := 61
  const PLUS: Byte := 43
  const SPACE: Byte := 32
  const PERCENT: Byte := 37

  /** The bytes of `token`. */
  const TOKEN: seq<Byte> := [116, 111, 107, 101, 110]

  // ----- Percent-decoding -----

  predicate IsHex(b: Byte) { 48 <= b <= 57 || 65 <= b <= 70 || 97 <= b <= 102 }

  function HexValue(b: Byte): (v: int)
    requires IsHex(b)
    ensures 0 <= v < 16
  {
    if b <= 57 then b - 48 else if b <= 70 then b - 55 else b - 87
  }

  function EscapedByte(high: Byte, low: Byte): Byte
    requires IsHex(high) && IsHex(low)
  {
    16 * HexValue(high) + HexValue(low)
  }

  predicate StartsWithEscape(s: seq<Byte>) {
    |s| >= 3 && s[0] == PERCENT && IsHex(s[1]) && IsHex(s[2])
  }

  /** Escapes become bytes; a percent sign without two hexadecimal digits stays. */
  function Unquote(s: seq<Byte>): seq<Byte> {
    if s == [] then []
    else if StartsWithEscape(s) then [EscapedByte(s[1], s[2])] + Unquote(s[3..])
    else [s[0]] + Unquote(s[1..])
  }

  function PlusToSpace(s: seq<Byte>): (r: seq<Byte>)
    ensures |r| == |s|
    ensures forall i :: 0 <= i < |s| ==> r[i] == if s[i] == PLUS then SPACE else s[i]
  {
    if s == [] then [] else [if s[0] == PLUS then SPACE else s[0]] + PlusToSpace(s[1..])
  }

  // ----- Redaction -----

  /** The part before the first `=`. */
  function KeyOf(field: seq<Byte>): seq<Byte> { Split(field, EQUALS)[0] }

  predicate IsTokenQueryField(field: seq<Byte>) { Unquote(PlusToSpace(KeyOf(field))) == TOKEN }

  function Fields(query: seq<Byte>): seq<seq<Byte>> { Split(query, AMPERSAND) }

  function Others(fields: seq<seq<Byte>>): (r: seq<seq<Byte>>)
    ensures forall f :: f in r <==> f in fields && !IsTokenQueryField(f)
  {
    if fields == [] then []
    else
      var init, last := fields[..|fields| - 1], fields[|fields| - 1];
      assert fields == init + [last];
      Others(init) + if IsTokenQueryField(last) then [] else [last]
  }

  predicate HoldsToken(fields: seq<seq<Byte>>) { exists f :: f in fields && IsTokenQueryField(f) }

  predicate WebhookQueryTokenPresent(query: seq<Byte>) { HoldsToken(Fields(query)) }

  function Redacted(query: seq<Byte>): seq<Byte> {
    if WebhookQueryTokenPresent(query) then Join(Others(Fields(query)), AMPERSAND) else query
  }

  method RedactWebhookTokenQuery(query: seq<Byte>) returns (redacted: seq<Byte>, present: bool)
    ensures redacted == Redacted(query)
    ensures present <==> WebhookQueryTokenPresent(query)
  {
    hide IsTokenQueryField, Others;
    OthersOfNone();
    var fields := Split(query, AMPERSAND);
    var retained: seq<seq<Byte>> := [];
    present := false;
    for i := 0 to |fields|
      invariant retained == Others(fields[..i])
      invariant present <==> HoldsToken(fields[..i])
    {
      assert fields[..i + 1] == fields[..i] + [fields[i]];
      OthersOfOneMore(fields[..i], fields[i]);
      if IsTokenQueryField(fields[i]) {
        present := true;
      } else {
        retained := retained + [fields[i]];
      }
    }
    assert fields[..|fields|] == fields;
    if !present {
      return query, false;
    }
    redacted := Join(retained, AMPERSAND);
  }

  // ----- What redaction keeps and removes -----

  /** The fields left are the other fields, unchanged and in order; one empty field when there were none. */
  lemma RedactedFields(query: seq<Byte>)
    ensures Fields(Redacted(query)) == if Others(Fields(query)) == [] then [[]] else Others(Fields(query))
  {
    var fields := Fields(query);
    var others := Others(fields);
    if !HoldsToken(fields) {
      OthersOfTokenFree(fields);
    } else if others != [] {
      forall i | 0 <= i < |others| ensures AMPERSAND !in others[i] {
        assert others[i] in fields;
      }
      SplitJoin(others, AMPERSAND);
    }
  }

  /** The retained fields stand at increasing positions, and every other field is retained. */
  lemma {:induction false} OthersStayInOrder(fields: seq<seq<Byte>>) returns (at: seq<nat>)
    ensures |at| == |Others(fields)|
    ensures forall k :: 0 <= k < |at| ==> at[k] < |fields| && Others(fields)[k] == fields[at[k]]
    ensures forall j, k :: 0 <= j < k < |at| ==> at[j] < at[k]
    ensures forall i :: 0 <= i < |fields| && !IsTokenQueryField(fields[i]) ==> i in at
  {
    hide IsTokenQueryField, Others;
    if fields == [] {
      at := [];
      OthersOfNone();
    } else {
      var n := |fields| - 1;
      var init, last := fields[..n], fields[n];
      at := OthersStayInOrder(init);
      OthersOfOneMore(init, last);
      assert fields == init + [last];
      if !IsTokenQueryField(last) {
        assert forall i :: i in at ==> i in at + [n];
        at := at + [n];
        assert at[|at| - 1] == n;
      }
    }
  }

  lemma OthersOfNone()
    ensures Others([]) == []
  {
  }

  lemma OthersOfOneMore(init: seq<seq<Byte>>, last: seq<Byte>)
    ensures Others(init + [last]) == Others(init) + if IsTokenQueryField(last) then [] else [last]
  {
    hide IsTokenQueryField;
    assert (init + [last])[..|init|] == init;
  }

  lemma {:induction false} OthersOfTokenFree(fields: seq<seq<Byte>>)
    requires !HoldsToken(fields)
    ensures Others(fields) == fields
  {
    if fields != [] {
      var init, last := fields[..|fields| - 1], fields[|fields| - 1];
      assert fields == init + [last] && last in fields;
      OthersOfTokenFree(init);
    }
  }

  lemma EmptyFieldIsNoToken()
    ensures !IsTokenQueryField([])
  {
    assert KeyOf([]) == [];
    assert Unquote(PlusToSpace([])) == [];
  }

  lemma NoTokenIsLeft(query: seq<Byte>)
    ensures !WebhookQueryTokenPresent(Redacted(query))
  {
    RedactedFields(query);
    EmptyFieldIsNoToken();
  }

  lemma RedactingTwice(query: seq<Byte>)
    ensures Redacted(Redacted(query)) == Redacted(query)
  {
    NoTokenIsLeft(query);
  }

  /** Only queries without a token come back unchanged. */
  lemma UnchangedIffNoToken(query: seq<Byte>)
    ensures Redacted(query) == query <==> !WebhookQueryTokenPresent(query)
  {
    NoTokenIsLeft(query);
  }

  // ----- Which fields are token fields -----

  /** How one byte of a key may be written. */
  datatype Spelling = Literal | Escape(high: Byte, low: Byte)

  const UPPER := "0123456789ABCDEF"
  const LOWER := "0123456789abcdef"

  predicate IsDigit(b: Byte, v: int) { 0 <= v < 16 && (b == UPPER[v] as int || b == LOWER[v] as int) }

  lemma DigitsIff(high: Byte, low: Byte, b: Byte)
    ensures IsDigit(high, b / 16) && IsDigit(low, b % 16) <==> IsHex(high) && IsHex(low) && EscapedByte(high, low) == b
  {
    DigitIff(high, b / 16);
    DigitIff(low, b % 16);
  }

  lemma DigitIff(b: Byte, v: int)
    ensures IsDigit(b, v) <==> IsHex(b) && HexValue(b) == v
  {
  }

  /** Each byte is written as it is, or as an escape with its two hexadecimal digits in either case. */
  predicate Spells(how: seq<Spelling>, plain: seq<Byte>) {
    && |how| == |plain|
    && forall i :: 0 <= i < |how| && how[i].Escape? ==>
         IsDigit(how[i].high, plain[i] / 16) && IsDigit(how[i].low, plain[i] % 16)
  }

  function Written(how: seq<Spelling>, plain: seq<Byte>): seq<Byte>
    requires |how| == |plain|
  {
    if plain == [] then []
    else (if how[0].Literal? then [plain[0]] else [PERCENT, how[0].high, how[0].low]) + Written(how[1..], plain[1..])
  }

  /** Decoding undoes every way of writing a text without percent signs. */
  lemma {:induction false} UnquoteWritten(how: seq<Spelling>, plain: seq<Byte>)
    requires Spells(how, plain) && PERCENT !in plain
    ensures Unquote(Written(how, plain)) == plain
  {
    if plain != [] {
      var rest := Written(how[1..], plain[1..]);
      assert Spells(how[1..], plain[1..]) by {
        assert forall i :: 0 <= i < |how[1..]| ==> how[1..][i] == how[i + 1];
      }
      UnquoteWritten(how[1..], plain[1..]);
      var written := Written(how, plain);
      if how[0].Literal? {
        assert written[0] == plain[0] && written[1..] == rest;
      } else {
        DigitsIff(how[0].high, how[0].low, plain[0]);
        assert written == [PERCENT, how[0].high, how[0].low] + rest;
        assert written[3..] == rest;
      }
      assert [plain[0]] + plain[1..] == plain;
    }
  }

  lemma SpellsOneMore(first: Spelling, more: seq<Spelling>, b: Byte, plain: seq<Byte>)
    requires Spells(more, plain)
    requires first.Escape? ==> IsDigit(first.high, b / 16) && IsDigit(first.low, b % 16)
    ensures Spells([first] + more, [b] + plain)
    ensures Written([first] + more, [b] + plain) ==
      (if first.Literal? then [b] else [PERCENT, first.high, first.low]) + Written(more, plain)
  {
    var how, all := [first] + more, [b] + plain;
    assert how[1..] == more && all[1..] == plain;
    forall i | 0 <= i < |how| && how[i].Escape?
      ensures IsDigit(how[i].high, all[i] / 16) && IsDigit(how[i].low, all[i] % 16)
    {
      if i > 0 { assert how[i] == more[i - 1] && all[i] == plain[i - 1]; }
    }
  }

  /** Whatever decodes to a text without percent signs is a way of writing it. */
  lemma {:induction false} WaysOfWriting(raw: seq<Byte>) returns (how: seq<Spelling>)
    requires PERCENT !in Unquote(raw)
    ensures Spells(how, Unquote(raw)) && Written(how, Unquote(raw)) == raw
  {
    if raw == [] {
      how := [];
    } else {
      var first := if StartsWithEscape(raw) then Escape(raw[1], raw[2]) else Literal;
      var rest := if StartsWithEscape(raw) then raw[3..] else raw[1..];
      var b := if StartsWithEscape(raw) then EscapedByte(raw[1], raw[2]) else raw[0];
      assert Unquote(raw) == [b] + Unquote(rest);
      if StartsWithEscape(raw) { DigitsIff(raw[1], raw[2], b); }
      hide Unquote, Spells, Written, IsDigit;
      var more := WaysOfWriting(rest);
      how := [first] + more;
      SpellsOneMore(first, more, b, Unquote(rest));
      if StartsWithEscape(raw) {
        assert raw == [PERCENT, raw[1], raw[2]] + rest;
      } else {
        assert raw == [raw[0]] + rest;
      }
    }
  }

  lemma {:induction false} WrittenBytes(how: seq<Spelling>, plain: seq<Byte>)
    requires Spells(how, plain)
    ensures forall b :: b in Written(how, plain) ==> b in plain || b == PERCENT || IsHex(b)
  {
    if plain != [] {
      assert Spells(how[1..], plain[1..]) by {
        assert forall i :: 0 <= i < |how[1..]| ==> how[1..][i] == how[i + 1];
      }
      WrittenBytes(how[1..], plain[1..]);
      if how[0].Escape? { DigitsIff(how[0].high, how[0].low, plain[0]); }
    }
  }

  lemma SpellingsHaveNoPlus(how: seq<Spelling>, key: seq<Byte>)
    requires Spells(how, TOKEN)
    ensures Written(how, TOKEN) == key || Written(how, TOKEN) == PlusToSpace(key) ==> key == PlusToSpace(key)
  {
    WrittenBytes(how, TOKEN);
    var written := Written(how, TOKEN);
    assert PLUS !in written && SPACE !in written;
    if written == key || written == PlusToSpace(key) {
      forall i | 0 <= i < |key| ensures key[i] == PlusToSpace(key)[i] {
        assert written[i] in written;
      }
    }
  }

  /** A field is a token field exactly when its key is some way of writing `token`, each letter plain or escaped. */
  lemma TokenFieldsAreTheSpellings(field: seq<Byte>)
    ensures IsTokenQueryField(field) <==> exists how :: Spells(how, TOKEN) && KeyOf(field) == Written(how, TOKEN)
  {
    var key := KeyOf(field);
    if IsTokenQueryField(field) {
      var how := WaysOfWriting(PlusToSpace(key));
      SpellingsHaveNoPlus(how, key);
    }
    forall how | Spells(how, TOKEN) && key == Written(how, TOKEN) ensures IsTokenQueryField(field) {
      SpellingsHaveNoPlus(how, key);
      UnquoteWritten(how, TOKEN);
    }
  }

  // ----- The middleware -----

  const WEBHOOK_PATH_PREFIX := "/api/v1/hooks"
  const CONNECTOR_TEST_PATH := "/api/v1/connectors/test"
  const TOKEN_PRESENT_KEY := "webhook_query_token_present"
  const CONNECTOR_QUERY_KEY := "connector_test_query_present"

  predicate IsWebhookPath(path: string) {
    path == WEBHOOK_PATH_PREFIX || StartsWith(path, WEBHOOK_PATH_PREFIX + "/")
  }

  predicate IsConnectorTestPath(path: string) {
    path == CONNECTOR_TEST_PATH || path == CONNECTOR_TEST_PATH + "/"
  }

  /** Webhooks are the prefix itself and everything below it; the connector test may end in a slash. */
  lemma PathsIff(path: string)
    ensures IsWebhookPath(path) <==> path == "/api/v1/hooks" || exists rest :: path == "/api/v1/hooks/" + rest
    ensures IsConnectorTestPath(path) <==> path in {"/api/v1/connectors/test", "/api/v1/connectors/test/"}
  {
    PrefixIff(path, "/api/v1/hooks/");
    assert WEBHOOK_PATH_PREFIX + "/" == "/api/v1/hooks/" && CONNECTOR_TEST_PATH + "/" == "/api/v1/connectors/test/";
  }

  lemma PathsAreApart(path: string)
    ensures !(IsWebhookPath(path) && IsConnectorTestPath(path))
  {
    assert IsWebhookPath(path) ==> path[8] == 'h';
    assert IsConnectorTestPath(path) ==> path[8] == 'c';
  }

  /** A request; absent entries read as empty. */
  class Scope {
    const kind: string
    const path: string
    var queryString: Option<seq<Byte>>
    var state: Option<map<string, bool>>

    function Query(): seq<Byte>
      reads this
    {
      if queryString.Some? then queryString.value else []
    }

    function State(): map<string, bool>
      reads this
    {
      if state.Some? then state.value else map[]
    }

    method SetState(key: string)
      modifies this`state
      ensures state == Some(old(State())[key := true])
    {
      if state.None? {
        state := Some(map[]);
      }
      state := Some(state.value[key := true]);
    }

    /** What the application downstream, and the access log, get to see. */
    method Sanitize()
      modifies this
      ensures kind == "http" && IsWebhookPath(path) ==> Query() == Redacted(old(Query()))
      ensures kind == "http" && IsWebhookPath(path) && old(queryString).Some? ==>
        queryString == Some(Redacted(old(queryString.value)))
      ensures kind == "http" && IsConnectorTestPath(path) ==> Query() == [] && queryString in {None, Some([])}
      ensures kind != "http" || (!IsWebhookPath(path) && !IsConnectorTestPath(path)) ==> unchanged(this)
      ensures old(Query()) == Query() ==> unchanged(this)
      ensures old(Query()) != Query() ==>
        state == Some(old(State())[(if IsWebhookPath(path) then TOKEN_PRESENT_KEY else CONNECTOR_QUERY_KEY) := true])
    {
      if kind != "http" {
        return;
      }
      PathsAreApart(path);
      UnchangedIffNoToken(Query());
      if IsWebhookPath(path) {
        var sanitized, present := RedactWebhookTokenQuery(Query());
        if present {
          queryString := Some(sanitized);
          SetState(TOKEN_PRESENT_KEY);
        }
      } else if IsConnectorTestPath(path) && Query() != [] {
        queryString := Some([]);
        SetState(CONNECTOR_QUERY_KEY);
      }
    }
  }
}
