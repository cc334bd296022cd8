/** `normalizePrivateKey` of src/config/configuration.ts: a PEM key survives the ways
    dashboards mangle it. The JSON and base64 decoders are parameters. */
module KeyText {
  import opened Domain

  const BEGIN := "BEGIN"
  const DOUBLE_QUOTE := '\"'
  const SINGLE_QUOTE := '\''

  /** The characters `trim` removes: white space and line terminators. */
  predicate IsSpace(c: char) {
    var n := c as int;
    || 0x09 <= n <= 0x0D || n == 0x20 || n == 0xA0 || n == 0x1680 || 0x2000 <= n <= 0x200A
    || n == 0x2028 || n == 0x2029 || n == 0x202F || n == 0x205F || n == 0x3000 || n == 0xFEFF
  }

  function TrimStart(s: string): string {
    if s != [] && IsSpace(s[0]) then TrimStart(s[1..]) else s
  }

  function TrimEnd(s: string): string {
    if s != [] && IsSpace(s[|s| - 1]) then TrimEnd(s[..|s| - 1]) else s
  }

  function Trim(s: string): string {
    TrimEnd(TrimStart(s))
  }

  predicate QuotedBy(s: string, quote: char) {
    s != [] && s[0] == quote && s[|s| - 1] == quote
  }

  /** `slice(1, -1)`, which is empty on one character. */
  function Unwrap(s: string): string {
    if |s| < 2 then [] else s[1..|s| - 1]
  }

  function StripQuotes(s: string): string {
    if QuotedBy(s, DOUBLE_QUOTE) || QuotedBy(s, SINGLE_QUOTE) then Trim(Unwrap(s)) else s
  }

  /** A global replacement of backslash followed by `c`, scanning from the left. */
  function ReplaceEscape(s: string, c: char, replacement: string): string {
    if |s| >= 2 && s[0] == '\\' && s[1] == c then replacement + ReplaceEscape(s[2..], c, replacement)
    else if s == [] then []
    else [s[0]] + ReplaceEscape(s[1..], c, replacement)
  }

  function DropReturns(s: string): string {
    if s == [] then []
    else (if s[0] == '\r' then [] else [s[0]]) + DropReturns(s[1..])
  }

  predicate Contains(s: string, word: string) {
    exists i :: 0 <= i <= |s| && word <= s[i..]
  }

  function Unescape(s: string): string {
    DropReturns(ReplaceEscape(ReplaceEscape(s, 'r', []), 'n', "\n"))
  }

  /** `parseKey` gives the private_key member of a JSON text, if it is one and has it;
      `decode64` is the base64 decoder. An absent or empty variable gives no key. */
  function Normalize(key: Option<string>, parseKey: string -> Option<string>, decode64: string -> string): Option<string> {
    if key.None? || key.value == [] then None
    else
      var stripped := StripQuotes(Trim(key.value));
      var picked :=
        if stripped != [] && stripped[0] == '{' && parseKey(stripped).Some? then parseKey(stripped).value else stripped;
      var k := Unescape(picked);
      if !Contains(k, BEGIN) && Contains(decode64(k), BEGIN)
      then Some(DropReturns(ReplaceEscape(decode64(k), 'n', "\n")))
      else Some(k)
  }

  /** `normalizePrivateKey`, rewriting its local `k` step by step. */
  method NormalizePrivateKey(key: Option<string>, parseKey: string -> Option<string>, decode64: string -> string)
    returns (r: Option<string>)
    ensures r == Normalize(key, parseKey, decode64)
  {
    if key.None? || key.value == [] {
      return None;
    }
    var k := Trim(key.value);
    if QuotedBy(k, DOUBLE_QUOTE) || QuotedBy(k, SINGLE_QUOTE) {
      k := Trim(Unwrap(k));
    }
    if k != [] && k[0] == '{' {
      var parsed := parseKey(k);
      if parsed.Some? {
        k := parsed.value;
      }
    }
    k := DropReturns(ReplaceEscape(ReplaceEscape(k, 'r', []), 'n', "\n"));
    if !Contains(k, BEGIN) {
      var decoded := decode64(k);
      if Contains(decoded, BEGIN) {
        k := DropReturns(ReplaceEscape(decoded, 'n', "\n"));
      }
    }
    return Some(k);
  }

  // ---- Round trips ----

  /** What a dashboard does to the line breaks of a pasted value. */
  function Escape(s: string): string {
    if s == [] then []
    else (if s[0] == '\n' then "\\n" else if s[0] == '\r' then "\\r" else [s[0]]) + Escape(s[1..])
  }

  predicate NoBackslash(s: string) {
    forall i :: 0 <= i < |s| ==> s[i] != '\\'
  }

  /** A key text: no backslash, no outer white space or quotes, no leading brace, and a BEGIN. */
  predicate KeyLike(t: string) {
    && Contains(t, BEGIN)
    && NoBackslash(t)
    && t != [] && !IsSpace(t[0]) && !IsSpace(t[|t| - 1])
    && !QuotedBy(t, DOUBLE_QUOTE) && !QuotedBy(t, SINGLE_QUOTE)
    && t[0] != '{'
  }

  lemma TrimKeeps(s: string)
    requires s == [] || (!IsSpace(s[0]) && !IsSpace(s[|s| - 1]))
    ensures Trim(s) == s
  {
  }

  lemma {:induction false} NothingToReplace(s: string, c: char, replacement: string)
    requires NoBackslash(s)
    ensures ReplaceEscape(s, c, replacement) == s
  {
    if s == [] {
    } else {
      NothingToReplace(s[1..], c, replacement);
    }
  }

  /** Half way: carriage returns gone, line breaks still escaped. */
  function EscapeBreaks(s: string): string {
    if s == [] then []
    else
      (if s[0] == '\n' then "\\n" else if s[0] == '\r' then [] else [s[0]]) + EscapeBreaks(s[1..])
  }

  lemma {:induction false} FirstPass(t: string)
    requires NoBackslash(t)
    ensures ReplaceEscape(Escape(t), 'r', []) == EscapeBreaks(t)
  {
    if t == [] {
    } else {
      var rest := Escape(t[1..]);
      FirstPass(t[1..]);
      if t[0] == '\n' {
        assert Escape(t) == ['\\', 'n'] + rest;
        assert Escape(t)[1..] == ['n'] + rest && (['n'] + rest)[1..] == rest;
        assert ReplaceEscape(Escape(t), 'r', []) == ['\\'] + ReplaceEscape(['n'] + rest, 'r', []);
        assert ReplaceEscape(['n'] + rest, 'r', []) == ['n'] + ReplaceEscape(rest, 'r', []);
      } else if t[0] == '\r' {
        assert Escape(t) == ['\\', 'r'] + rest;
        assert Escape(t)[2..] == rest;
      } else {
        assert Escape(t) == [t[0]] + rest;
        assert Escape(t)[1..] == rest;
      }
    }
  }

  lemma {:induction false} SecondPass(t: string)
    requires NoBackslash(t)
    ensures ReplaceEscape(EscapeBreaks(t), 'n', "\n") == DropReturns(t)
  {
    if t == [] {
    } else {
      var rest := EscapeBreaks(t[1..]);
      SecondPass(t[1..]);
      if t[0] == '\n' {
        assert EscapeBreaks(t) == ['\\', 'n'] + rest;
        assert EscapeBreaks(t)[2..] == rest;
      } else if t[0] == '\r' {
        assert EscapeBreaks(t) == rest;
      } else {
        assert EscapeBreaks(t) == [t[0]] + rest;
        assert EscapeBreaks(t)[1..] == rest;
      }
    }
  }

  lemma {:induction false} DropTwice(t: string)
    ensures DropReturns(DropReturns(t)) == DropReturns(t)
  {
    if t == [] {
    } else {
      DropTwice(t[1..]);
      if t[0] != '\r' {
        assert DropReturns(t)[1..] == DropReturns(t[1..]);
      } else {
        assert DropReturns(t) == DropReturns(t[1..]);
      }
    }
  }

  lemma {:induction false} DropAppend(a: string, b: string)
    ensures DropReturns(a + b) == DropReturns(a) + DropReturns(b)
  {
    if a == [] {
      assert a + b == b;
    } else {
      assert (a + b)[1..] == a[1..] + b;
      DropAppend(a[1..], b);
    }
  }

  lemma DropKeepsBegin(t: string)
    requires Contains(t, BEGIN)
    ensures Contains(DropReturns(t), BEGIN)
  {
    var i :| 0 <= i <= |t| && BEGIN <= t[i..];
    var tail := t[i..][|BEGIN|..];
    assert t == t[..i] + (BEGIN + tail);
    DropAppend(t[..i], BEGIN + tail);
    DropAppend(BEGIN, tail);
    assert DropReturns(BEGIN) == BEGIN by {
      NoReturns(BEGIN);
    }
    var d := DropReturns(t);
    assert d == DropReturns(t[..i]) + (BEGIN + DropReturns(tail));
    assert BEGIN <= d[|DropReturns(t[..i])|..];
  }

  lemma {:induction false} NoReturns(s: string)
    requires forall i :: 0 <= i < |s| ==> s[i] != '\r'
    ensures DropReturns(s) == s
  {
    if s == [] {
    } else {
      NoReturns(s[1..]);
    }
  }

  lemma {:induction false} EscapeEnds(t: string)
    requires t != [] && !IsSpace(t[|t| - 1])
    ensures Escape(t) != [] && Escape(t)[|Escape(t)| - 1] == t[|t| - 1]
  {
    if |t| == 1 {
    } else {
      EscapeEnds(t[1..]);
    }
  }

  /** The raw text comes out with its carriage returns dropped and nothing else changed. */
  lemma RawRoundTrip(t: string, parseKey: string -> Option<string>, decode64: string -> string)
    requires KeyLike(t)
    ensures Normalize(Some(t), parseKey, decode64) == Some(DropReturns(t))
  {
    TrimKeeps(t);
    NothingToReplace(t, 'r', []);
    NothingToReplace(t, 'n', "\n");
    DropKeepsBegin(t);
  }

  lemma UnescapeEscape(t: string)
    requires NoBackslash(t)
    ensures Unescape(Escape(t)) == DropReturns(t)
  {
    FirstPass(t);
    SecondPass(t);
    DropTwice(t);
  }

  lemma StripWrapped(t: string, quote: char)
    requires t != [] && !IsSpace(t[0]) && !IsSpace(t[|t| - 1])
    requires quote == DOUBLE_QUOTE || quote == SINGLE_QUOTE
    ensures StripQuotes(Trim([quote] + Escape(t) + [quote])) == Escape(t)
    ensures Escape(t) != [] && Escape(t)[0] == t[0]
  {
    var wrapped := [quote] + Escape(t) + [quote];
    EscapeEnds(t);
    TrimKeeps(wrapped);
    assert Unwrap(wrapped) == Escape(t);
    TrimKeeps(Escape(t));
  }

  /** So does the text wrapped in either quote with its line breaks escaped. */
  lemma QuotedRoundTrip(t: string, quote: char, parseKey: string -> Option<string>, decode64: string -> string)
    requires KeyLike(t) && (quote == DOUBLE_QUOTE || quote == SINGLE_QUOTE)
    ensures Normalize(Some([quote] + Escape(t) + [quote]), parseKey, decode64) == Some(DropReturns(t))
  {
    StripWrapped(t, quote);
    UnescapeEscape(t);
    DropKeepsBegin(t);
  }

  lemma {:induction false} DropEnds(t: string)
    requires t != [] && t[|t| - 1] != '\r'
    ensures DropReturns(t) != [] && DropReturns(t)[|DropReturns(t)| - 1] == t[|t| - 1]
    ensures t[0] != '\r' ==> DropReturns(t)[0] == t[0]
  {
    if |t| == 1 {
    } else {
      DropEnds(t[1..]);
    }
  }

  lemma {:induction false} DropNoBackslash(t: string)
    requires NoBackslash(t)
    ensures NoBackslash(DropReturns(t))
  {
    if t == [] {
    } else {
      DropNoBackslash(t[1..]);
    }
  }

  /** Normalising an already normalised key changes nothing. */
  lemma NormalizeTwice(t: string, parseKey: string -> Option<string>, decode64: string -> string)
    requires KeyLike(t)
    ensures Normalize(Normalize(Some(t), parseKey, decode64), parseKey, decode64)
         == Normalize(Some(t), parseKey, decode64)
  {
    RawRoundTrip(t, parseKey, decode64);
    DropEnds(t);
    DropNoBackslash(t);
    DropKeepsBegin(t);
    DropTwice(t);
    assert KeyLike(DropReturns(t));
    RawRoundTrip(DropReturns(t), parseKey, decode64);
  }

  // ---- Blanks, JSON and base64 ----

  predicate Blank(s: string) {
    forall i :: 0 <= i < |s| ==> s[i] == ' ' || s[i] == '\t' || s[i] == '\n' || s[i] == '\r'
  }

  lemma {:induction false} TrimStartPadded(pad: string, s: string)
    requires Blank(pad)
    ensures TrimStart(pad + s) == TrimStart(s)
  {
    if pad == [] {
      assert pad + s == s;
    } else {
      assert (pad + s)[1..] == pad[1..] + s;
      TrimStartPadded(pad[1..], s);
    }
  }

  lemma {:induction false} TrimEndPadded(s: string, pad: string)
    requires Blank(pad)
    ensures TrimEnd(s + pad) == TrimEnd(s)
  {
    if pad == [] {
      assert s + pad == s;
    } else {
      assert (s + pad)[..|s + pad| - 1] == s + pad[..|pad| - 1];
      TrimEndPadded(s, pad[..|pad| - 1]);
    }
  }

  lemma TrimPadded(before: string, s: string, after: string)
    requires Blank(before) && Blank(after) && s != [] && !IsSpace(s[0]) && !IsSpace(s[|s| - 1])
    ensures Trim(before + s + after) == s
  {
    assert before + s + after == before + (s + after);
    TrimStartPadded(before, s + after);
    assert TrimStart(s + after) == s + after;
    TrimEndPadded(s, after);
    TrimKeeps(s);
  }

  /** Blanks around the raw text, around the quotes and inside them make no difference. */
  lemma PaddedRoundTrip(t: string, quote: char, a: string, b: string, c: string, d: string,
                        parseKey: string -> Option<string>, decode64: string -> string)
    requires KeyLike(t) && (quote == DOUBLE_QUOTE || quote == SINGLE_QUOTE)
    requires Blank(a) && Blank(b) && Blank(c) && Blank(d)
    ensures Normalize(Some(a + t + b), parseKey, decode64) == Some(DropReturns(t))
    ensures Normalize(Some(a + ([quote] + (c + Escape(t) + d) + [quote]) + b), parseKey, decode64) == Some(DropReturns(t))
  {
    PaddedRaw(t, a, b, parseKey, decode64);
    PaddedQuoted(t, quote, a, b, c, d, parseKey, decode64);
  }

  lemma PaddedRaw(t: string, a: string, b: string, parseKey: string -> Option<string>, decode64: string -> string)
    requires KeyLike(t) && Blank(a) && Blank(b)
    ensures Normalize(Some(a + t + b), parseKey, decode64) == Some(DropReturns(t))
  {
    TrimPadded(a, t, b);
    RawRoundTrip(t, parseKey, decode64);
    TrimKeeps(t);
  }

  lemma StripPadded(t: string, quote: char, a: string, b: string, c: string, d: string)
    requires KeyLike(t) && (quote == DOUBLE_QUOTE || quote == SINGLE_QUOTE)
    requires Blank(a) && Blank(b) && Blank(c) && Blank(d)
    ensures StripQuotes(Trim(a + ([quote] + (c + Escape(t) + d) + [quote]) + b)) == Escape(t)
    ensures Escape(t) != [] && Escape(t)[0] == t[0]
  {
    var inner := c + Escape(t) + d;
    var wrapped := [quote] + inner + [quote];
    EscapeEnds(t);
    TrimPadded(a, wrapped, b);
    assert Unwrap(wrapped) == inner;
    TrimPadded(c, Escape(t), d);
  }

  lemma PaddedQuoted(t: string, quote: char, a: string, b: string, c: string, d: string,
                     parseKey: string -> Option<string>, decode64: string -> string)
    requires KeyLike(t) && (quote == DOUBLE_QUOTE || quote == SINGLE_QUOTE)
    requires Blank(a) && Blank(b) && Blank(c) && Blank(d)
    ensures Normalize(Some(a + ([quote] + (c + Escape(t) + d) + [quote]) + b), parseKey, decode64) == Some(DropReturns(t))
  {
    StripPadded(t, quote, a, b, c, d);
    UnescapeEscape(t);
    DropKeepsBegin(t);
  }

  /** A service-account document gives the key in it, with its line breaks escaped or not. */
  lemma KeyInDocument(document: string, t: string, parseKey: string -> Option<string>, decode64: string -> string)
    requires KeyLike(t) && document != [] && document[0] == '{' && !IsSpace(document[|document| - 1])
    requires parseKey(document) == Some(t) || parseKey(document) == Some(Escape(t))
    ensures Normalize(Some(document), parseKey, decode64) == Some(DropReturns(t))
  {
    TrimKeeps(document);
    UnescapeEscape(t);
    NothingToReplace(t, 'r', []);
    NothingToReplace(t, 'n', "\n");
    DropKeepsBegin(t);
  }

  /** So does a text without BEGIN whose decoding is a key. */
  lemma KeyInBase64(text: string, t: string, parseKey: string -> Option<string>, decode64: string -> string)
    requires KeyLike(t) && text != [] && !IsSpace(text[0]) && !IsSpace(text[|text| - 1]) && text[0] != '{'
    requires !QuotedBy(text, DOUBLE_QUOTE) && !QuotedBy(text, SINGLE_QUOTE)
    requires NoBackslash(text) && !Contains(text, BEGIN) && (forall i :: 0 <= i < |text| ==> text[i] != '\r')
    requires decode64(text) == t
    ensures Normalize(Some(text), parseKey, decode64) == Some(DropReturns(t))
  {
    TrimKeeps(text);
    NothingToReplace(text, 'r', []);
    NothingToReplace(text, 'n', "\n");
    NoReturns(text);
    NothingToReplace(t, 'n', "\n");
  }

  /** No variable, no key; and a text that is no key in any of these ways is left as it is. */
  lemma NothingToNormalize(text: string, parseKey: string -> Option<string>, decode64: string -> string)
    ensures Normalize(None, parseKey, decode64) == None && Normalize(Some([]), parseKey, decode64) == None
    ensures
      text != [] && !IsSpace(text[0]) && !IsSpace(text[|text| - 1])
      && !QuotedBy(text, DOUBLE_QUOTE) && !QuotedBy(text, SINGLE_QUOTE) && (text[0] == '{' ==> parseKey(text).None?)
      && NoBackslash(text) && (forall i :: 0 <= i < |text| ==> text[i] != '\r') && !Contains(decode64(text), BEGIN)
      ==> Normalize(Some(text), parseKey, decode64) == Some(text)
  {
    if text != [] && !IsSpace(text[0]) && !IsSpace(text[|text| - 1])
       && NoBackslash(text) && (forall i :: 0 <= i < |text| ==> text[i] != '\r') {
      TrimKeeps(text);
      NothingToReplace(text, 'r', []);
      NothingToReplace(text, 'n', "\n");
      NoReturns(text);
    }
  }
}
