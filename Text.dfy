/**
 * Character classes and string helpers that the TypeScript source takes from
 * the JavaScript runtime: the `\s` and `\d` regex classes, `String.prototype.trim`,
 * `toLowerCase`, `Array.prototype.join("\n")` and `[a, b].filter(Boolean)`.
 */
module Text {
  import opened Wrappers

  /** JavaScript's `\s` class, which is also the set `trim` removes: the WhiteSpace
      and LineTerminator code points of ECMAScript (tab, LF, VT, FF, CR, space, NBSP,
      the Zs category, LS, PS and the byte-order mark). */
  predicate IsWhitespace(c: char) {
    || c == '\t' || c == '\n' || c == '\U{000B}' || c == '\U{000C}' || c == '\r'
    || c == ' ' || c == '\U{00A0}' || c == '\U{1680}'
    || ('\U{2000}' <= c <= '\U{200A}')
    || c == '\U{2028}' || c == '\U{2029}' || c == '\U{202F}' || c == '\U{205F}'
    || c == '\U{3000}' || c == '\U{FEFF}'
  }

  /** JavaScript's `\d` class (without the `u` flag): the ASCII digits only. */
  predicate IsDigit(c: char) {
    '0' <= c <= '9'
  }

  /** `/\s/.test(s)`. */
  predicate ContainsWhitespace(s: string) {
    s != [] && (IsWhitespace(s[0]) || ContainsWhitespace(s[1..]))
  }

  /** `/\d/.test(s)`. */
  predicate ContainsDigit(s: string) {
    s != [] && (IsDigit(s[0]) || ContainsDigit(s[1..]))
  }

  /** The scan finds whitespace exactly when some position holds it. */
  lemma {:induction false} ContainsWhitespaceAt(s: string)
    ensures ContainsWhitespace(s) <==> exists i :: 0 <= i < |s| && IsWhitespace(s[i])
  {
    if s != [] {
      ContainsWhitespaceAt(s[1..]);
      if !IsWhitespace(s[0]) && exists i :: 0 <= i < |s| && IsWhitespace(s[i]) {
        var i :| 0 <= i < |s| && IsWhitespace(s[i]);
        assert s[1..][i - 1] == s[i];
      }
    }
  }

  /** The scan finds a digit exactly when some position holds one. */
  lemma {:induction false} ContainsDigitAt(s: string)
    ensures ContainsDigit(s) <==> exists i :: 0 <= i < |s| && IsDigit(s[i])
  {
    if s != [] {
      ContainsDigitAt(s[1..]);
      if !IsDigit(s[0]) && exists i :: 0 <= i < |s| && IsDigit(s[i]) {
        var i :| 0 <= i < |s| && IsDigit(s[i]);
        assert s[1..][i - 1] == s[i];
      }
    }
  }

  /** Case folding used by the regex `i` flag without `u`: only ASCII letters fold
      (a non-ASCII character never canonicalises to an ASCII one). */
  function AsciiLower(c: char): char {
    if 'A' <= c <= 'Z' then (c as int + 32) as char else c
  }

  /** `toLowerCase` on the letters this model knows: ASCII and the Latin-1
      capitals (which covers the Swedish Å, Ä and Ö); everything else is unchanged. */
  function LowerChar(c: char): char {
    if 'A' <= c <= 'Z' || ('\U{00C0}' <= c <= '\U{00DE}' && c != '\U{00D7}') then (c as int + 32) as char else c
  }

  function Lower(s: string): (r: string)
    ensures |r| == |s|
    ensures forall i :: 0 <= i < |s| ==> r[i] == LowerChar(s[i])
  {
    if s == [] then [] else [LowerChar(s[0])] + Lower(s[1..])
  }

  /** `a.toLowerCase() === b.toLowerCase()`. */
  predicate EqualsIgnoringCase(a: string, b: string) {
    Lower(a) == Lower(b)
  }

  /** `trimStart`: drops whitespace from the front. */
  function TrimStart(s: string): (r: string)
    ensures |r| <= |s|
  {
    if s != [] && IsWhitespace(s[0]) then TrimStart(s[1..]) else s
  }

  /** `trimEnd`: drops whitespace from the back. */
  function TrimEnd(s: string): (r: string)
    ensures |r| <= |s|
  {
    if s != [] && IsWhitespace(s[|s| - 1]) then TrimEnd(s[..|s| - 1]) else s
  }

  /** `trim`. */
  function Trim(s: string): (r: string)
    ensures |r| <= |s|
  {
    TrimEnd(TrimStart(s))
  }

  /** What `trimStart` keeps is a suffix that does not begin with whitespace, and all it
      dropped is whitespace. */
  lemma {:induction false} TrimStartSuffix(s: string)
    ensures var r := TrimStart(s);
      && r == s[|s| - |r|..]
      && (r == [] || !IsWhitespace(r[0]))
      && forall i :: 0 <= i < |s| - |r| ==> IsWhitespace(s[i])
  {
    if s != [] && IsWhitespace(s[0]) {
      TrimStartSuffix(s[1..]);
      var r := TrimStart(s);
      forall i | 0 <= i < |s| - |r| ensures IsWhitespace(s[i]) {
        if i > 0 {
          assert s[i] == s[1..][i - 1];
        }
      }
    }
  }

  /** What `trimEnd` keeps is a prefix that does not end with whitespace, and all it
      dropped is whitespace. */
  lemma {:induction false} TrimEndPrefix(s: string)
    ensures var r := TrimEnd(s);
      && r == s[..|r|]
      && (r == [] || !IsWhitespace(r[|r| - 1]))
      && forall i :: |r| <= i < |s| ==> IsWhitespace(s[i])
  {
    if s != [] && IsWhitespace(s[|s| - 1]) {
      TrimEndPrefix(s[..|s| - 1]);
      var r := TrimEnd(s);
      forall i | |r| <= i < |s| ensures IsWhitespace(s[i]) {
        if i < |s| - 1 {
          assert s[i] == s[..|s| - 1][i];
        }
      }
    }
  }

  /** What `trim` returns is a contiguous piece of its input with no whitespace at either
      end, and only whitespace was cut away. */
  lemma {:induction false} TrimSlice(s: string) returns (a: nat, b: nat)
    ensures a <= b <= |s| && Trim(s) == s[a..b]
    ensures Trim(s) == [] || (!IsWhitespace(Trim(s)[0]) && !IsWhitespace(Trim(s)[|Trim(s)| - 1]))
    ensures forall i :: 0 <= i < a || b <= i < |s| ==> IsWhitespace(s[i])
  {
    var t := TrimStart(s);
    var r := TrimEnd(t);
    TrimStartSuffix(s);
    TrimEndPrefix(t);
    a, b := |s| - |t|, |s| - |t| + |r|;
    PrefixOfSuffix(s, a, |r|);
    WhitespaceTail(s, a, |r|);
  }

  lemma {:induction false} PrefixOfSuffix(s: string, a: nat, n: nat)
    requires a + n <= |s|
    ensures s[a..][..n] == s[a..a + n]
  {
  }

  /** Whitespace from index `k` of the suffix `s[a..]` on is whitespace from `a + k` of `s`. */
  lemma {:induction false} WhitespaceTail(s: string, a: nat, k: nat)
    requires a <= |s| && k <= |s| - a
    requires forall i :: k <= i < |s[a..]| ==> IsWhitespace(s[a..][i])
    ensures forall i :: a + k <= i < |s| ==> IsWhitespace(s[i])
  {
    forall i | a + k <= i < |s| ensures IsWhitespace(s[i]) {
      assert s[i] == s[a..][i - a];
    }
  }

  /** A string with no whitespace at either end is its own trim. */
  lemma {:induction false} TrimOfTrimmed(s: string)
    requires s == [] || (!IsWhitespace(s[0]) && !IsWhitespace(s[|s| - 1]))
    ensures Trim(s) == s
  {
  }

  /** `trim` is idempotent. */
  lemma {:induction false} TrimIdempotent(s: string)
    ensures Trim(Trim(s)) == Trim(s)
  {
    var a, b := TrimSlice(s);
    TrimOfTrimmed(Trim(s));
  }

  /** `!s.trim()`, the emptiness test, holds exactly for strings made only of whitespace. */
  lemma {:induction false} TrimEmptyIffBlank(s: string)
    ensures Trim(s) == [] <==> forall i :: 0 <= i < |s| ==> IsWhitespace(s[i])
  {
    var a, b := TrimSlice(s);
    if Trim(s) != [] {
      assert s[a] == Trim(s)[0];
    }
  }

  /** `s.replace(/\s/g, "_")`. */
  function ReplaceWhitespace(s: string): (r: string)
    ensures |r| == |s|
    ensures !ContainsWhitespace(r)
  {
    if s == [] then []
    else
      var r := [if IsWhitespace(s[0]) then '_' else s[0]] + ReplaceWhitespace(s[1..]);
      assert r[1..] == ReplaceWhitespace(s[1..]);
      r
  }

  /** Each character of the replacement is `_` where the original held whitespace, and the
      original character elsewhere. */
  lemma {:induction false} ReplaceWhitespaceAt(s: string)
    ensures forall i :: 0 <= i < |s| ==> ReplaceWhitespace(s)[i] == (if IsWhitespace(s[i]) then '_' else s[i])
  {
    if s != [] {
      ReplaceWhitespaceAt(s[1..]);
      forall i | 1 <= i < |s| ensures ReplaceWhitespace(s)[i] == (if IsWhitespace(s[i]) then '_' else s[i]) {
        assert ReplaceWhitespace(s)[i] == ReplaceWhitespace(s[1..])[i - 1];
        assert s[i] == s[1..][i - 1];
      }
    }
  }

  /** Without whitespace there is nothing to replace. */
  lemma {:induction false} ReplaceWhitespaceNone(s: string)
    requires !ContainsWhitespace(s)
    ensures ReplaceWhitespace(s) == s
  {
    if s != [] {
      ReplaceWhitespaceNone(s[1..]);
    }
  }

  /** `parts.join("\n")`. */
  function JoinLines(parts: seq<string>): (r: string)
    ensures parts == [] ==> r == []
    ensures |parts| == 1 ==> r == parts[0]
  {
    if parts == [] then []
    else if |parts| == 1 then parts[0]
    else JoinLines(parts[..|parts| - 1]) + "\n" + parts[|parts| - 1]
  }

  /** The pieces `filter(Boolean)` keeps: defined and non-empty. */
  function Truthy(pieces: seq<Option<string>>): (r: seq<string>)
    ensures |r| <= |pieces|
    ensures forall i :: 0 <= i < |r| ==> r[i] != []
  {
    if pieces == [] then []
    else
      var last := pieces[|pieces| - 1];
      Truthy(pieces[..|pieces| - 1]) + (if last.Some? && last.value != [] then [last.value] else [])
  }

  /** `pieces.filter(Boolean).join("\n")`. */
  function JoinTruthy(pieces: seq<Option<string>>): string {
    JoinLines(Truthy(pieces))
  }

  /** `[a, b].filter(Boolean).join("\n")`, the form every validator uses: the defined,
      non-empty ones of `a` and `b`, with a newline between them when both are kept. */
  function JoinPair(a: Option<string>, b: Option<string>): string {
    var keepA, keepB := a.Some? && a.value != [], b.Some? && b.value != [];
    if keepA && keepB then a.value + "\n" + b.value
    else if keepA then a.value
    else if keepB then b.value
    else []
  }

  /** The message a rule contributes to a filtered join: `msg` when the rule fired, nothing
      otherwise. */
  function When(fired: bool, msg: Option<string>): Option<string> {
    if fired then msg else None
  }

  /** The entry `errors.k` after `if (fired) errors.k = [errors.k, msg].filter(Boolean).join("\n")`,
      given the entry before it (`None` for a key never set). */
  function Step(entry: Option<string>, fired: bool, msg: Option<string>): Option<string> {
    if fired then Some(JoinPair(entry, msg)) else entry
  }

  /** A filtered join that ends in a non-empty message ends with that message, after the
      earlier text and a newline when there was any. */
  lemma {:induction false} JoinPairEndsWith(a: Option<string>, msg: string)
    requires msg != []
    ensures var r := JoinPair(a, Some(msg));
      |r| >= |msg| && r[|r| - |msg|..] == msg
      && (a.Some? && a.value != [] ==> r == a.value + "\n" + msg)
  {
    var r := JoinPair(a, Some(msg));
    if a.Some? && a.value != [] {
      assert r == a.value + "\n" + msg;
      assert r[|r| - |msg|..] == msg;
    }
  }

  /** Joining only non-empty parts gives the empty string only when there are none. */
  lemma {:induction false} JoinLinesEmpty(parts: seq<string>)
    requires forall i :: 0 <= i < |parts| ==> parts[i] != []
    ensures JoinLines(parts) == [] <==> parts == []
  {
    if |parts| > 1 {
      var r := JoinLines(parts);
      assert r[|r| - 1] == parts[|parts| - 1][|parts[|parts| - 1]| - 1];
    }
  }

  lemma {:induction false} TruthySnoc(pieces: seq<Option<string>>, next: Option<string>)
    ensures Truthy(pieces + [next]) == Truthy(pieces) + Truthy([next])
  {
    assert (pieces + [next])[..|pieces|] == pieces;
    assert [next][..0] == [];
  }

  lemma {:induction false} JoinLinesSnoc(parts: seq<string>, last: string)
    requires parts != []
    ensures JoinLines(parts + [last]) == JoinLines(parts) + "\n" + last
  {
    assert (parts + [last])[..|parts|] == parts;
  }

  /** `[errors.x, msg].filter(Boolean).join("\n")` where `errors.x` was itself built as a
      filtered join: the result is the filtered join of all the pieces so far. This is what
      lets a validator append messages one `if` at a time. */
  lemma {:induction false} AppendPair(pieces: seq<Option<string>>, next: Option<string>)
    ensures JoinPair(Some(JoinTruthy(pieces)), next) == JoinTruthy(pieces + [next])
  {
    var t := Truthy(pieces);
    JoinLinesEmpty(t);
    TruthySnoc(pieces, next);
    var empty: seq<Option<string>> := [];
    assert [next][..0] == empty;
    if next.Some? && next.value != [] {
      assert Truthy([next]) == [next.value];
      if t != [] {
        JoinLinesSnoc(t, next.value);
      } else {
        assert t + [next.value] == [next.value];
      }
    } else {
      assert Truthy([next]) == [];
      assert t + [] == t;
    }
  }

  /** One guarded step. Before it, the entry `acc` is present exactly when some earlier rule
      fired, and then holds the filtered join of the earlier pieces. After it (the step runs
      when `fired`) the same holds with the rule's piece added; the entry is set even when
      `msg` is nothing. */
  lemma {:induction false} FilteredAppend(pieces: seq<Option<string>>, acc: Option<string>, present: bool,
                       fired: bool, msg: Option<string>)
    requires acc == (if present then Some(JoinTruthy(pieces)) else None)
    requires !present ==> JoinTruthy(pieces) == []
    ensures Step(acc, fired, msg) == (if present || fired then Some(JoinTruthy(pieces + [When(fired, msg)])) else None)
    ensures !(present || fired) ==> JoinTruthy(pieces + [When(fired, msg)]) == []
  {
    var piece := When(fired, msg);
    TruthySnoc(pieces, piece);
    var empty: seq<Option<string>> := [];
    assert [piece][..0] == empty;
    if fired {
      if present {
        AppendPair(pieces, msg);
      } else {
        JoinLinesEmpty(Truthy(pieces));
        if msg.Some? && msg.value != [] {
          assert Truthy([piece]) == [msg.value];
        } else {
          assert Truthy([piece]) == [];
        }
        assert Truthy(pieces + [piece]) == Truthy([piece]);
      }
    } else {
      assert Truthy([piece]) == [];
      assert Truthy(pieces) + [] == Truthy(pieces);
    }
  }

  /** Two guarded steps on an unset entry: the entry is set when either rule fired, and holds
      the filtered join of the messages of the rules that fired, in order. */
  lemma {:induction false} TwoSteps(a: bool, ma: Option<string>, b: bool, mb: Option<string>)
    ensures Step(Step(None, a, ma), b, mb) ==
      (if a || b then Some(JoinTruthy([When(a, ma), When(b, mb)])) else None)
    ensures !(a || b) ==> JoinTruthy([When(a, ma), When(b, mb)]) == []
  {
    var none: seq<Option<string>> := [];
    FilteredAppend(none, None, false, a, ma);
    assert none + [When(a, ma)] == [When(a, ma)];
    var e1 := Step(None, a, ma);
    FilteredAppend([When(a, ma)], e1, a, b, mb);
    assert [When(a, ma)] + [When(b, mb)] == [When(a, ma), When(b, mb)];
  }

  /** Three guarded steps on an unset entry, as `TwoSteps`. */
  lemma {:induction false} ThreeSteps(a: bool, ma: Option<string>, b: bool, mb: Option<string>, c: bool, mc: Option<string>)
    ensures Step(Step(Step(None, a, ma), b, mb), c, mc) ==
      (if a || b || c then Some(JoinTruthy([When(a, ma), When(b, mb), When(c, mc)])) else None)
  {
    TwoSteps(a, ma, b, mb);
    var e2 := Step(Step(None, a, ma), b, mb);
    var ps := [When(a, ma), When(b, mb)];
    FilteredAppend(ps, e2, a || b, c, mc);
    assert ps + [When(c, mc)] == [When(a, ma), When(b, mb), When(c, mc)];
  }

  function DigitChar(d: nat): (c: char)
    requires d < 10
    ensures IsDigit(c)
  {
    ('0' as int + d) as char
  }

  /** The number a string of decimal digits denotes, most significant digit first. */
  function DigitsValue(s: string): nat
    requires forall i :: 0 <= i < |s| ==> IsDigit(s[i])
  {
    if s == [] then 0
    else
      assert IsDigit(s[|s| - 1]);
      DigitsValue(s[..|s| - 1]) * 10 + (s[|s| - 1] as int - '0' as int)
  }

  /** `${n}` for a non-negative integer: its decimal digits, most significant first, with no
      leading zero. */
  function NatToString(n: nat): (r: string)
    ensures r != []
    ensures forall i :: 0 <= i < |r| ==> IsDigit(r[i])
    ensures DigitsValue(r) == n
    ensures r[0] == '0' <==> n == 0
  {
    if n < 10 then [DigitChar(n)]
    else
      var r := NatToString(n / 10) + [DigitChar(n % 10)];
      assert r[..|r| - 1] == NatToString(n / 10);
      r
  }
}
