/*
 * Text helpers. The tokenizer is the one both the intent classifier and the
 * retrieval engine use: the maximal runs of `[A-Za-z0-9']`, lower-cased. The
 * rest are the Python string operations the league-prediction parser uses:
 * `splitlines`, `strip`, `split()`, `in`, `startswith`, `int(...)`,
 * `float(...)` and the regular expression `'([^']+)'`.
 */
module Text {
  import opened Collections

  // ---------------------------------------------------------------------------
  // Tokenizer
  // ---------------------------------------------------------------------------

  predicate IsTokenChar(c: char) {
    ('a' <= c <= 'z') || ('A' <= c <= 'Z') || ('0' <= c <= '9') || c == '\''
  }

  /** A character that may appear in a token after lower-casing. */
  predicate IsLowerTokenChar(c: char) {
    ('a' <= c <= 'z') || ('0' <= c <= '9') || c == '\''
  }

  predicate IsToken(t: string) {
    t != [] && forall i :: 0 <= i < |t| ==> IsLowerTokenChar(t[i])
  }

  function LowerChar(c: char): (r: char)
    ensures IsTokenChar(c) ==> IsLowerTokenChar(r)
    ensures !('A' <= c <= 'Z') ==> r == c
  {
    if 'A' <= c <= 'Z' then (c as int - 'A' as int + 'a' as int) as char else c
  }

  /** `str.lower()` restricted to ASCII letters. */
  function Lower(s: string): (r: string)
    ensures |r| == |s|
    ensures forall i :: 0 <= i < |s| ==> r[i] == LowerChar(s[i])
  {
    if s == [] then [] else [LowerChar(s[0])] + Lower(s[1..])
  }

  /** Length of the run of token characters at the start of `s`. */
  function RunLength(s: string): (n: nat)
    ensures n <= |s|
    ensures forall i :: 0 <= i < n ==> IsTokenChar(s[i])
    ensures n < |s| ==> !IsTokenChar(s[n])
  {
    if s == [] || !IsTokenChar(s[0]) then 0 else 1 + RunLength(s[1..])
  }

  /** `[token.lower() for token in re.findall(r"[a-zA-Z0-9']+", text)]`. */
  function Tokenize(s: string): (r: seq<string>)
    ensures forall i :: 0 <= i < |r| ==> IsToken(r[i])
    decreases |s|
  {
    if s == [] then []
    else if !IsTokenChar(s[0]) then Tokenize(s[1..])
    else
      var n := RunLength(s);
      [Lower(s[..n])] + Tokenize(s[n..])
  }

  /** A text made of one run of token characters is a single lower-cased token. */
  lemma {:induction false} TokenizeRun(w: string)
    requires w != []
    requires forall i :: 0 <= i < |w| ==> IsTokenChar(w[i])
    ensures Tokenize(w) == [Lower(w)]
  {
    assert RunLength(w) == |w|;
    assert w[..|w|] == w;
  }

  /** A text that starts with a token character yields at least one token. */
  lemma {:induction false} TokenizeStartsWithToken(s: string)
    requires s != [] && IsTokenChar(s[0])
    ensures Tokenize(s) != []
  {
  }

  /** A text with no token character yields no token. */
  lemma {:induction false} TokenizeNoTokenChars(s: string)
    requires forall i :: 0 <= i < |s| ==> !IsTokenChar(s[i])
    ensures Tokenize(s) == []
  {
    if s != [] {
      TokenizeNoTokenChars(s[1..]);
    }
  }

  lemma {:induction false} RunLengthStops(a: string, c: char, b: string)
    requires !IsTokenChar(c)
    ensures RunLength(a + [c] + b) == RunLength(a)
    decreases |a|
  {
    if a == [] {
      assert (a + [c] + b)[0] == c;
    } else if IsTokenChar(a[0]) {
      assert (a + [c] + b)[1..] == a[1..] + [c] + b;
      RunLengthStops(a[1..], c, b);
    }
  }

  /**
   * Tokens never span a separator: the tokens of `a`, a non-token character
   * and `b` are the tokens of `a` followed by those of `b`. With TokenizeRun
   * this pins Tokenize down: maximal runs, lower-cased, in text order.
   */
  lemma {:induction false} TokenizeSeparator(a: string, c: char, b: string)
    requires !IsTokenChar(c)
    ensures Tokenize(a + [c] + b) == Tokenize(a) + Tokenize(b)
    decreases |a|
  {
    var s := a + [c] + b;
    if a == [] {
      assert s[1..] == b;
    } else if !IsTokenChar(a[0]) {
      assert s[1..] == a[1..] + [c] + b;
      TokenizeSeparator(a[1..], c, b);
    } else {
      var n := RunLength(s);
      RunLengthStops(a, c, b);
      assert n == RunLength(a) && n >= 1;
      assert s[..n] == a[..n];
      assert s[n..] == a[n..] + [c] + b;
      TokenizeSeparator(a[n..], c, b);
    }
  }

  /** Number of occurrences of `t` in `tokens`. */
  function Occurrences(tokens: seq<string>, t: string): nat {
    if tokens == [] then 0
    else Occurrences(tokens[..|tokens| - 1], t) + (if tokens[|tokens| - 1] == t then 1 else 0)
  }

  /** Python's `Counter(tokens)`: counts in order of first occurrence. */
  function CountTokens(tokens: seq<string>): Dict<string, int>
    decreases |tokens|
  {
    if tokens == [] then []
    else
      var prev := CountTokens(tokens[..|tokens| - 1]);
      var t := tokens[|tokens| - 1];
      Put(prev, t, Get(prev, t, 0) + 1)
  }

  /** Each token is counted under one key. */
  lemma {:induction false} CountTokensDistinct(tokens: seq<string>)
    ensures DistinctKeys(CountTokens(tokens))
  {
    if tokens != [] {
      var prev := CountTokens(tokens[..|tokens| - 1]);
      CountTokensDistinct(tokens[..|tokens| - 1]);
      PutDistinct(prev, tokens[|tokens| - 1], Get(prev, tokens[|tokens| - 1], 0) + 1);
    }
  }

  lemma {:induction false} LastSplit(tokens: seq<string>, t: string)
    requires tokens != []
    ensures t in tokens <==> t in tokens[..|tokens| - 1] || t == tokens[|tokens| - 1]
  {
    assert tokens == tokens[..|tokens| - 1] + [tokens[|tokens| - 1]];
  }

  /** The counter's keys are exactly the tokens that occur. */
  lemma {:induction false} CountTokensKeys(tokens: seq<string>, t: string)
    ensures t in Keys(CountTokens(tokens)) <==> t in tokens
    decreases |tokens|
  {
    if tokens != [] {
      var init, last := tokens[..|tokens| - 1], tokens[|tokens| - 1];
      CountTokensKeys(init, t);
      CountTokensLast(tokens, t);
      LastSplit(tokens, t);
    }
  }

  /** The counter of a non-empty list adds its last token to the counter of the rest. */
  lemma {:induction false} CountTokensLast(tokens: seq<string>, t: string)
    requires tokens != []
    ensures t in Keys(CountTokens(tokens))
        <==> t in Keys(CountTokens(tokens[..|tokens| - 1])) || t == tokens[|tokens| - 1]
  {
    var prev := CountTokens(tokens[..|tokens| - 1]);
    var last := tokens[|tokens| - 1];
    var c := Get(prev, last, 0) + 1;
    assert CountTokens(tokens) == Put(prev, last, c);
    PutMember(prev, last, c, t);
  }

  /** A token that occurs occurs at least once. */
  lemma {:induction false} OccurrencesPositive(tokens: seq<string>, t: string)
    requires t in tokens
    ensures Occurrences(tokens, t) >= 1
  {
    var init, last := tokens[..|tokens| - 1], tokens[|tokens| - 1];
    if last != t {
      assert t in init by {
        var i :| 0 <= i < |tokens| && tokens[i] == t;
        assert init[i] == t;
      }
      OccurrencesPositive(init, t);
    }
  }

  /** Counting one more token adds one to its count... */
  lemma {:induction false} CountTokensSame(init: seq<string>, last: string)
    ensures Get(CountTokens(init + [last]), last, 0) == Get(CountTokens(init), last, 0) + 1
  {
    var tokens := init + [last];
    assert tokens[..|tokens| - 1] == init;
    GetPut(CountTokens(init), last, Get(CountTokens(init), last, 0) + 1, 0);
  }

  /** ...and leaves every other token's count alone. */
  lemma {:induction false} CountTokensOther(init: seq<string>, last: string, t: string)
    requires last != t
    ensures Get(CountTokens(init + [last]), t, 0) == Get(CountTokens(init), t, 0)
  {
    var tokens := init + [last];
    assert tokens[..|tokens| - 1] == init;
    PutOther(CountTokens(init), last, Get(CountTokens(init), last, 0) + 1, t, 0);
  }

  /** Each token's count is its number of occurrences. */
  lemma {:induction false} CountTokensCounts(tokens: seq<string>, t: string)
    ensures Get(CountTokens(tokens), t, 0) == Occurrences(tokens, t)
    decreases |tokens|
  {
    if tokens != [] {
      var init, last := tokens[..|tokens| - 1], tokens[|tokens| - 1];
      CountTokensCounts(init, t);
      assert init + [last] == tokens;
      if last == t {
        CountTokensSame(init, last);
      } else {
        CountTokensOther(init, last, t);
      }
    }
  }

  /** Every count in the dictionary is at least one. */
  predicate PositiveCounts(d: Dict<string, int>) {
    forall i :: 0 <= i < |d| ==> d[i].1 >= 1
  }

  lemma {:induction false} PutPositive(d: Dict<string, int>, k: string, v: int)
    requires PositiveCounts(d) && v >= 1
    ensures PositiveCounts(Put(d, k, v))
  {
    if d != [] && d[0].0 != k {
      PutPositive(d[1..], k, v);
    }
  }

  lemma {:induction false} GetNonNegative(d: Dict<string, int>, k: string)
    requires PositiveCounts(d)
    ensures Get(d, k, 0) >= 0
  {
    if d != [] && d[0].0 != k {
      GetNonNegative(d[1..], k);
    }
  }

  /** A token counter holds no zero or negative count. */
  lemma {:induction false} CountTokensPositive(tokens: seq<string>)
    ensures PositiveCounts(CountTokens(tokens))
    decreases |tokens|
  {
    if tokens != [] {
      var init, last := tokens[..|tokens| - 1], tokens[|tokens| - 1];
      CountTokensPositive(init);
      GetNonNegative(CountTokens(init), last);
      PutPositive(CountTokens(init), last, Get(CountTokens(init), last, 0) + 1);
    }
  }

  // ---------------------------------------------------------------------------
  // Whitespace, lines and fields
  // ---------------------------------------------------------------------------

  /** Python's `str.isspace()` for one character. */
  predicate IsSpace(c: char) {
    || ('\t' <= c <= '\r') || ('\U{1c}' <= c <= ' ') || c == '\U{85}' || c == '\U{a0}'
    || c == '\U{1680}' || ('\U{2000}' <= c <= '\U{200a}') || c == '\U{2028}' || c == '\U{2029}'
    || c == '\U{202f}' || c == '\U{205f}' || c == '\U{3000}'
  }

  /** The line boundaries `str.splitlines()` recognises (`\r\n` counts once). */
  predicate IsLineBreak(c: char) {
    || ('\n' <= c <= '\r') || ('\U{1c}' <= c <= '\U{1e}') || c == '\U{85}'
    || c == '\U{2028}' || c == '\U{2029}'
  }

  function RStrip(s: string): (r: string)
    ensures |r| <= |s| && r == s[..|r|]
    ensures r != [] ==> !IsSpace(r[|r| - 1])
    ensures forall i :: |r| <= i < |s| ==> IsSpace(s[i])
  {
    if s == [] || !IsSpace(s[|s| - 1]) then s else RStrip(s[..|s| - 1])
  }

  function LStrip(s: string): (r: string)
    ensures |r| <= |s| && r == s[|s| - |r|..]
    ensures r != [] ==> !IsSpace(r[0])
    ensures forall i :: 0 <= i < |s| - |r| ==> IsSpace(s[i])
  {
    if s == [] || !IsSpace(s[0]) then s else LStrip(s[1..])
  }

  function Strip(s: string): (r: string)
    ensures r == [] <==> forall i :: 0 <= i < |s| ==> IsSpace(s[i])
  {
    var l := LStrip(s);
    var r := RStrip(l);
    assert r != [] ==> r[0] == l[0];
    r
  }

  /** Length of the text before the first line boundary. */
  function LineLength(s: string): (n: nat)
    ensures n <= |s|
    ensures forall i :: 0 <= i < n ==> !IsLineBreak(s[i])
    ensures n < |s| ==> IsLineBreak(s[n])
  {
    if s == [] || IsLineBreak(s[0]) then 0 else 1 + LineLength(s[1..])
  }

  /** Python's `str.splitlines()`. */
  function SplitLines(s: string): (r: seq<string>)
    ensures forall i :: 0 <= i < |r| ==> forall j :: 0 <= j < |r[i]| ==> !IsLineBreak(r[i][j])
    decreases |s|
  {
    if s == [] then []
    else
      var n := LineLength(s);
      if n == |s| then [s]
      else
        var width := if s[n] == '\r' && n + 1 < |s| && s[n + 1] == '\n' then 2 else 1;
        [s[..n]] + SplitLines(s[n + width..])
  }

  /** Length of the leading run of non-whitespace characters. */
  function WordLength(s: string): (n: nat)
    ensures n <= |s|
    ensures forall i :: 0 <= i < n ==> !IsSpace(s[i])
    ensures n < |s| ==> IsSpace(s[n])
  {
    if s == [] || IsSpace(s[0]) then 0 else 1 + WordLength(s[1..])
  }

  /** Python's `str.split()` with no separator: the non-empty whitespace-free fields. */
  function SplitFields(s: string): (r: seq<string>)
    ensures forall i :: 0 <= i < |r| ==> r[i] != [] && forall j :: 0 <= j < |r[i]| ==> !IsSpace(r[i][j])
    decreases |s|
  {
    if s == [] then []
    else if IsSpace(s[0]) then SplitFields(s[1..])
    else
      var n := WordLength(s);
      [s[..n]] + SplitFields(s[n..])
  }

  /** Python's `sep.join(parts)`. */
  function Join(parts: seq<string>, sep: string): string {
    if parts == [] then []
    else if |parts| == 1 then parts[0]
    else parts[0] + sep + Join(parts[1..], sep)
  }

  /** Python's `needle in haystack` for strings. */
  predicate Contains(haystack: string, needle: string) {
    exists i :: 0 <= i <= |haystack| - |needle| && OccursAt(haystack, needle, i)
  }

  predicate OccursAt(haystack: string, needle: string, i: int) {
    0 <= i <= |haystack| - |needle| && haystack[i..i + |needle|] == needle
  }

  predicate StartsWith(s: string, prefix: string) {
    |prefix| <= |s| && s[..|prefix|] == prefix
  }

  /** A field `str.split()` keeps whole: non-empty, without whitespace. */
  predicate Word(w: string) {
    w != [] && forall i :: 0 <= i < |w| ==> !IsSpace(w[i])
  }

  predicate Blank(g: string) {
    forall i :: 0 <= i < |g| ==> IsSpace(g[i])
  }

  function Spaces(n: int): (s: string)
    ensures |s| == if n > 0 then n else 0
    ensures Blank(s)
  {
    seq(if n > 0 then n else 0, _ => ' ')
  }

  /** `f"{s:<n}"`: `s` padded on the right with spaces to width `n`. */
  function PadRight(s: string, n: int): (r: string)
    ensures r == s + Spaces(n - |s|)
  {
    s + Spaces(n - |s|)
  }

  lemma {:induction false} SplitFieldsBlank(g: string, rest: string)
    requires Blank(g)
    ensures SplitFields(g + rest) == SplitFields(rest)
    decreases |g|
  {
    if g != [] {
      var s := g + rest;
      assert s[0] == g[0] && IsSpace(g[0]);
      assert s[1..] == g[1..] + rest;
      assert SplitFields(s) == SplitFields(s[1..]);
      SplitFieldsBlank(g[1..], rest);
    } else {
      assert g + rest == rest;
    }
  }

  lemma {:induction false} WordLengthWord(w: string, rest: string)
    requires Word(w) && (rest == [] || IsSpace(rest[0]))
    ensures WordLength(w + rest) == |w|
    decreases |w|
  {
    if |w| > 1 {
      assert (w + rest)[1..] == w[1..] + rest;
      WordLengthWord(w[1..], rest);
    } else {
      assert (w + rest)[1..] == rest;
    }
  }

  /** A word followed by whitespace is split off as the first field. */
  lemma {:induction false} SplitFieldsWord(w: string, after: string)
    requires Word(w) && after != [] && IsSpace(after[0])
    ensures SplitFields(w + after) == [w] + SplitFields(after)
  {
    var s := w + after;
    WordLengthWord(w, after);
    assert s[..|w|] == w && s[|w|..] == after;
  }

  lemma {:induction false} SplitFieldsSingle(w: string)
    requires Word(w)
    ensures SplitFields(w) == [w]
  {
    WordLengthWord(w, []);
    assert w + [] == w;
    assert w[|w|..] == [];
  }

  /** Splitting words joined by single spaces, then whitespace, gives the words back. */
  lemma {:induction false} SplitFieldsJoin(words: seq<string>, after: string)
    requires words != [] && forall i :: 0 <= i < |words| ==> Word(words[i])
    requires after != [] && IsSpace(after[0])
    ensures SplitFields(Join(words, " ") + after) == words + SplitFields(after)
  {
    assert Word(words[0]);
    if |words| == 1 {
      SplitFieldsWord(words[0], after);
    } else {
      SplitFieldsJoin(words[1..], after);
      SplitFieldsJoinStep(words[0], words[1..], after);
      assert [words[0]] + words[1..] == words;
    }
  }

  lemma {:induction false} SplitFieldsJoinStep(w: string, ws: seq<string>, after: string)
    requires Word(w) && ws != []
    requires SplitFields(Join(ws, " ") + after) == ws + SplitFields(after)
    ensures SplitFields(Join([w] + ws, " ") + after) == [w] + ws + SplitFields(after)
  {
    var words := [w] + ws;
    var tail := Join(ws, " ") + after;
    assert words[0] == w && words[1..] == ws;
    calc {
      SplitFields(Join(words, " ") + after);
      { JoinCons(words, after); }
      SplitFields(w + (" " + tail));
      { SplitFieldsWord(w, " " + tail); }
      [w] + SplitFields(" " + tail);
      { SplitFieldsBlank(" ", tail); }
      [w] + SplitFields(tail);
      [w] + (ws + SplitFields(after));
    }
    assert [w] + (ws + SplitFields(after)) == [w] + ws + SplitFields(after);
  }

  lemma {:induction false} JoinCons(words: seq<string>, after: string)
    requires |words| > 1
    ensures Join(words, " ") + after == words[0] + (" " + (Join(words[1..], " ") + after))
  {
  }

  /** Words joined by spaces start with the first word's first character and end with the last word's last. */
  lemma {:induction false} JoinEnds(words: seq<string>)
    requires words != [] && forall i :: 0 <= i < |words| ==> Word(words[i])
    ensures var j := Join(words, " "); j != [] && !IsSpace(j[0]) && !IsSpace(j[|j| - 1])
  {
    if |words| > 1 {
      JoinEnds(words[1..]);
      var first, tail := words[0], Join(words[1..], " ");
      assert Word(first);
      var j := first + " " + tail;
      assert j[0] == first[0] && j[|j| - 1] == tail[|tail| - 1];
    } else {
      assert Word(words[0]);
    }
  }

  /** The digits of a number form one field. */
  lemma {:induction false} DigitsWord(n: nat)
    ensures Word(DigitsString(n))
  {
    var s := DigitsString(n);
    forall i | 0 <= i < |s| ensures !IsSpace(s[i]) {
      assert IsDigit(s[i]);
    }
  }

  /** Text that neither starts nor ends with whitespace is its own strip. */
  lemma {:induction false} StripSelf(s: string)
    requires s != [] && !IsSpace(s[0]) && !IsSpace(s[|s| - 1])
    ensures Strip(s) == s
  {
  }

  // ---------------------------------------------------------------------------
  // The regular expression '([^']+)' : the first quoted, non-empty text
  // ---------------------------------------------------------------------------

  /** Index of the first quote at or after `from`, or |s| when there is none. */
  function NextQuote(s: string, from: nat): (j: nat)
    requires from <= |s|
    ensures from <= j <= |s|
    ensures forall k :: from <= k < j ==> s[k] != '\''
    ensures j < |s| ==> s[j] == '\''
    decreases |s| - from
  {
    if from == |s| || s[from] == '\'' then from else NextQuote(s, from + 1)
  }

  /** Whether a match of `'([^']+)'` starts at position `i`. */
  predicate QuotedAt(s: string, i: nat) {
    i + 1 < |s| && s[i] == '\'' && s[i + 1] != '\'' && NextQuote(s, i + 1) < |s|
  }

  /** `re.search(r"'([^']+)'", s).group(1)` when there is a match, searching from `from`. */
  function FindQuoted(s: string, from: nat): (r: Option<string>)
    requires from <= |s|
    ensures r.Some? <==> exists i :: from <= i < |s| && QuotedAt(s, i)
    ensures r.Some? ==> r.value != [] && forall k :: 0 <= k < |r.value| ==> r.value[k] != '\''
    decreases |s| - from
  {
    if from == |s| then None
    else if QuotedAt(s, from) then Some(s[from + 1..NextQuote(s, from + 1)])
    else FindQuoted(s, from + 1)
  }

  /**
   * `re.search` finds the leftmost match: when position i holds the first
   * match from `from` on, the group is the text between that quote and the next.
   */
  lemma {:induction false} FindQuotedFirst(s: string, from: nat, i: nat)
    requires from <= i < |s| && QuotedAt(s, i)
    requires forall j :: from <= j < i ==> !QuotedAt(s, j)
    ensures FindQuoted(s, from) == Some(s[i + 1..NextQuote(s, i + 1)])
    decreases i - from
  {
    if from < i {
      FindQuotedFirst(s, from + 1, i);
    }
  }

  // ---------------------------------------------------------------------------
  // Numbers
  // ---------------------------------------------------------------------------

  predicate IsDigit(c: char) { '0' <= c <= '9' }

  predicate AllDigits(s: string) {
    forall i :: 0 <= i < |s| ==> IsDigit(s[i])
  }

  function DigitsValue(s: string): (v: nat)
    requires AllDigits(s)
  {
    if s == [] then 0 else 10 * DigitsValue(s[..|s| - 1]) + (s[|s| - 1] as int - '0' as int)
  }

  function Pow10(e: nat): (p: nat)
    ensures p >= 1
  {
    if e == 0 then 1 else 10 * Pow10(e - 1)
  }

  /** Python's `int(s)` on a field without whitespace: optional sign, then decimal digits. */
  function ParseInt(s: string): (r: Option<int>)
    ensures r.Some? ==> s != [] && (IsDigit(s[0]) || s[0] == '-' || s[0] == '+')
  {
    if s != [] && (s[0] == '-' || s[0] == '+') then
      var body := s[1..];
      if body != [] && AllDigits(body) then
        var v: int := if s[0] == '-' then -(DigitsValue(body) as int) else DigitsValue(body);
        Some(v)
      else None
    else if s != [] && AllDigits(s) then Some(DigitsValue(s))
    else None
  }

  /** Unsigned decimal with an optional fraction and at least one digit. */
  function ParseDecimal(s: string): (r: Option<real>)
    ensures r.Some? ==> r.value >= 0.0 && exists i :: 0 <= i < |s| && IsDigit(s[i])
  {
    var n := |s| - |LStripDigits(s)|;
    var intPart := s[..n];
    var rest := s[n..];
    if rest == [] then
      if intPart == [] then None else Some(DigitsValue(intPart) as real)
    else if rest[0] == '.' && AllDigits(rest[1..]) && (intPart != [] || |rest| > 1) then
      var frac := rest[1..];
      Some(DigitsValue(intPart) as real + DigitsValue(frac) as real / Pow10(|frac|) as real)
    else None
  }

  /** The text after the leading digits. */
  function LStripDigits(s: string): (r: string)
    ensures |r| <= |s| && r == s[|s| - |r|..]
    ensures AllDigits(s[..|s| - |r|])
    ensures r != [] ==> !IsDigit(r[0])
  {
    if s == [] || !IsDigit(s[0]) then s
    else
      var r := LStripDigits(s[1..]);
      var n := |s| - |r|;
      var digits, tail := s[..n], s[1..][..n - 1];
      assert forall i :: 0 <= i < n - 1 ==> IsDigit(tail[i]);
      assert forall i :: 1 <= i < n ==> digits[i] == tail[i - 1];
      r
  }

  /** Index of the first 'e' or 'E', or |s|. */
  function ExponentMark(s: string): (k: nat)
    ensures k <= |s|
    ensures forall i :: 0 <= i < k ==> s[i] != 'e' && s[i] != 'E'
  {
    if s == [] || s[0] == 'e' || s[0] == 'E' then 0 else 1 + ExponentMark(s[1..])
  }

  /** Python's `float(s)` on a field without whitespace, for finite decimal notation. */
  function ParseFloat(s: string): (r: Option<real>)
    ensures r.Some? ==> exists i :: 0 <= i < |s| && IsDigit(s[i])
    ensures r.Some? && s[0] == '-' ==> r.value <= 0.0
    ensures r.Some? && s[0] != '-' ==> r.value >= 0.0
  {
    var negative := s != [] && s[0] == '-';
    var body := if s != [] && (s[0] == '-' || s[0] == '+') then s[1..] else s;
    var k := ExponentMark(body);
    var mantissa := ParseDecimal(body[..k]);
    var exponent := if k == |body| then Some(0) else ParseInt(body[k + 1..]);
    if mantissa.None? || exponent.None? then None
    else
      DigitWithin(s, |s| - |body|, body[..k]);
      var scaled := ScaleExponent(mantissa.value, exponent.value);
      Some(if negative then -scaled else scaled)
  }

  /** `m` times ten to the power `e`, for a non-negative mantissa. */
  function ScaleExponent(m: real, e: int): (x: real)
    requires m >= 0.0
    ensures x >= 0.0
    ensures e == 0 ==> x == m
  {
    if e >= 0 then m * Pow10(e) as real else m / Pow10(-e) as real
  }

  /** A digit of a slice of `s` is a digit of `s`. */
  lemma {:induction false} DigitWithin(s: string, j: nat, t: string)
    requires j + |t| <= |s| && t == s[j..j + |t|]
    requires exists i :: 0 <= i < |t| && IsDigit(t[i])
    ensures exists i :: 0 <= i < |s| && IsDigit(s[i])
  {
    var i :| 0 <= i < |t| && IsDigit(t[i]);
    assert s[j + i] == t[i];
  }

  /** The decimal digits of a natural number, as Python's `str` writes them. */
  function DigitsString(n: nat): (s: string)
    ensures s != [] && AllDigits(s)
  {
    var d := ['0' + (n % 10) as char];
    if n < 10 then d else DigitsString(n / 10) + d
  }

  /** Python's `str(n)` for an integer. */
  function IntString(n: int): string {
    if n < 0 then "-" + DigitsString(-n) else DigitsString(n)
  }

  lemma {:induction false} DigitsStringValue(n: nat)
    ensures DigitsValue(DigitsString(n)) == n
  {
    var d := ['0' + (n % 10) as char];
    if n >= 10 {
      var s := DigitsString(n / 10) + d;
      assert s[..|s| - 1] == DigitsString(n / 10);
      DigitsStringValue(n / 10);
    }
  }

  /** Reading back what `str` wrote gives the number: `int(str(n)) == n`. */
  lemma {:induction false} IntStringRoundTrip(n: int)
    ensures ParseInt(IntString(n)) == Some(n)
  {
    if n < 0 {
      NegativeRoundTrip(-n);
    } else {
      DigitsStringValue(n);
      var s := DigitsString(n);
      assert IsDigit(s[0]);
    }
  }

  lemma {:induction false} NegativeRoundTrip(m: nat)
    requires m > 0
    ensures ParseInt("-" + DigitsString(m)) == Some(-(m as int))
  {
    var s := "-" + DigitsString(m);
    assert s[0] == '-' && s[1..] == DigitsString(m);
    DigitsStringValue(m);
  }

  /** The digits a natural number is written with read back as that number: `float(str(n)) == n`. */
  lemma {:induction false} FloatDigitsRoundTrip(n: nat)
    ensures ParseFloat(DigitsString(n)) == Some(n as real)
  {
    ParseFloatDigits(DigitsString(n));
    DigitsStringValue(n);
  }

  lemma {:induction false} ParseFloatDigits(s: string)
    requires s != [] && AllDigits(s)
    ensures ParseFloat(s) == Some(DigitsValue(s) as real)
  {
    assert IsDigit(s[0]);
    ExponentMarkDigits(s);
    assert s[..|s|] == s;
    ParseDecimalDigits(s);
    assert Pow10(0) == 1;
  }

  lemma {:induction false} ParseDecimalDigits(s: string)
    requires s != [] && AllDigits(s)
    ensures ParseDecimal(s) == Some(DigitsValue(s) as real)
  {
    LStripDigitsAll(s);
    assert s[..|s|] == s && s[|s|..] == [];
  }

  lemma {:induction false} ExponentMarkDigits(s: string)
    requires AllDigits(s)
    ensures ExponentMark(s) == |s|
  {
    if s != [] {
      ExponentMarkDigits(s[1..]);
    }
  }

  lemma {:induction false} LStripDigitsAll(s: string)
    requires AllDigits(s)
    ensures LStripDigits(s) == []
  {
    if s != [] {
      LStripDigitsAll(s[1..]);
    }
  }
}
