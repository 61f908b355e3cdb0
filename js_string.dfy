/** The string built-ins the dashboard uses: `toLowerCase`, `includes`, `trim`,
  * `filter(Boolean)` followed by `join`, and the decimal text of an integer. */
module JsString {
  import opened Wrappers

  // ---------------------------------------------------------------- truthiness

  /** A string that JavaScript treats as true: present and not empty. */
  predicate Present(s: Option<string>) {
    s.Some? && s.value != ""
  }

  /** `s || fallback` on a string that may be absent. */
  function OrElse(s: Option<string>, fallback: string): (r: string)
    ensures Present(s) ==> r == s.value
    ensures !Present(s) ==> r == fallback
  {
    if Present(s) then s.value else fallback
  }

  // ---------------------------------------------------------------- case

  /** Lower-cases the ASCII letters; other characters are kept. */
  function LowerChar(c: char): char {
    if 'A' <= c <= 'Z' then (c as int + 32) as char else c
  }

  /** `s.toLowerCase()`, restricted to ASCII case mapping. */
  function Lower(s: string): (r: string)
    ensures |r| == |s|
  {
    seq(|s|, i requires 0 <= i < |s| => LowerChar(s[i]))
  }

  // ---------------------------------------------------------------- includes

  /** `pattern` occurs in `text` starting at offset `i`. */
  predicate OccursAt(text: string, pattern: string, i: nat) {
    i + |pattern| <= |text| && text[i..i + |pattern|] == pattern
  }

  /** `text.includes(pattern)`: `pattern` occurs in `text` at some offset. */
  predicate Contains(text: string, pattern: string) {
    exists i: nat :: i <= |text| && OccursAt(text, pattern, i)
  }

  /** Every string includes the empty string. */
  lemma ContainsEmpty(text: string)
    ensures Contains(text, "")
  {
    assert OccursAt(text, "", 0);
  }

  // ---------------------------------------------------------------- trim

  /** The white-space and line-terminator characters that `trim` removes. */
  predicate IsSpace(c: char) {
    c == ' ' || c == '\t' || c == '\n' || c == '\r' || c == '\U{000B}' || c == '\U{000C}'
    || c == '\U{00A0}' || c == '\U{1680}' || ('\U{2000}' <= c <= '\U{200A}')
    || c == '\U{2028}' || c == '\U{2029}' || c == '\U{202F}' || c == '\U{205F}'
    || c == '\U{3000}' || c == '\U{FEFF}'
  }

  predicate AllSpace(s: string) {
    forall i :: 0 <= i < |s| ==> IsSpace(s[i])
  }

  function TrimStart(s: string): (r: string)
    decreases |s|
  {
    if |s| > 0 && IsSpace(s[0]) then TrimStart(s[1..]) else s
  }

  function TrimEnd(s: string): (r: string)
    decreases |s|
  {
    if |s| > 0 && IsSpace(s[|s| - 1]) then TrimEnd(s[..|s| - 1]) else s
  }

  /** `s.trim()`. */
  function Trim(s: string): string {
    TrimEnd(TrimStart(s))
  }

  /** Removing leading white space leaves a suffix that does not start with any. */
  lemma {:induction false} TrimStartShape(s: string) returns (k: nat)
    ensures k <= |s| && TrimStart(s) == s[k..] && AllSpace(s[..k])
    ensures TrimStart(s) == [] || !IsSpace(TrimStart(s)[0])
    decreases |s|
  {
    if |s| > 0 && IsSpace(s[0]) {
      var k' := TrimStartShape(s[1..]);
      k := k' + 1;
      assert TrimStart(s) == s[k..];
      forall i | 0 <= i < k ensures IsSpace(s[i]) {
        if i > 0 { assert s[i] == s[1..][..k'][i - 1]; }
      }
    } else {
      k := 0;
    }
  }

  /** Removing trailing white space leaves a prefix that does not end with any. */
  lemma {:induction false} TrimEndShape(s: string) returns (k: nat)
    ensures k <= |s| && TrimEnd(s) == s[..k] && AllSpace(s[k..])
    ensures TrimEnd(s) == [] || !IsSpace(TrimEnd(s)[|TrimEnd(s)| - 1])
    decreases |s|
  {
    if |s| > 0 && IsSpace(s[|s| - 1]) {
      var s' := s[..|s| - 1];
      k := TrimEndShape(s');
      assert TrimEnd(s) == s[..k];
      forall i | k <= i < |s| ensures IsSpace(s[i]) {
        if i < |s| - 1 { assert s[i] == s'[k..][i - k]; }
      }
    } else {
      k := |s|;
      assert TrimEnd(s) == s[..|s|];
    }
  }

  /** `trim` removes white space at both ends only: the input is the result
    * surrounded by white space, and the result neither starts nor ends with any. */
  lemma TrimShape(s: string) returns (i: nat, j: nat)
    ensures i <= j <= |s| && Trim(s) == s[i..j] && AllSpace(s[..i]) && AllSpace(s[j..])
    ensures Trim(s) == [] || (!IsSpace(Trim(s)[0]) && !IsSpace(Trim(s)[|Trim(s)| - 1]))
  {
    i := TrimStartShape(s);
    var t := s[i..];
    var k := TrimEndShape(t);
    j := i + k;
    assert Trim(s) == s[i..j];
    assert s[j..] == t[k..];
    if Trim(s) != [] {
      assert Trim(s)[0] == TrimStart(s)[0];
    }
  }

  /** `trim` gives the empty string exactly when the input is all white space. */
  lemma TrimEmptyIffAllSpace(s: string)
    ensures Trim(s) == "" <==> AllSpace(s)
  {
    var i, j := TrimShape(s);
    if Trim(s) == "" {
      forall n | 0 <= n < |s| ensures IsSpace(s[n]) {
        if n < i { assert s[n] == s[..i][n]; } else { assert s[n] == s[j..][n - j]; }
      }
    } else {
      assert !IsSpace(s[i]) by { assert s[i] == Trim(s)[0]; }
    }
  }

  /** Trimming twice is trimming once. */
  lemma TrimIdempotent(s: string)
    ensures Trim(Trim(s)) == Trim(s)
  {
    var i, j := TrimShape(s);
    var t := Trim(s);
    if t != [] {
      assert TrimStart(t) == t;
      assert TrimEnd(t) == t;
    }
  }

  // ---------------------------------------------------------------- filter(Boolean).join

  /** `parts.filter(Boolean)`: drops `undefined`/`null` and the empty string, keeping order. */
  function FilterTruthy(parts: seq<Option<string>>): (r: seq<string>)
    ensures |r| <= |parts|
    ensures forall k :: 0 <= k < |r| ==> r[k] != ""
  {
    if parts == [] then []
    else (match parts[0] case Some(p) => if p != "" then [p] else [] case None => [])
         + FilterTruthy(parts[1..])
  }

  /** `FilterTruthy` distributes over concatenation: order is kept. */
  lemma {:induction false} FilterTruthyAppend(a: seq<Option<string>>, b: seq<Option<string>>)
    ensures FilterTruthy(a + b) == FilterTruthy(a) + FilterTruthy(b)
  {
    if a != [] {
      assert (a + b)[1..] == a[1..] + b;
      FilterTruthyAppend(a[1..], b);
    } else {
      assert a + b == b;
    }
  }

  /** `parts.join(sep)`. */
  function Join(parts: seq<string>, sep: string): string {
    if |parts| == 0 then "" else if |parts| == 1 then parts[0] else parts[0] + sep + Join(parts[1..], sep)
  }

  /** A join starts with its first part and ends with its last part, so with
    * non-empty parts there is no leading or trailing separator. */
  lemma {:induction false} JoinEnds(parts: seq<string>, sep: string)
    requires |parts| > 0
    ensures |parts[0]| <= |Join(parts, sep)| && Join(parts, sep)[..|parts[0]|] == parts[0]
    ensures var j := Join(parts, sep); var last := parts[|parts| - 1];
      |last| <= |j| && j[|j| - |last|..] == last
  {
    if |parts| > 1 {
      JoinEnds(parts[1..], sep);
      var rest := Join(parts[1..], sep);
      var last := parts[|parts| - 1];
      assert parts[1..][|parts[1..]| - 1] == last;
      var j := parts[0] + sep + rest;
      assert j[|j| - |last|..] == rest[|rest| - |last|..];
    }
  }

  /** Joining non-empty parts is empty exactly when there are no parts. */
  lemma JoinEmptyIff(parts: seq<string>, sep: string)
    requires forall k :: 0 <= k < |parts| ==> parts[k] != ""
    ensures Join(parts, sep) == "" <==> parts == []
  {
    if parts != [] {
      JoinEnds(parts, sep);
    }
  }

  // ---------------------------------------------------------------- number to text

  function DigitChar(d: nat): char
    requires d < 10
  {
    ('0' as int + d) as char
  }

  predicate IsDigit(c: char) { '0' <= c <= '9' }

  predicate AllDigits(s: string) { forall i :: 0 <= i < |s| ==> IsDigit(s[i]) }

  /** The decimal text of a natural number, without leading zeros. */
  function NatToString(n: nat): (r: string)
    decreases n
  {
    if n < 10 then [DigitChar(n)] else NatToString(n / 10) + [DigitChar(n % 10)]
  }

  /** The text that a template literal `${n}` gives for an integer `n`. */
  function IntToString(n: int): string {
    if n < 0 then "-" + NatToString(-n) else NatToString(n)
  }

  function ParseDigits(s: string): nat
    requires AllDigits(s)
  {
    if s == [] then 0 else 10 * ParseDigits(s[..|s| - 1]) + (s[|s| - 1] as int - '0' as int)
  }

  /** Reads back an optional minus sign followed by decimal digits. */
  function ParseInt(s: string): int
    requires |s| > 0 && (if s[0] == '-' then AllDigits(s[1..]) else AllDigits(s))
  {
    if s[0] == '-' then 0 - ParseDigits(s[1..]) else ParseDigits(s)
  }

  lemma {:induction false} NatToStringRoundTrip(n: nat)
    ensures |NatToString(n)| > 0 && AllDigits(NatToString(n))
    ensures NatToString(n)[0] != '-'
    ensures NatToString(n)[0] == '0' <==> n == 0
    ensures ParseDigits(NatToString(n)) == n
    decreases n
  {
    if n >= 10 {
      NatToStringRoundTrip(n / 10);
      var s := NatToString(n);
      assert s[..|s| - 1] == NatToString(n / 10);
      assert s[0] == NatToString(n / 10)[0];
    }
  }

  /** The decimal text of an integer reads back as that integer; it starts with a
    * minus sign exactly for a negative integer, and has no leading zero. */
  lemma IntToStringRoundTrip(n: int)
    ensures var s := IntToString(n);
      |s| > 0 && (if s[0] == '-' then AllDigits(s[1..]) else AllDigits(s)) && ParseInt(s) == n
    ensures IntToString(n)[0] == '-' <==> n < 0
    ensures n < 0 ==> |IntToString(n)| > 1 && IntToString(n)[1] != '0'
    ensures n > 0 ==> IntToString(n)[0] != '0'
  {
    if n < 0 {
      NatToStringRoundTrip(-n);
      assert IntToString(n)[1..] == NatToString(-n);
    } else {
      NatToStringRoundTrip(n);
    }
  }
}
