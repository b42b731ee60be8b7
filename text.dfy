/**
 * The few Python string and list operations the system relies on: slicing
 * (`s[:n]`, `s[-n:]`), substring tests (`w in s`), `str.strip`, `str.upper`,
 * `str.join` and `str(n)` for a natural number.
 */
module Text {

  function Min(a: int, b: int): int { if a < b then a else b }

  /** `s[:n]`: the first `n` elements, or all of them when there are fewer. */
  function Take<T>(s: seq<T>, n: nat): (r: seq<T>)
    ensures |r| == Min(n, |s|)
    ensures r == s[..|r|]
  {
    if n < |s| then s[..n] else s
  }

  /**
   * `s[-n:]`: the last `n` elements, or all of them when there are fewer.
   * As in Python, `s[-0:]` is the whole sequence.
   */
  function Last<T>(s: seq<T>, n: nat): (r: seq<T>)
    ensures n > 0 ==> |r| == Min(n, |s|)
    ensures n == 0 ==> |r| == |s|
  {
    if n == 0 || |s| <= n then s else s[|s| - n..]
  }

  /** `s[-n:]` is a suffix of `s`. */
  lemma LastIsSuffix<T>(s: seq<T>, n: nat)
    ensures Last(s, n) == s[|s| - |Last(s, n)|..]
  {
  }

  /** Taking the last `n` of the last `m >= n` is taking the last `n`. */
  lemma LastOfLast<T>(s: seq<T>, m: nat, n: nat)
    requires 0 < n <= m
    ensures Last(Last(s, m), n) == Last(s, n)
  {
    var t := Last(s, m);
    if |t| > n {
      assert t[|t| - n..] == s[|s| - n..];
    }
  }

  /** Elements in front of at least `n` others never reach `s[-n:]`. */
  lemma LastOfAppend<T>(a: seq<T>, b: seq<T>, n: nat)
    requires 0 < n <= |b|
    ensures Last(a + b, n) == Last(b, n)
  {
    assert (a + b)[|a + b| - n..] == b[|b| - n..];
  }

  /** Cutting back to `n` before appending `x` and again after is cutting back once after. */
  lemma LastAppendLast<T>(s: seq<T>, x: T, n: nat)
    requires n > 0
    ensures Last(Last(s, n) + [x], n) == Last(s + [x], n)
  {
    if |s| > n {
      var t := Last(s, n) + [x];
      assert t[|t| - n..] == (s + [x])[|s| + 1 - n..];
    }
  }

  /** `s[:200] + "..."`, the snippet shown for a retrieved document or a search hit. */
  function Snippet(s: string): (r: string)
    ensures |r| == Min(200, |s|) + 3
    ensures r[..|r| - 3] == s[..|r| - 3]
    ensures r[|r| - 3..] == "..."
    ensures |s| <= 200 ==> r == s + "..."
  {
    Take(s, 200) + "..."
  }

  // ---------------------------------------------------------------------------
  // Substring test: Python's `w in s` on strings

  predicate OccursAt(s: string, w: string, i: int) {
    0 <= i && i + |w| <= |s| && forall k | 0 <= k < |w| :: s[i + k] == w[k]
  }

  predicate Contains(s: string, w: string) {
    exists i | 0 <= i <= |s| - |w| :: OccursAt(s, w, i)
  }

  /** A string containing `w` still contains it with any text around it. */
  lemma ContainsInContext(a: string, b: string, c: string, w: string)
    requires Contains(b, w)
    ensures Contains(a + b + c, w)
  {
    var i :| 0 <= i <= |b| - |w| && OccursAt(b, w, i);
    var t := a + b + c;
    assert OccursAt(t, w, |a| + i);
  }

  // ---------------------------------------------------------------------------
  // str.strip and str.upper

  /** The characters for which Python's `str.isspace` holds. */
  predicate IsSpace(c: char) {
    c == ' ' || ('\t' <= c <= '\r') || ('\U{1c}' <= c <= '\U{1f}') ||
    c == '\U{85}' || c == '\U{a0}' || c == '\U{1680}' || ('\U{2000}' <= c <= '\U{200a}') ||
    c == '\U{2028}' || c == '\U{2029}' || c == '\U{202f}' || c == '\U{205f}' || c == '\U{3000}'
  }

  /** A non-empty needle without white space, such as a routing label. */
  predicate Word(w: string) {
    |w| > 0 && forall k | 0 <= k < |w| :: !IsSpace(w[k])
  }

  function TrimStart(s: string): string {
    if |s| > 0 && IsSpace(s[0]) then TrimStart(s[1..]) else s
  }

  function TrimEnd(s: string): string {
    if |s| > 0 && IsSpace(s[|s| - 1]) then TrimEnd(s[..|s| - 1]) else s
  }

  /** `s.strip()` */
  function Strip(s: string): string {
    TrimEnd(TrimStart(s))
  }

  lemma {:induction false} TrimStartAt(s: string) returns (i: nat)
    ensures i <= |s| && TrimStart(s) == s[i..]
    ensures forall k | 0 <= k < i :: IsSpace(s[k])
  {
    if |s| > 0 && IsSpace(s[0]) {
      var i' := TrimStartAt(s[1..]);
      i := i' + 1;
      assert s[1..][i'..] == s[i..];
    } else {
      i := 0;
    }
  }

  lemma {:induction false} TrimEndAt(s: string) returns (j: nat)
    ensures j <= |s| && TrimEnd(s) == s[..j]
    ensures forall k | j <= k < |s| :: IsSpace(s[k])
  {
    if |s| > 0 && IsSpace(s[|s| - 1]) {
      j := TrimEndAt(s[..|s| - 1]);
      assert s[..|s| - 1][..j] == s[..j];
    } else {
      j := |s|;
    }
  }

  /** `s.strip()` is a slice of `s` with only white space cut off on either side. */
  lemma StripAt(s: string) returns (i: nat, j: nat)
    ensures i <= j <= |s| && Strip(s) == s[i..j]
    ensures forall k | 0 <= k < i :: IsSpace(s[k])
    ensures forall k | j <= k < |s| :: IsSpace(s[k])
  {
    i := TrimStartAt(s);
    var j' := TrimEndAt(s[i..]);
    j := i + j';
    assert s[i..][..j'] == s[i..j];
    forall k | j <= k < |s| ensures IsSpace(s[k]) {
      assert s[k] == s[i..][k - i];
    }
  }

  /** Cutting white space off both ends of `t` neither adds nor removes an occurrence of a word. */
  lemma BorderedContains(t: string, i: nat, j: nat, w: string)
    requires i <= j <= |t| && Word(w)
    requires forall k | 0 <= k < i :: IsSpace(t[k])
    requires forall k | j <= k < |t| :: IsSpace(t[k])
    ensures Contains(t[i..j], w) <==> Contains(t, w)
  {
    if Contains(t[i..j], w) {
      var p :| 0 <= p <= |t[i..j]| - |w| && OccursAt(t[i..j], w, p);
      assert OccursAt(t, w, i + p);
    }
    if Contains(t, w) {
      var p :| 0 <= p <= |t| - |w| && OccursAt(t, w, p);
      assert t[p + 0] == w[0] && t[p + (|w| - 1)] == w[|w| - 1];
      assert i <= p && p + |w| <= j;
      assert OccursAt(t[i..j], w, p - i);
    }
  }

  /** `w in s.strip()` exactly when `w in s`, for a word `w`. */
  lemma StripContains(s: string, w: string)
    requires Word(w)
    ensures Contains(Strip(s), w) <==> Contains(s, w)
  {
    var i, j := StripAt(s);
    BorderedContains(s, i, j, w);
  }

  function UpperChar(c: char): char {
    if 'a' <= c <= 'z' then (c as int - 32) as char else c
  }

  /** `s.upper()`, for the ASCII letters. */
  function Upper(s: string): (r: string)
    ensures |r| == |s|
    ensures forall k | 0 <= k < |s| :: r[k] == UpperChar(s[k])
  {
    seq(|s|, k requires 0 <= k < |s| => UpperChar(s[k]))
  }

  function LowerChar(c: char): char {
    if 'A' <= c <= 'Z' then (c as int + 32) as char else c
  }

  /** `s.lower()`, for the ASCII letters. */
  function Lower(s: string): (r: string)
    ensures |r| == |s|
    ensures forall k | 0 <= k < |s| :: r[k] == LowerChar(s[k])
  {
    seq(|s|, k requires 0 <= k < |s| => LowerChar(s[k]))
  }

  /** `w in s.strip().upper()` exactly when `w in s.upper()`, for a word `w`. */
  lemma UpperStripContains(s: string, w: string)
    requires Word(w)
    ensures Contains(Upper(Strip(s)), w) <==> Contains(Upper(s), w)
  {
    var i, j := StripAt(s);
    assert Upper(s[i..j]) == Upper(s)[i..j];
    BorderedContains(Upper(s), i, j, w);
  }

  // ---------------------------------------------------------------------------
  // str.join and str(n)

  /** `sep.join(parts)` */
  function Join(sep: string, parts: seq<string>): string
    decreases |parts|
  {
    if |parts| == 0 then ""
    else if |parts| == 1 then parts[0]
    else parts[0] + sep + Join(sep, parts[1..])
  }

  function DigitChar(d: nat): (c: char)
    requires d < 10
    ensures '0' <= c <= '9'
  {
    "0123456789"[d]
  }

  /** `str(n)` for a natural number: its decimal digits. */
  function NatToString(n: nat): (r: string)
    ensures |r| > 0
    ensures forall k | 0 <= k < |r| :: '0' <= r[k] <= '9'
  {
    if n < 10 then [DigitChar(n)] else NatToString(n / 10) + [DigitChar(n % 10)]
  }

  /** The value of a string of decimal digits. */
  function DecimalValue(s: string): nat
    requires forall k | 0 <= k < |s| :: '0' <= s[k] <= '9'
  {
    if s == [] then 0 else DecimalValue(s[..|s| - 1]) * 10 + (s[|s| - 1] as int - '0' as int)
  }

  /** Reading back `str(n)` gives `n`. */
  lemma {:induction false} DecimalRoundTrip(n: nat)
    ensures DecimalValue(NatToString(n)) == n
  {
    var s := NatToString(n);
    if n >= 10 {
      DecimalRoundTrip(n / 10);
      assert s[..|s| - 1] == NatToString(n / 10);
      assert s[|s| - 1] == DigitChar(n % 10);
    }
  }

  /** Different numbers are written differently. */
  lemma NatToStringInjective(a: nat, b: nat)
    ensures NatToString(a) == NatToString(b) ==> a == b
  {
    DecimalRoundTrip(a);
    DecimalRoundTrip(b);
  }
}
