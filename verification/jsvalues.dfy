/** The JavaScript built-ins the leaderboard handler leans on, stated over
    Dafny values: the shapes a request field can take, Number.isInteger,
    String.prototype.trim and String.prototype.slice(0, n). */
module JsValues {

  datatype Option<+T> = None | Some(value: T)

  /** What a numeric request field can be, as far as `typeof`, `Number.isNaN`,
      `Number.isInteger` and `< 0` can tell values apart. `NonNumber` stands for
      every value whose `typeof` is not 'number' (undefined, null, a string,
      a boolean, an object). */
  datatype Value =
    | NonNumber
    | NaN
    | Infinity(negative: bool)
    | Finite(x: real)

  /** Number.isInteger: a finite number without a fractional part. */
  predicate IsInteger(v: Value) {
    v.Finite? && v.x.Floor as real == v.x
  }

  /** The relational `v < 0` on a number: false for NaN, true for -Infinity. */
  predicate LessThanZero(v: Value)
    requires !v.NonNumber?
  {
    match v
    case NaN => false
    case Infinity(negative) => negative
    case Finite(x) => x < 0.0
  }

  /** The ECMAScript WhiteSpace and LineTerminator code points: the set that
      String.prototype.trim removes from both ends. */
  predicate IsWhitespace(c: char) {
    c == '\t' || c == '\n' || c == '\U{000B}' || c == '\U{000C}' || c == '\r'
    || c == ' ' || c == '\U{00A0}' || c == '\U{1680}'
    || ('\U{2000}' <= c <= '\U{200A}')
    || c == '\U{2028}' || c == '\U{2029}' || c == '\U{202F}' || c == '\U{205F}'
    || c == '\U{3000}' || c == '\U{FEFF}'
  }

  predicate AllWhitespace(s: string) {
    forall k :: 0 <= k < |s| ==> IsWhitespace(s[k])
  }

  /** Neither end of `s` is whitespace. */
  predicate Trimmed(s: string) {
    s == [] || (!IsWhitespace(s[0]) && !IsWhitespace(s[|s| - 1]))
  }

  function TrimStart(s: string): string {
    if s != [] && IsWhitespace(s[0]) then TrimStart(s[1..]) else s
  }

  function TrimEnd(s: string): string {
    if s != [] && IsWhitespace(s[|s| - 1]) then TrimEnd(s[..|s| - 1]) else s
  }

  /** String.prototype.trim */
  function Trim(s: string): string {
    TrimEnd(TrimStart(s))
  }

  /** String.prototype.slice(0, n) for a non-negative n: the first n
      characters, or all of them when there are fewer. */
  function Slice(s: string, n: nat): (r: string)
    ensures r <= s
    ensures |r| == if |s| < n then |s| else n
  {
    if |s| <= n then s else s[..n]
  }

  /** TrimStart drops a whitespace prefix and stops at the first other character. */
  lemma {:induction false} TrimStartSplit(s: string) returns (i: nat)
    ensures i <= |s| && TrimStart(s) == s[i..] && AllWhitespace(s[..i])
    ensures TrimStart(s) == [] || !IsWhitespace(TrimStart(s)[0])
  {
    if s != [] && IsWhitespace(s[0]) {
      var k := TrimStartSplit(s[1..]);
      i := k + 1;
      assert s[1..][k..] == s[i..];
      assert forall m :: 0 < m < i ==> s[..i][m] == s[1..][..k][m - 1];
    } else {
      i := 0;
    }
  }

  /** TrimEnd drops a whitespace suffix and stops at the last other character. */
  lemma {:induction false} TrimEndSplit(s: string) returns (j: nat)
    ensures j <= |s| && TrimEnd(s) == s[..j] && AllWhitespace(s[j..])
    ensures TrimEnd(s) == [] || !IsWhitespace(TrimEnd(s)[|TrimEnd(s)| - 1])
  {
    if s != [] && IsWhitespace(s[|s| - 1]) {
      var init := s[..|s| - 1];
      j := TrimEndSplit(init);
      assert init[..j] == s[..j];
      assert forall m :: 0 <= m < |s| - j - 1 ==> s[j..][m] == init[j..][m];
    } else {
      j := |s|;
    }
  }

  /** Trim keeps one contiguous slice of its input, removes only whitespace
      around it, and the slice it keeps is itself trimmed. */
  lemma TrimSplit(s: string) returns (i: nat, j: nat)
    ensures i <= j <= |s| && Trim(s) == s[i..j]
    ensures AllWhitespace(s[..i]) && AllWhitespace(s[j..])
    ensures Trimmed(Trim(s))
  {
    i := TrimStartSplit(s);
    var k := TrimEndSplit(s[i..]);
    j := i + k;
    assert s[i..][..k] == s[i..j];
    assert s[i..][k..] == s[j..];
  }

  /** The facts about trim the sanitizers rely on. */
  lemma TrimProperties(s: string)
    ensures Trimmed(Trim(s))
    ensures |Trim(s)| <= |s|
    ensures Trim(s) == [] <==> AllWhitespace(s)
  {
    var i, j := TrimSplit(s);
    if Trim(s) == [] {
      assert i == j;
      forall k | 0 <= k < |s| ensures IsWhitespace(s[k]) {
        if k < i { assert s[..i][k] == s[k]; } else { assert s[j..][k - j] == s[k]; }
      }
    } else {
      assert Trim(s)[0] == s[i];
    }
  }

  lemma {:induction false} TrimStartSkips(w: string, u: string)
    requires AllWhitespace(w)
    requires u == [] || !IsWhitespace(u[0])
    ensures TrimStart(w + u) == u
  {
    if w == [] {
      assert w + u == u;
    } else {
      assert (w + u)[1..] == w[1..] + u;
      TrimStartSkips(w[1..], u);
    }
  }

  lemma {:induction false} TrimEndSkips(u: string, w: string)
    requires AllWhitespace(w)
    requires u == [] || !IsWhitespace(u[|u| - 1])
    ensures TrimEnd(u + w) == u
  {
    if w == [] {
      assert u + w == u;
    } else {
      var n := |w| - 1;
      assert (u + w)[..|u + w| - 1] == u + w[..n];
      assert (u + w)[|u + w| - 1] == w[n];
      TrimEndSkips(u, w[..n]);
    }
  }

  /** Trim is determined by what it keeps: whatever trimmed text sits between
      two runs of whitespace is exactly what trim returns. Together with
      TrimSplit this characterises String.prototype.trim. */
  lemma TrimFrame(lead: string, t: string, trail: string)
    requires AllWhitespace(lead) && AllWhitespace(trail) && Trimmed(t)
    ensures Trim(lead + t + trail) == t
  {
    if t == [] {
      assert lead + t + trail == lead + trail;
      TrimStartSkips(lead + trail, []);
      assert lead + trail + [] == lead + trail;
    } else {
      assert lead + t + trail == lead + (t + trail);
      TrimStartSkips(lead, t + trail);
      TrimEndSkips(t, trail);
    }
  }

  /** Trim is the identity on trimmed text, hence idempotent. */
  lemma TrimOfTrimmed(s: string)
    requires Trimmed(s)
    ensures Trim(s) == s
  {
    TrimFrame([], s, []);
    assert [] + s + [] == s;
  }
}
