/**
 * String helpers with the behaviour of the JavaScript built-ins the query
 * builder relies on: `String.prototype.trim`, the rendering of an integer in
 * a template literal, and joining.
 */
module Text {

  /** True when `p` is a prefix of `s`. */
  predicate IsPrefix(p: string, s: string) {
    |p| <= |s| && s[..|p|] == p
  }

  /** True when `p` is a suffix of `s`. */
  predicate IsSuffix(p: string, s: string) {
    |p| <= |s| && s[|s| - |p|..] == p
  }

  /**
   * The characters `trim` removes: ECMAScript WhiteSpace (tab, vertical tab,
   * form feed, space, no-break space, byte order mark and the Zs category)
   * and LineTerminator (line feed, carriage return, line and paragraph
   * separators). Characters 9 to 13 are tab, line feed, vertical tab, form
   * feed and carriage return.
   */
  predicate IsWhitespace(c: char) {
    c == ' ' || ('\t' <= c <= '\r') || ('\U{A0}' <= c && IsWideWhitespace(c))
  }

  /** The whitespace characters outside ASCII. */
  predicate IsWideWhitespace(c: char) {
    c == '\U{A0}' || c == '\U{1680}' || ('\U{2000}' <= c <= '\U{200A}') || c == '\U{2028}' || c == '\U{2029}'
    || c == '\U{202F}' || c == '\U{205F}' || c == '\U{3000}' || c == '\U{FEFF}'
  }

  predicate HasNonWhitespace(s: string) {
    exists i :: 0 <= i < |s| && !IsWhitespace(s[i])
  }

  /** Neither end of `s` is whitespace: what `trim` returns. */
  predicate IsTrimmed(s: string) {
    s == [] || (!IsWhitespace(s[0]) && !IsWhitespace(s[|s| - 1]))
  }

  /** `s` without its leading whitespace. */
  function TrimStart(s: string): (r: string)
    ensures |r| <= |s| && r == s[|s| - |r|..]
    ensures r == [] || !IsWhitespace(r[0])
  {
    if s != [] && IsWhitespace(s[0]) then TrimStart(s[1..]) else s
  }

  /** `s` without its trailing whitespace. */
  function TrimEnd(s: string): (r: string)
    ensures |r| <= |s| && r == s[..|r|]
    ensures r == [] || !IsWhitespace(r[|r| - 1])
  {
    if s != [] && IsWhitespace(s[|s| - 1]) then TrimEnd(s[..|s| - 1]) else s
  }

  /** What `TrimStart` removes is whitespace only. */
  lemma {:induction false} TrimStartRemovesWhitespace(s: string)
    ensures forall i :: 0 <= i < |s| - |TrimStart(s)| ==> IsWhitespace(s[i])
  {
    if s != [] && IsWhitespace(s[0]) {
      TrimStartRemovesWhitespace(s[1..]);
      forall i | 1 <= i < |s| - |TrimStart(s)| ensures IsWhitespace(s[i]) {
        assert s[1..][i - 1] == s[i];
      }
    }
  }

  /** What `TrimEnd` removes is whitespace only. */
  lemma {:induction false} TrimEndRemovesWhitespace(s: string)
    ensures forall i :: |TrimEnd(s)| <= i < |s| ==> IsWhitespace(s[i])
  {
    if s != [] && IsWhitespace(s[|s| - 1]) {
      TrimEndRemovesWhitespace(s[..|s| - 1]);
      forall i | |TrimEnd(s)| <= i < |s| - 1 ensures IsWhitespace(s[i]) {
        assert s[..|s| - 1][i] == s[i];
      }
    }
  }

  /** `String.prototype.trim`. */
  function Trim(s: string): string {
    TrimEnd(TrimStart(s))
  }

  /** `trim` returns a trimmed string, which is empty only for an all-whitespace input. */
  lemma TrimIsTrimmed(s: string)
    ensures IsTrimmed(Trim(s))
    ensures Trim(s) == [] <==> !HasNonWhitespace(s)
  {
    var t := TrimStart(s);
    var r := TrimEnd(t);
    assert r == Trim(s);
    if r != [] {
      assert r[0] == t[0];
      assert t[0] == s[|s| - |t|];
      assert HasNonWhitespace(s);
    } else {
      TrimStartRemovesWhitespace(s);
      TrimEndRemovesWhitespace(t);
      assert t == [];
    }
  }

  /** A string that is already trimmed is left alone. */
  lemma TrimmedIsFixpoint(s: string)
    requires IsTrimmed(s)
    ensures TrimStart(s) == s && TrimEnd(s) == s && Trim(s) == s
  {
  }

  /** Trailing whitespace of `a + b` lies in `b` once `b` holds something else. */
  lemma {:induction false} TrimEndAppend(a: string, b: string)
    requires HasNonWhitespace(b)
    ensures TrimEnd(a + b) == a + TrimEnd(b)
  {
    var n := |b|;
    if IsWhitespace(b[n - 1]) {
      var i :| 0 <= i < n && !IsWhitespace(b[i]);
      assert i < n - 1;
      assert b[..n - 1][i] == b[i];
      TrimEndAppend(a, b[..n - 1]);
      assert (a + b)[..|a + b| - 1] == a + b[..n - 1];
    } else {
      assert (a + b)[|a + b| - 1] == b[n - 1];
    }
  }

  /** Leading whitespace of `a + b` lies in `a` once `a` holds something else. */
  lemma {:induction false} TrimStartAppend(a: string, b: string)
    requires HasNonWhitespace(a)
    ensures TrimStart(a + b) == TrimStart(a) + b
  {
    var ab := a + b;
    assert ab[0] == a[0];
    if IsWhitespace(a[0]) {
      var rest := a[1..];
      assert HasNonWhitespace(rest) by {
        var i :| 0 <= i < |a| && !IsWhitespace(a[i]);
        assert rest[i - 1] == a[i];
      }
      assert ab[1..] == rest + b;
      TrimStartAppend(rest, b);
    }
  }

  /** An all-whitespace prefix disappears under `TrimStart`. */
  lemma {:induction false} TrimStartBlankPrefix(a: string, b: string)
    requires !HasNonWhitespace(a)
    ensures TrimStart(a + b) == TrimStart(b)
  {
    if a == [] {
      assert a + b == b;
    } else {
      var ab := a + b;
      assert ab[0] == a[0];
      assert IsWhitespace(a[0]);
      assert !HasNonWhitespace(a[1..]) by {
        forall i | 0 <= i < |a[1..]| ensures IsWhitespace(a[1..][i]) {
          assert a[1..][i] == a[i + 1];
        }
      }
      assert ab[1..] == a[1..] + b;
      TrimStartBlankPrefix(a[1..], b);
      assert TrimStart(ab) == TrimStart(ab[1..]);
    }
  }

  /** An all-whitespace suffix disappears under `TrimEnd`. */
  lemma {:induction false} TrimEndBlankSuffix(a: string, b: string)
    requires !HasNonWhitespace(b)
    ensures TrimEnd(a + b) == TrimEnd(a)
  {
    if b != [] {
      var ab := a + b;
      var n := |b|;
      assert ab[|ab| - 1] == b[n - 1];
      assert IsWhitespace(b[n - 1]);
      var init := b[..n - 1];
      assert !HasNonWhitespace(init) by {
        forall i | 0 <= i < |init| ensures IsWhitespace(init[i]) {
          assert init[i] == b[i];
        }
      }
      assert ab[..|ab| - 1] == a + b[..n - 1];
      TrimEndBlankSuffix(a, b[..n - 1]);
    } else {
      assert a + b == a;
    }
  }

  /** Trimming a prefix that starts with a non-blank character followed by a body that holds one. */
  lemma TrimAfterPrefix(prefix: string, body: string)
    requires HasNonWhitespace(body)
    requires prefix != [] ==> !IsWhitespace(prefix[0])
    ensures Trim(prefix + body) != [] && IsTrimmed(Trim(prefix + body))
    ensures prefix != [] ==> Trim(prefix + body) == prefix + TrimEnd(body) && IsPrefix(prefix, Trim(prefix + body))
  {
    var s := prefix + body;
    assert HasNonWhitespace(s) by {
      var i :| 0 <= i < |body| && !IsWhitespace(body[i]);
      assert s[|prefix| + i] == body[i];
    }
    TrimIsTrimmed(s);
    if prefix != [] {
      assert s[0] == prefix[0];
      assert TrimStart(s) == s;
      TrimEndAppend(prefix, body);
      assert (prefix + TrimEnd(body))[..|prefix|] == prefix;
    }
  }

  /** `TrimEnd` only removes characters from the end, so a prefix of its result is a prefix of its input. */
  lemma PrefixOfTrimEnd(p: string, s: string)
    ensures IsPrefix(p, TrimEnd(s)) ==> IsPrefix(p, s)
  {
    var r := TrimEnd(s);
    if |p| <= |r| {
      assert s[..|p|] == r[..|p|];
    }
  }

  /** A string that starts with a non-whitespace character is trimmed at its end only. */
  lemma TrimOfNonBlankStart(s: string)
    requires s != [] && !IsWhitespace(s[0])
    ensures Trim(s) == TrimEnd(s)
    ensures TrimEnd(s) != [] && TrimEnd(s)[0] == s[0] && IsTrimmed(TrimEnd(s))
  {
  }

  /** The text of a decimal digit. */
  function DigitChar(d: nat): (c: char)
    requires d < 10
    ensures '0' <= c <= '9'
  {
    "0123456789"[d]
  }

  /** A natural number as a template literal renders it: decimal, no leading zeros. */
  function NatToString(n: nat): (r: string)
    ensures r != []
    ensures forall i :: 0 <= i < |r| ==> '0' <= r[i] <= '9'
    ensures |r| > 1 ==> r[0] != '0'
  {
    if n < 10 then [DigitChar(n)] else NatToString(n / 10) + [DigitChar(n % 10)]
  }

  /** An integer as a template literal renders it: a minus sign for negatives, then the digits. */
  function IntToString(i: int): (r: string)
    ensures r != [] && IsTrimmed(r)
    ensures (r[0] == '-') <==> i < 0
    ensures forall k :: (if i < 0 then 1 else 0) <= k < |r| ==> '0' <= r[k] <= '9'
  {
    if i < 0 then "-" + NatToString(-i) else NatToString(i)
  }

  /** The value of a string of decimal digits: the inverse of `NatToString`. */
  function DigitsValue(s: string): nat
    requires forall i :: 0 <= i < |s| ==> '0' <= s[i] <= '9'
  {
    if s == [] then 0 else 10 * DigitsValue(s[..|s| - 1]) + (s[|s| - 1] as int - '0' as int)
  }

  /** Rendering a natural number loses nothing: reading the digits back gives the number. */
  lemma {:induction false} NatToStringRoundTrip(n: nat)
    ensures DigitsValue(NatToString(n)) == n
  {
    if n >= 10 {
      var r := NatToString(n);
      NatToStringRoundTrip(n / 10);
      assert r[..|r| - 1] == NatToString(n / 10);
    }
  }

  /** Every piece is non-empty and trimmed: what `trim` gives for a string with visible text. */
  predicate AllTrimmedPieces(xs: seq<string>) {
    forall i :: 0 <= i < |xs| ==> xs[i] != [] && IsTrimmed(xs[i])
  }

  lemma AppendTrimmedPieces(xs: seq<string>, ys: seq<string>)
    requires AllTrimmedPieces(xs) && AllTrimmedPieces(ys)
    ensures AllTrimmedPieces(xs + ys)
  {
    forall i | 0 <= i < |xs + ys| ensures (xs + ys)[i] != [] && IsTrimmed((xs + ys)[i]) {
      if i < |xs| {
        assert (xs + ys)[i] == xs[i];
      } else {
        assert (xs + ys)[i] == ys[i - |xs|];
      }
    }
  }

  /** `xs[0] + sep + xs[1] + ... + sep + xs[n-1]`, associated to the left as a `reduce` builds it. */
  function Join(xs: seq<string>, sep: string): (r: string)
  {
    if xs == [] then ""
    else if |xs| == 1 then xs[0]
    else Join(xs[..|xs| - 1], sep) + sep + xs[|xs| - 1]
  }

  /** Joining one more piece. */
  lemma JoinAppend(xs: seq<string>, x: string, sep: string)
    ensures Join(xs + [x], sep) == if xs == [] then x else Join(xs, sep) + sep + x
  {
    var ys := xs + [x];
    assert ys[..|ys| - 1] == xs;
  }

  /** Joining non-empty trimmed pieces gives a non-empty trimmed string. */
  lemma {:induction false} JoinTrimmed(xs: seq<string>, sep: string)
    requires AllTrimmedPieces(xs)
    ensures xs != [] ==> Join(xs, sep) != [] && IsTrimmed(Join(xs, sep))
    ensures xs != [] ==> Join(xs, sep)[0] == xs[0][0]
  {
    if |xs| > 1 {
      JoinTrimmed(xs[..|xs| - 1], sep);
      assert xs[..|xs| - 1][0] == xs[0];
    }
  }
}
