/**
 * The pieces of Go's standard library the handlers lean on, written out:
 * `strconv.Atoi`, `strconv.ParseBool`, `strings.TrimSpace`, `len` on a
 * string (a UTF-8 byte count), and the `strings.TrimRight(path, "/")` /
 * `strings.Split(.., "/")` pair used to take the last segment of a path.
 * A Go string is read here as the sequence of Unicode scalar values it
 * encodes in UTF-8.
 */
module GoText {
  import opened Wrappers

  /** Go's `int` is 64 bits wide on the platforms the services run on. */
  const MinInt: int := -0x8000_0000_0000_0000
  const MaxInt: int := 0x7FFF_FFFF_FFFF_FFFF

  // ---------------------------------------------------------------------------
  // unicode.IsSpace and strings.TrimSpace
  // ---------------------------------------------------------------------------

  /** Unicode's White_Space property, which is what `unicode.IsSpace` tests. */
  predicate IsSpace(c: char)
  {
    || c == '\t' || c == '\n' || c == '\U{0B}' || c == '\U{0C}' || c == '\r' || c == ' '
    || c == '\U{85}' || c == '\U{A0}' || c == '\U{1680}'
    || ('\U{2000}' <= c <= '\U{200A}')
    || c == '\U{2028}' || c == '\U{2029}' || c == '\U{202F}' || c == '\U{205F}' || c == '\U{3000}'
  }

  predicate AllSpace(s: string)
  {
    forall k :: 0 <= k < |s| ==> IsSpace(s[k])
  }

  /** `strings.TrimLeftFunc(s, unicode.IsSpace)`: drops exactly the leading white space. */
  function TrimLeadingSpace(s: string): (r: string)
    ensures |r| <= |s| && r == s[|s| - |r|..]
    ensures forall k :: 0 <= k < |s| - |r| ==> IsSpace(s[k])
    ensures r == [] || !IsSpace(r[0])
  {
    if |s| > 0 && IsSpace(s[0]) then TrimLeadingSpace(s[1..]) else s
  }

  /** `strings.TrimRightFunc(s, unicode.IsSpace)`: drops exactly the trailing white space. */
  function TrimTrailingSpace(s: string): (r: string)
    ensures |r| <= |s| && r == s[..|r|]
    ensures forall k :: |r| <= k < |s| ==> IsSpace(s[k])
    ensures r == [] || !IsSpace(r[|r| - 1])
  {
    if |s| > 0 && IsSpace(s[|s| - 1]) then TrimTrailingSpace(s[..|s| - 1]) else s
  }

  /** `strings.TrimSpace`. */
  function TrimSpace(s: string): (r: string)
    ensures r == [] <==> AllSpace(s)
    ensures r == [] || (!IsSpace(r[0]) && !IsSpace(r[|r| - 1]))
    ensures |r| <= |s|
  {
    var left := TrimLeadingSpace(s);
    var r := TrimTrailingSpace(left);
    assert r == [] ==> AllSpace(s) by {
      if r == [] {
        forall k | |s| - |left| <= k < |s| ensures IsSpace(s[k]) {
          assert s[k] == left[k - (|s| - |left|)];
        }
      }
    }
    r
  }

  /** TrimSpace removes white-space padding and nothing else: it gives back the core of any padded string. */
  lemma {:induction false} TrimSpaceOfPadded(pre: string, core: string, post: string)
    requires AllSpace(pre) && AllSpace(post)
    requires core == [] || (!IsSpace(core[0]) && !IsSpace(core[|core| - 1]))
    ensures TrimSpace(pre + core + post) == core
  {
    var rest := core + post;
    assert pre + core + post == pre + rest;
    LeadingSpaceOfPadded(pre, rest);
    if core == [] {
      assert rest == post;
      AllSpaceTrims(rest);
      assert TrimSpace(pre + core + post) == TrimTrailingSpace([]);
    } else {
      assert rest[0] == core[0];
      assert TrimLeadingSpace(rest) == rest;
      TrailingSpaceOfPadded(core, post);
      assert TrimSpace(pre + core + post) == TrimTrailingSpace(rest);
    }
  }

  lemma {:induction false} LeadingSpaceOfPadded(pre: string, rest: string)
    requires AllSpace(pre)
    ensures TrimLeadingSpace(pre + rest) == TrimLeadingSpace(rest)
    decreases |pre|
  {
    if pre != [] {
      var t := pre + rest;
      var tail := pre[1..];
      assert t[0] == pre[0];
      assert IsSpace(t[0]);
      assert t[1..] == tail + rest;
      assert AllSpace(tail) by {
        forall k | 0 <= k < |tail| ensures IsSpace(tail[k]) {
          assert tail[k] == pre[k + 1];
        }
      }
      LeadingSpaceOfPadded(tail, rest);
    } else {
      assert pre + rest == rest;
    }
  }

  lemma {:induction false} TrailingSpaceOfPadded(core: string, post: string)
    requires AllSpace(post)
    requires core != [] && !IsSpace(core[|core| - 1])
    ensures TrimTrailingSpace(core + post) == core
    decreases |post|
  {
    if post == [] {
      assert core + post == core;
    } else {
      assert (core + post)[..|core + post| - 1] == core + post[..|post| - 1];
      TrailingSpaceOfPadded(core, post[..|post| - 1]);
    }
  }

  lemma AllSpaceTrims(s: string)
    requires AllSpace(s)
    ensures TrimLeadingSpace(s) == []
  {
  }

  /** A string with no white space at either end is its own trimming. */
  lemma TrimSpaceUnpadded(s: string)
    requires s == [] || (!IsSpace(s[0]) && !IsSpace(s[|s| - 1]))
    ensures TrimSpace(s) == s
  {
    assert [] + s + [] == s;
    TrimSpaceOfPadded([], s, []);
  }

  /** Trimming twice is trimming once. */
  lemma TrimSpaceIdempotent(s: string)
    ensures TrimSpace(TrimSpace(s)) == TrimSpace(s)
  {
    var r := TrimSpace(s);
    assert [] + r + [] == r;
    TrimSpaceOfPadded([], r, []);
  }

  // ---------------------------------------------------------------------------
  // len on a string: the number of UTF-8 bytes
  // ---------------------------------------------------------------------------

  /** Bytes UTF-8 uses for one scalar value. */
  function Utf8Width(c: char): (n: nat)
    ensures 1 <= n <= 4
    ensures n == 1 <==> (c as int) < 0x80
  {
    if (c as int) < 0x80 then 1
    else if (c as int) < 0x800 then 2
    else if (c as int) < 0x1_0000 then 3
    else 4
  }

  /** Go's `len(s)`: the length of the UTF-8 encoding of `s`, in bytes. */
  function ByteLen(s: string): (n: nat)
    ensures |s| <= n <= 4 * |s|
    ensures n == |s| <==> forall k :: 0 <= k < |s| ==> (s[k] as int) < 0x80
  {
    if s == [] then 0 else Utf8Width(s[0]) + ByteLen(s[1..])
  }

  /** A run of one character takes that character's width once per copy. */
  lemma {:induction false} ByteLenOfRepeat(c: char, n: nat)
    ensures ByteLen(seq(n, _ => c)) == n * Utf8Width(c)
  {
    if n > 0 {
      var s := seq(n, _ => c);
      assert s[0] == c && s[1..] == seq(n - 1, _ => c);
      ByteLenOfRepeat(c, n - 1);
    }
  }

  // ---------------------------------------------------------------------------
  // strconv.Atoi
  // ---------------------------------------------------------------------------

  predicate IsDigit(c: char)
  {
    '0' <= c <= '9'
  }

  predicate AllDigits(s: string)
  {
    forall k :: 0 <= k < |s| ==> IsDigit(s[k])
  }

  /** The number a run of decimal digits denotes (leading zeros allowed). */
  function DigitsValue(s: string): nat
    requires AllDigits(s)
  {
    if s == [] then 0 else DigitsValue(s[..|s| - 1]) * 10 + (s[|s| - 1] as int - '0' as int)
  }

  /**
   * `strconv.Atoi` on a 64-bit platform: an optional '+' or '-', then at
   * least one ASCII digit and nothing else; the value must fit in an int
   * (otherwise Go reports a range error). Every failure is `None`.
   */
  function Atoi(s: string): (r: Option<int>)
    ensures r.Some? ==> MinInt <= r.value <= MaxInt
    ensures r.Some? ==> s != [] && (IsDigit(s[0]) || s[0] == '+' || s[0] == '-')
    ensures s == [] || s == "+" || s == "-" ==> r == None
    ensures r.Some? ==> forall k :: 1 <= k < |s| ==> IsDigit(s[k])
  {
    if s == [] then None
    else
      var negative := s[0] == '-';
      var digits := if s[0] == '+' || s[0] == '-' then s[1..] else s;
      if digits == [] || !AllDigits(digits) then None
      else
        var v: int := if negative then -(DigitsValue(digits) as int) else DigitsValue(digits);
        if MinInt <= v <= MaxInt then Some(v) else None
  }

  /** An unsigned run of digits is read as its value, and refused when that exceeds the 64-bit range. */
  lemma AtoiDigits(d: string)
    requires d != [] && AllDigits(d)
    ensures Atoi(d) == if DigitsValue(d) <= MaxInt then Some(DigitsValue(d) as int) else None
  {
  }

  /** A '+' sign changes nothing. */
  lemma AtoiPlus(d: string)
    requires d != [] && AllDigits(d)
    ensures Atoi("+" + d) == Atoi(d)
  {
    assert ("+" + d)[0] == '+' && ("+" + d)[1..] == d;
  }

  /** A '-' sign negates, and the range below zero reaches one further than the range above. */
  lemma AtoiMinus(d: string)
    requires d != [] && AllDigits(d)
    ensures Atoi("-" + d) == if DigitsValue(d) <= -MinInt then Some(-(DigitsValue(d) as int)) else None
  {
    assert ("-" + d)[0] == '-' && ("-" + d)[1..] == d;
  }

  lemma {:induction false} LeadingZeroValue(d: string)
    requires AllDigits(d)
    ensures AllDigits("0" + d) && DigitsValue("0" + d) == DigitsValue(d)
    decreases |d|
  {
    var z := "0" + d;
    if d == [] {
      assert z == "0";
    } else {
      var init := d[..|d| - 1];
      assert z[..|z| - 1] == "0" + init;
      assert z[|z| - 1] == d[|d| - 1];
      LeadingZeroValue(init);
    }
  }

  /** Leading zeros are read and ignored. */
  lemma AtoiLeadingZero(d: string)
    requires d != [] && AllDigits(d)
    ensures Atoi("0" + d) == Atoi(d)
  {
    LeadingZeroValue(d);
    AtoiDigits(d);
    AtoiDigits("0" + d);
  }

  /** `strconv.Itoa` for non-negative numbers: the shortest decimal numeral. */
  function Decimal(n: nat): (s: string)
    ensures s != [] && AllDigits(s)
  {
    if n < 10 then ['0' + (n as char)] else Decimal(n / 10) + ['0' + ((n % 10) as char)]
  }

  /** `strconv.Itoa`. It is the partner of Atoi: see AtoiItoa. */
  function Itoa(n: int): (s: string)
    ensures s != [] && IsDigit(s[|s| - 1])
    ensures forall k :: 0 <= k < |s| ==> IsDigit(s[k]) || (k == 0 && s[k] == '-')
  {
    if n < 0 then "-" + Decimal(-n) else Decimal(n)
  }

  lemma {:induction false} DecimalValue(n: nat)
    ensures DigitsValue(Decimal(n)) == n
  {
    if n >= 10 {
      var s := Decimal(n);
      DecimalValue(n / 10);
      assert s[..|s| - 1] == Decimal(n / 10);
    }
  }

  /** Every int survives the round trip through its decimal form. */
  lemma AtoiItoa(n: int)
    requires MinInt <= n <= MaxInt
    ensures Atoi(Itoa(n)) == Some(n)
  {
    if n < 0 {
      DecimalValue(-n);
      assert Itoa(n)[1..] == Decimal(-n);
    } else {
      DecimalValue(n);
    }
  }

  // ---------------------------------------------------------------------------
  // strconv.ParseBool
  // ---------------------------------------------------------------------------

  /** `strconv.ParseBool`: exactly twelve spellings are accepted, everything else is a syntax error. */
  function ParseBool(s: string): (r: Option<bool>)
    ensures r.Some? <==> s in ["1", "t", "T", "TRUE", "true", "True", "0", "f", "F", "FALSE", "false", "False"]
    ensures r.Some? ==> (r.value <==> s[0] == '1' || s[0] == 't' || s[0] == 'T')
  {
    if s == "1" || s == "t" || s == "T" || s == "TRUE" || s == "true" || s == "True" then Some(true)
    else if s == "0" || s == "f" || s == "F" || s == "FALSE" || s == "false" || s == "False" then Some(false)
    else None
  }

  /** `strconv.FormatBool`, the partner of ParseBool. */
  function FormatBool(b: bool): string
  {
    if b then "true" else "false"
  }

  lemma ParseFormatBool(b: bool)
    ensures ParseBool(FormatBool(b)) == Some(b)
  {
  }

  // ---------------------------------------------------------------------------
  // Path segments: strings.TrimRight(path, "/") and the last element of strings.Split(.., "/")
  // ---------------------------------------------------------------------------

  /** `strings.TrimRight(s, "/")`: drops every trailing '/'. */
  function TrimTrailingSlashes(s: string): (r: string)
    ensures |r| <= |s| && r == s[..|r|]
    ensures forall k :: |r| <= k < |s| ==> s[k] == '/'
    ensures r == [] || r[|r| - 1] != '/'
  {
    if |s| > 0 && s[|s| - 1] == '/' then TrimTrailingSlashes(s[..|s| - 1]) else s
  }

  /**
   * The last element of `strings.Split(s, "/")`: everything after the last
   * '/', or all of `s` when it has none.
   */
  function LastSegment(s: string): (r: string)
    ensures |r| <= |s| && r == s[|s| - |r|..]
    ensures forall k :: 0 <= k < |r| ==> r[k] != '/'
    ensures |r| < |s| ==> s[|s| - |r| - 1] == '/'
  {
    if s == [] || s[|s| - 1] == '/' then [] else LastSegment(s[..|s| - 1]) + [s[|s| - 1]]
  }

  /** Trailing slashes are invisible to TrimTrailingSlashes. */
  lemma {:induction false} TrimTrailingSlashesPadded(s: string, n: nat)
    ensures TrimTrailingSlashes(s + seq(n, _ => '/')) == TrimTrailingSlashes(s)
  {
    if n > 0 {
      var t := s + seq(n, _ => '/');
      assert t[..|t| - 1] == s + seq(n - 1, _ => '/');
      TrimTrailingSlashesPadded(s, n - 1);
    } else {
      assert s + seq(n, _ => '/') == s;
    }
  }

  /** What follows the last '/' is the last segment. */
  lemma {:induction false} LastSegmentAfterSlash(p: string, d: string)
    requires forall k :: 0 <= k < |d| ==> d[k] != '/'
    ensures LastSegment(p + "/" + d) == d
    decreases |d|
  {
    var s := p + "/" + d;
    if d == [] {
      assert s[|s| - 1] == '/';
    } else {
      var init := d[..|d| - 1];
      assert s[..|s| - 1] == p + "/" + init;
      assert s[|s| - 1] == d[|d| - 1];
      LastSegmentAfterSlash(p, init);
      assert init + [d[|d| - 1]] == d;
    }
  }
}
