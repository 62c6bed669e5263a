/** The JavaScript string built-ins the services rely on, over `string`
    (a sequence of Unicode scalar values): `split(/\s+/)`, `trim()`,
    `split('\n')`, `join`, `includes`, `startsWith`, `slice(0, n)`,
    `length` in UTF-16 code units, `toLowerCase()` and the decimal
    rendering of a non-negative integer. */
module Text {

  /** The characters JavaScript's `\s` class and `trim()` treat as white
      space: WhiteSpace and LineTerminator of ECMAScript. */
  predicate IsSpace(c: char) {
    || c == ' ' || c == '\t' || c == '\n' || c == '\r' || c == '\U{000B}' || c == '\U{000C}'
    || c == '\U{00A0}' || c == '\U{1680}' || ('\U{2000}' <= c <= '\U{200A}')
    || c == '\U{2028}' || c == '\U{2029}' || c == '\U{202F}' || c == '\U{205F}'
    || c == '\U{3000}' || c == '\U{FEFF}'
  }

  predicate NoSpace(s: string) {
    forall j :: 0 <= j < |s| ==> !IsSpace(s[j])
  }

  /** A string with no white space at either end: what `trim()` returns. */
  predicate IsTrimmed(s: string) {
    s == [] || (!IsSpace(s[0]) && !IsSpace(s[|s| - 1]))
  }

  // ---------------------------------------------------------------------
  // split(/\s+/)

  /** `s.split(/\s+/)`: the pieces between maximal runs of white space.
      Leading (trailing) white space yields an empty first (last) piece,
      and the empty string yields `[""]`. */
  function SplitWs(s: string): (r: seq<string>)
    ensures |r| >= 1
    ensures forall i :: 0 <= i < |r| ==> NoSpace(r[i])
    ensures forall i :: 0 < i < |r| - 1 ==> r[i] != []
    ensures s != [] && !IsSpace(s[0]) ==> r[0] != [] && r[0][0] == s[0]
    ensures s != [] && IsSpace(s[0]) ==> r[0] == []
  {
    if s == [] then [""]
    else
      var rest := SplitWs(s[1..]);
      if !IsSpace(s[0]) then [[s[0]] + rest[0]] + rest[1..]
      else if |s| > 1 && IsSpace(s[1]) then rest
      else [""] + rest
  }

  /** The characters of `s` that are not white space, in order. */
  function NonSpace(s: string): (r: string)
    ensures NoSpace(r)
  {
    if s == [] then []
    else if IsSpace(s[0]) then NonSpace(s[1..])
    else [s[0]] + NonSpace(s[1..])
  }

  function Concat(parts: seq<string>): string {
    if parts == [] then [] else parts[0] + Concat(parts[1..])
  }

  /** Splitting on white space loses exactly the white space: gluing the
      pieces back together gives every other character of the input, in
      order. */
  lemma {:induction false} SplitWsKeepsText(s: string)
    ensures Concat(SplitWs(s)) == NonSpace(s)
  {
    if s != [] {
      SplitWsKeepsText(s[1..]);
      var rest := SplitWs(s[1..]);
      if !IsSpace(s[0]) {
        calc {
          Concat(SplitWs(s));
          ([s[0]] + rest[0]) + Concat(rest[1..]);
          [s[0]] + (rest[0] + Concat(rest[1..]));
          [s[0]] + Concat(rest);
        }
      } else if !(|s| > 1 && IsSpace(s[1])) {
        assert SplitWs(s) == [""] + rest;
        assert Concat([""] + rest) == "" + Concat(rest);
      }
    }
  }

  /** A non-empty run of white space. */
  predicate IsSpaceRun(w: string) {
    w != [] && forall j :: 0 <= j < |w| ==> IsSpace(w[j])
  }

  /** A string without white space is a single piece. */
  lemma {:induction false} SplitWsNoSpace(a: string)
    requires NoSpace(a)
    ensures SplitWs(a) == [a]
  {
    if a != [] {
      SplitWsNoSpace(a[1..]);
      assert [a[0]] + a[1..] == a;
    }
  }

  /** A maximal run of white space separates the pieces on its two sides.
      Together with `SplitWsNoSpace` this fixes every split point: the
      pieces are exactly the stretches between maximal white-space runs. */
  lemma {:induction false} SplitWsAround(a: string, w: string, b: string)
    requires IsSpaceRun(w)
    requires a == [] || !IsSpace(a[|a| - 1])
    requires b == [] || !IsSpace(b[0])
    ensures SplitWs(a + w + b) == SplitWs(a) + SplitWs(b)
  {
    if a == [] {
      SplitWsRun(w, b);
      assert a + w + b == w + b;
    } else {
      var t := a[1..] + w + b;
      assert a + w + b == [a[0]] + t;
      assert a == [a[0]] + a[1..];
      if |a| == 1 {
        SplitWsRun(w, b);
        assert t == w + b;
        SplitWsNoSpace(a);
        GlueLast(a[0], t, SplitWs(b));
      } else {
        SplitWsAround(a[1..], w, b);
        assert t[0] == a[1];
        GlueStep(a[0], a[1..], t, SplitWs(b));
      }
    }
  }

  /** A non-space character in front of a string that splits into an empty
      first piece and then `sb` forms a piece of its own. */
  lemma GlueLast(c: char, v: string, sb: seq<string>)
    requires !IsSpace(c)
    requires SplitWs(v) == [""] + sb
    ensures SplitWs([c] + v) == [[c]] + sb
  {
    SplitWsCons(c, v);
    assert ([""] + sb)[0] == "" && ([""] + sb)[1..] == sb;
    assert [c] + "" == [c];
  }

  /** If `v` splits like `u` followed by `sv`, and both start alike, then so
      do `[c] + v` and `[c] + u`. */
  lemma GlueStep(c: char, u: string, v: string, sv: seq<string>)
    requires u != [] && v != [] && v[0] == u[0]
    requires SplitWs(v) == SplitWs(u) + sv
    ensures SplitWs([c] + v) == SplitWs([c] + u) + sv
  {
    SplitWsCons(c, v);
    SplitWsCons(c, u);
    if !IsSpace(c) {
      GlueHead(c, SplitWs(u), sv);
    }
  }

  /** `SplitWs` on a string with a known first character. */
  lemma SplitWsCons(c: char, t: string)
    ensures SplitWs([c] + t) ==
      if !IsSpace(c) then [[c] + SplitWs(t)[0]] + SplitWs(t)[1..]
      else if t != [] && IsSpace(t[0]) then SplitWs(t)
      else [""] + SplitWs(t)
  {
    assert ([c] + t)[1..] == t;
  }

  /** Gluing a character to the first piece commutes with appending pieces. */
  lemma GlueHead(c: char, r: seq<string>, sb: seq<string>)
    requires |r| >= 1
    ensures [[c] + (r + sb)[0]] + (r + sb)[1..] == ([[c] + r[0]] + r[1..]) + sb
  {
    assert (r + sb)[0] == r[0] && (r + sb)[1..] == r[1..] + sb;
  }

  /** Leading white space gives an empty first piece. */
  lemma {:induction false} SplitWsRun(w: string, b: string)
    requires IsSpaceRun(w)
    requires b == [] || !IsSpace(b[0])
    ensures SplitWs(w + b) == [""] + SplitWs(b)
  {
    var s := w + b;
    assert s[1..] == w[1..] + b;
    if |w| > 1 {
      SplitWsRun(w[1..], b);
      assert s[1] == w[1];
    }
  }

  // ---------------------------------------------------------------------
  // trim()

  predicate IsSuffix(r: string, s: string) {
    |r| <= |s| && r == s[|s| - |r|..]
  }

  /** `s.trimStart()`: a suffix of `s` that does not begin with white space. */
  function TrimStart(s: string): (r: string)
    ensures IsSuffix(r, s)
    ensures r == [] || !IsSpace(r[0])
    ensures forall j :: 0 <= j < |s| - |r| ==> IsSpace(s[j])
  {
    if s != [] && IsSpace(s[0]) then TrimStart(s[1..]) else s
  }

  /** `s.trimEnd()`: a prefix of `s` that does not end with white space. */
  function TrimEnd(s: string): (r: string)
    ensures r <= s
    ensures r == [] || !IsSpace(r[|r| - 1])
    ensures forall j :: |r| <= j < |s| ==> IsSpace(s[j])
  {
    if s != [] && IsSpace(s[|s| - 1]) then TrimEnd(s[..|s| - 1]) else s
  }

  /** `s.trim()`: the slice of `s` left once the white space at both ends is
      removed; `k` is the length of the white space `trimStart` drops. */
  function Trim(s: string): (r: string)
    ensures IsTrimmed(r)
    ensures |r| <= |s|
    ensures var k := |s| - |TrimStart(s)|;
      && k + |r| <= |s|
      && r == s[k..k + |r|]
      && (forall j :: 0 <= j < k ==> IsSpace(s[j]))
      && (forall j :: k + |r| <= j < |s| ==> IsSpace(s[j]))
  {
    var t := TrimStart(s);
    var r := TrimEnd(t);
    TrimmedSlice(s, t, r);
    r
  }

  /** A prefix `r` of a suffix `t` of `s`, followed in `t` by white space
      only, is the slice of `s` at `|s| - |t|`, followed in `s` by white space
      only. */
  lemma TrimmedSlice(s: string, t: string, r: string)
    requires IsSuffix(t, s) && r <= t
    requires forall j :: |r| <= j < |t| ==> IsSpace(t[j])
    ensures var k := |s| - |t|;
      && r == s[k..k + |r|]
      && forall j :: k + |r| <= j < |s| ==> IsSpace(s[j])
  {
    var k := |s| - |t|;
    forall j | k + |r| <= j < |s|
      ensures IsSpace(s[j])
    {
      assert s[j] == t[j - k];
    }
  }

  /** Trimming leaves a trimmed string alone, so `trim()` is idempotent. */
  lemma TrimOfTrimmed(s: string)
    requires IsTrimmed(s)
    ensures Trim(s) == s
  {
    assert TrimStart(s) == s;
    assert TrimEnd(s) == s;
  }

  lemma TrimIdempotent(s: string)
    ensures Trim(Trim(s)) == Trim(s)
  {
    TrimOfTrimmed(Trim(s));
  }

  // ---------------------------------------------------------------------
  // split(c) on a one-character separator, and join

  /** `s.split(c)` for a one-character string `c`: every occurrence of `c`
      separates two pieces, so the empty string yields `[""]`. */
  function SplitOn(s: string, c: char): (r: seq<string>)
    ensures |r| >= 1
    ensures forall i :: 0 <= i < |r| ==> c !in r[i]
  {
    if s == [] then [""]
    else
      var rest := SplitOn(s[1..], c);
      if s[0] == c then [""] + rest
      else [[s[0]] + rest[0]] + rest[1..]
  }

  /** `parts.join(sep)`. */
  function Join(parts: seq<string>, sep: string): string {
    if parts == [] then []
    else if |parts| == 1 then parts[0]
    else parts[0] + sep + Join(parts[1..], sep)
  }

  /** Joining the pieces of a split with the separator gives the input back. */
  lemma {:induction false} JoinSplitOn(s: string, c: char)
    ensures Join(SplitOn(s, c), [c]) == s
  {
    if s != [] {
      JoinSplitOn(s[1..], c);
      var rest := SplitOn(s[1..], c);
      if s[0] == c {
        assert SplitOn(s, c) == [""] + rest;
        assert ([""] + rest)[1..] == rest;
      } else if |rest| == 1 {
        assert SplitOn(s, c) == [[s[0]] + rest[0]];
      } else {
        assert SplitOn(s, c)[1..] == rest[1..];
        calc {
          Join(SplitOn(s, c), [c]);
          ([s[0]] + rest[0]) + [c] + Join(rest[1..], [c]);
          [s[0]] + (rest[0] + [c] + Join(rest[1..], [c]));
          [s[0]] + Join(rest, [c]);
        }
      }
    }
  }

  /** A string without the separator is a single piece. */
  lemma {:induction false} SplitOnWithout(s: string, c: char)
    requires c !in s
    ensures SplitOn(s, c) == [s]
  {
    if s != [] {
      SplitOnWithout(s[1..], c);
      assert s[0] != c;
      assert [s[0]] + s[1..] == s;
    }
  }

  /** Splitting a join on its one-character separator gives the parts back,
      when no part contains the separator. */
  lemma {:induction false} SplitOnJoin(parts: seq<string>, c: char)
    requires |parts| >= 1
    requires forall i :: 0 <= i < |parts| ==> c !in parts[i]
    ensures SplitOn(Join(parts, [c]), c) == parts
  {
    if |parts| == 1 {
      SplitOnWithout(parts[0], c);
    } else {
      SplitOnJoin(parts[1..], c);
      SplitOnAround(parts[0], c, Join(parts[1..], [c]));
      SplitOnWithout(parts[0], c);
      assert parts == [parts[0]] + parts[1..];
    }
  }

  /** A separator splits the input into the pieces of either side. */
  lemma {:induction false} SplitOnAround(a: string, c: char, b: string)
    ensures SplitOn(a + [c] + b, c) == SplitOn(a, c) + SplitOn(b, c)
  {
    if a == [] {
      assert [] + [c] + b == [c] + b;
      assert ([c] + b)[1..] == b;
    } else {
      assert (a + [c] + b)[1..] == a[1..] + [c] + b;
      SplitOnAround(a[1..], c, b);
    }
  }

  // ---------------------------------------------------------------------
  // includes, startsWith, slice, toLowerCase

  /** `s.includes(sub)`. */
  predicate Includes(s: string, sub: string)
    ensures sub <= s ==> Includes(s, sub)
    ensures Includes(s, sub) ==> |sub| <= |s|
  {
    sub <= s || (s != [] && Includes(s[1..], sub))
  }

  /** `sub` occurs in `s` starting at position `k`. */
  predicate OccursAt(s: string, sub: string, k: int) {
    0 <= k <= |s| - |sub| && s[k..k + |sub|] == sub
  }

  /** `includes` holds exactly when `sub` occurs at some position of `s`. */
  lemma {:induction false} IncludesAt(s: string, sub: string)
    ensures Includes(s, sub) <==> exists k :: OccursAt(s, sub, k)
  {
    if sub <= s {
      assert OccursAt(s, sub, 0);
    } else if s == [] {
    } else {
      IncludesAt(s[1..], sub);
      if Includes(s[1..], sub) {
        var k :| OccursAt(s[1..], sub, k);
        assert s[k + 1..k + 1 + |sub|] == s[1..][k..k + |sub|];
        assert OccursAt(s, sub, k + 1);
      }
      if exists k :: OccursAt(s, sub, k) {
        var k :| OccursAt(s, sub, k);
        assert k != 0;
        assert s[1..][k - 1..k - 1 + |sub|] == s[k..k + |sub|];
        assert OccursAt(s[1..], sub, k - 1);
      }
    }
  }

  /** `s.startsWith(prefix)`. */
  predicate StartsWith(s: string, prefix: string) {
    prefix <= s
  }

  /** `s.slice(0, n)` for `n >= 0`. */
  function Take<T>(s: seq<T>, n: nat): (r: seq<T>)
    ensures |r| == if |s| <= n then |s| else n
    ensures r <= s
  {
    if |s| <= n then s else s[..n]
  }

  /** The elements of `s` that satisfy `p`, in order (`Array.prototype.filter`). */
  function Filter<T>(s: seq<T>, p: T -> bool): (r: seq<T>)
    ensures |r| <= |s|
    ensures forall i :: 0 <= i < |r| ==> p(r[i]) && r[i] in s
  {
    if s == [] then []
    else if p(s[0]) then [s[0]] + Filter(s[1..], p)
    else Filter(s[1..], p)
  }

  /** Filtering keeps each satisfying value as often as it occurs and drops
      every other value; `FilterAppend` fixes the order. */
  lemma {:induction false} FilterMultiplicity<T>(s: seq<T>, p: T -> bool, x: T)
    ensures multiset(Filter(s, p))[x] == if p(x) then multiset(s)[x] else 0
  {
    if s != [] {
      assert s == [s[0]] + s[1..];
      FilterMultiplicity(s[1..], p, x);
    }
  }

  /** Filtering works element by element, so it keeps the input order. */
  lemma {:induction false} FilterAppend<T>(a: seq<T>, b: seq<T>, p: T -> bool)
    ensures Filter(a + b, p) == Filter(a, p) + Filter(b, p)
  {
    if a != [] {
      assert (a + b)[1..] == a[1..] + b;
      FilterAppend(a[1..], b, p);
    } else {
      assert a + b == b;
    }
  }

  /** Every element of `s` that satisfies `p` is kept. */
  lemma {:induction false} FilterKeeps<T>(s: seq<T>, p: T -> bool, x: T)
    requires x in s && p(x)
    ensures x in Filter(s, p)
  {
    if s[0] != x {
      FilterKeeps(s[1..], p, x);
    }
  }

  /** `s.length`: JavaScript counts UTF-16 code units, so a character above
      U+FFFF (a surrogate pair) counts twice. */
  function Utf16Length(s: string): (r: nat)
    ensures |s| <= r <= 2 * |s|
  {
    if s == [] then 0
    else (if s[0] > '\U{FFFF}' then 2 else 1) + Utf16Length(s[1..])
  }

  /** On the Basic Multilingual Plane the UTF-16 length is the number of
      characters. */
  lemma {:induction false} Utf16LengthBmp(s: string)
    requires forall j :: 0 <= j < |s| ==> s[j] <= '\U{FFFF}'
    ensures Utf16Length(s) == |s|
  {
    if s != [] {
      Utf16LengthBmp(s[1..]);
    }
  }

  /** Two emoji are four code units long. */
  lemma Utf16LengthEmoji()
    ensures |"\U{1F600}\U{1F600}"| == 2
    ensures Utf16Length("\U{1F600}\U{1F600}") == 4
  {
    var s := "\U{1F600}\U{1F600}";
    assert s[1..][1..] == [];
  }

  /** `toLowerCase()` on the ASCII letters. */
  function LowerChar(c: char): char {
    if 'A' <= c <= 'Z' then (c as int - 'A' as int + 'a' as int) as char else c
  }

  function ToLower(s: string): (r: string)
    ensures |r| == |s|
    ensures forall i :: 0 <= i < |s| ==> r[i] == LowerChar(s[i])
  {
    seq(|s|, i requires 0 <= i < |s| => LowerChar(s[i]))
  }

  // ---------------------------------------------------------------------
  // Decimal rendering of a non-negative integer (template-literal `${n}`)

  function DigitChar(d: nat): char
    requires d < 10
  {
    ('0' as int + d) as char
  }

  predicate IsDigits(s: string) {
    forall i :: 0 <= i < |s| ==> '0' <= s[i] <= '9'
  }

  /** `${n}` for a natural number: its decimal digits, no leading zero. */
  function Decimal(n: nat): (r: string)
    ensures |r| >= 1 && IsDigits(r)
    ensures r[0] == '0' ==> n == 0
  {
    if n < 10 then [DigitChar(n)] else Decimal(n / 10) + [DigitChar(n % 10)]
  }

  /** The value of a string of decimal digits. */
  function DecimalValue(s: string): nat
    requires IsDigits(s)
  {
    if s == [] then 0
    else DecimalValue(s[..|s| - 1]) * 10 + (s[|s| - 1] as int - '0' as int)
  }

  /** Reading back the digits of `n` gives `n`. */
  lemma {:induction false} DecimalRoundTrip(n: nat)
    ensures DecimalValue(Decimal(n)) == n
  {
    if n >= 10 {
      DecimalRoundTrip(n / 10);
      var r := Decimal(n);
      assert r[..|r| - 1] == Decimal(n / 10);
    }
  }

  /** Distinct numbers are rendered differently. */
  lemma DecimalInjective(m: nat, n: nat)
    requires Decimal(m) == Decimal(n)
    ensures m == n
  {
    DecimalRoundTrip(m);
    DecimalRoundTrip(n);
  }
}
