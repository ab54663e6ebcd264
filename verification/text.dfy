/** String operations the bot relies on, written out over `seq<char>`: Python's
    `strip`, `lower`, `upper`, `capitalize`, `split`, `startswith`, the `in`
    substring test, `replace(pat, "")`, `int()` on a token, `str()` of an integer,
    the `:.2f` rendering of a price held in cents, and Python's string ordering. */
module Text {

  datatype Option<T> = None | Some(value: T)

  // ---------------------------------------------------------------------------
  // Characters
  // ---------------------------------------------------------------------------

  /** The characters for which Python's `str.isspace` holds. */
  predicate IsSpace(c: char)
  {
    || c == ' '
    || ('\t' <= c <= '\r')
    || ('\U{1C}' <= c <= '\U{1F}')
    || c == '\U{85}' || c == '\U{A0}' || c == '\U{1680}'
    || ('\U{2000}' <= c <= '\U{200A}')
    || c == '\U{2028}' || c == '\U{2029}' || c == '\U{202F}' || c == '\U{205F}'
    || c == '\U{3000}'
  }

  predicate IsUpperLetter(c: char)
  {
    ('A' <= c <= 'Z') || ('\U{C0}' <= c <= '\U{DE}' && c != '\U{D7}')
  }

  predicate IsLowerLetter(c: char)
  {
    ('a' <= c <= 'z') || ('\U{E0}' <= c <= '\U{FE}' && c != '\U{F7}')
  }

  /** Lower-casing of one character, for ASCII and the Latin-1 letters. */
  function LowerChar(c: char): (r: char)
    ensures IsUpperLetter(c) ==> IsLowerLetter(r) && r as int == c as int + 32
    ensures !IsUpperLetter(c) ==> r == c
  {
    if IsUpperLetter(c) then (c as int + 32) as char else c
  }

  /** Upper-casing of one character, for ASCII and the Latin-1 letters. */
  function UpperChar(c: char): (r: char)
    ensures IsLowerLetter(c) ==> IsUpperLetter(r) && r as int == c as int - 32
    ensures !IsLowerLetter(c) ==> r == c
  {
    if IsLowerLetter(c) then (c as int - 32) as char else c
  }

  predicate IsDigit(c: char)
  {
    '0' <= c <= '9'
  }

  function DigitValue(c: char): (d: nat)
    requires IsDigit(c)
    ensures d < 10
  {
    c as int - '0' as int
  }

  function DigitChar(d: nat): (c: char)
    requires d < 10
    ensures IsDigit(c) && DigitValue(c) == d
  {
    ('0' as int + d) as char
  }

  // ---------------------------------------------------------------------------
  // Case
  // ---------------------------------------------------------------------------

  /** `s.lower()` */
  function Lower(s: string): (r: string)
    ensures |r| == |s|
    ensures forall i :: 0 <= i < |s| ==> r[i] == LowerChar(s[i])
  {
    if s == [] then [] else [LowerChar(s[0])] + Lower(s[1..])
  }

  /** `s.upper()` */
  function Upper(s: string): (r: string)
    ensures |r| == |s|
    ensures forall i :: 0 <= i < |s| ==> r[i] == UpperChar(s[i])
  {
    if s == [] then [] else [UpperChar(s[0])] + Upper(s[1..])
  }

  /** `s.capitalize()`: the first character upper-cased, the rest lower-cased.
      Only the case changes: lower-casing the result gives `s.lower()`. */
  function Capitalize(s: string): (r: string)
    ensures |r| == |s|
    ensures Lower(r) == Lower(s)
    ensures s != [] ==> !IsLowerLetter(r[0])
    ensures forall i :: 0 < i < |r| ==> !IsUpperLetter(r[i])
  {
    if s == [] then [] else [UpperChar(s[0])] + Lower(s[1..])
  }

  lemma LowerIdempotent(s: string)
    ensures Lower(Lower(s)) == Lower(s)
  {
  }

  // ---------------------------------------------------------------------------
  // Whitespace: strip and split
  // ---------------------------------------------------------------------------

  /** `s.lstrip()` */
  function LStrip(s: string): (r: string)
    ensures |r| <= |s|
    ensures r != [] ==> !IsSpace(r[0])
    decreases |s|
  {
    if s != [] && IsSpace(s[0]) then LStrip(s[1..]) else s
  }

  /** `lstrip` keeps a suffix and drops only whitespace before it. */
  lemma {:induction false} LStripSpec(s: string)
    ensures var r := LStrip(s); r == s[|s| - |r|..]
    ensures forall k :: 0 <= k < |s| - |LStrip(s)| ==> IsSpace(s[k])
    decreases |s|
  {
    if s != [] && IsSpace(s[0]) {
      LStripSpec(s[1..]);
      assert s[1..][|s| - 1 - |LStrip(s)|..] == s[|s| - |LStrip(s)|..];
      forall k | 0 < k < |s| - |LStrip(s)|
        ensures IsSpace(s[k])
      {
        assert s[k] == s[1..][k - 1];
      }
    }
  }

  /** `s.rstrip()` */
  function RStrip(s: string): (r: string)
    ensures |r| <= |s|
    ensures r != [] ==> !IsSpace(r[|r| - 1])
    decreases |s|
  {
    if s != [] && IsSpace(s[|s| - 1]) then RStrip(s[..|s| - 1]) else s
  }

  /** `rstrip` keeps a prefix and drops only whitespace after it. */
  lemma {:induction false} RStripSpec(s: string)
    ensures var r := RStrip(s); r == s[..|r|]
    ensures forall k :: |RStrip(s)| <= k < |s| ==> IsSpace(s[k])
    decreases |s|
  {
    if s != [] && IsSpace(s[|s| - 1]) {
      var init := s[..|s| - 1];
      RStripSpec(init);
      assert init[..|RStrip(s)|] == s[..|RStrip(s)|];
      forall k | |RStrip(s)| <= k < |s| - 1
        ensures IsSpace(s[k])
      {
        assert s[k] == init[k];
      }
    }
  }

  /** `s.strip()`: the longest slice of `s` that neither starts nor ends with
      whitespace, obtained by dropping whitespace at both ends. */
  function Strip(s: string): (r: string)
  {
    RStrip(LStrip(s))
  }

  /** Stripping yields a slice of the input. */
  lemma StripShape(s: string)
    ensures var r := Strip(s); var i := |s| - |LStrip(s)|;
      0 <= i <= |s| - |r| && s[i..i + |r|] == r
  {
    var l := LStrip(s);
    LStripSpec(s);
    RStripSpec(l);
    StripSlice(s, l, RStrip(l), |s| - |l|);
  }

  /** What stripping keeps neither starts nor ends with whitespace. */
  lemma StripEnds(s: string)
    ensures var r := Strip(s); r != [] ==> !IsSpace(r[0]) && !IsSpace(r[|r| - 1])
  {
    var l := LStrip(s);
    var r := RStrip(l);
    RStripSpec(l);
    if r != [] {
      assert r[0] == l[0];
    }
  }

  /** Stripping cuts away only whitespace, on either side of the slice it keeps. */
  lemma StripCutsSpaces(s: string)
    ensures var r := Strip(s); var i := |s| - |LStrip(s)|;
      && (forall k :: 0 <= k < i ==> IsSpace(s[k]))
      && (forall k :: i + |r| <= k < |s| ==> IsSpace(s[k]))
  {
    var l := LStrip(s);
    LStripSpec(s);
    RStripSpec(l);
    StripTrailing(s, l, RStrip(l), |s| - |l|);
  }

  lemma StripSlice(s: string, l: string, r: string, i: int)
    requires 0 <= i <= |s| && l == s[i..] && |r| <= |l| && r == l[..|r|]
    ensures s[i..i + |r|] == r
  {
  }

  lemma StripTrailing(s: string, l: string, r: string, i: int)
    requires 0 <= i <= |s| && l == s[i..] && |r| <= |l|
    requires forall k :: |r| <= k < |l| ==> IsSpace(l[k])
    ensures forall k :: i + |r| <= k < |s| ==> IsSpace(s[k])
  {
    forall k | i + |r| <= k < |s|
      ensures IsSpace(s[k])
    {
      assert s[k] == l[k - i];
    }
  }

  /** A string is empty after stripping iff every character is whitespace. */
  lemma StripEmptyIff(s: string)
    ensures Strip(s) == [] <==> forall k :: 0 <= k < |s| ==> IsSpace(s[k])
  {
    var l := LStrip(s);
    LStripSpec(s);
    RStripSpec(l);
    if Strip(s) == [] {
      assert l == [];
    } else {
      assert !IsSpace(s[|s| - |l|]) by {
        assert l[0] == s[|s| - |l|];
      }
    }
  }

  /** Stripping twice is stripping once. */
  lemma StripIdempotent(s: string)
    ensures Strip(Strip(s)) == Strip(s)
  {
    var r := Strip(s);
    StripEnds(s);
    if r != [] {
      assert LStrip(r) == r;
      assert RStrip(r) == r;
    }
  }

  /** The number of leading non-space characters of `t`. */
  function TokenLength(t: string): (n: nat)
    ensures n <= |t|
    ensures n < |t| ==> IsSpace(t[n])
    decreases |t|
  {
    if t == [] || IsSpace(t[0]) then 0 else 1 + TokenLength(t[1..])
  }

  /** The leading run holds no whitespace. */
  lemma {:induction false} TokenLengthSpec(t: string)
    ensures forall k :: 0 <= k < TokenLength(t) ==> !IsSpace(t[k])
    decreases |t|
  {
    if t != [] && !IsSpace(t[0]) {
      TokenLengthSpec(t[1..]);
      forall k | 0 < k < TokenLength(t)
        ensures !IsSpace(t[k])
      {
        assert t[k] == t[1..][k - 1];
      }
    }
  }

  predicate IsToken(t: string)
  {
    t != [] && forall k :: 0 <= k < |t| ==> !IsSpace(t[k])
  }

  predicate AllTokens(ws: seq<string>)
  {
    forall i :: 0 <= i < |ws| ==> IsToken(ws[i])
  }

  /** `s.split()`: the maximal runs of non-space characters, in order. */
  function Split(s: string): seq<string>
    decreases |s|
  {
    var t := LStrip(s);
    if t == [] then []
    else
      var n := TokenLength(t);
      [t[..n]] + Split(t[n..])
  }

  /** The leading run of a string that starts with a non-space is a token. */
  lemma LeadingToken(t: string)
    requires t != [] && !IsSpace(t[0])
    ensures IsToken(t[..TokenLength(t)])
  {
    var n := TokenLength(t);
    TokenLengthSpec(t);
    forall k | 0 <= k < n
      ensures !IsSpace(t[..n][k])
    {
      assert t[..n][k] == t[k];
    }
  }

  lemma AllTokensCons(w: string, ws: seq<string>)
    requires IsToken(w) && AllTokens(ws)
    ensures AllTokens([w] + ws)
  {
    forall i | 0 < i < |[w] + ws|
      ensures IsToken(([w] + ws)[i])
    {
      assert ([w] + ws)[i] == ws[i - 1];
    }
  }

  /** Every piece `Split` returns is a non-empty run of non-space characters. */
  lemma {:induction false} SplitTokens(s: string)
    ensures AllTokens(Split(s))
    decreases |s|
  {
    var t := LStrip(s);
    if t != [] {
      var n := TokenLength(t);
      LeadingToken(t);
      SplitTokens(t[n..]);
      AllTokensCons(t[..n], Split(t[n..]));
    }
  }

  /** Tokens joined by single spaces, the inverse of `Split` on tokens. */
  function JoinWords(ws: seq<string>): string
  {
    if ws == [] then []
    else if |ws| == 1 then ws[0]
    else ws[0] + " " + JoinWords(ws[1..])
  }

  lemma {:induction false} TokenLengthOfJoin(w: string, rest: string)
    requires IsToken(w)
    requires rest == [] || IsSpace(rest[0])
    ensures TokenLength(w + rest) == |w|
    decreases |w|
  {
    var s := w + rest;
    if |w| == 1 {
      assert s[1..] == rest;
    } else {
      assert s[1..] == w[1..] + rest;
      TokenLengthOfJoin(w[1..], rest);
    }
  }

  /** A token followed by nothing or by whitespace splits off as the first piece. */
  lemma SplitToken(w: string, rest: string)
    requires IsToken(w)
    requires rest == [] || IsSpace(rest[0])
    ensures Split(w + rest) == [w] + Split(rest)
  {
    var s := w + rest;
    assert s[0] == w[0];
    assert LStrip(s) == s;
    TokenLengthOfJoin(w, rest);
    assert s[..|w|] == w;
    assert s[|w|..] == rest;
  }

  /** Leading whitespace does not change the pieces. */
  lemma SplitSkipsSpace(c: char, t: string)
    requires IsSpace(c)
    ensures Split([c] + t) == Split(t)
  {
    assert ([c] + t)[1..] == t;
    assert LStrip([c] + t) == LStrip(t);
  }

  lemma AfterHead<T>(x: T, s: seq<T>, i: int)
    requires 0 <= i < |s|
    ensures ([x] + s)[i + 1] == s[i]
  {
  }

  lemma AppendAssoc<T>(a: seq<T>, b: seq<T>, c: seq<T>)
    ensures a + b + c == a + (b + c)
  {
  }

  /** The first word of a joined sequence splits off as the first piece. */
  lemma SplitJoinStep(ws: seq<string>)
    requires |ws| >= 2 && IsToken(ws[0])
    ensures Split(JoinWords(ws)) == [ws[0]] + Split(JoinWords(ws[1..]))
  {
    var w, tail := ws[0], JoinWords(ws[1..]);
    AppendAssoc(w, " ", tail);
    SplitToken(w, " " + tail);
    SplitSkipsSpace(' ', tail);
  }

  /** Splitting words joined by spaces gives the words back. */
  lemma {:induction false} SplitJoinWords(ws: seq<string>)
    requires forall i :: 0 <= i < |ws| ==> IsToken(ws[i])
    ensures Split(JoinWords(ws)) == ws
    decreases |ws|
  {
    if |ws| == 1 {
      SplitToken(ws[0], []);
      assert ws[0] + [] == ws[0];
    } else if |ws| >= 2 {
      SplitJoinStep(ws);
      SplitJoinWords(ws[1..]);
      assert ws == [ws[0]] + ws[1..];
    }
  }

  // ---------------------------------------------------------------------------
  // Substrings
  // ---------------------------------------------------------------------------

  /** `s.startswith(p)` */
  predicate StartsWith(s: string, p: string)
  {
    |p| <= |s| && s[..|p|] == p
  }

  /** `sub in s` */
  predicate Contains(s: string, sub: string)
    decreases |s|
  {
    StartsWith(s, sub) || (s != [] && Contains(s[1..], sub))
  }

  /** `sub` occurs in `s` starting at position `i`. */
  predicate OccursAt(s: string, sub: string, i: int)
  {
    0 <= i <= |s| - |sub| && s[i..i + |sub|] == sub
  }

  /** `Contains` holds exactly when `sub` occurs at some position of `s`. */
  lemma {:induction false} ContainsIff(s: string, sub: string)
    ensures Contains(s, sub) <==> exists i :: OccursAt(s, sub, i)
    decreases |s|
  {
    if StartsWith(s, sub) {
      assert OccursAt(s, sub, 0);
    } else if s != [] {
      ContainsIff(s[1..], sub);
      if Contains(s[1..], sub) {
        var i :| OccursAt(s[1..], sub, i);
        assert s[i + 1..i + 1 + |sub|] == s[1..][i..i + |sub|];
        assert OccursAt(s, sub, i + 1);
      }
      if exists i :: OccursAt(s, sub, i) {
        var i :| OccursAt(s, sub, i);
        assert i != 0;
        assert s[1..][i - 1..i - 1 + |sub|] == s[i..i + |sub|];
        assert OccursAt(s[1..], sub, i - 1);
      }
    }
  }

  /** Every character of an occurring substring occurs in the string. */
  lemma {:induction false} ContainsChars(s: string, sub: string, c: char)
    requires Contains(s, sub) && c in sub
    ensures c in s
    decreases |s|
  {
    if StartsWith(s, sub) {
      assert c in s[..|sub|];
    } else {
      ContainsChars(s[1..], sub, c);
    }
  }

  /** `s.replace(pat, "")`: every occurrence of `pat`, scanning left to right
      without overlap, removed. */
  function RemoveAll(s: string, pat: string): (r: string)
    requires pat != []
    ensures |r| <= |s|
    decreases |s|
  {
    if s == [] then []
    else if StartsWith(s, pat) then RemoveAll(s[|pat|..], pat)
    else [s[0]] + RemoveAll(s[1..], pat)
  }

  /** Removing a pattern that does not occur changes nothing. */
  lemma {:induction false} RemoveAllAbsent(s: string, pat: string)
    requires pat != [] && !Contains(s, pat)
    ensures RemoveAll(s, pat) == s
    decreases |s|
  {
    if s != [] {
      RemoveAllAbsent(s[1..], pat);
    }
  }

  /** Removing the pattern from `pat + s` where `s` does not contain it leaves `s`. */
  lemma RemoveAllPrefix(pat: string, s: string)
    requires pat != [] && !Contains(s, pat)
    ensures RemoveAll(pat + s, pat) == s
  {
    assert StartsWith(pat + s, pat);
    assert (pat + s)[|pat|..] == s;
    RemoveAllAbsent(s, pat);
  }

  // ---------------------------------------------------------------------------
  // Integers
  // ---------------------------------------------------------------------------

  predicate AllDigits(d: string)
  {
    forall k :: 0 <= k < |d| ==> IsDigit(d[k])
  }

  /** The value of a string of decimal digits. */
  function DigitsValue(d: string): nat
    requires AllDigits(d)
  {
    if d == [] then 0 else 10 * DigitsValue(d[..|d| - 1]) + DigitValue(d[|d| - 1])
  }

  /** `int(t)` for a token: an optional sign followed by at least one ASCII digit;
      anything else is the `ValueError` the router catches. */
  function ParseInt(t: string): (r: Option<int>)
    ensures r.Some? ==> t != [] && AllDigits(if t[0] == '+' || t[0] == '-' then t[1..] else t)
  {
    if t == [] then None
    else
      var neg := t[0] == '-';
      var digits := if t[0] == '+' || neg then t[1..] else t;
      if digits == [] || !AllDigits(digits) then None
      else if neg then Some(-(DigitsValue(digits) as int))
      else Some(DigitsValue(digits))
  }

  /** `str(n)` for a natural number. */
  function NatToString(n: nat): (s: string)
    ensures s != [] && AllDigits(s)
  {
    if n < 10 then [DigitChar(n)] else NatToString(n / 10) + [DigitChar(n % 10)]
  }

  /** `str(n)` */
  function IntToString(n: int): (s: string)
  {
    if n < 0 then "-" + NatToString(-n) else NatToString(n)
  }

  lemma {:induction false} DigitsValueOfNat(n: nat)
    ensures DigitsValue(NatToString(n)) == n
  {
    var s := NatToString(n);
    if n >= 10 {
      DigitsValueOfNat(n / 10);
      assert s[..|s| - 1] == NatToString(n / 10);
    }
  }

  /** Parsing the decimal rendering of an integer gives the integer back. */
  lemma ParseIntToString(n: int)
    ensures ParseInt(IntToString(n)) == Some(n)
  {
    var m: nat := if n < 0 then -n else n;
    var d := NatToString(m);
    DigitsValueOfNat(m);
    assert IsDigit(d[0]);
    if n < 0 {
      var t := "-" + d;
      assert t[0] == '-' && t[1..] == d;
    }
  }

  lemma IntToStringIsToken(n: int)
    ensures IsToken(IntToString(n))
    ensures forall k :: 0 <= k < |IntToString(n)| ==> IsDigit(IntToString(n)[k]) || IntToString(n)[k] == '-'
  {
  }

  /** The `:.2f` rendering of an amount held in integer cents. */
  function Money(cents: int): (s: string)
  {
    var a := if cents < 0 then -cents else cents;
    (if cents < 0 then "-" else "")
      + NatToString(a / 100) + "." + [DigitChar(a % 100 / 10), DigitChar(a % 10)]
  }

  // ---------------------------------------------------------------------------
  // Ordering
  // ---------------------------------------------------------------------------

  /** Python's `<` on strings: lexicographic by code point. */
  predicate Less(a: string, b: string)
  {
    if a == [] then b != []
    else if b == [] then false
    else if a[0] != b[0] then a[0] < b[0]
    else Less(a[1..], b[1..])
  }

  lemma {:induction false} LessIrreflexive(a: string)
    ensures !Less(a, a)
  {
    if a != [] {
      LessIrreflexive(a[1..]);
    }
  }

  lemma {:induction false} LessTransitive(a: string, b: string, c: string)
    requires Less(a, b) && Less(b, c)
    ensures Less(a, c)
  {
    if a != [] && b != [] && c != [] && a[0] == b[0] && b[0] == c[0] {
      LessTransitive(a[1..], b[1..], c[1..]);
    }
  }

  lemma {:induction false} LessTotal(a: string, b: string)
    ensures a == b || Less(a, b) || Less(b, a)
  {
    if a != [] && b != [] && a[0] == b[0] {
      LessTotal(a[1..], b[1..]);
      if a[1..] == b[1..] {
        assert a == [a[0]] + a[1..];
        assert b == [b[0]] + b[1..];
      }
    }
  }

  lemma {:induction false} LessAsymmetric(a: string, b: string)
    requires Less(a, b)
    ensures !Less(b, a)
  {
    if a != [] && b != [] && a[0] == b[0] {
      LessAsymmetric(a[1..], b[1..]);
    }
  }
}
