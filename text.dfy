/**
  The parts of Python's `str` behaviour that the configuration layer and the
  remote operations rely on: `isspace()`, `strip()`, `split(sep)`, `split()`,
  `splitlines()`, `lower()` on the ASCII letters, `str(int)`, `int(str)`, and
  the `posixpath` helpers `isabs`, `join` and `basename`.
*/
module Text {

  datatype Option<+T> = None | Some(value: T)

  datatype Result<+T, +E> = Ok(value: T) | Err(error: E)

  /** The characters for which Python's `str.isspace()` is true. */
  predicate IsSpace(c: char) {
    ('\t' <= c <= '\r') || ('\U{1c}' <= c <= '\U{1f}') || c == ' '
    || c == '\U{85}' || c == '\U{a0}' || c == '\U{1680}'
    || ('\U{2000}' <= c <= '\U{200a}') || c == '\U{2028}' || c == '\U{2029}'
    || c == '\U{202f}' || c == '\U{205f}' || c == '\U{3000}'
  }

  /** The line boundaries recognised by Python's `str.splitlines()`. */
  predicate IsLineBreak(c: char) {
    ('\n' <= c <= '\r') || ('\U{1c}' <= c <= '\U{1e}')
    || c == '\U{85}' || c == '\U{2028}' || c == '\U{2029}'
  }

  predicate IsSemicolon(c: char) { c == ';' }

  predicate IsSlash(c: char) { c == '/' }

  predicate IsDigit(c: char) { '0' <= c <= '9' }

  lemma LineBreakIsSpace(c: char)
    ensures IsLineBreak(c) ==> IsSpace(c)
  {
  }

  // ---------------------------------------------------------------------------
  // strip()

  function TrimStart(s: string): (r: string)
    ensures |r| <= |s|
    ensures r == [] || !IsSpace(r[0])
    decreases |s|
  {
    if s != [] && IsSpace(s[0]) then TrimStart(s[1..]) else s
  }

  function TrimEnd(s: string): (r: string)
    ensures |r| <= |s|
    ensures r == [] || !IsSpace(r[|r| - 1])
    decreases |s|
  {
    if s != [] && IsSpace(s[|s| - 1]) then TrimEnd(s[..|s| - 1]) else s
  }

  /** Python's `s.strip()`: drops leading and trailing whitespace. */
  function Strip(s: string): string {
    TrimEnd(TrimStart(s))
  }

  predicate IsTrimmed(s: string) {
    s == [] || (!IsSpace(s[0]) && !IsSpace(s[|s| - 1]))
  }

  /** Trimming the end keeps a prefix. */
  lemma {:induction false} TrimEndPrefix(s: string)
    ensures TrimEnd(s) == s[..|TrimEnd(s)|]
    decreases |s|
  {
    if s != [] && IsSpace(s[|s| - 1]) {
      TrimEndPrefix(s[..|s| - 1]);
    }
  }

  lemma StripIsTrimmed(s: string)
    ensures IsTrimmed(Strip(s))
  {
    var t := TrimStart(s);
    var u := TrimEnd(t);
    if u != [] {
      TrimEndPrefix(t);
      assert u[0] == t[0];
    }
  }

  lemma StripOfTrimmed(s: string)
    requires IsTrimmed(s)
    ensures Strip(s) == s
  {
  }

  /** `strip()` is idempotent. */
  lemma StripIdempotent(s: string)
    ensures Strip(Strip(s)) == Strip(s)
  {
    StripIsTrimmed(s);
    StripOfTrimmed(Strip(s));
  }

  lemma TakeOneMore<T>(s: seq<T>, i: nat)
    requires i < |s|
    ensures s[..i + 1] == s[..i] + [s[i]]
  {
  }

  // ---------------------------------------------------------------------------
  // split(sep): the pieces between separator characters, empty pieces kept

  /** Python's `s.split(c)` generalised to a set of single-character separators. */
  function Split(s: string, sep: char -> bool): (r: seq<string>)
    ensures |r| > 0
    decreases |s|
  {
    if s == [] then [""]
    else
      var rest := Split(s[1..], sep);
      if sep(s[0]) then [""] + rest else [[s[0]] + rest[0]] + rest[1..]
  }

  lemma {:induction false} SplitNoSeparator(s: string, sep: char -> bool)
    requires forall k :: 0 <= k < |s| ==> !sep(s[k])
    ensures Split(s, sep) == [s]
    decreases |s|
  {
    if s != [] {
      SplitNoSeparator(s[1..], sep);
      assert [s[0]] + s[1..] == s;
    }
  }

  /** A separator character ends the pieces on its left and starts those on its right. */
  lemma {:induction false} SplitAround(a: string, c: char, b: string, sep: char -> bool)
    requires sep(c)
    ensures Split(a + [c] + b, sep) == Split(a, sep) + Split(b, sep)
    decreases |a|
  {
    var s := a + [c] + b;
    if a == [] {
      assert s[1..] == b;
    } else {
      assert s[0] == a[0];
      assert s[1..] == a[1..] + [c] + b;
      SplitAround(a[1..], c, b, sep);
    }
  }

  /** The last piece of `a + [c] + t` is `t` when `c` separates and `t` has no separator. */
  lemma LastPieceAfterSeparator(a: string, c: char, t: string, sep: char -> bool)
    requires sep(c)
    requires forall k :: 0 <= k < |t| ==> !sep(t[k])
    ensures var r := Split(a + [c] + t, sep); r[|r| - 1] == t
  {
    SplitAround(a, c, t, sep);
    SplitNoSeparator(t, sep);
  }

  /** Split into pieces on `outer`, then split every piece on `inner`. */
  function SplitEach(pieces: seq<string>, inner: char -> bool): seq<string>
    decreases |pieces|
  {
    if pieces == [] then [] else Split(pieces[0], inner) + SplitEach(pieces[1..], inner)
  }

  lemma SplitEachAppend(a: seq<string>, x: string, inner: char -> bool)
    ensures SplitEach(a + [x], inner) == SplitEach(a, inner) + Split(x, inner)
    decreases |a|
  {
    if a == [] {
      assert [x][1..] == [];
    } else {
      assert (a + [x])[1..] == a[1..] + [x];
      SplitEachAppend(a[1..], x, inner);
    }
  }

  /** Splitting on either of two separator classes at once is splitting on the
      first and then splitting each piece on the second. */
  lemma SplitCons(c: char, rest: string, sep: char -> bool)
    ensures var r := Split(rest, sep);
      Split([c] + rest, sep) == if sep(c) then [""] + r else [[c] + r[0]] + r[1..]
  {
    assert ([c] + rest)[0] == c && ([c] + rest)[1..] == rest;
  }

  lemma SplitEachCons(x: string, pieces: seq<string>, inner: char -> bool)
    ensures SplitEach([x] + pieces, inner) == Split(x, inner) + SplitEach(pieces, inner)
  {
    assert ([x] + pieces)[0] == x && ([x] + pieces)[1..] == pieces;
  }

  /** The steps of `SplitTwice` at a character that is not an outer separator:
      it either starts a new inner piece or extends the first one. */
  lemma SplitTwiceAtInner(c: char, t: seq<string>, inner: char -> bool)
    requires t != [] && inner(c)
    ensures SplitEach([[c] + t[0]] + t[1..], inner) == [""] + SplitEach(t, inner)
  {
    var p, e := Split(t[0], inner), SplitEach(t[1..], inner);
    calc {
      SplitEach([[c] + t[0]] + t[1..], inner);
    == { SplitEachCons([c] + t[0], t[1..], inner); }
      Split([c] + t[0], inner) + e;
    == { SplitCons(c, t[0], inner); }
      ([""] + p) + e;
    == { assert ([""] + p) + e == [""] + (p + e); }
      [""] + (p + e);
    == { SplitEachCons(t[0], t[1..], inner); assert [t[0]] + t[1..] == t; }
      [""] + SplitEach(t, inner);
    }
  }

  lemma SplitTwiceInPiece(c: char, t: seq<string>, inner: char -> bool)
    requires t != [] && !inner(c)
    ensures var r := SplitEach(t, inner);
      r != [] && SplitEach([[c] + t[0]] + t[1..], inner) == [[c] + r[0]] + r[1..]
  {
    var p, e := Split(t[0], inner), SplitEach(t[1..], inner);
    var r := SplitEach(t, inner);
    assert r == p + e by {
      SplitEachCons(t[0], t[1..], inner);
      assert [t[0]] + t[1..] == t;
    }
    calc {
      SplitEach([[c] + t[0]] + t[1..], inner);
    == { SplitEachCons([c] + t[0], t[1..], inner); }
      Split([c] + t[0], inner) + e;
    == { SplitCons(c, t[0], inner); }
      ([[c] + p[0]] + p[1..]) + e;
    == { assert ([[c] + p[0]] + p[1..]) + e == [[c] + p[0]] + (p[1..] + e); }
      [[c] + p[0]] + (p[1..] + e);
    == { assert r[0] == p[0] && r[1..] == p[1..] + e; }
      [[c] + r[0]] + r[1..];
    }
  }

  lemma {:induction false} SplitTwice(s: string, outer: char -> bool, inner: char -> bool, both: char -> bool)
    requires forall c :: both(c) == (outer(c) || inner(c))
    ensures Split(s, both) == SplitEach(Split(s, outer), inner)
    decreases |s|
  {
    if s != [] {
      var c, rest := s[0], s[1..];
      assert s == [c] + rest;
      SplitTwice(rest, outer, inner, both);
      var t := Split(rest, outer);
      SplitCons(c, rest, outer);
      SplitCons(c, rest, both);
      if outer(c) {
        SplitEachCons("", t, inner);
      } else if inner(c) {
        SplitTwiceAtInner(c, t, inner);
      } else {
        SplitTwiceInPiece(c, t, inner);
      }
    }
  }

  /** Every character of every piece is a character of `s` that is not a
      separator, so a property of all non-separators of `s` holds in every piece. */
  lemma {:induction false} SplitPiecesKeep(s: string, sep: char -> bool, p: char -> bool)
    requires forall k :: 0 <= k < |s| ==> sep(s[k]) || p(s[k])
    ensures forall i, k :: 0 <= i < |Split(s, sep)| && 0 <= k < |Split(s, sep)[i]| ==>
              p(Split(s, sep)[i][k]) && !sep(Split(s, sep)[i][k])
    decreases |s|
  {
    if s != [] {
      SplitPiecesKeep(s[1..], sep, p);
      var t := Split(s[1..], sep);
      if !sep(s[0]) {
        var r := Split(s, sep);
        assert r[0] == [s[0]] + t[0];
        forall i, k | 0 <= i < |r| && 0 <= k < |r[i]| ensures p(r[i][k]) && !sep(r[i][k]) {
          if i == 0 {
            if k > 0 { assert r[0][k] == t[0][k - 1]; }
          } else {
            assert r[i] == t[i];
          }
        }
      }
    }
  }

  // ---------------------------------------------------------------------------
  // The list comprehension `[p.strip() for p in parts if p.strip()]`

  /** What the comprehension keeps of one part. */
  function Kept(part: string): seq<string> {
    var t := Strip(part);
    if t != "" then [t] else []
  }

  function Clean(parts: seq<string>): (r: seq<string>)
    decreases |parts|
  {
    if parts == [] then [] else Kept(parts[0]) + Clean(parts[1..])
  }

  lemma {:induction false} CleanAppend(a: seq<string>, b: seq<string>)
    ensures Clean(a + b) == Clean(a) + Clean(b)
    decreases |a|
  {
    if a != [] {
      assert (a + b)[0] == a[0];
      assert (a + b)[1..] == a[1..] + b;
      CleanAppend(a[1..], b);
      calc {
        Clean(a + b);
        Kept(a[0]) + Clean(a[1..] + b);
        Kept(a[0]) + (Clean(a[1..]) + Clean(b));
        (Kept(a[0]) + Clean(a[1..])) + Clean(b);
        Clean(a) + Clean(b);
      }
    } else {
      assert a + b == b;
    }
  }

  /** Every item Clean keeps is trimmed and non-empty. */
  predicate AllTrimmedNonEmpty(items: seq<string>) {
    forall k :: 0 <= k < |items| ==> items[k] != "" && IsTrimmed(items[k])
  }

  lemma AllTrimmedAppend(a: seq<string>, b: seq<string>)
    requires AllTrimmedNonEmpty(a) && AllTrimmedNonEmpty(b)
    ensures AllTrimmedNonEmpty(a + b)
  {
    forall k | 0 <= k < |a + b|
      ensures (a + b)[k] != "" && IsTrimmed((a + b)[k])
    {
      if k >= |a| {
        assert (a + b)[k] == b[k - |a|];
      }
    }
  }

  lemma {:induction false} CleanNormalised(parts: seq<string>)
    ensures AllTrimmedNonEmpty(Clean(parts))
    decreases |parts|
  {
    if parts != [] {
      var t := Strip(parts[0]);
      StripIsTrimmed(parts[0]);
      CleanNormalised(parts[1..]);
      assert AllTrimmedNonEmpty(Kept(parts[0])) by {
        if t != "" {
          assert Kept(parts[0]) == [t];
        }
      }
      AllTrimmedAppend(Kept(parts[0]), Clean(parts[1..]));
    }
  }

  /** Clean keeps an already normalised list as it is. */
  lemma {:induction false} CleanOfNormalised(items: seq<string>)
    requires AllTrimmedNonEmpty(items)
    ensures Clean(items) == items
    decreases |items|
  {
    if items != [] {
      StripOfTrimmed(items[0]);
      assert Kept(items[0]) == [items[0]];
      assert AllTrimmedNonEmpty(items[1..]) by {
        forall k | 0 <= k < |items[1..]| ensures items[1..][k] != "" && IsTrimmed(items[1..][k]) {
          assert items[1..][k] == items[k + 1];
        }
      }
      CleanOfNormalised(items[1..]);
      assert [items[0]] + items[1..] == items;
    }
  }

  // ---------------------------------------------------------------------------
  // split() without arguments: the maximal runs of non-whitespace

  function NonEmpty(parts: seq<string>): seq<string>
    decreases |parts|
  {
    if parts == [] then []
    else (if parts[0] != "" then [parts[0]] else []) + NonEmpty(parts[1..])
  }

  /** Every part kept is one of the parts, and none of them is empty. */
  lemma {:induction false} NonEmptyKeeps(parts: seq<string>)
    ensures forall k :: 0 <= k < |NonEmpty(parts)| ==> NonEmpty(parts)[k] in parts
    ensures forall k :: 0 <= k < |NonEmpty(parts)| ==> NonEmpty(parts)[k] != ""
    decreases |parts|
  {
    if parts != [] {
      NonEmptyKeeps(parts[1..]);
      var head := if parts[0] != "" then [parts[0]] else [];
      forall k | 0 <= k < |NonEmpty(parts)|
        ensures NonEmpty(parts)[k] in parts && NonEmpty(parts)[k] != ""
      {
        if k >= |head| {
          assert NonEmpty(parts)[k] == NonEmpty(parts[1..])[k - |head|];
          assert NonEmpty(parts[1..])[k - |head|] in parts[1..] && NonEmpty(parts[1..])[k - |head|] != "";
        }
      }
    }
  }

  /** Python's `s.split()`. */
  function Words(s: string): seq<string> {
    NonEmpty(Split(s, IsSpace))
  }

  // ---------------------------------------------------------------------------
  // splitlines()

  /** Python's `s.splitlines()`: "\r\n" is one boundary and a trailing
      boundary does not open an empty last line. */
  function SplitLines(s: string): (r: seq<string>)
    ensures s != [] <==> r != []
    decreases |s|
  {
    if s == [] then []
    else if IsLineBreak(s[0]) then
      var skip := if s[0] == '\r' && |s| > 1 && s[1] == '\n' then 2 else 1;
      [""] + SplitLines(s[skip..])
    else
      var rest := SplitLines(s[1..]);
      if rest == [] then [[s[0]]] else [[s[0]] + rest[0]] + rest[1..]
  }

  lemma CleanCons(h: string, t: seq<string>)
    ensures Clean([h] + t) == Kept(h) + Clean(t)
  {
    assert ([h] + t)[1..] == t;
  }

  /** splitlines() agrees with splitting on every line-break character on the
      first line, and up to empty lines on the rest. */
  lemma {:induction false} SplitLinesAgree(s: string)
    requires s != []
    ensures SplitLines(s)[0] == Split(s, IsLineBreak)[0]
    ensures Clean(SplitLines(s)[1..]) == Clean(Split(s, IsLineBreak)[1..])
    decreases |s|, 0
  {
    if IsLineBreak(s[0]) {
      var skip := if s[0] == '\r' && |s| > 1 && s[1] == '\n' then 2 else 1;
      assert SplitLines(s)[1..] == SplitLines(s[skip..]);
      assert Split(s, IsLineBreak)[1..] == Split(s[1..], IsLineBreak);
      if skip == 2 {
        assert Split(s[1..], IsLineBreak) == [""] + Split(s[2..], IsLineBreak) by {
          assert s[1..][1..] == s[2..];
        }
        CleanCons("", Split(s[2..], IsLineBreak));
      }
      CleanLinesAgree(s[skip..]);
    } else if s[1..] == [] {
    } else {
      SplitLinesAgree(s[1..]);
    }
  }

  lemma {:induction false} CleanLinesAgree(s: string)
    ensures Clean(SplitLines(s)) == Clean(Split(s, IsLineBreak))
    decreases |s|, 1
  {
    if s == [] {
    } else {
      var a := SplitLines(s);
      var b := Split(s, IsLineBreak);
      SplitLinesAgree(s);
      assert a == [a[0]] + a[1..];
      assert b == [b[0]] + b[1..];
      CleanCons(a[0], a[1..]);
      CleanCons(b[0], b[1..]);
    }
  }

  // ---------------------------------------------------------------------------
  // str.join

  /** Python's `sep.join(parts)`. */
  function Join(sep: string, parts: seq<string>): string
    decreases |parts|
  {
    if parts == [] then ""
    else if |parts| == 1 then parts[0]
    else parts[0] + sep + Join(sep, parts[1..])
  }

  /** Joining two non-empty runs of parts puts one separator between them. */
  lemma {:induction false} JoinAppend(sep: string, a: seq<string>, b: seq<string>)
    requires a != [] && b != []
    ensures Join(sep, a + b) == Join(sep, a) + sep + Join(sep, b)
    decreases |a|
  {
    if |a| == 1 {
      assert (a + b)[1..] == b;
    } else {
      assert (a + b)[1..] == a[1..] + b;
      JoinAppend(sep, a[1..], b);
    }
  }

  // ---------------------------------------------------------------------------
  // Case folding, restricted to ASCII: the boolean tokens are ASCII, and no
  // other character lower-cases to one of their letters.

  function LowerChar(c: char): char {
    if 'A' <= c <= 'Z' then (c as int + 32) as char else c
  }

  function Lower(s: string): (r: string)
    ensures |r| == |s|
  {
    seq(|s|, k requires 0 <= k < |s| => LowerChar(s[k]))
  }

  lemma LowerCharKeepsSpace(c: char)
    ensures IsSpace(LowerChar(c)) == IsSpace(c)
  {
  }

  lemma {:induction false} LowerTrimStart(s: string)
    ensures TrimStart(Lower(s)) == Lower(TrimStart(s))
    decreases |s|
  {
    if s != [] {
      LowerCharKeepsSpace(s[0]);
      assert Lower(s)[1..] == Lower(s[1..]);
      LowerTrimStart(s[1..]);
    }
  }

  lemma {:induction false} LowerTrimEnd(s: string)
    ensures TrimEnd(Lower(s)) == Lower(TrimEnd(s))
    decreases |s|
  {
    if s != [] {
      LowerCharKeepsSpace(s[|s| - 1]);
      assert Lower(s)[..|s| - 1] == Lower(s[..|s| - 1]);
      LowerTrimEnd(s[..|s| - 1]);
    }
  }

  /** Case folding and stripping commute, and folding twice is folding once. */
  lemma LowerStrip(s: string)
    ensures Strip(Lower(s)) == Lower(Strip(s))
    ensures Lower(Lower(s)) == Lower(s)
  {
    LowerTrimStart(s);
    LowerTrimEnd(TrimStart(s));
  }

  // ---------------------------------------------------------------------------
  // str(int) and int(str)

  function DigitChar(d: nat): char
    requires d < 10
  {
    "0123456789"[d]
  }

  function NatText(n: nat): (r: string)
    decreases n
  {
    if n < 10 then [DigitChar(n)] else NatText(n / 10) + [DigitChar(n % 10)]
  }

  /** Python's `str(n)` for an integer. */
  function Decimal(n: int): string {
    if n < 0 then "-" + NatText(-n) else NatText(n)
  }

  /** Every character of `s` is an ASCII digit. */
  predicate AllDigits(s: string)
    decreases |s|
  {
    s == [] || (IsDigit(s[|s| - 1]) && AllDigits(s[..|s| - 1]))
  }

  /** A run of ASCII digits where single underscores may separate digits. */
  predicate IsDigitGroups(s: string)
    decreases |s|
  {
    |s| > 0 && IsDigit(s[|s| - 1])
    && (|s| == 1 || if s[|s| - 2] == '_' then IsDigitGroups(s[..|s| - 2]) else IsDigitGroups(s[..|s| - 1]))
  }

  function DigitsValue(s: string): nat
    decreases |s|
  {
    if s == [] then 0
    else if IsDigit(s[|s| - 1]) then DigitsValue(s[..|s| - 1]) * 10 + (s[|s| - 1] as int - '0' as int)
    else DigitsValue(s[..|s| - 1])
  }

  /** Python's `int(s)` for a string in base 10 (ASCII digits only): the
      surrounding whitespace is stripped first. */
  function ParseInt(s: string): Option<int> {
    ParseTrimmed(Strip(s))
  }

  /** An optional sign followed by digit groups. */
  function ParseTrimmed(t: string): Option<int> {
    if t != [] && (t[0] == '+' || t[0] == '-') then
      if IsDigitGroups(t[1..]) then
        Some(if t[0] == '-' then -(DigitsValue(t[1..]) as int) else DigitsValue(t[1..]))
      else None
    else if IsDigitGroups(t) then Some(DigitsValue(t))
    else None
  }

  // ---------------------------------------------------------------------------
  // posixpath

  /** `os.path.isabs(p)` on POSIX. */
  predicate IsAbs(p: string) {
    |p| > 0 && p[0] == '/'
  }

  /** `os.path.join(a, b)` on POSIX. */
  function PathJoin(a: string, b: string): (r: string)
    ensures IsAbs(b) ==> r == b
    ensures !IsAbs(b) && a != [] && a[|a| - 1] != '/' ==> r == a + "/" + b
  {
    if IsAbs(b) then b
    else if a == [] || a[|a| - 1] == '/' then a + b
    else a + "/" + b
  }

  lemma PathJoinKeepsAbs(a: string, b: string)
    ensures IsAbs(a) ==> IsAbs(PathJoin(a, b))
  {
  }

  /** A relative name joined to a directory that does not end in a slash. */
  lemma InsideDirectory(dir: string, name: string)
    requires dir != [] && dir[|dir| - 1] != '/'
    requires name != [] && name[0] != '/'
    ensures PathJoin(dir, name) == dir + ("/" + name)
  {
    assert dir + "/" + name == dir + ("/" + name);
  }

  /** `p.split("/")[-1]`, which is also `os.path.basename(p)`. */
  function LastSegment(p: string): string {
    var parts := Split(p, IsSlash);
    parts[|parts| - 1]
  }

  lemma LastSegmentAfterSlash(dir: string, name: string)
    requires forall k :: 0 <= k < |name| ==> name[k] != '/'
    ensures LastSegment(dir + "/" + name) == name
  {
    assert dir + "/" + name == dir + ['/'] + name;
    LastPieceAfterSeparator(dir, '/', name, IsSlash);
  }

  // ---------------------------------------------------------------------------
  // int(str(n)) == n

  lemma DigitCharValue(d: nat)
    requires d < 10
    ensures IsDigit(DigitChar(d)) && DigitChar(d) as int - '0' as int == d
  {
  }

  lemma {:induction false} NatTextDigits(n: nat)
    ensures NatText(n) != [] && AllDigits(NatText(n))
    ensures DigitsValue(NatText(n)) == n
    decreases n
  {
    var d := n % 10;
    DigitCharValue(d);
    if n < 10 {
      assert NatText(n) == [DigitChar(n)];
      assert NatText(n)[..0] == [];
    } else {
      var q := n / 10;
      NatTextDigits(q);
      var s := NatText(n);
      assert s == NatText(q) + [DigitChar(d)];
      assert s[..|s| - 1] == NatText(q);
      assert s[|s| - 1] == DigitChar(d);
      assert DigitsValue(s) == DigitsValue(NatText(q)) * 10 + d;
      assert q * 10 + d == n;
    }
  }

  lemma {:induction false} AllDigitsAreGroups(t: string)
    requires t != [] && AllDigits(t)
    ensures IsDigitGroups(t) && IsDigit(t[0]) && IsTrimmed(t)
    decreases |t|
  {
    if |t| > 1 {
      var front := t[..|t| - 1];
      AllDigitsAreGroups(front);
      assert front[|front| - 1] == t[|t| - 2];
      assert front[0] == t[0];
    }
  }

  lemma ParseDigits(t: string)
    requires t != [] && AllDigits(t)
    ensures ParseInt(t) == Some(DigitsValue(t) as int)
  {
    AllDigitsAreGroups(t);
    ParseUnsignedGroups(t);
    StripOfTrimmed(t);
  }

  lemma ParseUnsignedGroups(t: string)
    requires IsDigitGroups(t) && IsDigit(t[0])
    ensures ParseTrimmed(t) == Some(DigitsValue(t) as int)
  {
  }

  lemma ParseNegativeGroups(s: string)
    requires |s| > 1 && s[0] == '-' && IsDigitGroups(s[1..])
    ensures ParseTrimmed(s) == Some(-(DigitsValue(s[1..]) as int))
  {
  }

  lemma ParseNegativeDigits(s: string)
    requires |s| > 1 && s[0] == '-' && AllDigits(s[1..])
    ensures ParseInt(s) == Some(-(DigitsValue(s[1..]) as int))
  {
    var t := s[1..];
    AllDigitsAreGroups(t);
    ParseNegativeGroups(s);
    assert IsTrimmed(s) by {
      assert s[|s| - 1] == t[|t| - 1];
    }
    StripOfTrimmed(s);
  }

  /** Parsing the decimal text of an integer gives the integer back. */
  lemma ParseDecimal(n: int)
    ensures ParseInt(Decimal(n)) == Some(n)
  {
    var m: nat := if n < 0 then -n else n;
    NatTextDigits(m);
    if n < 0 {
      var s := Decimal(n);
      assert s[1..] == NatText(m);
      ParseNegativeDigits(s);
    } else {
      ParseDigits(NatText(m));
    }
  }
}
