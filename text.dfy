/** The Python string operations the analyzer relies on, written out over
    `seq<char>`: `split`, `join`, `replace`, `strip(c)`, `strip()`'s notion of
    whitespace, `title()` and `str(int)`. */
module Text {

  // ---------------------------------------------------------------------
  // split and join
  // ---------------------------------------------------------------------

  /** `s.split(sep)` for a non-empty separator: the text is cut at every
      occurrence of `sep`, found left to right without overlap. */
  function Split(s: string, sep: string): (parts: seq<string>)
    requires sep != []
    ensures |parts| >= 1
    decreases |s|
  {
    if |s| < |sep| then [s]
    else if s[..|sep|] == sep then [""] + Split(s[|sep|..], sep)
    else
      var rest := Split(s[1..], sep);
      [[s[0]] + rest[0]] + rest[1..]
  }

  /** `sep.join(parts)`. */
  function Join(sep: string, parts: seq<string>): string
  {
    if |parts| == 0 then ""
    else if |parts| == 1 then parts[0]
    else parts[0] + sep + Join(sep, parts[1..])
  }

  /** The last element of a non-empty sequence (Python's `xs[-1]`). */
  function Last<T>(xs: seq<T>): T
    requires xs != []
  {
    xs[|xs| - 1]
  }

  /** Python's slice `xs[1:-1]`, which is empty when `xs` has fewer than
      two elements. */
  function Inner<T>(xs: seq<T>): (r: seq<T>)
    ensures |xs| >= 2 ==> |r| == |xs| - 2
    ensures |xs| < 2 ==> r == []
  {
    if |xs| >= 2 then xs[1..|xs| - 1] else []
  }

  lemma JoinConsHead(sep: string, x: string, y: string, rest: seq<string>)
    ensures Join(sep, [x + y] + rest) == x + Join(sep, [y] + rest)
  {
    if rest != [] {
      assert ([x + y] + rest)[1..] == rest;
      assert ([y] + rest)[1..] == rest;
    }
  }

  /** Joining what was split gives back the text. */
  lemma {:induction false} JoinSplit(s: string, sep: string)
    requires sep != []
    ensures Join(sep, Split(s, sep)) == s
    decreases |s|
  {
    if |s| < |sep| {
    } else if s[..|sep|] == sep {
      var rest := Split(s[|sep|..], sep);
      JoinSplit(s[|sep|..], sep);
      assert ([""] + rest)[1..] == rest;
      assert s == s[..|sep|] + s[|sep|..];
    } else {
      var rest := Split(s[1..], sep);
      JoinSplit(s[1..], sep);
      assert rest == [rest[0]] + rest[1..];
      JoinConsHead(sep, [s[0]], rest[0], rest[1..]);
      assert s == [s[0]] + s[1..];
    }
  }

  /** Appending one part to a non-empty list of parts appends the separator
      and the part to the joined text. */
  lemma {:induction false} JoinSnoc(sep: string, parts: seq<string>, x: string)
    requires parts != []
    ensures Join(sep, parts + [x]) == Join(sep, parts) + sep + x
    decreases |parts|
  {
    if |parts| == 1 {
      assert (parts + [x])[1..] == [x];
    } else {
      assert (parts + [x])[1..] == parts[1..] + [x];
      JoinSnoc(sep, parts[1..], x);
    }
  }

  /** Parts whose first one is empty join to the separator, the inner
      parts joined, the separator and the last part. */
  lemma JoinAroundInner(sep: string, parts: seq<string>)
    requires |parts| >= 3 && parts[0] == ""
    ensures sep + Join(sep, Inner(parts)) + sep + Last(parts) == Join(sep, parts)
  {
    var mid := Inner(parts);
    assert parts[1..] == mid + [Last(parts)];
    JoinSnoc(sep, mid, Last(parts));
  }

  /** `x in s` for strings: `x` occurs in `s` as a contiguous piece. */
  ghost predicate Occurs(x: string, s: string)
  {
    exists pre, post :: s == pre + x + post
  }

  /** Every part occurs in the joined text. */
  lemma {:induction false} JoinHasParts(sep: string, parts: seq<string>, i: nat)
    requires i < |parts|
    ensures Occurs(parts[i], Join(sep, parts))
    decreases |parts|
  {
    if |parts| == 1 {
      assert Join(sep, parts) == [] + parts[0] + [];
    } else if i == 0 {
      assert Join(sep, parts) == [] + parts[0] + (sep + Join(sep, parts[1..]));
    } else {
      JoinHasParts(sep, parts[1..], i - 1);
      var pre, post :| Join(sep, parts[1..]) == pre + parts[1..][i - 1] + post;
      assert Join(sep, parts) == (parts[0] + sep + pre) + parts[i] + post;
    }
  }

  /** A one-character separator never survives inside a part. */
  lemma {:induction false} SplitPartsAvoidSeparator(s: string, c: char)
    ensures forall p :: p in Split(s, [c]) ==> c !in p
    decreases |s|
  {
    if |s| < 1 {
    } else if s[..1] == [c] {
      SplitPartsAvoidSeparator(s[1..], c);
    } else {
      SplitPartsAvoidSeparator(s[1..], c);
      var rest := Split(s[1..], [c]);
      assert s[0] != c by { assert s[..1] == [s[0]]; }
      forall p | p in [[s[0]] + rest[0]] + rest[1..] ensures c !in p {
        if p != [s[0]] + rest[0] {
          assert p in rest;
        } else {
          assert rest[0] in rest;
        }
      }
    }
  }

  // ---------------------------------------------------------------------
  // replace
  // ---------------------------------------------------------------------

  /** `s.replace(pat, with)` for a non-empty pattern: every occurrence, found
      left to right without overlap, is replaced. */
  function Replace(s: string, pat: string, with: string): string
    requires pat != []
    decreases |s|
  {
    if |s| < |pat| then s
    else if s[..|pat|] == pat then with + Replace(s[|pat|..], pat, with)
    else [s[0]] + Replace(s[1..], pat, with)
  }

  /** Python's identity `s.replace(p, q) == q.join(s.split(p))`: replacing is
      splitting on the pattern and joining with the replacement. */
  lemma {:induction false} ReplaceIsJoinOfSplit(s: string, pat: string, with: string)
    requires pat != []
    ensures Replace(s, pat, with) == Join(with, Split(s, pat))
    decreases |s|
  {
    if |s| < |pat| {
    } else if s[..|pat|] == pat {
      var rest := Split(s[|pat|..], pat);
      ReplaceIsJoinOfSplit(s[|pat|..], pat, with);
      assert ([""] + rest)[1..] == rest;
    } else {
      var rest := Split(s[1..], pat);
      ReplaceIsJoinOfSplit(s[1..], pat, with);
      assert rest == [rest[0]] + rest[1..];
      JoinConsHead(with, [s[0]], rest[0], rest[1..]);
    }
  }

  /** After replacing a single character by a different one, the character
      is gone. */
  lemma ReplaceCharRemovesIt(s: string, c: char, d: char)
    requires c != d
    ensures c !in Replace(s, [c], [d])
  {
    ReplaceIsJoinOfSplit(s, [c], [d]);
    SplitPartsAvoidSeparator(s, c);
    JoinAvoids(Split(s, [c]), [d], c);
  }

  lemma {:induction false} JoinAvoids(parts: seq<string>, sep: string, c: char)
    requires c !in sep
    requires forall p :: p in parts ==> c !in p
    ensures c !in Join(sep, parts)
    decreases |parts|
  {
    if |parts| > 1 {
      assert parts[0] in parts;
      forall p | p in parts[1..] ensures c !in p {
        assert p in parts;
      }
      JoinAvoids(parts[1..], sep, c);
    } else if |parts| == 1 {
      assert parts[0] in parts;
    }
  }

  // ---------------------------------------------------------------------
  // the text after the last separator: s.split(c)[-1]
  // ---------------------------------------------------------------------

  /** `s.split(c)[-1]`. */
  function AfterLast(s: string, c: char): string
  {
    Last(Split(s, [c]))
  }

  /** The last part of a split is a suffix of the text, and either the
      whole text or preceded by the separator. */
  lemma AfterLastIsTail(s: string, c: char)
    ensures |AfterLast(s, c)| <= |s|
    ensures AfterLast(s, c) == s[|s| - |AfterLast(s, c)|..]
    ensures |AfterLast(s, c)| < |s| ==> s[|s| - |AfterLast(s, c)| - 1] == c
    ensures c !in AfterLast(s, c)
  {
    var parts := Split(s, [c]);
    JoinSplit(s, [c]);
    SplitPartsAvoidSeparator(s, c);
    assert Last(parts) in parts;
    if |parts| >= 2 {
      var front := parts[..|parts| - 1];
      assert parts == front + [Last(parts)];
      JoinSnoc([c], front, Last(parts));
      assert s == Join([c], front) + [c] + Last(parts);
    }
  }

  // ---------------------------------------------------------------------
  // strip(c)
  // ---------------------------------------------------------------------

  /** `s.lstrip(c)`: the text without its leading run of `c`. */
  function TrimLeft(s: string, c: char): string
    decreases |s|
  {
    if s != [] && s[0] == c then TrimLeft(s[1..], c) else s
  }

  /** `s.rstrip(c)`: the text without its trailing run of `c`. */
  function TrimRight(s: string, c: char): string
    decreases |s|
  {
    if s != [] && s[|s| - 1] == c then TrimRight(s[..|s| - 1], c) else s
  }

  /** `s.strip(c)`. */
  function Strip(s: string, c: char): string
  {
    TrimRight(TrimLeft(s, c), c)
  }

  /** `lstrip` removes a prefix made only of `c`, and what remains does not
      start with `c`. */
  lemma {:induction false} TrimLeftShape(s: string, c: char)
    ensures var r := TrimLeft(s, c);
            |r| <= |s| && r == s[|s| - |r|..] &&
            (forall k :: 0 <= k < |s| - |r| ==> s[k] == c) &&
            (r == [] || r[0] != c)
    decreases |s|
  {
    if s != [] && s[0] == c {
      TrimLeftShape(s[1..], c);
    }
  }

  /** `rstrip` removes a suffix made only of `c`, and what remains does not
      end with `c`. */
  lemma {:induction false} TrimRightShape(s: string, c: char)
    ensures var r := TrimRight(s, c);
            |r| <= |s| && r == s[..|r|] &&
            (forall k :: |r| <= k < |s| ==> s[k] == c) &&
            (r == [] || r[|r| - 1] != c)
    decreases |s|
  {
    if s != [] && s[|s| - 1] == c {
      TrimRightShape(s[..|s| - 1], c);
    }
  }

  /** A stripped text neither starts nor ends with the stripped character. */
  lemma StripEnds(s: string, c: char)
    ensures Strip(s, c) == [] || (Strip(s, c)[0] != c && Last(Strip(s, c)) != c)
  {
    var l := TrimLeft(s, c);
    var r := TrimRight(l, c);
    TrimLeftShape(s, c);
    TrimRightShape(l, c);
    if r != [] {
      assert r[0] == l[0];
    }
  }

  /** A stripped text is the middle of the original once the runs of the
      stripped character are cut from both ends. */
  lemma StripIsMiddle(s: string, c: char)
    ensures var i := |s| - |TrimLeft(s, c)|;
            var r := Strip(s, c);
            0 <= i && i + |r| <= |s| && r == s[i..i + |r|] &&
            (forall k :: 0 <= k < i ==> s[k] == c) &&
            (forall k :: i + |r| <= k < |s| ==> s[k] == c)
  {
    var l := TrimLeft(s, c);
    var r := TrimRight(l, c);
    TrimLeftShape(s, c);
    TrimRightShape(l, c);
    var i := |s| - |l|;
    assert r == s[i..i + |r|];
    forall k | i + |r| <= k < |s| ensures s[k] == c {
      assert s[k] == l[k - i];
    }
  }

  /** Stripping twice is stripping once. */
  lemma StripIdempotent(s: string, c: char)
    ensures Strip(Strip(s, c), c) == Strip(s, c)
  {
    var r := Strip(s, c);
    StripEnds(s, c);
    var l := TrimLeft(r, c);
    if r != [] {
      assert r[0] != c;
    }
    assert l == r;
    var rr := TrimRight(l, c);
    if l != [] {
      assert l[|l| - 1] != c;
    }
    assert rr == l;
  }

  // ---------------------------------------------------------------------
  // whitespace, as str.strip() with no argument sees it
  // ---------------------------------------------------------------------

  /** The characters Python's `str.isspace` accepts. */
  predicate IsSpace(ch: char)
  {
    ch in {' ', '\t', '\n', '\r', '\U{B}', '\U{C}', '\U{1C}', '\U{1D}', '\U{1E}', '\U{1F}',
           '\U{85}', '\U{A0}', '\U{1680}', '\U{2028}', '\U{2029}', '\U{202F}', '\U{205F}', '\U{3000}'}
    || ('\U{2000}' <= ch <= '\U{200A}')
  }

  /** `not s.strip()`: the text is empty or only whitespace. */
  predicate IsBlank(s: string)
  {
    forall i :: 0 <= i < |s| ==> IsSpace(s[i])
  }

  // ---------------------------------------------------------------------
  // title()
  // ---------------------------------------------------------------------

  predicate IsUpper(ch: char) { 'A' <= ch <= 'Z' }
  predicate IsLower(ch: char) { 'a' <= ch <= 'z' }
  predicate IsCased(ch: char) { IsUpper(ch) || IsLower(ch) }

  function ToUpper(ch: char): char
  {
    if IsLower(ch) then (ch as int - 'a' as int + 'A' as int) as char else ch
  }

  function ToLower(ch: char): char
  {
    if IsUpper(ch) then (ch as int - 'A' as int + 'a' as int) as char else ch
  }

  /** `title()` from a position whose predecessor was (or was not) a cased
      letter: a letter after a cased letter is lowered, any other letter is
      raised. */
  function TitleFrom(s: string, afterCased: bool): (r: string)
    ensures |r| == |s|
    decreases |s|
  {
    if s == [] then []
    else
      var ch := if afterCased then ToLower(s[0]) else ToUpper(s[0]);
      [ch] + TitleFrom(s[1..], IsCased(ch))
  }

  /** `s.title()`. */
  function Title(s: string): string
  {
    TitleFrom(s, false)
  }

  lemma {:induction false} TitleFromIdempotent(s: string, afterCased: bool)
    ensures TitleFrom(TitleFrom(s, afterCased), afterCased) == TitleFrom(s, afterCased)
    decreases |s|
  {
    if s != [] {
      var t := TitleFrom(s, afterCased);
      var ch := if afterCased then ToLower(s[0]) else ToUpper(s[0]);
      assert t[0] == ch && t[1..] == TitleFrom(s[1..], IsCased(ch));
      TitleFromIdempotent(s[1..], IsCased(ch));
    }
  }

  /** Title-casing is idempotent. */
  lemma TitleIdempotent(s: string)
    ensures Title(Title(s)) == Title(s)
  {
    TitleFromIdempotent(s, false);
  }

  /** Title-casing changes letters only, and those in case only: every
      character is the same letter up to case, and every other character
      stays where it was. */
  lemma {:induction false} TitleFromKeepsNonLetters(s: string, afterCased: bool, k: nat)
    requires k < |s|
    ensures IsCased(TitleFrom(s, afterCased)[k]) == IsCased(s[k])
    ensures ToLower(TitleFrom(s, afterCased)[k]) == ToLower(s[k])
    ensures !IsCased(s[k]) ==> TitleFrom(s, afterCased)[k] == s[k]
    decreases |s|
  {
    var ch := if afterCased then ToLower(s[0]) else ToUpper(s[0]);
    if k > 0 {
      TitleFromKeepsNonLetters(s[1..], IsCased(ch), k - 1);
    }
  }

  // ---------------------------------------------------------------------
  // str(n) for a natural number
  // ---------------------------------------------------------------------

  function DigitChar(d: nat): char
    requires d < 10
  {
    "0123456789"[d]
  }

  /** `str(n)`: the decimal numeral of `n`, which starts with a zero only
      when it is the numeral of zero. */
  function NatToString(n: nat): (s: string)
    ensures s != []
    ensures forall i :: 0 <= i < |s| ==> '0' <= s[i] <= '9'
    ensures s[0] == '0' <==> n == 0
    decreases n
  {
    if n < 10 then [DigitChar(n)] else NatToString(n / 10) + [DigitChar(n % 10)]
  }

  /** The number a decimal numeral denotes. */
  function DecimalValue(s: string): nat
    requires forall i :: 0 <= i < |s| ==> '0' <= s[i] <= '9'
  {
    if s == [] then 0 else 10 * DecimalValue(s[..|s| - 1]) + (Last(s) as int - '0' as int)
  }

  /** Reading back the numeral gives the number. */
  lemma {:induction false} NatToStringRoundTrip(n: nat)
    ensures DecimalValue(NatToString(n)) == n
    decreases n
  {
    if n >= 10 {
      var s := NatToString(n);
      assert s[..|s| - 1] == NatToString(n / 10);
      NatToStringRoundTrip(n / 10);
    }
  }
}
