/**
 * The `java.lang.String` operations the controller and the service rely on:
 * `length()` (in UTF-16 code units), `toUpperCase()` (ASCII letters only),
 * `trim()`, `split(",")` and `String.format` with `%s` conversions.
 * Each is given by a function together with the property that pins it down.
 */
module JavaText {

  // ----------------- length -----------------

  /** The UTF-16 code units of one character: a surrogate pair above U+FFFF, one unit otherwise. */
  function Utf16Units(c: char): nat
  {
    if c as int < 0x1_0000 then 1 else 2
  }

  /** `String.length()`: Java strings are UTF-16, so the length counts code units, not characters. */
  function Utf16Length(s: string): (n: nat)
    ensures |s| <= n <= 2 * |s|
  {
    if s == [] then 0 else Utf16Units(s[0]) + Utf16Length(s[1..])
  }

  /** The length counts characters exactly when no character lies above U+FFFF. */
  lemma {:induction false} Utf16LengthIsSize(s: string)
    ensures Utf16Length(s) == |s| <==> forall i | 0 <= i < |s| :: s[i] as int < 0x1_0000
  {
    if s != [] {
      Utf16LengthIsSize(s[1..]);
      assert forall i | 1 <= i < |s| :: s[i] == s[1..][i - 1];
    }
  }

  /** An ASCII-letter text has one code unit per character. */
  lemma AsciiLettersLength(s: string)
    requires forall i | 0 <= i < |s| :: IsAsciiLetter(s[i])
    ensures Utf16Length(s) == |s|
  {
    Utf16LengthIsSize(s);
  }

  // ----------------- toUpperCase -----------------

  /** Upper-casing of one character: `a`..`z` become `A`..`Z`, every other character is kept. */
  function UpperChar(c: char): char
  {
    if 'a' <= c <= 'z' then (c as int - 32) as char else c
  }

  /** `String.toUpperCase()` on ASCII text: the same length, upper-cased position by position. */
  function ToUpperCase(s: string): (r: string)
    ensures |r| == |s|
    ensures forall i | 0 <= i < |s| :: r[i] == UpperChar(s[i])
  {
    if s == [] then [] else [UpperChar(s[0])] + ToUpperCase(s[1..])
  }

  predicate IsAsciiUpper(c: char) { 'A' <= c <= 'Z' }

  predicate IsAsciiLetter(c: char) { 'A' <= c <= 'Z' || 'a' <= c <= 'z' }

  /** Upper-casing twice is upper-casing once. */
  lemma ToUpperCaseIdempotent(s: string)
    ensures ToUpperCase(ToUpperCase(s)) == ToUpperCase(s)
  {
    var u := ToUpperCase(s);
    assert forall i | 0 <= i < |u| :: UpperChar(u[i]) == u[i];
  }

  /** A text whose upper-cased form consists of `A`..`Z` consists of ASCII letters. */
  lemma UpperCaseLettersComeFromLetters(s: string)
    requires forall i | 0 <= i < |s| :: IsAsciiUpper(ToUpperCase(s)[i])
    ensures forall i | 0 <= i < |s| :: IsAsciiLetter(s[i])
  {
    forall i | 0 <= i < |s| ensures IsAsciiLetter(s[i]) {
      assert IsAsciiUpper(ToUpperCase(s)[i]);
    }
  }

  // ----------------- trim -----------------

  /** `trim()` removes every character whose code is at most U+0020 (space and the control characters). */
  predicate IsTrimmable(c: char) { c <= ' ' }

  /** `s` without its leading trimmable characters. */
  function TrimStart(s: string): (r: string)
    ensures |r| <= |s|
    ensures r != [] ==> !IsTrimmable(r[0]) && r[|r| - 1] == s[|s| - 1]
  {
    if s != [] && IsTrimmable(s[0]) then TrimStart(s[1..]) else s
  }

  /** `s` without its trailing trimmable characters. */
  function TrimEnd(s: string): (r: string)
    ensures |r| <= |s|
    ensures r != [] ==> !IsTrimmable(r[|r| - 1]) && r[0] == s[0]
  {
    if s != [] && IsTrimmable(s[|s| - 1]) then TrimEnd(s[..|s| - 1]) else s
  }

  /**
   * `String.trim()`: the result is a contiguous piece of `s` that neither
   * starts nor ends with a trimmable character (`TrimKeepsOthers`: what it cuts away is trimmable).
   */
  function Trim(s: string): (r: string)
    ensures |r| <= |s|
    ensures r != [] ==> !IsTrimmable(r[0]) && !IsTrimmable(r[|r| - 1])
  {
    TrimEnd(TrimStart(s))
  }

  /** `TrimStart` keeps a suffix and cuts away only trimmable characters. */
  lemma {:induction false} TrimStartCutsTrimmable(s: string)
    ensures TrimStart(s) == s[|s| - |TrimStart(s)|..]
    ensures forall i | 0 <= i < |s| - |TrimStart(s)| :: IsTrimmable(s[i])
    decreases |s|
  {
    if s != [] && IsTrimmable(s[0]) {
      TrimStartCutsTrimmable(s[1..]);
      assert forall i | 1 <= i < |s| :: s[i] == s[1..][i - 1];
    }
  }

  /** `TrimEnd` keeps a prefix and cuts away only trimmable characters. */
  lemma {:induction false} TrimEndCutsTrimmable(s: string)
    ensures TrimEnd(s) == s[..|TrimEnd(s)|]
    ensures forall i | |TrimEnd(s)| <= i < |s| :: IsTrimmable(s[i])
    decreases |s|
  {
    if s != [] && IsTrimmable(s[|s| - 1]) {
      TrimEndCutsTrimmable(s[..|s| - 1]);
      assert forall i | 0 <= i < |s| - 1 :: s[i] == s[..|s| - 1][i];
    }
  }

  /** Only trimmable characters are cut away: every other character of `s` is in `Trim(s)`. */
  lemma TrimKeepsOthers(s: string)
    ensures forall i | 0 <= i < |s| :: IsTrimmable(s[i]) || s[i] in Trim(s)
  {
    var t := TrimStart(s);
    var r := TrimEnd(t);
    TrimStartCutsTrimmable(s);
    TrimEndCutsTrimmable(t);
    assert forall i | 0 <= i < |s| && !IsTrimmable(s[i]) :: s[i] in t by {
      forall i | 0 <= i < |s| && !IsTrimmable(s[i]) ensures s[i] in t {
        assert s[i] == t[i - (|s| - |t|)];
      }
    }
    assert forall k | 0 <= k < |t| && !IsTrimmable(t[k]) :: t[k] in r by {
      forall k | 0 <= k < |t| && !IsTrimmable(t[k]) ensures t[k] in r {
        assert t[k] == r[k];
      }
    }
  }

  /** A text with no trimmable character at either end is its own trimmed form. */
  lemma TrimKeepsUntrimmable(s: string)
    requires s != [] ==> !IsTrimmable(s[0]) && !IsTrimmable(s[|s| - 1])
    ensures Trim(s) == s
  {
  }

  // ----------------- split -----------------

  /** Splitting at every occurrence of `sep`, keeping every empty piece: one more piece than separators. */
  function SplitAll(s: string, sep: char): (parts: seq<string>)
    ensures |parts| >= 1
    ensures forall i | 0 <= i < |parts| :: sep !in parts[i]
    decreases |s|
  {
    if s == [] then [""]
    else
      var rest := SplitAll(s[1..], sep);
      if s[0] == sep then [""] + rest
      else [[s[0]] + rest[0]] + rest[1..]
  }

  /** The inverse of `SplitAll`: the pieces glued together with `sep` between neighbours. */
  function Join(parts: seq<string>, sep: char): string
    requires |parts| >= 1
  {
    if |parts| == 1 then parts[0] else parts[0] + [sep] + Join(parts[1..], sep)
  }

  /** Joining the pieces of a split gives back the text. */
  lemma {:induction false} JoinSplitAll(s: string, sep: char)
    ensures Join(SplitAll(s, sep), sep) == s
    decreases |s|
  {
    if s != [] {
      JoinSplitAll(s[1..], sep);
      var rest := SplitAll(s[1..], sep);
      if s[0] == sep {
        assert SplitAll(s, sep)[1..] == rest;
      } else if |rest| == 1 {
        assert s == [s[0]] + rest[0];
      } else {
        assert SplitAll(s, sep)[1..] == rest[1..];
        assert s == [s[0]] + (rest[0] + [sep] + Join(rest[1..], sep));
      }
    }
  }

  /** A piece with no separator in front of more text splits off as one piece. */
  lemma {:induction false} SplitAllPrefix(t: string, sep: char, rest: string)
    requires sep !in t
    ensures SplitAll(t + [sep] + rest, sep) == [t] + SplitAll(rest, sep)
    decreases |t|
  {
    if t == [] {
      assert t + [sep] + rest == [sep] + rest;
      assert ([sep] + rest)[1..] == rest;
    } else {
      SplitAllPrefix(t[1..], sep, rest);
      assert (t + [sep] + rest)[1..] == t[1..] + [sep] + rest;
      assert [t[0]] + t[1..] == t;
    }
  }

  /** A text with no separator splits into itself alone. */
  lemma {:induction false} SplitAllNoSeparator(t: string, sep: char)
    requires sep !in t
    ensures SplitAll(t, sep) == [t]
    decreases |t|
  {
    if t != [] {
      SplitAllNoSeparator(t[1..], sep);
      assert [t[0]] + t[1..] == t;
    }
  }

  /** Splitting the join of separator-free pieces gives back the pieces. */
  lemma {:induction false} SplitAllJoin(parts: seq<string>, sep: char)
    requires |parts| >= 1
    requires forall i | 0 <= i < |parts| :: sep !in parts[i]
    ensures SplitAll(Join(parts, sep), sep) == parts
    decreases |parts|
  {
    if |parts| == 1 {
      SplitAllNoSeparator(parts[0], sep);
    } else {
      SplitAllJoin(parts[1..], sep);
      SplitAllPrefix(parts[0], sep, Join(parts[1..], sep));
      assert [parts[0]] + parts[1..] == parts;
    }
  }

  /** `parts` without its trailing empty pieces (what `split` does with limit 0). */
  function DropTrailingEmpty(parts: seq<string>): (r: seq<string>)
    ensures |r| <= |parts| && r == parts[..|r|]
    ensures forall i | |r| <= i < |parts| :: parts[i] == ""
    ensures r != [] ==> r[|r| - 1] != ""
  {
    if parts != [] && parts[|parts| - 1] == "" then DropTrailingEmpty(parts[..|parts| - 1]) else parts
  }

  /**
   * `s.split(sep)` for a one-character literal pattern and limit 0: with no
   * occurrence of `sep` the text itself is the only piece (so `""` gives
   * `[""]`); otherwise the pieces between separators with trailing empty pieces removed.
   */
  function Split(s: string, sep: char): (r: seq<string>)
    ensures forall i | 0 <= i < |r| :: sep !in r[i]
    ensures sep !in s ==> r == [s]
    ensures sep in s ==> r != [] ==> r[|r| - 1] != ""
  {
    if sep !in s then [s] else DropTrailingEmpty(SplitAll(s, sep))
  }

  /** The pieces of `Split` are the leading pieces of `SplitAll`; the rest are empty. */
  lemma SplitIsTrimmedSplitAll(s: string, sep: char)
    ensures |Split(s, sep)| <= |SplitAll(s, sep)|
    ensures Split(s, sep) == SplitAll(s, sep)[..|Split(s, sep)|]
    ensures forall i | |Split(s, sep)| <= i < |SplitAll(s, sep)| :: SplitAll(s, sep)[i] == ""
  {
    if sep !in s {
      SplitAllNoSeparator(s, sep);
    }
  }

  /** Every character of `s` is a separator or a character of one of its `Split` pieces. */
  lemma {:induction false} SplitCoversText(s: string, sep: char)
    ensures forall k | 0 <= k < |s| :: s[k] == sep || exists i | 0 <= i < |Split(s, sep)| :: s[k] in Split(s, sep)[i]
  {
    var all := SplitAll(s, sep);
    var r := Split(s, sep);
    SplitIsTrimmedSplitAll(s, sep);
    JoinSplitAll(s, sep);
    forall k | 0 <= k < |s| && s[k] != sep
      ensures exists i | 0 <= i < |r| :: s[k] in r[i]
    {
      var i := JoinedCharInPiece(all, sep, k);
      assert all[i] != "";
      assert i < |r|;
      assert s[k] in r[i];
    }
  }

  /** A non-separator character of a join lies in one of the joined pieces. */
  lemma {:induction false} JoinedCharInPiece(parts: seq<string>, sep: char, k: nat) returns (i: nat)
    requires |parts| >= 1
    requires k < |Join(parts, sep)| && Join(parts, sep)[k] != sep
    ensures i < |parts| && Join(parts, sep)[k] in parts[i]
    decreases |parts|
  {
    if |parts| == 1 {
      i := 0;
    } else if k < |parts[0]| {
      i := 0;
      assert Join(parts, sep)[k] == parts[0][k];
    } else {
      var rest := Join(parts[1..], sep);
      assert Join(parts, sep) == parts[0] + [sep] + rest;
      assert k != |parts[0]|;
      assert Join(parts, sep)[k] == rest[k - |parts[0]| - 1];
      var j := JoinedCharInPiece(parts[1..], sep, k - |parts[0]| - 1);
      i := j + 1;
    }
  }

  /** Two separator-free pieces, the second non-empty, split back into those two pieces. */
  lemma SplitTwo(a: string, b: string, sep: char)
    requires sep !in a && sep !in b && b != ""
    ensures Split(a + [sep] + b, sep) == [a, b]
  {
    assert (a + [sep] + b)[|a|] == sep;
    SplitAllPrefix(a, sep, b);
    SplitAllNoSeparator(b, sep);
  }

  /** A non-empty separator-free piece followed by one separator splits into that piece alone. */
  lemma SplitTrailing(a: string, sep: char)
    requires sep !in a && a != ""
    ensures Split(a + [sep], sep) == [a]
  {
    assert (a + [sep])[|a|] == sep;
    assert a + [sep] == a + [sep] + "";
    SplitAllPrefix(a, sep, "");
    SplitAllNoSeparator("", sep);
    assert DropTrailingEmpty([a, ""]) == DropTrailingEmpty([a]);
  }

  /** Three separator-free pieces, the last non-empty, split back into those three pieces. */
  lemma SplitThree(a: string, b: string, c: string, sep: char)
    requires sep !in a && sep !in b && sep !in c && c != ""
    ensures Split(a + [sep] + (b + [sep] + c), sep) == [a, b, c]
  {
    var rest := b + [sep] + c;
    assert (a + [sep] + rest)[|a|] == sep;
    SplitAllPrefix(a, sep, rest);
    SplitAllPrefix(b, sep, c);
    SplitAllNoSeparator(c, sep);
  }

  /** A non-empty text made of separators only has no pieces at all: `",".split(",")` is empty. */
  lemma {:induction false} SplitOfSeparatorsIsEmpty(s: string, sep: char)
    requires s != [] && forall k | 0 <= k < |s| :: s[k] == sep
    ensures Split(s, sep) == []
  {
    assert s[0] == sep;
    var all := SplitAll(s, sep);
    AllPiecesEmpty(s, sep);
  }

  /** Splitting a text of separators only gives empty pieces. */
  lemma {:induction false} AllPiecesEmpty(s: string, sep: char)
    requires forall k | 0 <= k < |s| :: s[k] == sep
    ensures forall i | 0 <= i < |SplitAll(s, sep)| :: SplitAll(s, sep)[i] == ""
    decreases |s|
  {
    if s != [] {
      AllPiecesEmpty(s[1..], sep);
    }
  }

  // ----------------- String.format -----------------

  /** A `%s` conversion at the head of `t`. */
  predicate StartsWithConversion(t: string)
  {
    |t| >= 2 && t[0] == '%' && t[1] == 's'
  }

  /** The number of `%s` conversions in a template. */
  function Conversions(t: string): nat
    decreases |t|
  {
    if t == [] then 0
    else if StartsWithConversion(t) then 1 + Conversions(t[2..])
    else Conversions(t[1..])
  }

  /**
   * `String.format(t, args...)` for a template whose only conversions are `%s` of
   * string arguments: each `%s` is replaced by the next argument, every other
   * character is copied, and arguments left over are ignored.
   */
  function Format(t: string, args: seq<string>): string
    requires Conversions(t) <= |args|
    decreases |t|
  {
    if t == [] then ""
    else if StartsWithConversion(t) then args[0] + Format(t[2..], args[1..])
    else [t[0]] + Format(t[1..], args)
  }

  /** The template with a `%s` between every two neighbouring literal pieces. */
  function Template(pieces: seq<string>): string
    requires |pieces| >= 1
  {
    if |pieces| == 1 then pieces[0] else pieces[0] + "%s" + Template(pieces[1..])
  }

  /** The text with each argument written verbatim between two neighbouring pieces. */
  function Fill(pieces: seq<string>, args: seq<string>): string
    requires |pieces| == |args| + 1
  {
    if args == [] then pieces[0] else pieces[0] + args[0] + Fill(pieces[1..], args[1..])
  }

  /** Literal text without `%` in front of a template is copied and adds no conversion. */
  lemma {:induction false} FormatLiteralPrefix(p: string, t: string, args: seq<string>)
    requires '%' !in p && Conversions(t) <= |args|
    ensures Conversions(p + t) == Conversions(t)
    ensures Format(p + t, args) == p + Format(t, args)
    decreases |p|
  {
    if p == [] {
      assert p + t == t;
    } else {
      assert (p + t)[0] == p[0] && p[0] in p;
      assert (p + t)[1..] == p[1..] + t;
      FormatLiteralPrefix(p[1..], t, args);
      assert p == [p[0]] + p[1..];
    }
  }

  /**
   * Formatting the template built from pieces free of `%` substitutes the
   * arguments verbatim, one per conversion, with nothing escaped or encoded.
   */
  lemma {:induction false} FormatFillsTemplate(pieces: seq<string>, args: seq<string>)
    requires |pieces| == |args| + 1
    requires forall i | 0 <= i < |pieces| :: '%' !in pieces[i]
    ensures Conversions(Template(pieces)) == |args|
    ensures Format(Template(pieces), args) == Fill(pieces, args)
    decreases |args|
  {
    if args == [] {
      FormatLiteralPrefix(pieces[0], "", args);
      assert pieces[0] + "" == pieces[0];
    } else {
      var rest := Template(pieces[1..]);
      FormatFillsTemplate(pieces[1..], args[1..]);
      var t := "%s" + rest;
      assert StartsWithConversion(t) && t[2..] == rest;
      assert Conversions(t) == 1 + |args[1..]|;
      assert Format(t, args) == args[0] + Format(rest, args[1..]);
      FormatLiteralPrefix(pieces[0], t, args);
      assert Template(pieces) == pieces[0] + t;
    }
  }

  /** `Fill` for three arguments, written out. */
  lemma FillOfThree(p0: string, p1: string, p2: string, p3: string, a0: string, a1: string, a2: string)
    ensures Fill([p0, p1, p2, p3], [a0, a1, a2]) == p0 + a0 + p1 + a1 + p2 + a2 + p3
  {
    assert Fill([p3], []) == p3;
    assert [p2, p3][1..] == [p3] && [a2][1..] == [];
    assert Fill([p2, p3], [a2]) == p2 + a2 + p3;
    assert [p1, p2, p3][1..] == [p2, p3] && [a1, a2][1..] == [a2];
    assert Fill([p1, p2, p3], [a1, a2]) == p1 + a1 + (p2 + a2 + p3);
    assert [p0, p1, p2, p3][1..] == [p1, p2, p3] && [a0, a1, a2][1..] == [a1, a2];
  }

  /** `Fill` for five arguments, written out. */
  lemma FillOfFive(p0: string, p1: string, p2: string, p3: string, p4: string, p5: string,
                   a0: string, a1: string, a2: string, a3: string, a4: string)
    ensures Fill([p0, p1, p2, p3, p4, p5], [a0, a1, a2, a3, a4]) ==
      p0 + a0 + p1 + a1 + p2 + a2 + p3 + a3 + p4 + a4 + p5
  {
    FillOfThree(p2, p3, p4, p5, a2, a3, a4);
    assert [p1, p2, p3, p4, p5][1..] == [p2, p3, p4, p5] && [a1, a2, a3, a4][1..] == [a2, a3, a4];
    assert Fill([p1, p2, p3, p4, p5], [a1, a2, a3, a4]) == p1 + a1 + (p2 + a2 + p3 + a3 + p4 + a4 + p5);
    assert [p0, p1, p2, p3, p4, p5][1..] == [p1, p2, p3, p4, p5] && [a0, a1, a2, a3, a4][1..] == [a1, a2, a3, a4];
  }

  /** `Template` for four pieces, written out. */
  lemma TemplateOfFour(p0: string, p1: string, p2: string, p3: string)
    ensures Template([p0, p1, p2, p3]) == p0 + "%s" + (p1 + "%s" + (p2 + "%s" + p3))
  {
    assert [p0, p1, p2, p3][1..] == [p1, p2, p3] && [p1, p2, p3][1..] == [p2, p3] && [p2, p3][1..] == [p3];
    assert Template([p3]) == p3;
    assert Template([p2, p3]) == p2 + "%s" + p3;
  }

  /** `Template` for six pieces, written out. */
  lemma TemplateOfSix(p0: string, p1: string, p2: string, p3: string, p4: string, p5: string)
    ensures Template([p0, p1, p2, p3, p4, p5]) ==
      p0 + "%s" + (p1 + "%s" + (p2 + "%s" + (p3 + "%s" + (p4 + "%s" + p5))))
  {
    TemplateOfFour(p2, p3, p4, p5);
    assert [p0, p1, p2, p3, p4, p5][1..] == [p1, p2, p3, p4, p5] && [p1, p2, p3, p4, p5][1..] == [p2, p3, p4, p5];
    assert Template([p1, p2, p3, p4, p5]) == p1 + "%s" + Template([p2, p3, p4, p5]);
  }
}
