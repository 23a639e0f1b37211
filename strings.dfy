/**
 * The Python `str` built-ins the core relies on, on Dafny strings (sequences of
 * Unicode scalar values, as Python strings are sequences of code points).
 * Case mapping and digit tests cover ASCII only (see README, "Left out").
 */
module Strings {

  /** `str.isspace()`: the characters matched by `\s` in a `re` pattern and removed by `str.strip()`. */
  predicate IsSpace(c: char)
  {
    || c == ' '
    || ('\t' <= c <= '\r')
    || ('\U{1C}' <= c <= '\U{1F}')
    || c == '\U{85}' || c == '\U{A0}' || c == '\U{1680}'
    || ('\U{2000}' <= c <= '\U{200A}')
    || c == '\U{2028}' || c == '\U{2029}' || c == '\U{202F}' || c == '\U{205F}' || c == '\U{3000}'
  }

  predicate IsDigit(c: char)
  {
    '0' <= c <= '9'
  }

  /** `s.isdigit()`: non-empty and made of digits only. */
  predicate IsDigits(s: string)
  {
    |s| > 0 && forall k | 0 <= k < |s| :: IsDigit(s[k])
  }

  /** `int(s)` for a string of digits. */
  function DigitsValue(s: string): nat
    requires forall k | 0 <= k < |s| :: IsDigit(s[k])
  {
    if s == [] then 0
    else
      assert IsDigit(s[|s| - 1]);
      DigitsValue(s[..|s| - 1]) * 10 + ((s[|s| - 1] as int) - ('0' as int))
  }

  function DigitChar(d: nat): (c: char)
    requires d < 10
    ensures IsDigit(c)
  {
    (('0' as int) + d) as char
  }

  /** `str(n)` for a non-negative integer. */
  function NatToString(n: nat): (r: string)
    ensures IsDigits(r)
  {
    if n < 10 then [DigitChar(n)] else NatToString(n / 10) + [DigitChar(n % 10)]
  }

  /** `str(i)` for any integer. */
  function IntToString(i: int): string
  {
    if i < 0 then "-" + NatToString(-i) else NatToString(i)
  }

  predicate IsUpperAscii(c: char) { 'A' <= c <= 'Z' }

  predicate IsLowerAscii(c: char) { 'a' <= c <= 'z' }

  /** A cased character, in the ASCII range. */
  predicate IsCased(c: char) { IsUpperAscii(c) || IsLowerAscii(c) }

  function LowerChar(c: char): char
  {
    if IsUpperAscii(c) then ((c as int) + 32) as char else c
  }

  function UpperChar(c: char): char
  {
    if IsLowerAscii(c) then ((c as int) - 32) as char else c
  }

  /** `s.lower()`. */
  function Lower(s: string): (r: string)
    ensures |r| == |s|
  {
    seq(|s|, k requires 0 <= k < |s| => LowerChar(s[k]))
  }

  /** `s.upper()`. */
  function Upper(s: string): (r: string)
    ensures |r| == |s|
  {
    seq(|s|, k requires 0 <= k < |s| => UpperChar(s[k]))
  }

  /**
   * `s.title()`: a character that follows a cased character is lowered, any
   * other is upper-cased; `previousCased` says whether the character before `s` was cased.
   */
  function TitleFrom(s: string, previousCased: bool): (r: string)
    ensures |r| == |s|
  {
    if s == [] then []
    else [if previousCased then LowerChar(s[0]) else UpperChar(s[0])] + TitleFrom(s[1..], IsCased(s[0]))
  }

  function Title(s: string): string
  {
    TitleFrom(s, false)
  }

  /** `s.startswith(p)`. */
  predicate StartsWith(s: string, p: string)
  {
    |p| <= |s| && s[..|p|] == p
  }

  /** `s.endswith(p)`. */
  predicate EndsWith(s: string, p: string)
  {
    |p| <= |s| && s[|s| - |p|..] == p
  }

  /** `sub in s`. */
  predicate Contains(s: string, sub: string)
  {
    exists k | 0 <= k <= |s| :: StartsWith(s[k..], sub)
  }

  /** `s[:n]` for a non-negative bound. */
  function Take<T>(s: seq<T>, n: nat): (r: seq<T>)
    ensures |r| == if n < |s| then n else |s|
    ensures r == s[..|r|]
  {
    if n < |s| then s[..n] else s
  }

  /** Drops leading whitespace. */
  function TrimLeft(s: string): (r: string)
    ensures |r| <= |s| && r == s[|s| - |r|..]
    ensures r == [] || !IsSpace(r[0])
    ensures forall k | 0 <= k < |s| - |r| :: IsSpace(s[k])
  {
    if s != [] && IsSpace(s[0]) then TrimLeft(s[1..]) else s
  }

  /** Drops trailing whitespace. */
  function TrimRight(s: string): (r: string)
    ensures |r| <= |s| && r == s[..|r|]
    ensures r == [] || !IsSpace(r[|r| - 1])
    ensures forall k | |r| <= k < |s| :: IsSpace(s[k])
  {
    if s != [] && IsSpace(s[|s| - 1]) then TrimRight(s[..|s| - 1]) else s
  }

  /** No whitespace at either end, as `str.strip()` leaves a string. */
  predicate Stripped(s: string)
  {
    s == [] || (!IsSpace(s[0]) && !IsSpace(s[|s| - 1]))
  }

  /** `s.strip()`: whitespace cut on either side. */
  function Strip(s: string): (r: string)
    ensures |r| <= |s|
    ensures Stripped(r)
  {
    TrimRight(TrimLeft(s))
  }

  /** The first index of `c` in `s`, or `|s|` when there is none. */
  function IndexOf(s: string, c: char): (i: nat)
    ensures i <= |s|
    ensures i < |s| ==> s[i] == c
    ensures forall k | 0 <= k < i :: s[k] != c
  {
    if s == [] then 0 else if s[0] == c then 0 else 1 + IndexOf(s[1..], c)
  }

  /** `s.split(sep)` for a one-character separator. */
  function Split(s: string, sep: char): (parts: seq<string>)
    ensures |parts| >= 1
    decreases |s|
  {
    var i := IndexOf(s, sep);
    if i == |s| then [s] else [s[..i]] + Split(s[i + 1..], sep)
  }

  /** `sep.join(parts)`. */
  function Join(parts: seq<string>, sep: string): string
  {
    if parts == [] then "" else if |parts| == 1 then parts[0] else parts[0] + sep + Join(parts[1..], sep)
  }

  /** A string starts with any of its prefixes. */
  lemma PrefixOfConcat(a: string, b: string)
    ensures StartsWith(a + b, a)
  {
    assert (a + b)[..|a|] == a;
  }

  /** A prefix of a string is a prefix of any extension of it. */
  lemma PrefixExtend(a: string, p: string, b: string)
    requires StartsWith(a, p)
    ensures StartsWith(a + b, p)
  {
    assert (a + b)[..|p|] == a[..|p|];
  }

  /** Concatenation regrouped. */
  lemma Assoc<T>(a: seq<T>, b: seq<T>, c: seq<T>)
    ensures a + (b + c) == a + b + c
  {
  }

  /** A prefix one element longer: the shorter prefix, then the element. */
  lemma PrefixStep<T>(s: seq<T>, j: nat)
    requires j < |s|
    ensures s[..j + 1][..j] == s[..j] && s[..j + 1][j] == s[j]
  {
  }

  /** Splitting and joining back with the same separator gives the original string. */
  lemma {:induction false} JoinSplit(s: string, sep: char)
    ensures Join(Split(s, sep), [sep]) == s
    decreases |s|
  {
    var i := IndexOf(s, sep);
    if i < |s| {
      var head, rest := s[..i], s[i + 1..];
      JoinSplit(rest, sep);
      SplitAt(s, sep);
      JoinCons(head, Split(rest, sep), [sep]);
      Around(s, i);
    }
  }

  /** A string is what comes before an index, the character at it and what comes after. */
  lemma Around<T>(s: seq<T>, i: nat)
    requires i < |s|
    ensures s == s[..i] + [s[i]] + s[i + 1..]
  {
    assert s == s[..i] + s[i..];
    assert s[i..] == [s[i]] + s[i + 1..];
    Assoc(s[..i], [s[i]], s[i + 1..]);
  }

  /** Splitting at the first separator: the part before it, then the split of the rest. */
  lemma SplitAt(s: string, sep: char)
    requires IndexOf(s, sep) < |s|
    ensures var i := IndexOf(s, sep); Split(s, sep) == [s[..i]] + Split(s[i + 1..], sep)
  {
  }

  /** Joining a first part onto at least one more puts the separator after it. */
  lemma JoinCons(head: string, rest: seq<string>, sep: string)
    requires |rest| >= 1
    ensures Join([head] + rest, sep) == head + sep + Join(rest, sep)
  {
    assert ([head] + rest)[1..] == rest;
  }

  /** A heading, an empty part and parts below it, joined by a separator. */
  lemma BlankLineJoin(heading: string, lines: seq<string>, sep: string)
    requires |lines| >= 1
    ensures heading + sep + sep + Join(lines, sep) == Join([heading, ""] + lines, sep)
  {
    var j := Join(lines, sep);
    JoinCons("", lines, sep);
    assert "" + sep == sep;
    JoinCons(heading, [""] + lines, sep);
    assert [heading, ""] + lines == [heading] + ([""] + lines) by {
      assert [heading, ""] == [heading] + [""];
      Assoc([heading], [""], lines);
    }
    Assoc(heading + sep, sep, j);
  }

  /** Joining two non-empty runs of parts puts one separator between them. */
  lemma {:induction false} JoinAppend(a: seq<string>, b: seq<string>, sep: string)
    requires |a| >= 1 && |b| >= 1
    ensures Join(a + b, sep) == Join(a, sep) + sep + Join(b, sep)
    decreases |a|
  {
    if |a| == 1 {
      JoinCons(a[0], b, sep);
      assert a + b == [a[0]] + b;
    } else {
      var x, y, z := a[0] + sep, Join(a[1..], sep), Join(b, sep);
      JoinAppend(a[1..], b, sep);
      assert (a + b)[1..] == a[1..] + b;
      assert Join(a + b, sep) == x + (y + sep + z);
      assert Join(a, sep) == x + y;
      Assoc(x, y + sep, z);
      Assoc(x, y, sep);
    }
  }

  /** A heading, parts, an empty part and a last part, joined by a separator. */
  lemma FramedJoin(heading: string, lines: seq<string>, last: string, sep: string)
    requires |lines| >= 1
    ensures heading + sep + Join(lines, sep) + sep + sep + last == Join([heading] + lines + ["", last], sep)
  {
    var j := Join(lines, sep);
    assert Join(lines + [""], sep) == j + sep by {
      JoinAppend(lines, [""], sep);
      assert j + sep + "" == j + sep;
    }
    EnclosedJoin(heading, lines + [""], last, sep);
    assert [heading] + (lines + [""]) + [last] == [heading] + lines + ["", last] by {
      Assoc([heading], lines, [""]);
      Assoc([heading] + lines, [""], [last]);
      assert [""] + [last] == ["", last];
    }
    Assoc(heading + sep, j, sep);
  }

  /** A first part, parts and a last part, joined by a separator. */
  lemma EnclosedJoin(first: string, lines: seq<string>, last: string, sep: string)
    requires |lines| >= 1
    ensures first + sep + Join(lines, sep) + sep + last == Join([first] + lines + [last], sep)
  {
    var x, j := first + sep, Join(lines, sep);
    JoinAppend(lines, [last], sep);
    JoinCons(first, lines + [last], sep);
    Assoc([first], lines, [last]);
    Assoc(x, j + sep, last);
    Assoc(x, j, sep);
  }

  /** The parts of an enclosed join come back from splitting it. */
  lemma SplitEnclosed(first: string, lines: seq<string>, last: string, sep: char)
    requires |lines| >= 1
    requires sep !in first && sep !in last
    requires forall k | 0 <= k < |lines| :: sep !in lines[k]
    ensures Split(first + [sep] + Join(lines, [sep]) + [sep] + last, sep) == [first] + lines + [last]
  {
    EnclosedParts(first, lines, last, sep);
    SplitJoin([first] + lines + [last], sep);
    EnclosedJoin(first, lines, last, [sep]);
  }

  /** No part of an enclosure holds the separator when neither end nor any line does. */
  lemma EnclosedParts(first: string, lines: seq<string>, last: string, sep: char)
    requires sep !in first && sep !in last
    requires forall k | 0 <= k < |lines| :: sep !in lines[k]
    ensures forall k | 0 <= k < |[first] + lines + [last]| :: sep !in ([first] + lines + [last])[k]
  {
    var parts := [first] + lines + [last];
    forall k | 0 <= k < |parts| ensures sep !in parts[k] {
      if k == 0 {
        assert parts[k] == first;
      } else if k <= |lines| {
        assert parts[k] == lines[k - 1];
      } else {
        assert parts[k] == last;
      }
    }
  }

  /** The parts of a framed join come back from splitting it. */
  lemma SplitFramed(heading: string, lines: seq<string>, last: string, sep: char)
    requires |lines| >= 1
    requires sep !in heading && sep !in last
    requires forall k | 0 <= k < |lines| :: sep !in lines[k]
    ensures Split(heading + [sep] + Join(lines, [sep]) + [sep] + [sep] + last, sep) == [heading] + lines + ["", last]
  {
    FramedParts(heading, lines, last, sep);
    SplitJoin([heading] + lines + ["", last], sep);
    FramedJoin(heading, lines, last, [sep]);
  }

  /** No part of a frame holds the separator when neither the heading, the lines nor the last part does. */
  lemma FramedParts(heading: string, lines: seq<string>, last: string, sep: char)
    requires sep !in heading && sep !in last
    requires forall k | 0 <= k < |lines| :: sep !in lines[k]
    ensures forall k | 0 <= k < |[heading] + lines + ["", last]| :: sep !in ([heading] + lines + ["", last])[k]
  {
    var parts := [heading] + lines + ["", last];
    forall k | 0 <= k < |parts| ensures sep !in parts[k] {
      if k == 0 {
        assert parts[k] == heading;
      } else if k <= |lines| {
        assert parts[k] == lines[k - 1];
      } else if k == |lines| + 1 {
        assert parts[k] == "";
      } else {
        assert parts[k] == last;
      }
    }
  }

  /** A string without `c` has no first `c`. */
  lemma IndexOfAbsent(s: string, c: char)
    requires c !in s
    ensures IndexOf(s, c) == |s|
  {
  }

  /** The first `c` of `a + [c] + b` is the one after `a` when `a` has none. */
  lemma IndexOfAfter(a: string, c: char, b: string)
    requires c !in a
    ensures IndexOf(a + [c] + b, c) == |a|
  {
    var s := a + [c] + b;
    var i := IndexOf(s, c);
    assert s[|a|] == c;
  }

  /** Joining with a separator that no part holds and splitting again gives the parts back. */
  lemma {:induction false} SplitJoin(parts: seq<string>, sep: char)
    requires |parts| >= 1
    requires forall k | 0 <= k < |parts| :: sep !in parts[k]
    ensures Split(Join(parts, [sep]), sep) == parts
    decreases |parts|
  {
    if |parts| == 1 {
      IndexOfAbsent(parts[0], sep);
    } else {
      var rest := Join(parts[1..], [sep]);
      var s := parts[0] + [sep] + rest;
      assert Join(parts, [sep]) == s;
      IndexOfAfter(parts[0], sep, rest);
      Pieces(parts[0], sep, rest);
      SplitJoin(parts[1..], sep);
      assert parts == [parts[0]] + parts[1..];
    }
  }

  /** The pieces on either side of a character put between two strings. */
  lemma Pieces<T>(a: seq<T>, x: T, b: seq<T>)
    ensures (a + [x] + b)[..|a|] == a && (a + [x] + b)[|a| + 1..] == b
  {
  }

  /** Split at `sep`, a heading, an empty part and parts below it, none holding `sep`, give those very parts. */
  lemma SplitBlankLine(heading: string, lines: seq<string>, sep: char)
    requires sep !in heading && |lines| >= 1
    requires forall k | 0 <= k < |lines| :: sep !in lines[k]
    ensures Split(Join([heading, ""] + lines, [sep]), sep) == [heading, ""] + lines
  {
    HeadedParts(heading, lines, sep);
    SplitJoin([heading, ""] + lines, sep);
  }

  lemma HeadedParts(heading: string, lines: seq<string>, sep: char)
    requires sep !in heading
    requires forall k | 0 <= k < |lines| :: sep !in lines[k]
    ensures forall k | 0 <= k < |[heading, ""] + lines| :: sep !in ([heading, ""] + lines)[k]
  {
    var parts := [heading, ""] + lines;
    forall k | 0 <= k < |parts|
      ensures sep !in parts[k]
    {
      if k >= 2 {
        assert parts[k] == lines[k - 2];
      }
    }
  }

  /** `title()` moves no line break: the result has one exactly where the input has. */
  lemma {:induction false} TitleNewlines(s: string, previousCased: bool)
    ensures '\n' in TitleFrom(s, previousCased) <==> '\n' in s
    decreases |s|
  {
    if s != [] {
      TitleNewlines(s[1..], IsCased(s[0]));
      assert s == [s[0]] + s[1..];
    }
  }

  /** `s.replace(sub, "")`: occurrences are found left to right and do not overlap. */
  function RemoveAll(s: string, sub: string): (r: string)
    requires |sub| > 0
    ensures |r| <= |s|
    decreases |s|
  {
    if |s| < |sub| then s
    else if s[..|sub|] == sub then RemoveAll(s[|sub|..], sub)
    else [s[0]] + RemoveAll(s[1..], sub)
  }
}
