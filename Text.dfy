// String helpers shared by the three components: the whitespace sets of
// Python's str.strip() and JavaScript's String.prototype.trim(), ASCII
// lowercasing, splitting on a separator character, substring search and
// decimal rendering of exit codes.

module Text {

  datatype Option<+T> = None | Some(value: T)

  /** The two runtimes whose whitespace rules the system relies on. */
  datatype Lang = Py | Js

  /** Python's str.isspace(), the set str.strip() removes by default. */
  predicate PyWhitespace(c: char)
  {
    ('\U{0009}' <= c <= '\U{000D}') || ('\U{001C}' <= c <= '\U{001F}') || c == ' '
    || c == '\U{0085}' || c == '\U{00A0}' || c == '\U{1680}'
    || ('\U{2000}' <= c <= '\U{200A}') || c == '\U{2028}' || c == '\U{2029}'
    || c == '\U{202F}' || c == '\U{205F}' || c == '\U{3000}'
  }

  /** ECMAScript WhiteSpace and LineTerminator, the set trim() removes. */
  predicate JsWhitespace(c: char)
  {
    ('\U{0009}' <= c <= '\U{000D}') || c == ' ' || c == '\U{00A0}' || c == '\U{1680}'
    || ('\U{2000}' <= c <= '\U{200A}') || c == '\U{2028}' || c == '\U{2029}'
    || c == '\U{202F}' || c == '\U{205F}' || c == '\U{3000}' || c == '\U{FEFF}'
  }

  predicate IsSpace(lang: Lang, c: char)
  {
    match lang
    case Py => PyWhitespace(c)
    case Js => JsWhitespace(c)
  }

  predicate AllSpace(lang: Lang, s: string)
  {
    forall i :: 0 <= i < |s| ==> IsSpace(lang, s[i])
  }

  /** Drops leading whitespace. */
  function TrimStart(lang: Lang, s: string): string
  {
    if |s| > 0 && IsSpace(lang, s[0]) then TrimStart(lang, s[1..]) else s
  }

  /** TrimStart removes a whitespace prefix and stops at the first other
      character. */
  lemma {:induction false} TrimStartRemovesPrefix(lang: Lang, s: string)
    ensures var r := TrimStart(lang, s);
      |r| <= |s| && r == s[|s| - |r|..] && AllSpace(lang, s[..|s| - |r|])
      && (r == [] || !IsSpace(lang, r[0]))
  {
    if |s| > 0 && IsSpace(lang, s[0]) {
      TrimStartRemovesPrefix(lang, s[1..]);
      var r := TrimStart(lang, s);
      assert s[..|s| - |r|] == [s[0]] + s[1..][..|s| - 1 - |r|];
    }
  }

  /** Drops trailing whitespace. */
  function TrimEnd(lang: Lang, s: string): string
  {
    if |s| > 0 && IsSpace(lang, s[|s| - 1]) then TrimEnd(lang, s[..|s| - 1]) else s
  }

  /** TrimEnd removes a whitespace suffix and stops at the last other
      character. */
  lemma {:induction false} TrimEndRemovesSuffix(lang: Lang, s: string)
    ensures var r := TrimEnd(lang, s);
      |r| <= |s| && r == s[..|r|] && AllSpace(lang, s[|r|..])
      && (r == [] || !IsSpace(lang, r[|r| - 1]))
  {
    if |s| > 0 && IsSpace(lang, s[|s| - 1]) {
      var t := s[..|s| - 1];
      TrimEndRemovesSuffix(lang, t);
      var r := TrimEnd(lang, s);
      assert s[|r|..] == t[|r|..] + [s[|s| - 1]];
    }
  }

  /** Python str.strip() / JavaScript trim(): both ends. */
  function Strip(lang: Lang, s: string): (r: string)
    ensures |r| <= |s|
    ensures r == [] || (!IsSpace(lang, r[0]) && !IsSpace(lang, r[|r| - 1]))
  {
    var t := TrimStart(lang, s);
    TrimStartRemovesPrefix(lang, s);
    TrimEndRemovesSuffix(lang, t);
    var r := TrimEnd(lang, t);
    assert r == [] || r[0] == t[0];
    r
  }

  /** Strip(s) is a middle part of s padded only by whitespace. */
  lemma StripSplitsPadding(lang: Lang, s: string) returns (i: nat, j: nat)
    ensures i <= j <= |s| && Strip(lang, s) == s[i..j]
    ensures AllSpace(lang, s[..i]) && AllSpace(lang, s[j..])
  {
    var t := TrimStart(lang, s);
    var r := TrimEnd(lang, t);
    TrimStartRemovesPrefix(lang, s);
    TrimEndRemovesSuffix(lang, t);
    i := |s| - |t|;
    j := i + |r|;
    assert r == s[i..j];
    assert s[j..] == t[|r|..];
  }

  /** Padding with whitespace on either side does not change the stripped text,
      as long as the core itself is unpadded. */
  lemma StripOfPadded(lang: Lang, pre: string, core: string, post: string)
    requires AllSpace(lang, pre) && AllSpace(lang, post)
    requires core != [] && !IsSpace(lang, core[0]) && !IsSpace(lang, core[|core| - 1])
    ensures Strip(lang, pre + core + post) == core
  {
    assert pre + core + post == pre + (core + post);
    assert (core + post)[0] == core[0];
    TrimStartPadded(lang, pre, core + post);
    TrimEndPadded(lang, core, post);
  }

  lemma {:induction false} TrimStartPadded(lang: Lang, pre: string, rest: string)
    requires AllSpace(lang, pre)
    requires rest != [] && !IsSpace(lang, rest[0])
    ensures TrimStart(lang, pre + rest) == rest
  {
    if pre != [] {
      assert (pre + rest)[1..] == pre[1..] + rest;
      TrimStartPadded(lang, pre[1..], rest);
    }
  }

  lemma {:induction false} TrimEndPadded(lang: Lang, core: string, post: string)
    requires AllSpace(lang, post)
    requires core != [] && !IsSpace(lang, core[|core| - 1])
    ensures TrimEnd(lang, core + post) == core
  {
    if post != [] {
      assert (core + post)[..|core + post| - 1] == core + post[..|post| - 1];
      TrimEndPadded(lang, core, post[..|post| - 1]);
    } else {
      assert core + post == core;
    }
  }

  /** Python str.lower() restricted to ASCII letters. */
  function LowerChar(c: char): (d: char)
    ensures 'A' <= c <= 'Z' ==> 'a' <= d <= 'z' && d as int == c as int + 32
    ensures !('A' <= c <= 'Z') ==> d == c
  {
    if 'A' <= c <= 'Z' then (c as int - 'A' as int + 'a' as int) as char else c
  }

  function Lower(s: string): (r: string)
    ensures |r| == |s|
    ensures forall i :: 0 <= i < |s| ==> r[i] == LowerChar(s[i])
  {
    if s == [] then [] else [LowerChar(s[0])] + Lower(s[1..])
  }

  /** JavaScript s.split(sep) for a one-character separator: the pieces
      between separators, always at least one. */
  function Split(s: string, sep: char): (pieces: seq<string>)
    ensures |pieces| >= 1
  {
    if s == [] then [""]
    else
      var rest := Split(s[1..], sep);
      if s[0] == sep then [""] + rest
      else [[s[0]] + rest[0]] + rest[1..]
  }

  /** No piece of a split contains the separator. */
  lemma {:induction false} SplitPiecesFree(s: string, sep: char)
    ensures forall k :: 0 <= k < |Split(s, sep)| ==> sep !in Split(s, sep)[k]
  {
    if s != [] {
      SplitPiecesFree(s[1..], sep);
    }
  }

  /** JavaScript pieces.join(sep). */
  function Join(pieces: seq<string>, sep: char): string
    requires |pieces| >= 1
  {
    if |pieces| == 1 then pieces[0] else pieces[0] + [sep] + Join(pieces[1..], sep)
  }

  /** Splitting and joining again restores the text. */
  lemma {:induction false} JoinSplit(s: string, sep: char)
    ensures Join(Split(s, sep), sep) == s
  {
    if s != [] {
      var rest := Split(s[1..], sep);
      JoinSplit(s[1..], sep);
      if s[0] == sep {
        assert Split(s, sep)[1..] == rest;
      } else {
        var head := [s[0]] + rest[0];
        assert Split(s, sep) == [head] + rest[1..];
        if |rest| == 1 {
          assert Join(rest, sep) == rest[0];
        } else {
          assert Join(rest, sep) == rest[0] + [sep] + Join(rest[1..], sep);
          assert ([head] + rest[1..])[1..] == rest[1..];
        }
      }
    }
  }

  /** Joining separator-free pieces and splitting again restores the pieces. */
  lemma {:induction false} SplitJoin(pieces: seq<string>, sep: char)
    requires |pieces| >= 1
    requires forall k :: 0 <= k < |pieces| ==> sep !in pieces[k]
    ensures Split(Join(pieces, sep), sep) == pieces
  {
    if |pieces| == 1 {
      SplitFree(pieces[0], sep);
    } else {
      SplitJoin(pieces[1..], sep);
      SplitPrefixed(pieces[0], Join(pieces[1..], sep), sep);
      assert [pieces[0]] + pieces[1..] == pieces;
    }
  }

  lemma {:induction false} SplitFree(s: string, sep: char)
    requires sep !in s
    ensures Split(s, sep) == [s]
  {
    if s != [] {
      assert sep !in s[1..] by {
        forall k | 0 <= k < |s[1..]| ensures s[1..][k] != sep { assert s[1..][k] == s[k + 1]; }
      }
      SplitFree(s[1..], sep);
      assert [s[0]] + s[1..] == s;
    }
  }

  lemma {:induction false} SplitPrefixed(w: string, t: string, sep: char)
    requires sep !in w
    ensures Split(w + [sep] + t, sep) == [w] + Split(t, sep)
  {
    if w == [] {
      assert w + [sep] + t == [sep] + t;
      assert ([sep] + t)[1..] == t;
    } else {
      assert sep !in w[1..] by {
        forall k | 0 <= k < |w[1..]| ensures w[1..][k] != sep { assert w[1..][k] == w[k + 1]; }
      }
      var s := w + [sep] + t;
      assert s[1..] == w[1..] + [sep] + t;
      SplitPrefixed(w[1..], t, sep);
      assert [w[0]] + w[1..] == w;
    }
  }

  /** JavaScript s.includes(needle) / Python `needle in s` on strings. */
  predicate Contains(s: string, needle: string)
    ensures Contains(s, needle) ==> |needle| <= |s|
  {
    needle <= s || (s != [] && Contains(s[1..], needle))
  }

  /** A found needle occurs at some position of the string. */
  lemma {:induction false} ContainsFound(s: string, needle: string) returns (i: nat)
    requires Contains(s, needle)
    ensures i + |needle| <= |s| && s[i..i + |needle|] == needle
  {
    if needle <= s {
      i := 0;
    } else {
      var k := ContainsFound(s[1..], needle);
      assert s[1..][k..k + |needle|] == s[k + 1..k + 1 + |needle|];
      i := k + 1;
    }
  }

  /** Decimal rendering of a non-negative integer, as `${n}` prints it. */
  function Decimal(n: nat): (r: string)
    ensures |r| >= 1
    ensures forall i :: 0 <= i < |r| ==> '0' <= r[i] <= '9'
    ensures |r| > 1 ==> r[0] != '0'
  {
    if n < 10 then [DigitChar(n)] else Decimal(n / 10) + [DigitChar(n % 10)]
  }

  function DigitChar(d: nat): (c: char)
    requires d < 10
    ensures '0' <= c <= '9'
  {
    ('0' as int + d) as char
  }

  /** Reads a string of decimal digits back as a number. */
  function DecimalValue(s: string): nat
    requires forall i :: 0 <= i < |s| ==> '0' <= s[i] <= '9'
  {
    if s == [] then 0 else 10 * DecimalValue(s[..|s| - 1]) + (s[|s| - 1] as int - '0' as int)
  }

  /** Decimal loses no information: reading it back gives the number. */
  lemma {:induction false} DecimalRoundTrip(n: nat)
    ensures DecimalValue(Decimal(n)) == n
  {
    if n >= 10 {
      DecimalRoundTrip(n / 10);
      var r := Decimal(n);
      assert r[..|r| - 1] == Decimal(n / 10);
    }
  }
}
