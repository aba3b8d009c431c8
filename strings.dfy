/**
  The parts of Go's `strings` package and of string-to-bytes conversion the
  core uses: `strings.Split` on a one-character separator,
  `strings.Replace(s, "\n", "\r\n", -1)` and its inverse, and `[]byte(s)`,
  which yields the UTF-8 encoding of the string.
 */
module Strings {
  import opened Base

  /** How many times `c` occurs in `s`. */
  function Count(s: string, c: char): nat {
    if s == [] then 0 else (if s[0] == c then 1 else 0) + Count(s[1..], c)
  }

  /** strings.Join(pieces, string(sep)). */
  function Join(pieces: seq<string>, sep: char): string
    requires |pieces| > 0
  {
    if |pieces| == 1 then pieces[0] else pieces[0] + [sep] + Join(pieces[1..], sep)
  }

  /**
    strings.Split(s, string(sep)): the pieces between separators, empty ones
    included, so an empty string gives one empty piece. Joining the pieces
    back gives `s`, and there is one piece more than there are separators.
   */
  function Split(s: string, sep: char): (pieces: seq<string>)
    ensures |pieces| == Count(s, sep) + 1
    ensures forall i | 0 <= i < |pieces| :: sep !in pieces[i]
    ensures Join(pieces, sep) == s
  {
    if s == [] then [""]
    else
      var rest := Split(s[1..], sep);
      if s[0] == sep then
        [""] + rest
      else
        var pieces := [[s[0]] + rest[0]] + rest[1..];
        assert pieces[1..] == rest[1..];
        assert s == [s[0]] + s[1..];
        pieces
  }

  /** strings.Replace(s, "\n", "\r\n", -1): every line feed gets a carriage return before it. */
  function LfToCrlf(s: string): (r: string) {
    if s == [] then [] else (if s[0] == '\n' then "\r\n" else [s[0]]) + LfToCrlf(s[1..])
  }

  /** strings.Replace(r, "\r\n", "\n", -1): pairs are replaced left to right without overlap. */
  function CrlfToLf(r: string): string {
    if r == [] then []
    else if |r| >= 2 && r[0] == '\r' && r[1] == '\n' then "\n" + CrlfToLf(r[2..])
    else [r[0]] + CrlfToLf(r[1..])
  }

  /** After the conversion every line feed is preceded by a carriage return. */
  lemma {:induction false} LfToCrlfPrecedesEveryLf(s: string)
    ensures forall i | 0 <= i < |LfToCrlf(s)| && LfToCrlf(s)[i] == '\n' :: i > 0 && LfToCrlf(s)[i - 1] == '\r'
  {
    if s != [] {
      LfToCrlfPrecedesEveryLf(s[1..]);
      LfToCrlfHead(s[1..]);
      var head := if s[0] == '\n' then "\r\n" else [s[0]];
      var tail := LfToCrlf(s[1..]);
      assert LfToCrlf(s) == head + tail;
      forall i | 0 <= i < |head + tail| && (head + tail)[i] == '\n'
        ensures i > 0 && (head + tail)[i - 1] == '\r'
      {
        if i >= |head| {
          assert (head + tail)[i] == tail[i - |head|];
        }
      }
    }
  }

  /** The converted text never starts with a line feed. */
  lemma {:induction false} LfToCrlfHead(s: string)
    ensures LfToCrlf(s) == [] || LfToCrlf(s)[0] != '\n'
  {
  }

  /** The conversion adds exactly one character per line feed. */
  lemma {:induction false} LfToCrlfLength(s: string)
    ensures |LfToCrlf(s)| == |s| + Count(s, '\n')
  {
    if s != [] {
      LfToCrlfLength(s[1..]);
    }
  }

  /** The conversion distributes over concatenation. */
  lemma {:induction false} LfToCrlfAppend(a: string, b: string)
    ensures LfToCrlf(a + b) == LfToCrlf(a) + LfToCrlf(b)
  {
    if a != [] {
      assert (a + b)[1..] == a[1..] + b;
      LfToCrlfAppend(a[1..], b);
    } else {
      assert a + b == b;
    }
  }

  /** Replacing "\r\n" by "\n" undoes the conversion, whatever carriage returns `s` held. */
  lemma {:induction false} CrlfToLfUndoes(s: string)
    ensures CrlfToLf(LfToCrlf(s)) == s
  {
    if s != [] {
      CrlfToLfUndoes(s[1..]);
      var tail := LfToCrlf(s[1..]);
      if s[0] == '\n' {
        assert LfToCrlf(s) == "\r\n" + tail;
        assert (("\r\n" + tail)[2..]) == tail;
      } else {
        assert LfToCrlf(s) == [s[0]] + tail;
        assert ([s[0]] + tail)[1..] == tail;
        if s[0] == '\r' {
          LfToCrlfHead(s[1..]);
        }
      }
    }
  }

  /** Counting distributes over concatenation. */
  lemma {:induction false} CountAppend(a: string, b: string, c: char)
    ensures Count(a + b, c) == Count(a, c) + Count(b, c)
  {
    if a != [] {
      assert (a + b)[1..] == a[1..] + b;
      CountAppend(a[1..], b, c);
    } else {
      assert a + b == b;
    }
  }

  /** A character that does not occur is counted zero times. */
  lemma {:induction false} CountAbsent(s: string, c: char)
    requires c !in s
    ensures Count(s, c) == 0
  {
    if s != [] {
      assert c !in s[1..];
      CountAbsent(s[1..], c);
    }
  }

  /** Text without line feeds is left as it is by the conversion. */
  lemma {:induction false} LfToCrlfNoLf(s: string)
    requires '\n' !in s
    ensures LfToCrlf(s) == s
  {
    if s != [] {
      assert '\n' !in s[1..];
      LfToCrlfNoLf(s[1..]);
      assert s == [s[0]] + s[1..];
    }
  }

  /** A piece free of the separator, then the separator, splits off as the first piece. */
  lemma {:induction false} SplitFirst(a: string, sep: char, rest: string)
    requires sep !in a
    ensures Split(a + [sep] + rest, sep) == [a] + Split(rest, sep)
  {
    if a == [] {
      assert a + [sep] + rest == [sep] + rest;
      assert ([sep] + rest)[1..] == rest;
    } else {
      assert (a + [sep] + rest)[1..] == a[1..] + [sep] + rest;
      assert sep !in a[1..];
      SplitFirst(a[1..], sep, rest);
      assert [a[0]] + a[1..] == a;
    }
  }

  /** The UTF-8 encoding of one character. */
  function EncodeRune(c: char): (b: seq<Byte>)
    ensures 1 <= |b| <= 4
    ensures c as int < 0x80 <==> |b| == 1
    ensures c as int < 0x80 ==> b[0] == c as int
  {
    var n := c as int;
    if n < 0x80 then [n]
    else if n < 0x800 then [0xC0 + n / 0x40, 0x80 + n % 0x40]
    else if n < 0x1_0000 then [0xE0 + n / 0x1000, 0x80 + n / 0x40 % 0x40, 0x80 + n % 0x40]
    else [0xF0 + n / 0x4_0000, 0x80 + n / 0x1000 % 0x40, 0x80 + n / 0x40 % 0x40, 0x80 + n % 0x40]
  }

  predicate IsAscii(s: string) {
    forall i | 0 <= i < |s| :: s[i] as int < 0x80
  }

  /**
    Go's `[]byte(s)`: the UTF-8 bytes of the text. An ASCII string gives one
    byte per character, equal to its code.
   */
  function Utf8Encode(s: string): (b: seq<Byte>)
    ensures |b| >= |s|
    ensures IsAscii(s) ==> |b| == |s| && forall i | 0 <= i < |s| :: b[i] == s[i] as int
  {
    if s == [] then [] else EncodeRune(s[0]) + Utf8Encode(s[1..])
  }

  /** Encoding distributes over concatenation. */
  lemma {:induction false} Utf8EncodeAppend(a: string, b: string)
    ensures Utf8Encode(a + b) == Utf8Encode(a) + Utf8Encode(b)
  {
    if a != [] {
      assert (a + b)[1..] == a[1..] + b;
      Utf8EncodeAppend(a[1..], b);
    } else {
      assert a + b == b;
    }
  }
}
