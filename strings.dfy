/** The few Python string operations the core relies on: `str.split` with an
    explicit one-character separator, `sep.join(parts)` and `str.lstrip()`.
    Strings are sequences of Unicode scalar values, unlike Python's `str`,
    which also admits lone surrogates. */
module Strings {

  /** `s.split(sep)`: the pieces of `s` between occurrences of `sep`. There is
      always at least one piece, and no piece contains the separator. */
  function Split(s: string, sep: char): (parts: seq<string>)
    ensures |parts| >= 1
    ensures forall i :: 0 <= i < |parts| ==> sep !in parts[i]
    ensures |parts| == 1 <==> sep !in s
  {
    if s == [] then [""]
    else
      var rest := Split(s[1..], sep);
      if s[0] == sep then [""] + rest
      else [[s[0]] + rest[0]] + rest[1..]
  }

  /** `sep.join(parts)`. */
  function Join(sep: char, parts: seq<string>): string
  {
    if parts == [] then ""
    else if |parts| == 1 then parts[0]
    else parts[0] + [sep] + Join(sep, parts[1..])
  }

  /** Concatenation is associative. */
  lemma ConcatAssoc<T>(a: seq<T>, b: seq<T>, c: seq<T>)
    ensures a + b + c == a + (b + c)
  {
  }

  function Last<T>(s: seq<T>): T
    requires |s| > 0
  {
    s[|s| - 1]
  }

  /** Joining after a piece with one more leading character gives one more
      leading character. */
  lemma JoinExtendHead(sep: char, c: char, parts: seq<string>)
    requires |parts| >= 1
    ensures Join(sep, [[c] + parts[0]] + parts[1..]) == [c] + Join(sep, parts)
  {
    var ext := [[c] + parts[0]] + parts[1..];
    if |parts| > 1 {
      assert ext[1..] == parts[1..];
    }
  }

  /** Joining the pieces of a split gives back the original string. */
  lemma {:induction false} JoinSplit(s: string, sep: char)
    ensures Join(sep, Split(s, sep)) == s
  {
    if s != [] {
      var rest := Split(s[1..], sep);
      JoinSplit(s[1..], sep);
      if s[0] == sep {
        assert ([""] + rest)[1..] == rest;
      } else {
        JoinExtendHead(sep, s[0], rest);
      }
      assert [s[0]] + s[1..] == s;
    }
  }

  /** A string without the separator splits into itself alone. */
  lemma {:induction false} SplitWithoutSeparator(s: string, sep: char)
    requires sep !in s
    ensures Split(s, sep) == [s]
  {
    if s != [] {
      SplitWithoutSeparator(s[1..], sep);
      assert [s[0]] + s[1..] == s;
    }
  }

  /** One unfolding of `Split` on a string given as its first character and
      the rest. */
  lemma SplitCons(c: char, t: string, sep: char)
    ensures Split([c] + t, sep) ==
      if c == sep then [""] + Split(t, sep) else [[c] + Split(t, sep)[0]] + Split(t, sep)[1..]
  {
    assert ([c] + t)[0] == c && ([c] + t)[1..] == t;
  }

  /** Prepending a character to the first piece commutes with appending
      further pieces. */
  lemma ConsPiecesConcat(c: char, sep: char, rest: seq<string>, tail: seq<string>)
    requires |rest| >= 1
    ensures (if c == sep then [""] + (rest + tail) else [[c] + (rest + tail)[0]] + (rest + tail)[1..])
         == (if c == sep then [""] + rest else [[c] + rest[0]] + rest[1..]) + tail
  {
    if c != sep {
      assert (rest + tail)[0] == rest[0];
      assert (rest + tail)[1..] == rest[1..] + tail;
    }
  }

  /** A prefix without the separator joins the first piece. */
  lemma {:induction false} SplitPrefix(p: string, s: string, sep: char)
    requires sep !in p
    ensures Split(p + s, sep) == [p + Split(s, sep)[0]] + Split(s, sep)[1..]
  {
    var parts := Split(s, sep);
    if p == [] {
      assert p + s == s && p + parts[0] == parts[0];
    } else {
      var c, t := p[0], p[1..];
      assert c != sep && c == p[0];
      SplitPrefix(t, s, sep);
      var rest := Split(t + s, sep);
      assert rest[0] == t + parts[0] && rest[1..] == parts[1..];
      assert p + s == [c] + (t + s);
      SplitCons(c, t + s, sep);
      assert p == [c] + t;
      ConcatAssoc([c], t, parts[0]);
    }
  }

  /** Splitting distributes over a separator placed between two strings. */
  lemma {:induction false} SplitConcat(a: string, b: string, sep: char)
    ensures Split(a + [sep] + b, sep) == Split(a, sep) + Split(b, sep)
  {
    if a == [] {
      SplitCons(sep, b, sep);
      assert a + [sep] + b == [sep] + b;
    } else {
      var t := a[1..] + [sep] + b;
      var s := a + [sep] + b;
      assert s == [a[0]] + t;
      assert a == [a[0]] + a[1..];
      SplitConcat(a[1..], b, sep);
      SplitCons(a[0], t, sep);
      SplitCons(a[0], a[1..], sep);
      ConsPiecesConcat(a[0], sep, Split(a[1..], sep), Split(b, sep));
    }
  }

  /** Splitting a join of separator-free pieces gives the pieces back. */
  lemma {:induction false} SplitJoin(parts: seq<string>, sep: char)
    requires |parts| >= 1
    requires forall i :: 0 <= i < |parts| ==> sep !in parts[i]
    ensures Split(Join(sep, parts), sep) == parts
  {
    SplitWithoutSeparator(parts[0], sep);
    if |parts| > 1 {
      SplitJoin(parts[1..], sep);
      SplitConcat(parts[0], Join(sep, parts[1..]), sep);
      assert [parts[0]] + parts[1..] == parts;
    }
  }

  /** The last piece of a join is preceded by the join of all the others. */
  lemma {:induction false} JoinSnoc(parts: seq<string>, sep: char)
    requires |parts| >= 2
    ensures Join(sep, parts) == Join(sep, parts[..|parts| - 1]) + [sep] + Last(parts)
  {
    if |parts| > 2 {
      JoinSnoc(parts[1..], sep);
      assert parts[1..][..|parts| - 2] == parts[..|parts| - 1][1..];
    }
  }

  /** Python's `str.isspace()` for one character. */
  predicate IsSpace(c: char)
  {
    var n := c as int;
    (0x09 <= n <= 0x0D) || (0x1C <= n <= 0x20) || n == 0x85 || n == 0xA0 ||
    n == 0x1680 || (0x2000 <= n <= 0x200A) || n == 0x2028 || n == 0x2029 ||
    n == 0x202F || n == 0x205F || n == 0x3000
  }

  /** `s.lstrip()`: `s` without its leading whitespace. */
  function LStrip(s: string): (r: string)
    ensures |r| <= |s| && r == s[|s| - |r|..]
    ensures r == [] || !IsSpace(r[0])
  {
    if s != [] && IsSpace(s[0]) then LStrip(s[1..]) else s
  }

  /** One unfolding of `LStrip` on a string given as its first character and
      the rest. */
  lemma LStripCons(c: char, t: string)
    ensures LStrip([c] + t) == if IsSpace(c) then LStrip(t) else [c] + t
  {
    assert ([c] + t)[0] == c && ([c] + t)[1..] == t;
  }

  /** What `LStrip` drops is whitespace only. */
  lemma {:induction false} LStripDropsSpaces(s: string)
    ensures forall i :: 0 <= i < |s| - |LStrip(s)| ==> IsSpace(s[i])
  {
    if s != [] && IsSpace(s[0]) {
      LStripDropsSpaces(s[1..]);
      forall i | 1 <= i < |s| - |LStrip(s)|
        ensures IsSpace(s[i])
      {
        assert s[i] == s[1..][i - 1];
      }
    }
  }

  /** Stripping stops inside the first string when it holds a non-space
      character, so whatever follows it is kept as it is. */
  lemma {:induction false} LStripConcat(a: string, b: string)
    requires exists i :: 0 <= i < |a| && !IsSpace(a[i])
    ensures LStrip(a + b) == LStrip(a) + b
  {
    if IsSpace(a[0]) {
      assert (a + b)[1..] == a[1..] + b;
      var i :| 0 <= i < |a| && !IsSpace(a[i]);
      assert !IsSpace(a[1..][i - 1]);
      LStripConcat(a[1..], b);
    }
  }
}
