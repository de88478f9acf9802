/** Text primitives the renderer relies on: Rust's `join` and `split` on a
    one-character separator, the `{}` formatting of an unsigned integer, and
    `u32::from_str`. A G-code line is a sequence of words separated by single
    spaces; a rendered operation is a sequence of lines separated by '\n'. */
module Text {
  import opened Wrappers

  type U32 = n: int | 0 <= n < 0x1_0000_0000

  /** `parts.join(sep)` */
  function Join(parts: seq<string>, sep: char): string
  {
    if |parts| == 0 then []
    else if |parts| == 1 then parts[0]
    else parts[0] + [sep] + Join(parts[1..], sep)
  }

  /** `s.split(sep)` collected into a vector: never empty, and the empty
      string splits into one empty piece. */
  function Split(s: string, sep: char): (r: seq<string>)
    ensures |r| >= 1
  {
    if s == [] then [[]]
    else
      var rest := Split(s[1..], sep);
      if s[0] == sep then [[]] + rest
      else [[s[0]] + rest[0]] + rest[1..]
  }

  /** The words of one G-code line. */
  function Words(line: string): seq<string> { Split(line, ' ') }

  /** The lines of a rendered operation. */
  function Lines(text: string): seq<string> { Split(text, '\n') }

  /** No piece contains the separator. */
  predicate Free(parts: seq<string>, sep: char)
  {
    forall i :: 0 <= i < |parts| ==> sep !in parts[i]
  }

  lemma {:induction false} SplitFree(s: string, sep: char)
    requires sep !in s
    ensures Split(s, sep) == [s]
  {
    if s != [] {
      SplitFree(s[1..], sep);
      assert [s[0]] + s[1..] == s;
    }
  }

  lemma {:induction false} SplitAfter(t: string, sep: char, u: string)
    requires sep !in t
    ensures Split(t + [sep] + u, sep) == [t] + Split(u, sep)
  {
    if t == [] {
      assert t + [sep] + u == [sep] + u;
      assert ([sep] + u)[1..] == u;
    } else {
      var s := t + [sep] + u;
      assert s[1..] == t[1..] + [sep] + u;
      SplitAfter(t[1..], sep, u);
      assert [t[0]] + t[1..] == t;
    }
  }

  /** Splitting undoes joining, provided no part contains the separator. */
  lemma {:induction false} SplitJoin(parts: seq<string>, sep: char)
    requires |parts| >= 1 && Free(parts, sep)
    ensures Split(Join(parts, sep), sep) == parts
  {
    if |parts| == 1 {
      SplitFree(parts[0], sep);
    } else {
      SplitJoin(parts[1..], sep);
      SplitAfter(parts[0], sep, Join(parts[1..], sep));
      assert [parts[0]] + parts[1..] == parts;
    }
  }

  /** Joining a part that is itself a join just inserts its pieces. */
  lemma {:induction false} JoinFlatten(a: seq<string>, b: seq<string>, sep: char)
    requires |b| >= 1
    ensures Join(a + [Join(b, sep)], sep) == Join(a + b, sep)
  {
    if |a| == 0 {
      assert a + [Join(b, sep)] == [Join(b, sep)];
      assert a + b == b;
    } else {
      JoinFlatten(a[1..], b, sep);
      assert (a + [Join(b, sep)])[1..] == a[1..] + [Join(b, sep)];
      assert (a + b)[1..] == a[1..] + b;
    }
  }

  lemma JoinCons(p: string, rest: seq<string>, sep: char)
    requires |rest| >= 1
    ensures Join([p] + rest, sep) == p + [sep] + Join(rest, sep)
  {
    assert ([p] + rest)[1..] == rest;
  }

  /** A join of separator-free parts is free of the separator and, when the
      parts are free of a second character, of that character too. */
  lemma {:induction false} JoinAvoids(parts: seq<string>, sep: char, c: char)
    requires c != sep && Free(parts, c)
    ensures c !in Join(parts, sep)
  {
    if |parts| > 1 {
      JoinAvoids(parts[1..], sep, c);
    }
  }

  /** The remainder of the first word that starts with `letter`: how a
      G-code reader finds the parameter of one address letter. */
  function WordValue(words: seq<string>, letter: char): Option<string>
  {
    if words == [] then None
    else if |words[0]| > 0 && words[0][0] == letter then Some(words[0][1..])
    else WordValue(words[1..], letter)
  }

  /** A letter no word starts with has no value. */
  lemma {:induction false} WordValueAbsent(words: seq<string>, letter: char)
    requires forall i :: 0 <= i < |words| && |words[i]| > 0 ==> words[i][0] != letter
    ensures WordValue(words, letter) == None
  {
    if words != [] {
      WordValueAbsent(words[1..], letter);
    }
  }

  lemma {:induction false} WordValueAppend(a: seq<string>, b: seq<string>, letter: char)
    ensures WordValue(a + b, letter) ==
            if WordValue(a, letter).Some? then WordValue(a, letter) else WordValue(b, letter)
  {
    if a != [] {
      assert (a + b)[1..] == a[1..] + b;
      WordValueAppend(a[1..], b, letter);
    } else {
      assert a + b == b;
    }
  }

  // ---- unsigned decimal text ----

  function DigitChar(d: int): char
    requires 0 <= d < 10
  {
    "0123456789"[d]
  }

  predicate IsDigit(c: char) { '0' <= c <= '9' }

  function DigitValue(c: char): int
    requires IsDigit(c)
  {
    c as int - '0' as int
  }

  /** `format!("{}", n)` for an unsigned integer: decimal, no sign, no
      leading zeros. */
  function Decimal(n: nat): (r: string)
    ensures |r| >= 1
    ensures forall i :: 0 <= i < |r| ==> IsDigit(r[i])
    ensures |r| > 1 ==> r[0] != '0'
  {
    if n < 10 then [DigitChar(n)] else Decimal(n / 10) + [DigitChar(n % 10)]
  }

  /** The value of a non-empty string of decimal digits. */
  function DigitsValue(s: string): nat
    requires forall i :: 0 <= i < |s| ==> IsDigit(s[i])
  {
    if s == [] then 0
    else DigitsValue(s[..|s| - 1]) * 10 + DigitValue(s[|s| - 1])
  }

  lemma {:induction false} DecimalValue(n: nat)
    ensures DigitsValue(Decimal(n)) == n
  {
    if n >= 10 {
      var s := Decimal(n);
      DecimalValue(n / 10);
      assert s[..|s| - 1] == Decimal(n / 10);
    }
  }

  /** `u32::from_str`: an optional leading '+', then one or more decimal
      digits whose value fits in 32 bits. Anything else is an error. */
  function ParseU32(s: string): Option<U32>
  {
    var digits := if |s| > 0 && s[0] == '+' then s[1..] else s;
    if digits == [] then None
    else if exists i :: 0 <= i < |digits| && !IsDigit(digits[i]) then None
    else if DigitsValue(digits) >= 0x1_0000_0000 then None
    else Some(DigitsValue(digits))
  }

  /** Parsing the formatted text of a `u32` gives the value back. */
  lemma DecimalRoundTrip(n: U32)
    ensures ParseU32(Decimal(n)) == Some(n)
  {
    DecimalValue(n);
  }

  /** Decimal text is a single word on a single line. */
  lemma DecimalIsWord(n: nat)
    ensures ' ' !in Decimal(n) && '\n' !in Decimal(n)
  {
  }
}
