/** String operations the two API routes rely on: JavaScript's
    `toLowerCase`, `includes`, `Array.join`, `String.split` with a
    one-character separator, and the decimal rendering of a counter in a
    template literal. */
module Text {

  /** Lower-cases the ASCII capitals and leaves every other character alone. */
  function LowerChar(c: char): char
  {
    if 'A' <= c <= 'Z' then (c as int + 32) as char else c
  }

  /** `s.toLowerCase()`: same length, no capital left, every capital
      replaced by its small letter and every other character kept. */
  function ToLower(s: string): (r: string)
    ensures |r| == |s|
    ensures forall i :: 0 <= i < |r| ==> !('A' <= r[i] <= 'Z')
    ensures forall i :: 0 <= i < |s| && !('A' <= s[i] <= 'Z') ==> r[i] == s[i]
    ensures forall i :: 0 <= i < |s| && 'A' <= s[i] <= 'Z' ==> r[i] as int == s[i] as int + 32
  {
    seq(|s|, i requires 0 <= i < |s| => LowerChar(s[i]))
  }

  /** `s.startsWith(p)`, one character at a time. */
  predicate StartsWith(s: string, p: string)
  {
    |p| == 0 || (|s| > 0 && s[0] == p[0] && StartsWith(s[1..], p[1..]))
  }

  lemma {:induction false} StartsWithIsPrefix(s: string, p: string)
    ensures StartsWith(s, p) <==> |p| <= |s| && s[..|p|] == p
  {
    if |p| > 0 && |s| > 0 {
      StartsWithIsPrefix(s[1..], p[1..]);
      if |p| <= |s| {
        assert s[..|p|] == [s[0]] + s[1..][..|p| - 1];
        assert p == [p[0]] + p[1..];
      }
    }
  }

  /** `s.includes(p)`: `p` occurs in `s` at some position. */
  predicate Contains(s: string, p: string)
    decreases |s|
  {
    StartsWith(s, p) || (|s| > 0 && Contains(s[1..], p))
  }

  /** Position-based reading of `Contains`. */
  ghost predicate OccursAt(s: string, p: string, i: int)
  {
    0 <= i && i + |p| <= |s| && s[i..i + |p|] == p
  }

  lemma ContainsIffOccurs(s: string, p: string)
    ensures Contains(s, p) <==> exists i :: OccursAt(s, p, i)
  {
    if Contains(s, p) {
      ContainsGivesPosition(s, p);
    }
    if i :| OccursAt(s, p, i) {
      PositionGivesContains(s, p, i);
    }
  }

  lemma {:induction false} ContainsGivesPosition(s: string, p: string)
    requires Contains(s, p)
    ensures exists i :: OccursAt(s, p, i)
    decreases |s|
  {
    if StartsWith(s, p) {
      StartsWithIsPrefix(s, p);
      assert s[0..|p|] == s[..|p|];
      assert OccursAt(s, p, 0);
    } else {
      ContainsGivesPosition(s[1..], p);
      var i :| OccursAt(s[1..], p, i);
      assert s[i + 1..i + 1 + |p|] == s[1..][i..i + |p|];
      assert OccursAt(s, p, i + 1);
    }
  }

  lemma {:induction false} PositionGivesContains(s: string, p: string, i: int)
    requires OccursAt(s, p, i)
    ensures Contains(s, p)
    decreases i
  {
    if i == 0 {
      StartsWithIsPrefix(s, p);
      assert s[..|p|] == s[0..|p|];
    } else {
      assert s[1..][i - 1..i - 1 + |p|] == s[i..i + |p|];
      PositionGivesContains(s[1..], p, i - 1);
    }
  }

  predicate IsDigit(c: char)
  {
    '0' <= c <= '9'
  }

  /** A string with no decimal digit in it, such as every category name. */
  predicate DigitFree(s: string)
  {
    forall i :: 0 <= i < |s| ==> !IsDigit(s[i])
  }

  function DigitChar(d: nat): (c: char)
    requires d < 10
    ensures IsDigit(c) && c as int - '0' as int == d
  {
    ('0' as int + d) as char
  }

  /** The decimal form of `n` with no leading zero, as `${n}` writes it. */
  function Digits(n: nat): (r: string)
    ensures |r| >= 1
    ensures forall i :: 0 <= i < |r| ==> IsDigit(r[i])
    decreases n
  {
    if n < 10 then [DigitChar(n)] else Digits(n / 10) + [DigitChar(n % 10)]
  }

  function DigitValue(c: char): nat
    requires IsDigit(c)
  {
    c as int - '0' as int
  }

  /** Reads a string of decimal digits back as a number. */
  function ParseDigits(s: string): nat
    requires forall i :: 0 <= i < |s| ==> IsDigit(s[i])
  {
    if |s| == 0 then 0
    else ParseDigits(s[..|s| - 1]) * 10 + DigitValue(s[|s| - 1])
  }

  lemma {:induction false} DigitsRoundTrip(n: nat)
    ensures ParseDigits(Digits(n)) == n
    decreases n
  {
    if n >= 10 {
      DigitsRoundTrip(n / 10);
      var d := Digits(n);
      assert d[..|d| - 1] == Digits(n / 10);
    }
  }

  lemma DigitsInjective(a: nat, b: nat)
    requires Digits(a) == Digits(b)
    ensures a == b
  {
    DigitsRoundTrip(a);
    DigitsRoundTrip(b);
  }

  /** `xs.join(sep)`. */
  function Join(xs: seq<string>, sep: string): string
  {
    if |xs| == 0 then ""
    else if |xs| == 1 then xs[0]
    else xs[0] + sep + Join(xs[1..], sep)
  }

  /** `s.split(c)` for a one-character separator: the pieces between the
      separators, so that a string with k separators has k + 1 pieces (the
      empty string gives `[""]`). */
  function Split(s: string, c: char): (r: seq<string>)
    ensures |r| >= 1
  {
    if |s| == 0 then [""]
    else if s[0] == c then [""] + Split(s[1..], c)
    else
      var rest := Split(s[1..], c);
      [[s[0]] + rest[0]] + rest[1..]
  }

  lemma {:induction false} SplitNoSeparator(x: string, c: char)
    requires c !in x
    ensures Split(x, c) == [x]
  {
    if |x| > 0 {
      SplitNoSeparator(x[1..], c);
      assert [x[0]] + x[1..] == x;
    }
  }

  lemma {:induction false} SplitAtFirst(x: string, c: char, y: string)
    requires c !in x
    ensures Split(x + [c] + y, c) == [x] + Split(y, c)
  {
    if |x| == 0 {
      assert x + [c] + y == [c] + y;
      assert ([c] + y)[1..] == y;
    } else {
      SplitAtFirst(x[1..], c, y);
      assert (x + [c] + y)[1..] == x[1..] + [c] + y;
      assert [x[0]] + x[1..] == x;
    }
  }

  /** Joining lines with a separator that starts a new line and then
      splitting on that line break gives back the lines, the separator's
      tail `pad` standing in front of every line but the first. */
  lemma {:induction false} SplitJoin(xs: seq<string>, c: char, pad: string)
    requires |xs| > 0
    requires c !in pad
    requires forall i :: 0 <= i < |xs| ==> c !in xs[i]
    ensures Split(Join(xs, [c] + pad), c)
         == [xs[0]] + seq(|xs| - 1, i requires 0 <= i < |xs| - 1 => pad + xs[i + 1])
  {
    if |xs| == 1 {
      SplitNoSeparator(xs[0], c);
    } else {
      var ys := xs[1..];
      var tail := Join(ys, [c] + pad);
      assert Join(xs, [c] + pad) == xs[0] + [c] + (pad + tail);
      SplitAtFirst(xs[0], c, pad + tail);
      SplitJoin(ys, c, pad);
      var rest := Split(tail, c);
      var padded := seq(|ys| - 1, i requires 0 <= i < |ys| - 1 => pad + ys[i + 1]);
      assert rest == [ys[0]] + padded;
      SplitPrefix(pad, tail, c);
      assert rest[1..] == padded;
      assert Split(pad + tail, c) == [pad + ys[0]] + padded;
      assert seq(|xs| - 1, i requires 0 <= i < |xs| - 1 => pad + xs[i + 1]) == [pad + ys[0]] + padded;
    }
  }

  /** Prefixing a separator-free string glues it to the first piece. */
  lemma {:induction false} SplitPrefix(pad: string, tail: string, c: char)
    requires c !in pad
    ensures Split(pad + tail, c) == [pad + Split(tail, c)[0]] + Split(tail, c)[1..]
  {
    if |pad| > 0 {
      SplitPrefix(pad[1..], tail, c);
      assert (pad + tail)[1..] == pad[1..] + tail;
      assert [pad[0]] + (pad[1..] + Split(tail, c)[0]) == pad + Split(tail, c)[0];
    } else {
      var r := Split(tail, c);
      assert pad + tail == tail;
      assert pad + r[0] == r[0];
      assert [r[0]] + r[1..] == r;
    }
  }
}
