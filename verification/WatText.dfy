/** The byte-string operations the WAT reader uses: lines, case, stripping, splitting, integers. */
module WatText {
  import opened Wrappers

  /** A byte, written as the character with its code. */
  type Byte = c: char | (c as int) < 256

  type Bytes = seq<Byte>

  // ---------------------------------------------------------------- lines

  /** How much `readline` returns: up to and including the first newline, or everything. */
  function LineLen(s: Bytes): (n: nat)
    ensures n <= |s| && (s != [] ==> n > 0)
  {
    if s == [] then 0 else if s[0] == '\n' then 1 else 1 + LineLen(s[1..])
  }

  /** One line with its newline at the end and nowhere else. */
  predicate IsLine(line: Bytes) {
    line != [] && line[|line| - 1] == '\n' && forall i: nat | i < |line| - 1 :: line[i] != '\n'
  }

  lemma {:induction false} LineThen(line: Bytes, rest: Bytes)
    requires IsLine(line)
    ensures LineLen(line + rest) == |line|
    ensures (line + rest)[..|line|] == line && (line + rest)[|line|..] == rest
  {
    if |line| > 1 {
      assert (line + rest)[1..] == line[1..] + rest;
      assert (line + rest)[0] == line[0] != '\n';
      LineThen(line[1..], rest);
    }
  }

  // ---------------------------------------------------------------- case, spaces, colons

  function LowerByte(c: Byte): Byte {
    if 'A' <= c <= 'Z' then (c as int + 32) as char else c
  }

  const UPPER: Bytes := "ABCDEFGHIJKLMNOPQRSTUVWXYZ"
  const LOWER: Bytes := "abcdefghijklmnopqrstuvwxyz"

  /** Letter by letter. */
  lemma LowerIs(c: Byte)
    ensures forall i: nat | i < 26 && c == UPPER[i] :: LowerByte(c) == LOWER[i]
    ensures c !in UPPER ==> LowerByte(c) == c
  {
    if 'A' <= c <= 'Z' {
      assert UPPER[c as int - 'A' as int] == c;
    }
  }

  function Lower(s: Bytes): (r: Bytes)
    ensures |r| == |s| && forall i: nat | i < |s| :: r[i] == LowerByte(s[i])
  {
    seq(|s|, i requires 0 <= i < |s| => LowerByte(s[i]))
  }

  /** ASCII whitespace: what `bytes.strip` removes. */
  predicate IsSpace(c: Byte) {
    c == ' ' || ('\t' <= c <= '\r')
  }

  function StripLeft(s: Bytes): Bytes {
    if s != [] && IsSpace(s[0]) then StripLeft(s[1..]) else s
  }

  function StripRight(s: Bytes): Bytes {
    if s != [] && IsSpace(s[|s| - 1]) then StripRight(s[..|s| - 1]) else s
  }

  function Strip(s: Bytes): Bytes {
    StripRight(StripLeft(s))
  }

  predicate AllSpace(s: Bytes) {
    forall c | c in s :: IsSpace(c)
  }

  /** A core whose two ends are no spaces. */
  predicate Tight(core: Bytes) {
    core != [] && !IsSpace(core[0]) && !IsSpace(core[|core| - 1])
  }

  lemma {:induction false} StripLeftPadded(left: Bytes, rest: Bytes)
    requires AllSpace(left) && rest != [] && !IsSpace(rest[0])
    ensures StripLeft(left + rest) == rest
  {
    if left == [] {
      assert left + rest == rest;
    } else {
      assert left[0] in left;
      assert (left + rest)[1..] == left[1..] + rest;
      StripLeftPadded(left[1..], rest);
    }
  }

  lemma {:induction false} StripRightPadded(rest: Bytes, right: Bytes)
    requires AllSpace(right) && rest != [] && !IsSpace(rest[|rest| - 1])
    ensures StripRight(rest + right) == rest
  {
    if right == [] {
      assert rest + right == rest;
    } else {
      var n := |right| - 1;
      assert right[n] in right;
      assert (rest + right)[..|rest + right| - 1] == rest + right[..n];
      StripRightPadded(rest, right[..n]);
    }
  }

  lemma StripPadded(left: Bytes, core: Bytes, right: Bytes)
    requires AllSpace(left) && AllSpace(right) && Tight(core)
    ensures Strip(left + core + right) == core
  {
    assert left + core + right == left + (core + right);
    StripLeftPadded(left, core + right);
    StripRightPadded(core, right);
  }

  /** `header.split(b":", 1)[1]`. */
  function AfterColon(s: Bytes): Bytes {
    if s == [] then [] else if s[0] == ':' then s[1..] else AfterColon(s[1..])
  }

  lemma {:induction false} AfterFirstColon(a: Bytes, b: Bytes)
    requires ':' !in a
    ensures AfterColon(a + [':'] + b) == b
  {
    var whole := a + [':'] + b;
    if a == [] {
      assert whole == [':'] + b;
    } else {
      assert a[0] in a;
      assert whole[1..] == a[1..] + [':'] + b;
      AfterFirstColon(a[1..], b);
    }
  }

  // ---------------------------------------------------------------- int()

  predicate IsDigit(c: Byte) {
    '0' <= c <= '9'
  }

  /** Decimal digits, with single underscores allowed between them. */
  function Digits(s: Bytes): Option<nat> {
    if s == [] || !IsDigit(s[|s| - 1]) then None
    else
      var last := s[|s| - 1] as int - '0' as int;
      if |s| == 1 then Some(last)
      else
        var front := if s[|s| - 2] == '_' then Digits(s[..|s| - 2]) else Digits(s[..|s| - 1]);
        if front.None? then None else Some(10 * front.value + last)
  }

  /** `int(·)` on an already stripped byte string. */
  function ParseInt(s: Bytes): Option<int> {
    if s == [] then None
    else
      var digits := Digits(if s[0] == '+' || s[0] == '-' then s[1..] else s);
      if digits.None? then None else Some(if s[0] == '-' then 0 - digits.value else digits.value)
  }

  function Decimal(n: nat): (r: Bytes)
    ensures r != [] && forall c | c in r :: IsDigit(c)
  {
    var last := ('0' as int + n % 10) as char;
    if n < 10 then [last] else Decimal(n / 10) + [last]
  }

  lemma {:induction false} DigitsOfDecimal(n: nat)
    ensures Digits(Decimal(n)) == Some(n)
  {
    if n >= 10 {
      var front := Decimal(n / 10);
      DigitsOfDecimal(n / 10);
      assert Decimal(n)[..|Decimal(n)| - 1] == front;
      assert front[|front| - 1] in front;
    }
  }

  /** Which byte strings are numbers: digits, with single underscores between them. */
  lemma {:induction false} DigitsIff(s: Bytes)
    ensures Digits(s).Some? <==>
              && s != [] && IsDigit(s[0]) && IsDigit(s[|s| - 1])
              && (forall c | c in s :: IsDigit(c) || c == '_')
              && forall i: nat | i + 1 < |s| :: s[i] != '_' || s[i + 1] != '_'
    decreases |s|
  {
    if |s| > 1 && IsDigit(s[|s| - 1]) {
      var front := s[..|s| - 1];
      assert s == front + [s[|s| - 1]];
      if front[|front| - 1] == '_' {
        var shorter := front[..|front| - 1];
        assert s[..|s| - 2] == shorter && front == shorter + ['_'];
        DigitsIff(shorter);
        if shorter != [] {
          assert s[|s| - 3] == shorter[|shorter| - 1];
        }
        Underscored(shorter, s);
      } else {
        DigitsIff(front);
        Lengthened(front, s);
      }
    }
  }

  lemma Lengthened(front: Bytes, s: Bytes)
    requires front != [] && front[|front| - 1] != '_' && |s| == |front| + 1 && front == s[..|front|] && IsDigit(s[|front|])
    ensures (forall c | c in s :: IsDigit(c) || c == '_') <==> forall c | c in front :: IsDigit(c) || c == '_'
    ensures (forall i: nat | i + 1 < |s| :: s[i] != '_' || s[i + 1] != '_')
            <==> forall i: nat | i + 1 < |front| :: front[i] != '_' || front[i + 1] != '_'
  {
    assert s == front + [s[|front|]];
  }

  lemma Underscored(shorter: Bytes, s: Bytes)
    requires |s| == |shorter| + 2 && shorter == s[..|shorter|] && s[|shorter|] == '_' && IsDigit(s[|shorter| + 1])
    ensures (forall c | c in s :: IsDigit(c) || c == '_') <==> forall c | c in shorter :: IsDigit(c) || c == '_'
    ensures (forall i: nat | i + 1 < |s| :: s[i] != '_' || s[i + 1] != '_')
            <==> (shorter == [] || shorter[|shorter| - 1] != '_')
                 && forall i: nat | i + 1 < |shorter| :: shorter[i] != '_' || shorter[i + 1] != '_'
  {
    assert s == shorter + ['_', s[|shorter| + 1]];
    if shorter != [] {
      assert s[|shorter| - 1] == shorter[|shorter| - 1];
    }
  }

  /** One more digit, with or without an underscore before it, is ten times as much and the digit. */
  lemma DigitsMore(s: Bytes, d: Byte)
    requires IsDigit(d) && Digits(s).Some?
    ensures Digits(s + [d]) == Some(10 * Digits(s).value + (d as int - '0' as int))
    ensures Digits(s + ['_', d]) == Some(10 * Digits(s).value + (d as int - '0' as int))
    ensures Digits([d]) == Some(d as int - '0' as int)
  {
    assert (s + [d])[..|s|] == s && (s + ['_', d])[..|s|] == s;
    assert (s + ['_', d])[|s|] == '_' && (s + [d])[|s| - 1] == s[|s| - 1] && IsDigit(s[|s| - 1]);
  }

  /** `int` takes one sign in front of the digits. */
  lemma SignedInt(s: Bytes)
    ensures Digits(s).Some? ==> ParseInt(s) == Some(Digits(s).value)
    ensures ParseInt(['-'] + s).Some? <==> Digits(s).Some?
    ensures ParseInt(['+'] + s).Some? <==> Digits(s).Some?
    ensures Digits(s).Some? ==> ParseInt(['-'] + s).value == 0 - Digits(s).value && ParseInt(['+'] + s).value == Digits(s).value
  {
    DigitsIff(s);
    assert (['-'] + s)[1..] == s && (['+'] + s)[1..] == s;
  }

  lemma IntOfDecimal(n: nat)
    ensures ParseInt(Decimal(n)) == Some(n)
    ensures Tight(Decimal(n))
  {
    DigitsOfDecimal(n);
    assert Decimal(n)[0] in Decimal(n) && Decimal(n)[|Decimal(n)| - 1] in Decimal(n);
  }
}
