/** The text formats said from the outside: which strings are read as which numbers, and which string is printed
    for a number. */
module Grammar {
  import opened Text

  /** One or more of the characters 0 to 9. */
  predicate Decimal(d: string) { d != [] && forall i :: 0 <= i < |d| ==> '0' <= d[i] <= '9' }

  function Pow10(n: nat): nat { if n == 0 then 1 else 10 * Pow10(n - 1) }

  /** The number a string of digits stands for, from the first digit on. */
  function Num(d: string): nat
    requires forall i :: 0 <= i < |d| ==> '0' <= d[i] <= '9'
  {
    if d == [] then 0 else (d[0] as int - '0' as int) * Pow10(|d| - 1) + Num(d[1..])
  }

  predicate NoDigit(rest: string) { rest != [] ==> !('0' <= rest[0] <= '9') }

  /** s begins with a digit, or with a sign and a digit. */
  predicate BeginsNumber(s: string) {
    && s != []
    && ('0' <= s[0] <= '9' || ((s[0] == '-' || s[0] == '+') && |s| > 1 && '0' <= s[1] <= '9'))
  }

  /** What a sign and digits stand for. */
  function Signed(sign: string, d: string): int
    requires Decimal(d)
  {
    if sign == "-" then 0 - Num(d) else Num(d)
  }

  predicate FitsInt(v: int) { -2147483648 <= v <= 2147483647 }

  predicate IsSign(sign: string) { sign == "" || sign == "-" || sign == "+" }

  // ---- numbers ----

  lemma {:induction false} NumSnoc(d: string, c: char)
    requires (forall i :: 0 <= i < |d| ==> '0' <= d[i] <= '9') && '0' <= c <= '9'
    ensures Num(d + [c]) == 10 * Num(d) + (c as int - '0' as int)
  {
    if d == [] {
      assert [] + [c] == [c] && [c][1..] == [] && Pow10(0) == 1;
      assert Num([c]) == (c as int - '0' as int) * Pow10(0) + Num([]);
    } else {
      assert (d + [c])[1..] == d[1..] + [c] && (d + [c])[0] == d[0];
      NumSnoc(d[1..], c);
      var x := d[0] as int - '0' as int;
      assert x * Pow10(|d|) == 10 * (x * Pow10(|d| - 1));
    }
  }

  lemma {:induction false} ValueIsNum(d: string)
    requires forall i :: 0 <= i < |d| ==> '0' <= d[i] <= '9'
    ensures Value(d) == Num(d)
  {
    if d != [] {
      var n := |d| - 1;
      ValueIsNum(d[..n]);
      NumSnoc(d[..n], d[n]);
      assert d == d[..n] + [d[n]];
    }
  }

  lemma {:induction false} PrefixUpTo(d: string, rest: string)
    requires (forall i :: 0 <= i < |d| ==> '0' <= d[i] <= '9') && NoDigit(rest)
    ensures DigitPrefix(d + rest) == d
  {
    if d == [] {
      assert d + rest == rest;
    } else {
      assert (d + rest)[1..] == d[1..] + rest;
      PrefixUpTo(d[1..], rest);
    }
  }

  /** Digits with or without a sign, whatever comes after the last of them, are read as the number they stand for,
      if it fits; if it does not, nothing is read. */
  lemma NumberAhead(sign: string, d: string, rest: string)
    requires IsSign(sign) && Decimal(d) && NoDigit(rest)
    ensures ReadInt(sign + d + rest)
         == if FitsInt(Signed(sign, d)) then Number(Signed(sign, d), |sign| + |d|) else NoNumber
  {
    hide Value, DigitPrefix, Num;
    var s := sign + d + rest;
    PrefixUpTo(d, rest);
    ValueIsNum(d);
    assert s[|sign|..] == d + rest;
    assert sign != [] ==> s[0] == sign[0];
    assert sign == [] ==> s[0] == d[0];
  }

  lemma NoNumberAhead(s: string)
    requires !BeginsNumber(s)
    ensures ReadInt(s).NoNumber?
  {
    if s != [] && (s[0] == '-' || s[0] == '+') {
      assert |s| > 1 ==> s[1..][0] == s[1];
    } else {
      assert s[0..] == s;
    }
  }

  /** Every string that begins with a number is a sign, digits and a rest that no digit begins. */
  lemma Decomposes(s: string) returns (sign: string, d: string, rest: string)
    requires BeginsNumber(s)
    ensures IsSign(sign) && Decimal(d) && NoDigit(rest) && s == sign + d + rest
  {
    var n := if '0' <= s[0] <= '9' then 0 else 1;
    sign := s[..n];
    d, rest := SplitDigits(s[n..]);
    assert s[n..][0] == s[n];
    assert s == s[..n] + s[n..];
    if n == 1 { assert sign == [s[0]]; }
  }

  lemma {:induction false} SplitDigits(s: string) returns (d: string, rest: string)
    ensures s == d + rest && NoDigit(rest) && (forall i :: 0 <= i < |d| ==> '0' <= d[i] <= '9')
    ensures s != [] && '0' <= s[0] <= '9' ==> d != []
  {
    if s != [] && '0' <= s[0] <= '9' {
      d, rest := SplitDigits(s[1..]);
      d := [s[0]] + d;
    } else {
      d, rest := [], s;
    }
  }

  // ---- white space ----

  /** The characters that separate: tab, line feed, vertical tab, form feed, carriage return and space. */
  predicate Blank(s: string) { forall i :: 0 <= i < |s| ==> 9 <= s[i] as int <= 13 || s[i] as int == 32 }

  predicate StartsBlank(s: string) { s != [] ==> Blank(s[..1]) }

  lemma {:induction false} SkipsBlank(b: string, s: string)
    requires Blank(b) && (s != [] ==> !Blank(s[..1]))
    ensures SkipSpaces(b + s) == s
  {
    if b == [] {
      assert b + s == s;
    } else {
      assert (b + s)[1..] == b[1..] + s;
      SkipsBlank(b[1..], s);
    }
  }

  lemma NumbersAreNotBlank(s: string)
    requires BeginsNumber(s)
    ensures !Blank(s[..1])
  {
    assert s[..1] == [s[0]];
  }

  // ---- the line parser ----

  /** A number in front is the first token, and parsing goes on right behind its last digit. */
  lemma LineTakes(b: string, sign: string, d: string, rest: string)
    requires Blank(b) && IsSign(sign) && Decimal(d) && NoDigit(rest) && FitsInt(Signed(sign, d))
    ensures ParseLine(b + (sign + d + rest)) == [Signed(sign, d)] + ParseLine(rest)
  {
    var s := sign + d + rest;
    assert BeginsNumber(s);
    NumbersAreNotBlank(s);
    hide ReadInt, ParseLine, SkipSpaces, Num;
    SkipsBlank(b, s);
    NumberAhead(sign, d, rest);
    LineStep(b + s);
    assert s[|sign| + |d|..] == rest;
  }

  /** Anything else in front, or a number that does not fit, ends the line. */
  lemma LineEnds(b: string, s: string)
    requires Blank(b) && (s != [] ==> !Blank(s[..1]))
    requires BeginsNumber(s) ==>
               exists sign, d, rest :: IsSign(sign) && Decimal(d) && NoDigit(rest) && s == sign + d + rest
                                       && !FitsInt(Signed(sign, d))
    ensures ParseLine(b + s) == []
  {
    hide ReadInt, ParseLine, SkipSpaces, Num;
    SkipsBlank(b, s);
    LineStep(b + s);
    if BeginsNumber(s) {
      var sign, d, rest :| IsSign(sign) && Decimal(d) && NoDigit(rest) && s == sign + d + rest
                           && !FitsInt(Signed(sign, d));
      NumberAhead(sign, d, rest);
    } else {
      NoNumberAhead(s);
    }
  }

  // ---- the word parser ----

  /** No white space in it. */
  predicate IsWord(w: string) { w != [] && forall i :: 0 <= i < |w| ==> !Blank([w[i]]) }

  /** What the word parser makes of one word. */
  ghost predicate WordGives(w: string, tokens: seq<int>) {
    || (tokens == [] && !BeginsNumber(w))
    || exists sign, d, tail :: IsSign(sign) && Decimal(d) && NoDigit(tail) && w == sign + d + tail
                               && tokens == if FitsInt(Signed(sign, d)) then [Signed(sign, d)] else []
  }

  lemma {:induction false} WordUpTo(w: string, rest: string)
    requires (forall i :: 0 <= i < |w| ==> !Blank([w[i]])) && StartsBlank(rest)
    ensures Word(w + rest) == w
  {
    if w == [] {
      assert w + rest == rest;
      if rest != [] { assert rest[..1] == [rest[0]]; assert Blank([rest[0]]); assert IsSpace(rest[0]); }
    } else {
      assert (w + rest)[1..] == w[1..] + rest;
      assert !Blank([w[0]]);
      WordUpTo(w[1..], rest);
    }
  }

  /** The number at the start of each word is taken, the rest of the word is skipped; so is a word that does not
      begin with a number or whose number does not fit. */
  lemma WordsGoOn(b: string, w: string, rest: string, tokens: seq<int>)
    requires Blank(b) && IsWord(w) && StartsBlank(rest) && WordGives(w, tokens)
    ensures ParseWords(b + (w + rest)) == tokens + ParseWords(rest)
  {
    hide ReadInt, ParseWords, SkipSpaces, Word, Num;
    var t := w + rest;
    assert t[..1] == [w[0]];
    SkipsBlank(b, t);
    WordUpTo(w, rest);
    WordStep(b + t);
    assert t[|w|..] == rest;
    if tokens == [] && !BeginsNumber(w) {
      NoNumberAhead(w);
    } else {
      var sign, d, tail :| IsSign(sign) && Decimal(d) && NoDigit(tail) && w == sign + d + tail
                           && tokens == if FitsInt(Signed(sign, d)) then [Signed(sign, d)] else [];
      NumberAhead(sign, d, tail);
    }
  }

  lemma {:induction false} BlankWords(b: string)
    requires Blank(b)
    ensures ParseWords(b) == []
  {
    assert b + [] == b;
    SkipsBlank(b, []);
  }

  // ---- printing ----

  /** Digits without a leading zero. */
  predicate Canonical(d: string) { Decimal(d) && (d == "0" || d[0] != '0') }

  lemma {:induction false} DigitsCanonical(n: nat)
    ensures Canonical(Digits(n)) && Num(Digits(n)) == n && (n > 0 ==> Digits(n)[0] != '0')
  {
    if n >= 10 {
      DigitsCanonical(n / 10);
      NumSnoc(Digits(n / 10), DigitChar(n % 10));
    } else {
      assert [DigitChar(n)][1..] == [] && Pow10(0) == 1;
      assert n == 0 ==> [DigitChar(n)] == "0";
    }
  }

  lemma {:induction false} NumAtLeast(d: string)
    requires Decimal(d) && d[0] != '0'
    ensures Num(d) >= 1 && (|d| > 1 ==> Num(d) >= 10)
  {
    if |d| > 1 {
      var n := |d| - 1;
      NumAtLeast(d[..n]);
      NumSnoc(d[..n], d[n]);
      assert d == d[..n] + [d[n]];
    } else {
      assert d == [d[0]] && d[1..] == [] && Pow10(0) == 1;
    }
  }

  /** Only one string of digits without a leading zero stands for a number. */
  lemma {:induction false} OnlyOneText(d: string, e: string)
    requires Canonical(d) && Canonical(e) && Num(d) == Num(e)
    ensures d == e
    decreases |d|
  {
    var m, n := |d| - 1, |e| - 1;
    assert d == d[..m] + [d[m]] && e == e[..n] + [e[n]];
    NumSnoc(d[..m], d[m]);
    NumSnoc(e[..n], e[n]);
    SameLast(Num(d[..m]), Num(e[..n]), d[m], e[n]);
    OneDigit(d);
    OneDigit(e);
    if m > 0 && n > 0 { OnlyOneText(d[..m], e[..n]); }
  }

  lemma SameLast(x: nat, y: nat, c: char, e: char)
    requires '0' <= c <= '9' && '0' <= e <= '9'
    requires 10 * x + (c as int - '0' as int) == 10 * y + (e as int - '0' as int)
    ensures x == y && c == e
  {}

  lemma OneDigit(d: string)
    requires Canonical(d)
    ensures var m := |d| - 1; (m == 0 ==> d[..m] == [] && Num(d[..m]) == 0) && (m > 0 ==> Num(d[..m]) > 0)
    ensures |d| > 1 ==> Canonical(d[..|d| - 1])
  {
    if |d| > 1 { NumAtLeast(d[..|d| - 1]); }
  }

  /** The text printed for v: a minus exactly for negative numbers, then the one string of digits without a leading
      zero that stands for the rest. */
  lemma Printed(v: int, d: string)
    requires Decimal(d)
    ensures ToString(v) == d <==> v >= 0 && Canonical(d) && Num(d) == v
    ensures ToString(v) == "-" + d <==> v < 0 && Canonical(d) && Num(d) == -v
  {
    var n := if v < 0 then -v else v;
    DigitsCanonical(n);
    hide Digits, Num;
    if Canonical(d) && Num(d) == n { OnlyOneText(d, Digits(n)); }
    assert ("-" + d)[1..] == d && ("-" + d)[0] == '-';
    assert ("-" + Digits(n))[1..] == Digits(n);
  }

  lemma {:induction false} JoinSnoc(tokens: seq<int>, i: nat, t: int)
    requires i <= |tokens|
    ensures JoinFrom(tokens + [t], i) == JoinFrom(tokens, i) + (if |tokens| > 0 then " " else "") + ToString(t)
    decreases |tokens| - i
  {
    hide ToString;
    if i < |tokens| {
      JoinSnoc(tokens, i + 1, t);
    } else {
      assert JoinFrom(tokens + [t], i + 1) == "";
    }
  }

  /** A list is printed with one space between each two tokens and nothing around them. */
  lemma PrintedList(tokens: seq<int>, t: int)
    ensures TokensToString([]) == "" && TokensToString([t]) == ToString(t)
    ensures tokens != [] ==> TokensToString(tokens + [t]) == TokensToString(tokens) + " " + ToString(t)
  {
    hide ToString;
    JoinSnoc([], 0, t);
    JoinSnoc(tokens, 0, t);
    assert [] + [t] == [t] && "" + "" + ToString(t) == ToString(t);
  }

  // ---- printing then parsing, with something else behind ----

  lemma JoinSplit(tokens: seq<int>, i: nat, tail: string)
    requires i < |tokens|
    ensures JoinFrom(tokens, i) + tail
         == (if i > 0 then " " else "")
            + ((if tokens[i] < 0 then "-" else "") + Digits(if tokens[i] < 0 then -tokens[i] else tokens[i])
               + (JoinFrom(tokens, i + 1) + tail))
  {
    var v := tokens[i];
    var sign, d := if v < 0 then "-" else "", Digits(if v < 0 then -v else v);
    assert ToString(v) == sign + d by { SignAndDigits(v); }
    assert JoinFrom(tokens, i) == (if i > 0 then " " else "") + ToString(v) + JoinFrom(tokens, i + 1);
    hide *;
    Glue(if i > 0 then " " else "", sign + d, JoinFrom(tokens, i + 1), tail);
  }

  lemma SignAndDigits(v: int)
    ensures ToString(v) == (if v < 0 then "-" else "") + Digits(if v < 0 then -v else v)
  {
    hide Digits;
  }

  lemma Glue(a: string, b: string, c: string, d: string)
    ensures a + b + c + d == a + (b + (c + d))
  {}

  lemma RestHasNoDigit(tokens: seq<int>, i: nat, tail: string)
    requires 0 < i <= |tokens| && NoDigit(tail)
    ensures NoDigit(JoinFrom(tokens, i) + tail)
  {
    if i == |tokens| { assert JoinFrom(tokens, i) + tail == tail; }
    else { assert (JoinFrom(tokens, i) + tail)[0] == ' '; }
  }

  lemma NothingMore(b: string, s: string)
    requires Blank(b) && !BeginsNumber(s) && (s != [] ==> !Blank(s[..1]))
    ensures ParseLine(b + s) == [] && NoDigit(b + s)
  {
    LineEnds(b, s);
    if b != [] { assert (b + s)[0] == b[0]; } else { assert b + s == s; }
  }

  lemma {:induction false} PrintThenTailFrom(tokens: seq<int>, i: nat, tail: string)
    requires i <= |tokens| && (forall k :: 0 <= k < |tokens| ==> FitsInt(tokens[k]))
    requires NoDigit(tail) && ParseLine(tail) == []
    ensures ParseLine(JoinFrom(tokens, i) + tail) == tokens[i..]
    decreases |tokens| - i
  {
    hide Digits, JoinFrom, ParseLine, Num;
    if i == |tokens| {
      assert JoinFrom(tokens, i) + tail == tail by { NothingJoined(tokens); }
    } else {
      var v := tokens[i];
      var n := if v < 0 then -v else v;
      DigitsCanonical(n);
      JoinSplit(tokens, i, tail);
      RestHasNoDigit(tokens, i + 1, tail);
      LineTakes(if i > 0 then " " else "", if v < 0 then "-" else "", Digits(n), JoinFrom(tokens, i + 1) + tail);
      PrintThenTailFrom(tokens, i + 1, tail);
      assert tokens[i..] == [v] + tokens[i + 1..];
    }
  }

  lemma NothingJoined(tokens: seq<int>)
    ensures JoinFrom(tokens, |tokens|) == "" && TokensToString(tokens) == JoinFrom(tokens, 0)
  {}

  /** The line parser reads a printed list back even when something that is not a number follows, with or without
      white space before it. */
  lemma PrintThenTail(tokens: seq<int>, b: string, s: string)
    requires forall k :: 0 <= k < |tokens| ==> FitsInt(tokens[k])
    requires Blank(b) && !BeginsNumber(s) && (s != [] ==> !Blank(s[..1]))
    ensures ParseLine(TokensToString(tokens) + (b + s)) == tokens
  {
    hide JoinFrom, ParseLine;
    NothingMore(b, s);
    PrintThenTailFrom(tokens, 0, b + s);
    NothingJoined(tokens);
    assert tokens[0..] == tokens;
  }
}
