/** Token lists as text: what the server parses out of a line and what it prints. */
module Text {

  const INT_MIN: int := -0x8000_0000
  const INT_MAX: int := 0x7fff_ffff

  predicate IsInt(v: int) { INT_MIN <= v <= INT_MAX }

  predicate IsSpace(c: char) {
    c == ' ' || c == '\t' || c == '\n' || c == '\U{0B}' || c == '\U{0C}' || c == '\r'
  }

  predicate IsDigit(c: char) { '0' <= c <= '9' }

  function DigitChar(d: nat): (c: char)
    requires d < 10
  {
    ('0' as int + d) as char
  }

  function DigitValue(c: char): (d: nat)
    requires IsDigit(c)
    ensures d < 10
  {
    c as int - '0' as int
  }

  // ---- printing ----

  function Digits(n: nat): string {
    if n < 10 then [DigitChar(n)] else Digits(n / 10) + [DigitChar(n % 10)]
  }

  /** std::to_string */
  function ToString(v: int): string { if v < 0 then "-" + Digits(-v) else Digits(v) }

  /** tokensToString, from token i on: a space before every token but the first. */
  function JoinFrom(tokens: seq<int>, i: nat): string
    requires i <= |tokens|
    decreases |tokens| - i
  {
    if i == |tokens| then ""
    else (if i > 0 then " " else "") + ToString(tokens[i]) + JoinFrom(tokens, i + 1)
  }

  function TokensToString(tokens: seq<int>): string { JoinFrom(tokens, 0) }

  // ---- parsing ----

  function SkipSpaces(s: string): (r: string)
    ensures |r| <= |s| && (r != [] ==> !IsSpace(r[0]))
  {
    if s != [] && IsSpace(s[0]) then SkipSpaces(s[1..]) else s
  }

  function DigitPrefix(s: string): (r: string)
    ensures |r| <= |s| && r == s[..|r|] && forall i :: 0 <= i < |r| ==> IsDigit(r[i])
  {
    if s != [] && IsDigit(s[0]) then [s[0]] + DigitPrefix(s[1..]) else []
  }

  function Value(digits: string): nat
    requires forall i :: 0 <= i < |digits| ==> IsDigit(digits[i])
  {
    if digits == [] then 0 else 10 * Value(digits[..|digits| - 1]) + DigitValue(digits[|digits| - 1])
  }

  datatype Number = NoNumber | Number(value: int, length: nat)

  /** An optionally signed decimal number at the start of s, if it fits an int. */
  function ReadInt(s: string): (n: Number)
    ensures n.Number? ==> 0 < n.length <= |s|
  {
    var signed := if s != [] && (s[0] == '-' || s[0] == '+') then 1 else 0;
    var digits := DigitPrefix(s[signed..]);
    if digits == [] then NoNumber
    else
      var v: int := if signed == 1 && s[0] == '-' then 0 - Value(digits) else Value(digits);
      if IsInt(v) then Number(v, signed + |digits|) else NoNumber
  }

  /** server.cpp's parseRequest: numbers up to the first thing that is not one. */
  function ParseLine(s: string): seq<int>
    decreases |s|
  {
    var t := SkipSpaces(s);
    var n := ReadInt(t);
    if n.NoNumber? then [] else [n.value] + ParseLine(t[n.length..])
  }

  function Word(s: string): (r: string)
    ensures |r| <= |s| && r == s[..|r|]
    ensures s != [] && !IsSpace(s[0]) ==> r != []
  {
    if s != [] && !IsSpace(s[0]) then [s[0]] + Word(s[1..]) else []
  }

  /** util.h's parseRequest: the number at the start of each word; words without one are skipped. */
  function ParseWords(s: string): seq<int>
    decreases |s|
  {
    var t := SkipSpaces(s);
    if t == [] then []
    else
      var w := Word(t);
      var n := ReadInt(w);
      (if n.NoNumber? then [] else [n.value]) + ParseWords(t[|w|..])
  }

  // ---- printing then parsing ----

  lemma {:induction false} DigitsAreDigits(n: nat)
    ensures Digits(n) != [] && forall i :: 0 <= i < |Digits(n)| ==> IsDigit(Digits(n)[i])
  {
    if n >= 10 { DigitsAreDigits(n / 10); }
  }

  lemma {:induction false} ValueOfDigits(n: nat)
    requires forall i :: 0 <= i < |Digits(n)| ==> IsDigit(Digits(n)[i])
    ensures Value(Digits(n)) == n
  {
    if n >= 10 {
      DigitsAreDigits(n / 10);
      ValueOfDigits(n / 10);
      assert Digits(n)[..|Digits(n)| - 1] == Digits(n / 10);
    } else {
      assert Digits(n)[..0] == [];
    }
  }

  /** What may follow a number so that it is read back alone. */
  predicate EndsNumber(rest: string) { rest == [] || IsSpace(rest[0]) }

  lemma {:induction false} PrefixOfDigits(d: string, rest: string)
    requires (forall i :: 0 <= i < |d| ==> IsDigit(d[i])) && EndsNumber(rest)
    ensures DigitPrefix(d + rest) == d
  {
    if d != [] {
      assert (d + rest)[1..] == d[1..] + rest;
      PrefixOfDigits(d[1..], rest);
    } else {
      assert d + rest == rest;
    }
  }

  lemma {:induction false} ReadSigned(d: string, rest: string, n: nat)
    requires d != [] && (forall i :: 0 <= i < |d| ==> IsDigit(d[i])) && Value(d) == n && EndsNumber(rest)
    ensures IsInt(n) ==> ReadInt(d + rest) == Number(n, |d|)
    ensures IsInt(0 - n) ==> ReadInt("-" + d + rest) == Number(0 - n, |d| + 1)
  {
    PrefixOfDigits(d, rest);
    hide Value, DigitPrefix;
    assert (d + rest)[0] == d[0] && (d + rest)[0..] == d + rest;
    assert ("-" + d + rest)[1..] == d + rest;
  }

  lemma {:induction false} ReadBack(v: int, rest: string)
    requires IsInt(v) && EndsNumber(rest)
    ensures ReadInt(ToString(v) + rest) == Number(v, |ToString(v)|)
  {
    var n := if v < 0 then 0 - v else v;
    DigitsAreDigits(n);
    ValueOfDigits(n);
    hide Digits, Value, ReadInt;
    ReadSigned(Digits(n), rest, n);
  }

  lemma ToStringStart(v: int)
    ensures ToString(v) != [] && !IsSpace(ToString(v)[0])
  {
    DigitsAreDigits(if v < 0 then -v else v);
  }

  lemma {:induction false} NoSpaceInside(v: int, i: nat)
    requires i < |ToString(v)|
    ensures !IsSpace(ToString(v)[i])
  {
    DigitsAreDigits(if v < 0 then -v else v);
  }

  /** The text from token i on, without the separator that precedes it. */
  function Tail(tokens: seq<int>, i: nat): string
    requires i <= |tokens|
  {
    if i == |tokens| then "" else ToString(tokens[i]) + JoinFrom(tokens, i + 1)
  }

  lemma JoinAsTail(tokens: seq<int>, i: nat)
    requires 0 < i <= |tokens|
    ensures SkipSpaces(JoinFrom(tokens, i)) == Tail(tokens, i)
    ensures EndsNumber(JoinFrom(tokens, i))
  {
    if i < |tokens| {
      ToStringStart(tokens[i]);
      var t := Tail(tokens, i);
      assert JoinFrom(tokens, i) == " " + t;
      assert JoinFrom(tokens, i)[1..] == t;
      assert SkipSpaces(t) == t;
    }
  }

  lemma {:induction false} LineStep(s: string)
    ensures var t := SkipSpaces(s);
            var n := ReadInt(t);
            ParseLine(s) == if n.NoNumber? then [] else [n.value] + ParseLine(t[n.length..])
  {
    hide ReadInt;
  }

  lemma NothingToRead()
    ensures ReadInt("").NoNumber?
  {}

  lemma {:induction false} LineRoundTripFrom(tokens: seq<int>, i: nat, s: string)
    requires i <= |tokens| && forall k :: 0 <= k < |tokens| ==> IsInt(tokens[k])
    requires SkipSpaces(s) == Tail(tokens, i)
    ensures ParseLine(s) == tokens[i..]
    decreases |tokens| - i
  {
    hide ToString, ReadInt, SkipSpaces, JoinFrom, IsInt, ParseLine;
    LineStep(s);
    if i < |tokens| {
      var rest := JoinFrom(tokens, i + 1);
      JoinAsTail(tokens, i + 1);
      ReadBack(tokens[i], rest);
      assert SkipSpaces(s)[|ToString(tokens[i])|..] == rest;
      LineRoundTripFrom(tokens, i + 1, rest);
      assert tokens[i..] == [tokens[i]] + tokens[i + 1..];
    } else {
      NothingToRead();
    }
  }

  lemma {:induction false} WordOfNumber(w: string, rest: string)
    requires (forall i :: 0 <= i < |w| ==> !IsSpace(w[i])) && EndsNumber(rest)
    ensures Word(w + rest) == w
  {
    if w != [] {
      assert (w + rest)[1..] == w[1..] + rest;
      WordOfNumber(w[1..], rest);
    } else {
      assert w + rest == rest;
    }
  }

  lemma {:induction false} WordStep(s: string)
    requires SkipSpaces(s) != []
    ensures var t := SkipSpaces(s);
            var n := ReadInt(Word(t));
            ParseWords(s) == (if n.NoNumber? then [] else [n.value]) + ParseWords(t[|Word(t)|..])
  {
    hide ReadInt;
  }

  lemma {:induction false} WordReadBack(v: int, rest: string)
    requires IsInt(v) && EndsNumber(rest)
    ensures Word(ToString(v) + rest) == ToString(v) && ReadInt(ToString(v)) == Number(v, |ToString(v)|)
  {
    hide ToString, ReadInt, Word;
    forall k | 0 <= k < |ToString(v)|
      ensures !IsSpace(ToString(v)[k])
    {
      NoSpaceInside(v, k);
    }
    WordOfNumber(ToString(v), rest);
    ReadBack(v, []);
    assert ToString(v) + [] == ToString(v);
  }

  lemma {:induction false} WordsRoundTripFrom(tokens: seq<int>, i: nat, s: string)
    requires i <= |tokens| && forall k :: 0 <= k < |tokens| ==> IsInt(tokens[k])
    requires SkipSpaces(s) == Tail(tokens, i)
    ensures ParseWords(s) == tokens[i..]
    decreases |tokens| - i
  {
    hide ToString, JoinFrom, ReadInt, Word, SkipSpaces, IsSpace;
    if i < |tokens| {
      var w, rest := ToString(tokens[i]), JoinFrom(tokens, i + 1);
      JoinAsTail(tokens, i + 1);
      WordReadBack(tokens[i], rest);
      ToStringStart(tokens[i]);
      assert SkipSpaces(s) == w + rest;
      WordStep(s);
      hide ParseWords;
      assert (w + rest)[|w|..] == rest;
      WordsRoundTripFrom(tokens, i + 1, rest);
      assert tokens[i..] == [tokens[i]] + tokens[i + 1..];
    }
  }

  /** Printing a list of ints and parsing it gives the list back, with either parser. */
  lemma PrintThenParse(tokens: seq<int>)
    requires forall k :: 0 <= k < |tokens| ==> IsInt(tokens[k])
    ensures ParseWords(TokensToString(tokens)) == tokens && ParseLine(TokensToString(tokens)) == tokens
  {
    var s := TokensToString(tokens);
    assert s == Tail(tokens, 0);
    if tokens != [] { ToStringStart(tokens[0]); }
    assert SkipSpaces(s) == s;
    WordsRoundTripFrom(tokens, 0, s);
    LineRoundTripFrom(tokens, 0, s);
    assert tokens[0..] == tokens;
  }

  // ---- the loops ----

  lemma JoinStep(tokens: seq<int>, i: nat, out: string)
    requires i < |tokens|
    ensures out + JoinFrom(tokens, i)
         == (if i > 0 then out + " " else out) + ToString(tokens[i]) + JoinFrom(tokens, i + 1)
  {
    hide ToString;
    var rest := ToString(tokens[i]) + JoinFrom(tokens, i + 1);
    assert i > 0 ==> JoinFrom(tokens, i) == " " + rest;
    assert out + (" " + rest) == out + " " + ToString(tokens[i]) + JoinFrom(tokens, i + 1);
  }

  method PrintTokens(tokens: seq<int>) returns (out: string)
    ensures out == TokensToString(tokens)
  {
    out := "";
    for i := 0 to |tokens|
      invariant out + JoinFrom(tokens, i) == TokensToString(tokens)
    {
      hide ToString;
      JoinStep(tokens, i, out);
      hide JoinFrom, TokensToString;
      if i > 0 {
        out := out + " ";
      }
      out := out + ToString(tokens[i]);
    }
    assert out + "" == out;
  }

  method ParseRequestLine(line: string) returns (tokens: seq<int>)
    ensures tokens == ParseLine(line)
  {
    tokens := [];
    var rest := SkipSpaces(line);
    var n := ReadInt(rest);
    while n.Number?
      invariant n == ReadInt(rest) && SkipSpaces(rest) == rest
      invariant tokens + ParseLine(rest) == ParseLine(line)
      decreases |rest|
    {
      tokens := tokens + [n.value];
      ghost var before := rest;
      rest := SkipSpaces(rest[n.length..]);
      SkipTwice(before[n.length..]);
      n := ReadInt(rest);
    }
  }

  method ParseRequestWords(msg: string) returns (tokens: seq<int>)
    ensures tokens == ParseWords(msg)
  {
    hide ReadInt, Word, SkipSpaces, ParseWords;
    tokens := [];
    var rest := SkipSpaces(msg);
    SkipTwice(msg);
    NoWords();
    while rest != []
      invariant SkipSpaces(rest) == rest
      invariant tokens + ParseWords(rest) == ParseWords(msg)
      decreases |rest|
    {
      var w := Word(rest);
      var n := ReadInt(w);
      WordStep(rest);
      ghost var after := ParseWords(rest[|w|..]);
      WordNotEmpty(rest);
      if n.Number? {
        assert tokens + ([n.value] + after) == tokens + [n.value] + after;
        tokens := tokens + [n.value];
      } else {
        assert [] + after == after;
      }
      SkipTwice(rest[|w|..]);
      rest := SkipSpaces(rest[|w|..]);
    }
    assert tokens + [] == tokens;
  }

  lemma {:induction false} NoWords()
    ensures ParseWords("") == []
  {}

  lemma {:induction false} WordNotEmpty(s: string)
    requires s != [] && SkipSpaces(s) == s
    ensures Word(s) != []
  {}

  lemma {:induction false} SkipTwice(s: string)
    ensures SkipSpaces(SkipSpaces(s)) == SkipSpaces(s)
    ensures ParseLine(SkipSpaces(s)) == ParseLine(s) && ParseWords(SkipSpaces(s)) == ParseWords(s)
  {
    if s != [] && IsSpace(s[0]) { SkipTwice(s[1..]); }
  }
}
