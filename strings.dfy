// The few Python string operations the FEN codec relies on: whitespace
// `split()`, `split(sep)`, `sep.join(parts)`, `str(int)` and `int(str)`.
module Strings {
  import opened Base

  /** ASCII whitespace, the separators of `str.split()`. */
  predicate IsSpace(ch: char)
  {
    ch == ' ' || ch == '\t' || ch == '\n' || ch == '\r' || ch == '\U{B}' || ch == '\U{C}'
  }

  predicate IsDigit(ch: char)
  {
    '0' <= ch <= '9'
  }

  function DigitValue(ch: char): (d: nat)
    requires IsDigit(ch)
    ensures d < 10
  {
    ch as int - '0' as int
  }

  function DigitChar(d: nat): (ch: char)
    requires d < 10
    ensures IsDigit(ch) && DigitValue(ch) == d
  {
    ('0' as int + d) as char
  }

  predicate NoSpace(s: string)
  {
    forall i :: 0 <= i < |s| ==> !IsSpace(s[i])
  }

  predicate NoChar(s: string, sep: char)
  {
    forall i :: 0 <= i < |s| ==> s[i] != sep
  }

  /** `sep.join(parts)` */
  function Join(parts: seq<string>, sep: char): string
  {
    if |parts| == 0 then ""
    else if |parts| == 1 then parts[0]
    else parts[0] + [sep] + Join(parts[1..], sep)
  }

  /** `s.split(sep)` scanning with the piece gathered so far. */
  function SplitFrom(s: string, sep: char, cur: string): (r: seq<string>)
    ensures |r| >= 1
    decreases |s|
  {
    if s == [] then [cur]
    else if s[0] == sep then [cur] + SplitFrom(s[1..], sep, "")
    else SplitFrom(s[1..], sep, cur + [s[0]])
  }

  /** `s.split(sep)`: the pieces between separators, empty ones included. */
  function SplitOn(s: string, sep: char): seq<string>
  {
    SplitFrom(s, sep, "")
  }

  /** `s.split()` scanning with the token gathered so far. */
  function TokensFrom(s: string, cur: string): seq<string>
    decreases |s|
  {
    if s == [] then (if cur == [] then [] else [cur])
    else if IsSpace(s[0]) then (if cur == [] then [] else [cur]) + TokensFrom(s[1..], "")
    else TokensFrom(s[1..], cur + [s[0]])
  }

  /** `s.split()`: the maximal runs of non-whitespace characters. */
  function Tokens(s: string): seq<string>
  {
    TokensFrom(s, "")
  }

  /** `str(n)` for a natural number. */
  function NatStr(n: nat): (s: string)
    ensures |s| >= 1 && forall i :: 0 <= i < |s| ==> IsDigit(s[i])
  {
    if n < 10 then [DigitChar(n)] else NatStr(n / 10) + [DigitChar(n % 10)]
  }

  /** `str(i)` */
  function IntStr(i: int): (s: string)
    ensures |s| >= 1 && NoSpace(s)
  {
    if i < 0 then "-" + NatStr(-i) else NatStr(i)
  }

  function DigitsValue(s: string): nat
    requires forall i :: 0 <= i < |s| ==> IsDigit(s[i])
  {
    if s == [] then 0 else DigitsValue(s[..|s| - 1]) * 10 + DigitValue(s[|s| - 1])
  }

  predicate AllDigits(s: string)
  {
    |s| >= 1 && forall i :: 0 <= i < |s| ==> IsDigit(s[i])
  }

  /** `int(s)` on an optionally signed run of ASCII digits; anything else is the
      ValueError case. */
  function ParseInt(s: string): Option<int>
  {
    if AllDigits(s) then Some(DigitsValue(s))
    else if |s| >= 2 && s[0] == '-' && AllDigits(s[1..]) then Some(0 - DigitsValue(s[1..]) as int)
    else if |s| >= 2 && s[0] == '+' && AllDigits(s[1..]) then Some(DigitsValue(s[1..]))
    else None
  }

  lemma {:induction false} NatStrRoundTrip(n: nat)
    ensures DigitsValue(NatStr(n)) == n
  {
    if n >= 10 {
      NatStrRoundTrip(n / 10);
      var s := NatStr(n);
      assert s[..|s| - 1] == NatStr(n / 10);
    }
  }

  /** `int(str(i)) == i` */
  lemma IntStrRoundTrip(i: int)
    ensures ParseInt(IntStr(i)) == Some(i)
  {
    if i < 0 {
      NatStrRoundTrip(-i);
      var s := IntStr(i);
      assert s[1..] == NatStr(-i);
      assert !IsDigit(s[0]);
    } else {
      NatStrRoundTrip(i);
    }
  }

  lemma {:induction false} SplitFromAppend(p: string, rest: string, sep: char, cur: string)
    requires NoChar(p, sep)
    ensures SplitFrom(p + rest, sep, cur) == SplitFrom(rest, sep, cur + p)
    decreases |p|
  {
    if p != [] {
      var s := p + rest;
      assert s[0] == p[0] && p[0] != sep;
      assert s[1..] == p[1..] + rest;
      assert SplitFrom(s, sep, cur) == SplitFrom(s[1..], sep, cur + [p[0]]);
      SplitFromAppend(p[1..], rest, sep, cur + [p[0]]);
      assert cur + [p[0]] + p[1..] == cur + p;
    } else {
      assert p + rest == rest && cur + p == cur;
    }
  }

  /** Splitting a join on the same separator gives the parts back. */
  lemma {:induction false} SplitJoin(parts: seq<string>, sep: char)
    requires |parts| >= 1
    requires forall k :: 0 <= k < |parts| ==> NoChar(parts[k], sep)
    ensures SplitOn(Join(parts, sep), sep) == parts
    decreases |parts|
  {
    if |parts| == 1 {
      SplitFromAppend(parts[0], "", sep, "");
      assert parts[0] + "" == parts[0] && "" + parts[0] == parts[0];
    } else {
      var rest := [sep] + Join(parts[1..], sep);
      assert Join(parts, sep) == parts[0] + rest;
      SplitFromAppend(parts[0], rest, sep, "");
      assert "" + parts[0] == parts[0];
      assert rest[1..] == Join(parts[1..], sep);
      SplitJoin(parts[1..], sep);
      assert [parts[0]] + parts[1..] == parts;
    }
  }

  lemma {:induction false} TokensFromAppend(p: string, rest: string, cur: string)
    requires NoSpace(p)
    ensures TokensFrom(p + rest, cur) == TokensFrom(rest, cur + p)
    decreases |p|
  {
    if p != [] {
      var s := p + rest;
      assert s[0] == p[0] && !IsSpace(p[0]);
      assert s[1..] == p[1..] + rest;
      assert TokensFrom(s, cur) == TokensFrom(s[1..], cur + [p[0]]);
      TokensFromAppend(p[1..], rest, cur + [p[0]]);
      assert cur + [p[0]] + p[1..] == cur + p;
    } else {
      assert p + rest == rest && cur + p == cur;
    }
  }

  /** Every field `split()` returns is non-empty and free of whitespace. */
  lemma {:induction false} TokensFromClean(s: string, cur: string)
    requires NoSpace(cur)
    ensures forall k :: 0 <= k < |TokensFrom(s, cur)| ==>
      |TokensFrom(s, cur)[k]| >= 1 && NoSpace(TokensFrom(s, cur)[k])
    decreases |s|
  {
    if s != [] {
      if IsSpace(s[0]) {
        TokensFromClean(s[1..], "");
      } else {
        TokensFromClean(s[1..], cur + [s[0]]);
      }
    }
  }

  /** Splitting on whitespace a space-join of non-empty, space-free fields gives
      the fields back. */
  lemma {:induction false} TokensJoin(parts: seq<string>)
    requires |parts| >= 1
    requires forall k :: 0 <= k < |parts| ==> |parts[k]| >= 1 && NoSpace(parts[k])
    ensures Tokens(Join(parts, ' ')) == parts
    decreases |parts|
  {
    if |parts| == 1 {
      TokensFromAppend(parts[0], "", "");
      assert parts[0] + "" == parts[0] && "" + parts[0] == parts[0];
    } else {
      var rest := [' '] + Join(parts[1..], ' ');
      assert Join(parts, ' ') == parts[0] + rest;
      TokensFromAppend(parts[0], rest, "");
      assert "" + parts[0] == parts[0];
      assert rest[1..] == Join(parts[1..], ' ');
      TokensJoin(parts[1..]);
      assert [parts[0]] + parts[1..] == parts;
    }
  }
}
