/** Backslash escaping by chained replacement, as the printers do it, and the single-pass code it amounts to. */
module Escaping {
  import opened Common

  const BACKSLASH: char := '\\'

  /** `text.replace(c, t)` for a single character `c`. */
  function Replace(s: string, c: char, t: string): string {
    if s == "" then "" else (if s[0] == c then t else [s[0]]) + Replace(s[1..], c, t)
  }

  datatype Rule = Rule(target: char, text: string)

  /** `text.replace(..).replace(..)`, one rule after the other. */
  function Chain(s: string, rules: seq<Rule>): string
    decreases |rules|
  {
    if rules == [] then s else Chain(Replace(s, rules[0].target, rules[0].text), rules[1..])
  }

  /** Which characters are escaped, by which letter, and which character a letter stands for. */
  datatype Code = Code(letter: map<char, char>, meaning: map<char, char>)

  predicate Proper(k: Code) {
    && BACKSLASH in k.letter
    && forall c :: c in k.letter ==> k.letter[c] in k.meaning && k.meaning[k.letter[c]] == c
  }

  function EscapeChar(k: Code, c: char): string {
    if c in k.letter then [BACKSLASH, k.letter[c]] else [c]
  }

  function Escape(k: Code, s: string): string {
    if s == "" then "" else EscapeChar(k, s[0]) + Escape(k, s[1..])
  }

  // ---- the chain is a single pass ----------------------------------------------------------------------

  lemma ReplaceOne(a: char, c: char, t: string)
    ensures Replace([a], c, t) == if a == c then t else [a]
  {
    assert Replace([a][1..], c, t) == "";
  }

  lemma ReplaceTwo(a: char, b: char, c: char, t: string)
    ensures Replace([a, b], c, t) == (if a == c then t else [a]) + (if b == c then t else [b])
  {
    ReplaceOne(b, c, t);
    assert [a, b][1..] == [b];
  }

  lemma {:induction false} ReplaceConcat(a: string, b: string, c: char, t: string)
    ensures Replace(a + b, c, t) == Replace(a, c, t) + Replace(b, c, t)
  {
    if a == "" {
      assert a + b == b;
    } else {
      assert (a + b)[1..] == a[1..] + b;
      ReplaceConcat(a[1..], b, c, t);
    }
  }

  lemma {:induction false} ChainConcat(a: string, b: string, rules: seq<Rule>)
    ensures Chain(a + b, rules) == Chain(a, rules) + Chain(b, rules)
    decreases |rules|
  {
    if rules != [] {
      var r := rules[0];
      ReplaceConcat(a, b, r.target, r.text);
      ChainConcat(Replace(a, r.target, r.text), Replace(b, r.target, r.text), rules[1..]);
    }
  }

  lemma {:induction false} ChainOfEmpty(rules: seq<Rule>)
    ensures Chain("", rules) == ""
    decreases |rules|
  {
    if rules != [] {
      ChainOfEmpty(rules[1..]);
    }
  }

  lemma {:induction false} ChainAppend(s: string, rules: seq<Rule>, last: Rule)
    ensures Chain(s, rules + [last]) == Replace(Chain(s, rules), last.target, last.text)
    decreases |rules|
  {
    hide Replace;
    if rules != [] {
      assert (rules + [last])[1..] == rules[1..] + [last];
      ChainAppend(Replace(s, rules[0].target, rules[0].text), rules[1..], last);
    } else {
      assert Chain(s, [last]) == Chain(Replace(s, last.target, last.text), []);
    }
  }

  /** One more rule, whose target does not occur in what the earlier rules write. */
  lemma ChainOnChar(c: char, rules: seq<Rule>, done: string, last: Rule)
    requires Chain([c], rules) == done && (done == [c] || (|done| == 2 && last.target !in done))
    ensures Chain([c], rules + [last]) == if done == [c] && c == last.target then last.text else done
  {
    hide Chain;
    ChainAppend([c], rules, last);
    if done == [c] {
      ReplaceOne(c, last.target, last.text);
    } else {
      ReplaceTwo(done[0], done[1], last.target, last.text);
      assert done == [done[0]] + [done[1]] == [done[0], done[1]];
    }
  }

  /** Replacing one rule after the other equals replacing character by character, if it does so on every
      single character. */
  lemma {:induction false} ChainIsSinglePass(s: string, rules: seq<Rule>, k: Code)
    requires forall c :: Chain([c], rules) == EscapeChar(k, c)
    ensures Chain(s, rules) == Escape(k, s)
  {
    if s == "" {
      ChainOfEmpty(rules);
    } else {
      ChainIsSinglePass(s[1..], rules, k);
      ChainConcat([s[0]], s[1..], rules);
      assert [s[0]] + s[1..] == s;
    }
  }

  // ---- unique decoding -----------------------------------------------------------------------------------

  function Decode(k: Code, s: string): string {
    if s == "" then ""
    else if s[0] == BACKSLASH && |s| > 1 && s[1] in k.meaning then [k.meaning[s[1]]] + Decode(k, s[2..])
    else [s[0]] + Decode(k, s[1..])
  }

  /** The decoded text before the first `d` that is not part of an escape, and what follows that `d`. */
  function ReadUntil(k: Code, s: string, d: char): (r: Option<(string, string)>)
    ensures r.Some? ==> |r.value.1| < |s|
  {
    if s == "" then None
    else if s[0] == d then Some(("", s[1..]))
    else if s[0] == BACKSLASH && |s| > 1 && s[1] in k.meaning then
      var rest := ReadUntil(k, s[2..], d);
      if rest.None? then None else Some(([k.meaning[s[1]]] + rest.value.0, rest.value.1))
    else
      var rest := ReadUntil(k, s[1..], d);
      if rest.None? then None else Some(([s[0]] + rest.value.0, rest.value.1))
  }

  lemma {:induction false} DecodeInvertsEscape(k: Code, s: string)
    requires Proper(k)
    ensures Decode(k, Escape(k, s)) == s
  {
    if s != "" {
      DecodeInvertsEscape(k, s[1..]);
      assert Escape(k, s)[|EscapeChar(k, s[0])|..] == Escape(k, s[1..]);
    }
  }

  lemma EscapeIsInjective(k: Code, a: string, b: string)
    requires Proper(k) && Escape(k, a) == Escape(k, b)
    ensures a == b
  {
    DecodeInvertsEscape(k, a);
    DecodeInvertsEscape(k, b);
  }

  lemma {:induction false} ReadsPlain(k: Code, plain: string, d: char, rest: string)
    requires d !in plain && BACKSLASH !in plain && d != BACKSLASH
    ensures ReadUntil(k, plain + [d] + rest, d) == Some((plain, rest))
  {
    var s := plain + [d] + rest;
    if plain != "" {
      assert s[0] == plain[0];
      ReadsPlain(k, plain[1..], d, rest);
      assert s[1..] == plain[1..] + [d] + rest;
      assert [s[0]] + plain[1..] == plain;
    } else {
      assert s == [d] + rest;
    }
  }

  /** Reading one escaped character. */
  lemma ReadsOne(k: Code, c: char, next: string, d: char)
    requires Proper(k) && d in k.letter && d != BACKSLASH
    ensures var r, rest := ReadUntil(k, EscapeChar(k, c) + next, d), ReadUntil(k, next, d);
            r == if rest.None? then None else Some(([c] + rest.value.0, rest.value.1))
  {
    var s := EscapeChar(k, c) + next;
    assert s[|EscapeChar(k, c)|..] == next;
  }

  /** Escaped text holds no bare delimiter: a reader gets through the value, and through any plain text after
      it, to the delimiter that was written. */
  lemma {:induction false} ReadsBack(k: Code, value: string, plain: string, d: char, rest: string)
    requires Proper(k) && d in k.letter && d != BACKSLASH
    requires d !in plain && BACKSLASH !in plain
    ensures ReadUntil(k, Escape(k, value) + (plain + [d] + rest), d) == Some((value + plain, rest))
  {
    hide Proper, ReadUntil, EscapeChar;
    var tail := plain + [d] + rest;
    if value == "" {
      ReadsPlain(k, plain, d, rest);
      assert Escape(k, value) + tail == tail && value + plain == plain;
    } else {
      ReadsBack(k, value[1..], plain, d, rest);
      ReadsOne(k, value[0], Escape(k, value[1..]) + tail, d);
      assert Escape(k, value) + tail == EscapeChar(k, value[0]) + (Escape(k, value[1..]) + tail);
      assert value + plain == [value[0]] + (value[1..] + plain);
    }
  }

  /** Without a written delimiter the reader finds none. */
  lemma {:induction false} NoBareDelimiter(k: Code, value: string, d: char)
    requires Proper(k) && d in k.letter && d != BACKSLASH
    ensures ReadUntil(k, Escape(k, value), d).None?
  {
    if value != "" {
      NoBareDelimiter(k, value[1..], d);
      ReadsOne(k, value[0], Escape(k, value[1..]), d);
    }
  }

  // ---- numbers -------------------------------------------------------------------------------------------

  predicate Numeral(s: string) {
    forall c :: c in s ==> '0' <= c <= '9' || c == '-'
  }

  function Decimal(n: nat): (r: string)
    ensures r != "" && Numeral(r)
  {
    var last := ['0' + (n % 10) as char];
    if n < 10 then last else Decimal(n / 10) + last
  }

  /** `str` of an integer. */
  function IntText(n: int): (r: string)
    ensures r != "" && Numeral(r)
  {
    if n < 0 then "-" + Decimal(-n) else Decimal(n)
  }

  function DigitsValue(s: string): int {
    if s == "" then 0 else DigitsValue(s[..|s| - 1]) * 10 + (s[|s| - 1] as int - '0' as int)
  }

  /** Digits that are read back give the number they were written for. */
  lemma {:induction false} DecimalReadsBack(n: nat)
    ensures DigitsValue(Decimal(n)) == n
    ensures Decimal(n)[0] != '-'
  {
    var d := Decimal(n);
    if n >= 10 {
      DecimalReadsBack(n / 10);
      assert d[..|d| - 1] == Decimal(n / 10);
    } else {
      assert d[..|d| - 1] == "";
    }
  }

  lemma IntTextReadsBack(n: int)
    ensures n >= 0 ==> DigitsValue(IntText(n)) == n && IntText(n)[0] != '-'
    ensures n < 0 ==> IntText(n)[0] == '-' && DigitsValue(IntText(n)[1..]) == -n
  {
    DecimalReadsBack(if n < 0 then -n else n);
    hide Decimal, DigitsValue;
    assert n < 0 ==> IntText(n)[1..] == Decimal(-n);
  }
}
