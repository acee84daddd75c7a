/**
 * Character classes and string helpers standing in for the Ruby regular
 * expressions and conversions the providers use: `\s`, `\w`, `\d`, `\h`,
 * `String#to_i`, `Integer#to_s`, and the fixed leading part of an anchored
 * pattern (`\A\sip\saddress\s`).
 */
module Text {
  import opened Common

  /** Ruby's `\s`: space, tab, line feed, carriage return, vertical tab, form feed. */
  predicate IsSpace(c: char) {
    c == ' ' || c == '\t' || c == '\n' || c == '\r' || c == '\U{000B}' || c == '\U{000C}'
  }

  /** Ruby's `\d`. */
  predicate IsDigit(c: char) {
    '0' <= c <= '9'
  }

  /** Ruby's `\w`: ASCII letters, digits and the underscore. */
  predicate IsWordChar(c: char) {
    'a' <= c <= 'z' || 'A' <= c <= 'Z' || IsDigit(c) || c == '_'
  }

  /** `/\A\w/`: a line of the top level of the running configuration. */
  predicate IsTopLevel(line: string) {
    |line| > 0 && IsWordChar(line[0])
  }

  /** Ruby's `\h`: a hexadecimal digit. */
  predicate IsHexDigit(c: char) {
    IsDigit(c) || 'a' <= c <= 'f' || 'A' <= c <= 'F'
  }

  /** Every character of `s` is a decimal digit (`s` may be empty). */
  predicate Digits(s: string) {
    forall i :: 0 <= i < |s| ==> IsDigit(s[i])
  }

  /** `s` matches `\A\d+\Z`. */
  predicate AllDigits(s: string) {
    |s| > 0 && Digits(s)
  }

  /** Whether `c` occurs in `s` (Ruby's `String#include?` of one character). */
  predicate Contains(s: string, c: char) {
    exists i :: 0 <= i < |s| && s[i] == c
  }

  function DigitValue(c: char): nat
    requires IsDigit(c)
  {
    (c as int - '0' as int) as nat
  }

  function DigitChar(d: nat): (c: char)
    requires d < 10
    ensures IsDigit(c) && DigitValue(c) == d
  {
    ('0' as int + d) as char
  }

  /** The value of a decimal numeral; 0 for the empty string. */
  function DigitsValue(s: string): nat
    requires Digits(s)
  {
    if |s| == 0 then 0 else 10 * DigitsValue(s[..|s| - 1]) + DigitValue(s[|s| - 1])
  }

  /** The decimal numeral of `n` without leading zeros (`Integer#to_s`). */
  function NatToDigits(n: nat): (s: string)
    ensures AllDigits(s)
  {
    if n < 10 then [DigitChar(n)] else NatToDigits(n / 10) + [DigitChar(n % 10)]
  }

  lemma {:induction false} DigitsValueOfNatToDigits(n: nat)
    ensures DigitsValue(NatToDigits(n)) == n
  {
    var s := NatToDigits(n);
    if n >= 10 {
      DigitsValueOfNatToDigits(n / 10);
      assert s[..|s| - 1] == NatToDigits(n / 10);
    }
  }

  /** `Integer#to_s` for any integer. */
  function IntToString(n: int): string {
    if n < 0 then "-" + NatToDigits(-n) else NatToDigits(n)
  }

  /** The longest prefix of `s` made of decimal digits. */
  function LeadingDigits(s: string): (d: string)
    ensures d <= s && Digits(d)
    ensures |d| == |s| || !IsDigit(s[|d|])
  {
    if |s| > 0 && IsDigit(s[0]) then [s[0]] + LeadingDigits(s[1..]) else ""
  }

  /** The digit run of a numeral followed by a non-digit is the numeral. */
  lemma {:induction false} LeadingDigitsPrefix(d: string, s: string)
    requires Digits(d) && (|s| == 0 || !IsDigit(s[0]))
    ensures LeadingDigits(d + s) == d
  {
    if |d| == 0 {
      assert d + s == s;
    } else {
      assert (d + s)[0] == d[0] && (d + s)[1..] == d[1..] + s;
      LeadingDigitsPrefix(d[1..], s);
      assert [d[0]] + d[1..] == d;
    }
  }

  /** `s` without its leading `\s` characters. */
  function SkipSpaces(s: string): (t: string)
    ensures |t| <= |s| && t == s[|s| - |t|..]
    ensures |t| == 0 || !IsSpace(t[0])
    ensures forall i :: 0 <= i < |s| - |t| ==> IsSpace(s[i])
  {
    if |s| > 0 && IsSpace(s[0]) then SkipSpaces(s[1..]) else s
  }

  /** `t` without a leading `0d` or `0D`, the prefix that marks a decimal numeral. */
  function Unprefixed(t: string): (u: string)
    ensures u == t || (|t| >= 2 && t[0] == '0' && (t[1] == 'd' || t[1] == 'D') && u == t[2..])
    ensures |t| < 2 || t[0] != '0' || IsDigit(t[1]) ==> u == t
  {
    if |t| >= 2 && t[0] == '0' && (t[1] == 'd' || t[1] == 'D') then t[2..] else t
  }

  /**
   * Ruby's `String#to_i`: leading white space is skipped, an optional sign is
   * read, then an optional `0d` prefix, then the longest run of decimal
   * digits; no digits give 0.
   */
  function ToI(s: string): int {
    var t := SkipSpaces(s);
    if |t| > 0 && t[0] == '-' then -(DigitsValue(LeadingDigits(Unprefixed(t[1..]))) as int)
    else if |t| > 0 && t[0] == '+' then DigitsValue(LeadingDigits(Unprefixed(t[1..])))
    else DigitsValue(LeadingDigits(Unprefixed(t)))
  }

  lemma {:induction false} LeadingDigitsOfDigits(s: string)
    requires Digits(s)
    ensures LeadingDigits(s) == s
  {
    if |s| > 0 {
      LeadingDigitsOfDigits(s[1..]);
      assert [s[0]] + s[1..] == s;
    }
  }

  lemma SkipNoSpaces(s: string)
    requires |s| > 0 && !IsSpace(s[0])
    ensures SkipSpaces(s) == s
  {
  }

  /** On the strings `\A\d+\Z` accepts, `to_i` is the numeral's value. */
  lemma ToIOfDigits(s: string)
    requires AllDigits(s)
    ensures ToI(s) == DigitsValue(s)
  {
    SkipNoSpaces(s);
    assert Unprefixed(s) == s by {
      assert |s| < 2 || IsDigit(s[1]);
    }
    LeadingDigitsOfDigits(s);
  }

  /** `0d12` is read as 12: the prefix is skipped before the digits. */
  lemma ToIRadixPrefix()
    ensures ToI("0d12") == 12
  {
    var s := "0d12";
    SkipNoSpaces(s);
    assert s[2..] == "12";
    LeadingDigitsOfDigits("12");
    assert "12"[..1] == "1";
    assert DigitsValue("12") == 12;
  }

  /** `n.to_s.to_i == n`. */
  lemma ToIOfIntToString(n: int)
    ensures ToI(IntToString(n)) == n
  {
    if n < 0 {
      var d := NatToDigits(-n);
      var s := "-" + d;
      assert SkipSpaces(s) == s;
      assert s[1..] == d;
      assert Unprefixed(d) == d by {
        assert |d| < 2 || IsDigit(d[1]);
      }
      LeadingDigitsOfDigits(d);
      DigitsValueOfNatToDigits(-n);
    } else {
      ToIOfDigits(NatToDigits(n));
      DigitsValueOfNatToDigits(n);
    }
  }

  /** One element of the fixed leading part of an anchored pattern. */
  datatype Tok = Sp | Lit(word: string)

  /**
   * Matches the tokens of `pat` at the start of `s` (a `Sp` matches one `\s`
   * character, a `Lit` its word) and gives what follows them.
   */
  function Strip(s: string, pat: seq<Tok>): (r: Option<string>)
  {
    if pat == [] then Some(s)
    else match pat[0]
      case Sp => if |s| > 0 && IsSpace(s[0]) then Strip(s[1..], pat[1..]) else None
      case Lit(w) => if w <= s then Strip(s[|w|..], pat[1..]) else None
  }

  /** A line matched by a pattern that opens with `\s` and a word has that word at index 1. */
  lemma StripHead(s: string, pat: seq<Tok>)
    requires |pat| >= 2 && pat[0] == Sp && pat[1].Lit? && Strip(s, pat).Some?
    ensures |s| > |pat[1].word| && s[1..1 + |pat[1].word|] == pat[1].word
  {
    var w := pat[1].word;
    assert Strip(s[1..], pat[1..]).Some?;
    assert pat[1..][0] == Lit(w);
    assert w <= s[1..];
  }

  /** The text `pat` stands for when every `Sp` is written as one blank. */
  function Spell(pat: seq<Tok>): string {
    if pat == [] then ""
    else match pat[0]
      case Sp => " " + Spell(pat[1..])
      case Lit(w) => w + Spell(pat[1..])
  }

  /** The text one token stands for. */
  function TokText(t: Tok): string {
    match t
    case Sp => " "
    case Lit(w) => w
  }

  lemma SpellCons(t: Tok, rest: seq<Tok>)
    ensures Spell([t] + rest) == TokText(t) + Spell(rest)
  {
    assert ([t] + rest)[0] == t && ([t] + rest)[1..] == rest;
  }

  /** One token of a pattern matches its own text. */
  lemma StripTok(t: Tok, rest: seq<Tok>, s: string)
    ensures Strip(TokText(t) + s, [t] + rest) == Strip(s, rest)
  {
    var pat := [t] + rest;
    assert pat[0] == t && pat[1..] == rest;
    var line := TokText(t) + s;
    match t
    case Sp =>
      assert line[0] == ' ' && line[1..] == s;
    case Lit(w) =>
      assert w <= line && line[|w|..] == s;
  }

  /** A line written from a pattern followed by `rest` matches it, leaving `rest`. */
  lemma {:induction false} StripSpell(pat: seq<Tok>, rest: string)
    ensures Strip(Spell(pat) + rest, pat) == Some(rest)
  {
    if pat == [] {
      assert Spell(pat) + rest == rest;
    } else {
      StripSpell(pat[1..], rest);
      assert pat == [pat[0]] + pat[1..];
      SpellCons(pat[0], pat[1..]);
      Associative(TokText(pat[0]), Spell(pat[1..]), rest);
      StripTok(pat[0], pat[1..], Spell(pat[1..]) + rest);
    }
  }
}
