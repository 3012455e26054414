/** The phone pattern `/^[+]?[(]?[0-9]{3}[)]?[-\s.]?[0-9]{3}[-\s.]?[0-9]{4,6}$/`
    shared by js/contact-form.js and js/contact.js. Each optional piece of the
    pattern is a character that cannot begin the piece after it, so one left
    to right pass decides a match; `Parse` is that pass and `Render` the
    grammar it inverts. */
module PhoneNumber {
  import opened Text
  import opened Wrappers

  predicate IsDigit(c: char) {
    '0' <= c <= '9'
  }

  predicate AllDigits(s: string) {
    forall k :: 0 <= k < |s| ==> IsDigit(s[k])
  }

  /** One character of the class `[-\s.]`. */
  predicate IsSeparator(c: char) {
    c == '-' || c == '.' || IsSpace(c)
  }

  /** An optional separator: nothing, or one separator character. */
  predicate IsOptionalSeparator(s: string) {
    |s| == 0 || (|s| == 1 && IsSeparator(s[0]))
  }

  /** The pieces of a phone number as the pattern sees them. */
  datatype Phone = Phone(
    plus: bool, open: bool, area: string, close: bool,
    sep1: string, exchange: string, sep2: string, line: string)

  /** The pieces the pattern admits: three digits, three digits, four to six
      digits, and at most one separator character between the groups. */
  predicate WellFormed(p: Phone) {
    && |p.area| == 3 && AllDigits(p.area)
    && |p.exchange| == 3 && AllDigits(p.exchange)
    && 4 <= |p.line| <= 6 && AllDigits(p.line)
    && IsOptionalSeparator(p.sep1) && IsOptionalSeparator(p.sep2)
  }

  function Flag(present: bool, c: char): string {
    if present then [c] else []
  }

  /** The text a phone number is written as. */
  function Render(p: Phone): string {
    Flag(p.plus, '+') + (Flag(p.open, '(') + (p.area + (Flag(p.close, ')')
      + (p.sep1 + (p.exchange + (p.sep2 + p.line))))))
  }

  /** Takes an optional leading `c` off `s`. */
  function TakeChar(s: string, c: char): (bool, string) {
    if |s| > 0 && s[0] == c then (true, s[1..]) else (false, s)
  }

  /** Takes an optional leading separator off `s`. */
  function TakeSeparator(s: string): (string, string) {
    if |s| > 0 && IsSeparator(s[0]) then (s[..1], s[1..]) else ([], s)
  }

  /** Takes three leading digits off `s`, if they are there. */
  function TakeThreeDigits(s: string): Option<(string, string)> {
    if |s| >= 3 && AllDigits(s[..3]) then Some((s[..3], s[3..])) else None
  }

  /** What each step takes off is the front of what it was given. */
  lemma TakeSplits(s: string, c: char)
    ensures s == Flag(TakeChar(s, c).0, c) + TakeChar(s, c).1
    ensures IsOptionalSeparator(TakeSeparator(s).0)
    ensures s == TakeSeparator(s).0 + TakeSeparator(s).1
    ensures TakeThreeDigits(s).Some? ==>
      var (d, t) := TakeThreeDigits(s).value; |d| == 3 && AllDigits(d) && s == d + t
  {
    if |s| >= 3 {
      assert s == s[..3] + s[3..];
    }
  }

  /** The left to right pass over the text. */
  function Parse(s: string): Option<Phone> {
    var plus := TakeChar(s, '+');
    var open := TakeChar(plus.1, '(');
    var area := TakeThreeDigits(open.1);
    if area.None? then None
    else
      var close := TakeChar(area.value.1, ')');
      var sep1 := TakeSeparator(close.1);
      var exchange := TakeThreeDigits(sep1.1);
      if exchange.None? then None
      else
        var sep2 := TakeSeparator(exchange.value.1);
        var line := sep2.1;
        if 4 <= |line| <= 6 && AllDigits(line)
        then Some(Phone(plus.0, open.0, area.value.0, close.0, sep1.0, exchange.value.0, sep2.0, line))
        else None
  }

  /** `re.test(s)` for the phone pattern. */
  predicate IsValidPhone(s: string) {
    Parse(s).Some?
  }

  /** Whatever the pass accepts is well formed and is written exactly as `s`. */
  lemma ParseSound(s: string)
    requires Parse(s).Some?
    ensures WellFormed(Parse(s).value) && Render(Parse(s).value) == s
  {
    var plus := TakeChar(s, '+');
    TakeSplits(s, '+');
    var open := TakeChar(plus.1, '(');
    TakeSplits(plus.1, '(');
    var area := TakeThreeDigits(open.1);
    TakeSplits(open.1, ')');
    var close := TakeChar(area.value.1, ')');
    TakeSplits(area.value.1, ')');
    var sep1 := TakeSeparator(close.1);
    TakeSplits(close.1, ')');
    var exchange := TakeThreeDigits(sep1.1);
    TakeSplits(sep1.1, ')');
    var sep2 := TakeSeparator(exchange.value.1);
    TakeSplits(exchange.value.1, ')');
    var p := Parse(s).value;
    assert p == Phone(plus.0, open.0, area.value.0, close.0, sep1.0, exchange.value.0, sep2.0, sep2.1);
  }

  /** A text starting with something other than `c` comes back whole. */
  lemma TakeCharOf(present: bool, c: char, t: string)
    requires t == [] || t[0] != c
    ensures TakeChar(Flag(present, c) + t, c) == (present, t)
  {
    if present {
      assert (Flag(present, c) + t)[1..] == t;
    } else {
      assert Flag(present, c) + t == t;
    }
  }

  /** An optional separator in front of a digit comes off exactly. */
  lemma TakeSeparatorOf(sep: string, t: string)
    requires IsOptionalSeparator(sep)
    requires |t| > 0 && IsDigit(t[0])
    ensures TakeSeparator(sep + t) == (sep, t)
  {
    if |sep| == 1 {
      assert (sep + t)[..1] == sep && (sep + t)[1..] == t;
    } else {
      assert sep + t == t;
    }
  }

  /** Three digits in front of anything come off exactly. */
  lemma TakeThreeDigitsOf(d: string, t: string)
    requires |d| == 3 && AllDigits(d)
    ensures TakeThreeDigits(d + t) == Some((d, t))
  {
    assert (d + t)[..3] == d && (d + t)[3..] == t;
  }

  /** Every well-formed phone number is accepted and read back as itself. */
  lemma ParseComplete(p: Phone)
    requires WellFormed(p)
    ensures Parse(Render(p)) == Some(p)
  {
    var t7 := p.sep2 + p.line;
    var t6 := p.exchange + t7;
    var t5 := p.sep1 + t6;
    var t4 := Flag(p.close, ')') + t5;
    var t3 := p.area + t4;
    var t2 := Flag(p.open, '(') + t3;
    TakeCharOf(p.plus, '+', t2);
    TakeCharOf(p.open, '(', t3);
    TakeThreeDigitsOf(p.area, t4);
    assert t5[0] == (if |p.sep1| == 1 then p.sep1[0] else p.exchange[0]);
    TakeCharOf(p.close, ')', t5);
    TakeSeparatorOf(p.sep1, t6);
    TakeThreeDigitsOf(p.exchange, t7);
    TakeSeparatorOf(p.sep2, p.line);
  }

  /** The pattern accepts exactly the texts of well-formed phone numbers. */
  lemma IsValidPhoneIffWellFormed(s: string)
    ensures IsValidPhone(s) <==> exists p :: WellFormed(p) && Render(p) == s
  {
    if IsValidPhone(s) {
      ParseSound(s);
    }
    if exists p :: WellFormed(p) && Render(p) == s {
      var p :| WellFormed(p) && Render(p) == s;
      ParseComplete(p);
    }
  }

  /** Number of decimal digits in `s`. */
  function DigitCount(s: string): (n: nat)
    ensures n <= |s|
  {
    if |s| == 0 then 0 else (if IsDigit(s[0]) then 1 else 0) + DigitCount(s[1..])
  }

  lemma {:induction false} DigitCountAppend(a: string, b: string)
    ensures DigitCount(a + b) == DigitCount(a) + DigitCount(b)
    decreases |a|
  {
    if |a| > 0 {
      assert (a + b)[0] == a[0];
      assert (a + b)[1..] == a[1..] + b;
      DigitCountAppend(a[1..], b);
    } else {
      assert a + b == b;
    }
  }

  /** Flags and separators hold no digit. */
  lemma DigitCountOfPunctuation(s: string)
    requires |s| <= 1
    requires forall k :: 0 <= k < |s| ==> !IsDigit(s[k])
    ensures DigitCount(s) == 0
  {
    if |s| == 1 {
      assert s[1..] == [];
    }
  }

  lemma {:induction false} DigitCountAllDigits(s: string)
    requires AllDigits(s)
    ensures DigitCount(s) == |s|
    decreases |s|
  {
    if |s| > 0 {
      DigitCountAllDigits(s[1..]);
    }
  }

  /** The digits of a well-formed number are those of its three groups. */
  lemma RenderDigitCount(p: Phone)
    requires WellFormed(p)
    ensures DigitCount(Render(p)) == 6 + |p.line|
  {
    DigitCountAllDigits(p.area);
    DigitCountAllDigits(p.exchange);
    DigitCountAllDigits(p.line);
    var f1, f2, f3 := Flag(p.plus, '+'), Flag(p.open, '('), Flag(p.close, ')');
    DigitCountOfPunctuation(f1);
    DigitCountOfPunctuation(f2);
    DigitCountOfPunctuation(f3);
    DigitCountOfPunctuation(p.sep1);
    DigitCountOfPunctuation(p.sep2);
    var t7 := p.sep2 + p.line;
    var t6 := p.exchange + t7;
    var t5 := p.sep1 + t6;
    var t4 := f3 + t5;
    var t3 := p.area + t4;
    var t2 := f2 + t3;
    DigitCountAppend(p.sep2, p.line);
    DigitCountAppend(p.exchange, t7);
    DigitCountAppend(p.sep1, t6);
    DigitCountAppend(f3, t5);
    DigitCountAppend(p.area, t4);
    DigitCountAppend(f2, t3);
    DigitCountAppend(f1, t2);
  }

  /** An accepted phone number has between 10 and 12 digits. */
  lemma ValidPhoneDigits(s: string)
    requires IsValidPhone(s)
    ensures 10 <= DigitCount(s) <= 12
  {
    ParseSound(s);
    RenderDigitCount(Parse(s).value);
  }
}
