/** Python's `str.isspace`, decimal formatting and text-mode reading, as far as the model needs them. */
module Text {

  predicate IsSpace(c: char) {
    var n := c as int;
    || 0x09 <= n <= 0x0D || 0x1C <= n <= 0x20 || n == 0x85 || n == 0xA0 || n == 0x1680
    || 0x2000 <= n <= 0x200A || n == 0x2028 || n == 0x2029 || n == 0x202F || n == 0x205F || n == 0x3000
  }

  function Spaces(): string {
    "\t\n\U{0B}\U{0C}\r\U{1C}\U{1D}\U{1E}\U{1F} \U{85}\U{A0}\U{1680}"
    + "\U{2000}\U{2001}\U{2002}\U{2003}\U{2004}\U{2005}\U{2006}\U{2007}\U{2008}\U{2009}\U{200A}"
    + "\U{2028}\U{2029}\U{202F}\U{205F}\U{3000}"
  }

  /** The 29 white-space characters, one by one. */
  lemma SpaceChars(c: char)
    ensures IsSpace(c) <==> c in Spaces()
  {}

  /** `not s.strip()` */
  predicate Blank(s: string) { forall i | 0 <= i < |s| :: IsSpace(s[i]) }

  function Decimal(n: int): string
    decreases if n < 0 then 1 else 0, n
  {
    if n < 0 then "-" + Decimal(-n)
    else if n < 10 then [('0' as int + n) as char]
    else Decimal(n / 10) + [('0' as int + n % 10) as char]
  }

  /** The number a row of digits stands for. */
  function Reading(digits: string): int {
    if digits == "" then 0 else 10 * Reading(digits[..|digits| - 1]) + (digits[|digits| - 1] as int - '0' as int)
  }

  /** The digits of a number read back as it. */
  lemma {:induction false} DecimalReads(n: nat)
    ensures Decimal(n) != "" && Reading(Decimal(n)) == n
    ensures forall i | 0 <= i < |Decimal(n)| :: '0' <= Decimal(n)[i] <= '9'
    decreases n
  {
    var s := Decimal(n);
    if n >= 10 {
      DecimalReads(n / 10);
      assert s[..|s| - 1] == Decimal(n / 10);
    } else {
      assert s[..0] == "" && Reading("") == 0;
    }
  }

  /** Reading a file in text mode: `\r\n` and `\r` become `\n`. */
  function Translate(s: string): string
    decreases |s|
  {
    if s == "" then ""
    else if s[0] == '\r' then "\n" + Translate(if |s| > 1 && s[1] == '\n' then s[2..] else s[1..])
    else [s[0]] + Translate(s[1..])
  }

  lemma {:induction false} TranslateClean(s: string)
    ensures '\r' !in Translate(s)
    decreases |s|
  {
    if s != "" { TranslateClean(if s[0] == '\r' && |s| > 1 && s[1] == '\n' then s[2..] else s[1..]); }
  }

  lemma {:induction false} TranslatePrefix(a: string, b: string)
    requires '\r' !in a
    ensures Translate(a + b) == a + Translate(b)
    decreases |a|
  {
    if a == "" {
      assert a + b == b;
    } else {
      assert (a + b)[1..] == a[1..] + b && a[0] in a;
      TranslatePrefix(a[1..], b);
    }
  }

  lemma TranslateSame(s: string)
    requires '\r' !in s
    ensures Translate(s) == s
  {
    TranslatePrefix(s, "");
    assert s + "" == s;
  }

  /** A line break after text that does not end in a carriage return stays one of its own. */
  lemma {:induction false} TranslateBreak(s: string)
    requires s != "" && s[|s| - 1] != '\r'
    ensures Translate(s + "\n") == Translate(s) + "\n"
    ensures Translate(s) != "" && Translate(s)[|Translate(s)| - 1] == s[|s| - 1]
    decreases |s|
  {
    var n := if s[0] == '\r' && |s| > 1 && s[1] == '\n' then 2 else 1;
    assert (s + "\n")[n..] == s[n..] + "\n";
    if s[n..] == "" {
      assert Translate("\n") == "\n" + Translate("\n"[1..]) == "\n";
      assert s[n..] + "\n" == "\n" && Translate(s[n..]) == "";
    } else {
      TranslateBreak(s[n..]);
    }
  }

  /** A carriage return with its line feed is one line break, and so is one alone. */
  lemma TranslatePair(a: string, b: string)
    requires '\r' !in a
    ensures Translate(a + "\r\n" + b) == a + "\n" + Translate(b)
    ensures b == "" || b[0] != '\n' ==> Translate(a + "\r" + b) == a + "\n" + Translate(b)
  {
    TranslateReturn(b);
    hide Translate;
    TranslatePrefix(a, "\r\n" + b);
    TranslatePrefix(a, "\r" + b);
    assert a + "\r\n" + b == a + ("\r\n" + b) && a + "\r" + b == a + ("\r" + b);
    assert a + ("\n" + Translate(b)) == a + "\n" + Translate(b);
  }

  lemma TranslateReturn(b: string)
    ensures Translate("\r\n" + b) == "\n" + Translate(b)
    ensures b == "" || b[0] != '\n' ==> Translate("\r" + b) == "\n" + Translate(b)
  {
    assert ("\r\n" + b)[2..] == b && ("\r" + b)[1..] == b;
  }
}
