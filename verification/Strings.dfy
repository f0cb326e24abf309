/** Strings in code-point order, sorted enumeration of key sets, and decimal and escaped text. */
module Strings {
  import opened Prelude

  // ---- lexicographic order by code point, as sorted() and sort_keys use it ----

  predicate Less(a: string, b: string) {
    if b == "" then false
    else if a == "" then true
    else a[0] < b[0] || (a[0] == b[0] && Less(a[1..], b[1..]))
  }

  lemma {:induction false} LessTotal(a: string, b: string)
    ensures a == b || Less(a, b) || Less(b, a)
    ensures !(Less(a, b) && Less(b, a))
    ensures !Less(a, a)
  {
    if a != "" {
      LessTotal(a[1..], a[1..]);
      if b != "" {
        LessTotal(a[1..], b[1..]);
        if a[0] == b[0] && a[1..] == b[1..] {
          assert a == [a[0]] + a[1..] == b;
        }
      }
    }
  }

  lemma {:induction false} LessTransitive(a: string, b: string, c: string)
    requires Less(a, b) && Less(b, c)
    ensures Less(a, c)
  {
    if a != "" && a[0] == b[0] == c[0] {
      LessTransitive(a[1..], b[1..], c[1..]);
    }
  }

  predicate IsLeast(s: set<string>, x: string) {
    x in s && forall y | y in s && y != x :: Less(x, y)
  }

  lemma {:induction false} LeastExists(s: set<string>)
    requires s != {}
    ensures exists x :: IsLeast(s, x)
  {
    var x :| x in s;
    if s == {x} {
      assert IsLeast(s, x);
    } else {
      LeastExists(s - {x});
      var y :| IsLeast(s - {x}, y);
      LessTotal(x, y);
      if Less(y, x) {
        assert IsLeast(s, y);
      } else {
        forall z | z in s && z != x ensures Less(x, z) {
          if z != y {
            LessTransitive(x, y, z);
          }
        }
        assert IsLeast(s, x);
      }
    }
  }

  function Least(s: set<string>): (x: string)
    requires s != {}
    ensures IsLeast(s, x)
  {
    LeastExists(s);
    assert forall x, y | IsLeast(s, x) && IsLeast(s, y) :: x == y by {
      forall x, y | IsLeast(s, x) && IsLeast(s, y) ensures x == y {
        LessTotal(x, y);
      }
    }
    var x :| IsLeast(s, x);
    x
  }

  predicate StrictlyIncreasing(names: seq<string>) {
    forall i, j | 0 <= i < j < |names| :: Less(names[i], names[j])
  }

  /** `sorted(s)` for a set of strings. */
  function Sorted(s: set<string>): (r: seq<string>)
    ensures forall x :: x in r <==> x in s
    ensures StrictlyIncreasing(r)
  {
    if s == {} then []
    else
      var x := Least(s);
      [x] + Sorted(s - {x})
  }

  /** A list equals the sorted list of its own elements exactly when it is strictly increasing. */
  lemma {:induction false} SortedOfIncreasing(names: seq<string>)
    ensures names == Sorted(set n | n in names) <==> StrictlyIncreasing(names)
  {
    var s := set n | n in names;
    if StrictlyIncreasing(names) && names != [] {
      var rest := names[1..];
      forall n | n in names && n != names[0] ensures Less(names[0], n) {
      }
      assert names[0] in s;
      LessTotal(names[0], Least(s));
      assert Least(s) == names[0];
      forall n | n in rest ensures n != names[0] {
        LessTotal(n, n);
      }
      assert names == [names[0]] + rest;
      assert (set n | n in rest) == s - {names[0]};
      SortedOfIncreasing(rest);
    }
  }

  // ---- decimal integers ----

  predicate Digit(c: char) { '0' <= c <= '9' }

  function DigitChar(d: nat): (c: char)
    requires d < 10
    ensures Digit(c) && c as int - '0' as int == d
  {
    ('0' as int + d) as char
  }

  predicate AllDigits(s: string) {
    forall i | 0 <= i < |s| :: Digit(s[i])
  }

  function NatText(n: nat): (s: string)
    ensures |s| > 0 && AllDigits(s)
  {
    if n < 10 then [DigitChar(n)] else NatText(n / 10) + [DigitChar(n % 10)]
  }

  function NatValue(s: string): nat
    requires AllDigits(s)
  {
    if s == "" then 0
    else
      assert Digit(Last(s));
      10 * NatValue(Front(s)) + (Last(s) as int - '0' as int)
  }

  lemma {:induction false} NatRoundTrip(n: nat)
    ensures NatValue(NatText(n)) == n
  {
    if n < 10 {
      assert NatText(n) == [DigitChar(n)];
      assert Front(NatText(n)) == "";
    } else {
      NatRoundTrip(n / 10);
      assert Front(NatText(n)) == NatText(n / 10);
    }
  }

  function IntText(n: int): string {
    if n < 0 then "-" + NatText(-n) else NatText(n)
  }

  predicate IntLexeme(s: string) {
    var digits := if |s| > 0 && s[0] == '-' then s[1..] else s;
    |digits| > 0 && AllDigits(digits)
  }

  function IntValue(s: string): int
    requires IntLexeme(s)
  {
    if s[0] == '-' then -(NatValue(s[1..]) as int) else NatValue(s)
  }

  lemma IntRoundTrip(n: int)
    ensures IntLexeme(IntText(n)) && IntValue(IntText(n)) == n
  {
    if n < 0 {
      NatRoundTrip(-n);
      assert IntText(n)[1..] == NatText(-n);
    } else {
      NatRoundTrip(n);
    }
  }

  // ---- string escapes (section 7 of RFC 8259), as json.dumps(ensure_ascii=False) writes them ----

  function HexChar(d: nat): char
    requires d < 16
  {
    if d < 10 then DigitChar(d) else ('a' as int + d - 10) as char
  }

  function HexValue(c: char): Option<nat> {
    if '0' <= c <= '9' then Some(c as int - '0' as int)
    else if 'a' <= c <= 'f' then Some(c as int - 'a' as int + 10)
    else if 'A' <= c <= 'F' then Some(c as int - 'A' as int + 10)
    else None
  }

  const BACKSPACE: char := '\U{8}'
  const FORMFEED: char := '\U{C}'

  function EscapeChar(c: char): string {
    if c == '"' then "\\\""
    else if c == '\\' then "\\\\"
    else if c == '\n' then "\\n"
    else if c == '\r' then "\\r"
    else if c == '\t' then "\\t"
    else if c == BACKSPACE then "\\b"
    else if c == FORMFEED then "\\f"
    else if c as int < 32 then "\\u00" + [HexChar(c as int / 16), HexChar(c as int % 16)]
    else [c]
  }

  function Escape(s: string): string {
    if s == "" then "" else EscapeChar(s[0]) + Escape(s[1..])
  }

  function SimpleEscape(c: char): Option<char> {
    if c == '"' || c == '\\' || c == '/' then Some(c)
    else if c == 'n' then Some('\n')
    else if c == 'r' then Some('\r')
    else if c == 't' then Some('\t')
    else if c == 'b' then Some(BACKSPACE)
    else if c == 'f' then Some(FORMFEED)
    else None
  }

  function HexQuad(s: string): Option<char>
    requires |s| == 4
  {
    var a, b, c, d := HexValue(s[0]), HexValue(s[1]), HexValue(s[2]), HexValue(s[3]);
    if a.None? || b.None? || c.None? || d.None? then None
    else
      var code := a.value * 4096 + b.value * 256 + c.value * 16 + d.value;
      if code < 0xD800 || 0xE000 <= code < 0x10000 then Some(code as char) else None
  }

  /** One possibly escaped character, and what follows it. */
  function UnescapeChar(s: string): (r: Option<(char, string)>)
    requires s != ""
    ensures r.Some? ==> |r.value.1| < |s|
  {
    if s[0] != '\\' then
      if s[0] == '"' || s[0] as int < 32 then None else Some((s[0], s[1..]))
    else if |s| >= 2 && SimpleEscape(s[1]).Some? then Some((SimpleEscape(s[1]).value, s[2..]))
    else if |s| >= 6 && s[1] == 'u' && HexQuad(s[2..6]).Some? then Some((HexQuad(s[2..6]).value, s[6..]))
    else None
  }

  /** The string up to its closing quote, and what follows the quote. */
  function ParseString(s: string): (r: Option<(string, string)>)
    ensures r.Some? ==> |r.value.1| < |s|
  {
    if s == "" then None
    else if s[0] == '"' then Some(("", s[1..]))
    else
      var head := UnescapeChar(s);
      if head.None? then None
      else
        var tail := ParseString(head.value.1);
        if tail.None? then None else Some(([head.value.0] + tail.value.0, tail.value.1))
  }

  lemma UnescapeUndoesEscape(c: char, rest: string)
    ensures EscapeChar(c) != "" && EscapeChar(c)[0] != '"'
    ensures UnescapeChar(EscapeChar(c) + rest) == Some((c, rest))
  {
    var s := EscapeChar(c) + rest;
    if s[0] != '\\' {
      assert s[1..] == rest;
    } else if s[1] != 'u' {
      assert s[2..] == rest;
    } else {
      assert s[2..6] == "00" + [HexChar(c as int / 16), HexChar(c as int % 16)];
      assert s[6..] == rest;
    }
  }

  lemma {:induction false} ParseUndoesEscape(x: string, rest: string)
    ensures ParseString(Escape(x) + "\"" + rest) == Some((x, rest))
  {
    var s := Escape(x) + "\"" + rest;
    if x == "" {
      assert s == "\"" + rest;
    } else {
      var tail := Escape(x[1..]) + "\"" + rest;
      assert s == EscapeChar(x[0]) + tail;
      UnescapeUndoesEscape(x[0], tail);
      ParseUndoesEscape(x[1..], rest);
      assert [x[0]] + x[1..] == x;
    }
  }
}
