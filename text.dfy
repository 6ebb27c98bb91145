/** The few Python `str` operations the bots rely on: `lower`, `strip`, `in` (substring),
    `startswith`, `replace(pat, "")`, `split(sep, 1)`, `split()`, `str(int)` and `int(str)`. */
module Text {
  import opened Wrappers

  // ---------------------------------------------------------------------------
  // str.lower
  // ---------------------------------------------------------------------------

  /** Python's lower-casing of one character, for the Latin and the basic Cyrillic
      capitals (the two alphabets the bots' texts use). Other characters are kept. */
  function LowerChar(c: char): char
  {
    if 'A' <= c <= 'Z' then (c as int + 32) as char
    else if 'А' <= c <= 'Я' then (c as int + 32) as char
    else if 'Ѐ' <= c <= 'Џ' then (c as int + 80) as char
    else c
  }

  function Lower(s: string): (r: string)
    ensures |r| == |s|
    ensures forall i :: 0 <= i < |s| ==> r[i] == LowerChar(s[i])
  {
    seq(|s|, i requires 0 <= i < |s| => LowerChar(s[i]))
  }

  /** `a.lower() == b.lower()` */
  predicate EqualsIgnoreCase(a: string, b: string)
  {
    Lower(a) == Lower(b)
  }

  lemma LowerCharIdempotent(c: char)
    ensures LowerChar(LowerChar(c)) == LowerChar(c)
  {
  }

  /** Lower-casing twice is lower-casing once, so a lower-cased query is its own key. */
  lemma LowerIdempotent(s: string)
    ensures Lower(Lower(s)) == Lower(s)
  {
    forall i | 0 <= i < |s| ensures Lower(Lower(s))[i] == Lower(s)[i] {
      LowerCharIdempotent(s[i]);
    }
  }

  // ---------------------------------------------------------------------------
  // str.strip, str.split()
  // ---------------------------------------------------------------------------

  /** Python's `str.isspace` for one character. */
  predicate IsSpace(c: char)
  {
    var k := c as int;
    (0x09 <= k <= 0x0D) || (0x1C <= k <= 0x20) || k == 0x85 || k == 0xA0 || k == 0x1680
    || (0x2000 <= k <= 0x200A) || k == 0x2028 || k == 0x2029 || k == 0x202F || k == 0x205F
    || k == 0x3000
  }

  predicate AllSpace(s: string)
  {
    forall i :: 0 <= i < |s| ==> IsSpace(s[i])
  }

  /** `s.lstrip()` */
  function LStrip(s: string): (r: string)
    ensures |r| <= |s|
  {
    if |s| > 0 && IsSpace(s[0]) then LStrip(s[1..]) else s
  }

  /** What `lstrip` removes is whitespace, and what it keeps is a suffix that does not
      start with whitespace. */
  lemma {:induction false} LStripSpec(s: string)
    ensures LStrip(s) == s[|s| - |LStrip(s)|..]
    ensures LStrip(s) == [] || !IsSpace(LStrip(s)[0])
    ensures AllSpace(s[..|s| - |LStrip(s)|])
    decreases |s|
  {
    if |s| > 0 && IsSpace(s[0]) {
      var r := LStrip(s[1..]);
      LStripSpec(s[1..]);
      assert s[..|s| - |r|] == [s[0]] + s[1..][..|s[1..]| - |r|];
    }
  }

  /** `s.rstrip()` */
  function RStrip(s: string): (r: string)
    ensures |r| <= |s|
  {
    if |s| > 0 && IsSpace(s[|s| - 1]) then RStrip(s[..|s| - 1]) else s
  }

  /** What `rstrip` removes is whitespace, and what it keeps is a prefix that does not
      end with whitespace. */
  lemma {:induction false} RStripSpec(s: string)
    ensures RStrip(s) == s[..|RStrip(s)|]
    ensures RStrip(s) == [] || !IsSpace(RStrip(s)[|RStrip(s)| - 1])
    ensures AllSpace(s[|RStrip(s)|..])
    decreases |s|
  {
    if |s| > 0 && IsSpace(s[|s| - 1]) {
      var r := RStrip(s[..|s| - 1]);
      RStripSpec(s[..|s| - 1]);
      assert s[|r|..] == s[..|s| - 1][|r|..] + [s[|s| - 1]];
    }
  }

  /** `s.strip()`: the whitespace at both ends removed. */
  function Strip(s: string): string
  {
    RStrip(LStrip(s))
  }

  /** `s.strip()` is empty exactly when `s` is all whitespace. */
  lemma StripEmptyIff(s: string)
    ensures Strip(s) == [] <==> AllSpace(s)
  {
    var l := LStrip(s);
    LStripSpec(s);
    RStripSpec(l);
    if Strip(s) == [] {
      assert AllSpace(l[0..]);
      assert l == [];
      assert s[..|s|] == s;
    }
  }

  /** The stripped text has no whitespace at either end. */
  lemma StripEnds(s: string)
    ensures Strip(s) == [] || (!IsSpace(Strip(s)[0]) && !IsSpace(Strip(s)[|Strip(s)| - 1]))
  {
    var l := LStrip(s);
    var r := RStrip(l);
    LStripSpec(s);
    RStripSpec(l);
    if r != [] {
      assert r[0] == l[0];
    }
  }

  /** The first whitespace-delimited word of a text that does not start with whitespace:
      `s.split()[0]`. */
  function FirstWord(s: string): (w: string)
    ensures |w| <= |s|
  {
    if s == [] || IsSpace(s[0]) then [] else [s[0]] + FirstWord(s[1..])
  }

  /** The first word is a prefix free of whitespace, followed by whitespace or the end. */
  lemma {:induction false} FirstWordSpec(s: string)
    ensures FirstWord(s) <= s
    ensures forall i :: 0 <= i < |FirstWord(s)| ==> !IsSpace(FirstWord(s)[i])
    ensures |FirstWord(s)| == |s| || IsSpace(s[|FirstWord(s)|])
    decreases |s|
  {
    if s != [] && !IsSpace(s[0]) {
      FirstWordSpec(s[1..]);
    }
  }

  /** The part of `s` before the first `c`, `s.split(c)[0]`. */
  function Before(s: string, c: char): (w: string)
    ensures |w| <= |s|
  {
    if s == [] || s[0] == c then [] else [s[0]] + Before(s[1..], c)
  }

  /** What precedes the first `c` is a prefix without `c`, followed by `c` or the end. */
  lemma {:induction false} BeforeSpec(s: string, c: char)
    ensures Before(s, c) <= s
    ensures c !in Before(s, c)
    ensures |Before(s, c)| == |s| || s[|Before(s, c)|] == c
    decreases |s|
  {
    if s != [] && s[0] != c {
      BeforeSpec(s[1..], c);
    }
  }

  /** A text with no whitespace at either end is its own strip. */
  lemma StripTrimmed(s: string)
    requires s == [] || (!IsSpace(s[0]) && !IsSpace(s[|s| - 1]))
    ensures Strip(s) == s
  {
    assert LStrip(s) == s;
  }

  /** Leading whitespace is all `lstrip` looks at. */
  lemma {:induction false} LStripSkips(lead: string, x: string)
    requires AllSpace(lead)
    ensures LStrip(lead + x) == LStrip(x)
    decreases |lead|
  {
    if lead != [] {
      assert (lead + x)[0] == lead[0] && IsSpace(lead[0]);
      assert (lead + x)[1..] == lead[1..] + x;
      assert AllSpace(lead[1..]) by {
        forall i | 0 <= i < |lead[1..]| ensures IsSpace(lead[1..][i]) {
          assert lead[1..][i] == lead[i + 1];
        }
      }
      LStripSkips(lead[1..], x);
    } else {
      assert lead + x == x;
    }
  }

  /** Trailing whitespace is all `rstrip` looks at. */
  lemma {:induction false} RStripSkips(x: string, trail: string)
    requires AllSpace(trail)
    ensures RStrip(x + trail) == RStrip(x)
    decreases |trail|
  {
    if trail != [] {
      var t := trail[..|trail| - 1];
      assert (x + trail)[|x + trail| - 1] == trail[|trail| - 1] && IsSpace(trail[|trail| - 1]);
      assert (x + trail)[..|x + trail| - 1] == x + t;
      assert AllSpace(t) by {
        forall i | 0 <= i < |t| ensures IsSpace(t[i]) {
          assert t[i] == trail[i];
        }
      }
      RStripSkips(x, t);
    } else {
      assert x + trail == x;
    }
  }

  /** A text with whitespace-free ends, padded with whitespace, strips back to itself. */
  lemma StripPadded(lead: string, s: string, trail: string)
    requires AllSpace(lead) && AllSpace(trail)
    requires s != [] && !IsSpace(s[0]) && !IsSpace(s[|s| - 1])
    ensures Strip(lead + s + trail) == s
  {
    assert lead + s + trail == lead + (s + trail);
    LStripSkips(lead, s + trail);
    assert (s + trail)[0] == s[0];
    assert LStrip(s + trail) == s + trail;
    RStripSkips(s, trail);
  }

  /** `s.strip()` is a contiguous piece of `s`. */
  lemma StripSlice(s: string) returns (a: nat, b: nat)
    ensures a <= b <= |s| && Strip(s) == s[a..b]
  {
    var l := LStrip(s);
    LStripSpec(s);
    RStripSpec(l);
    a := |s| - |l|;
    b := a + |RStrip(l)|;
    assert l == s[a..];
    assert s[a..][..|RStrip(l)|] == s[a..b];
  }

  // ---------------------------------------------------------------------------
  // substring search, startswith, replace(pat, ""), split(sep, 1)
  // ---------------------------------------------------------------------------

  /** Python's `q in s` for strings. */
  predicate Contains(s: string, q: string)
    decreases |s|
  {
    q <= s || (|s| > 0 && Contains(s[1..], q))
  }

  /** `q` occurs in `s` at position `i`. */
  predicate OccursAt(s: string, q: string, i: int)
  {
    0 <= i && i + |q| <= |s| && s[i..i + |q|] == q
  }

  lemma {:induction false} OccursThenContains(s: string, q: string, i: int)
    requires OccursAt(s, q, i)
    ensures Contains(s, q)
    decreases i
  {
    if i == 0 {
      assert s[..|q|] == s[0..0 + |q|];
    } else {
      assert s[1..][i - 1..i - 1 + |q|] == s[i..i + |q|];
      OccursThenContains(s[1..], q, i - 1);
    }
  }

  lemma {:induction false} ContainsThenOccurs(s: string, q: string) returns (i: int)
    requires Contains(s, q)
    ensures OccursAt(s, q, i)
    decreases |s|
  {
    if q <= s {
      i := 0;
      assert s[0..0 + |q|] == q;
    } else {
      var j := ContainsThenOccurs(s[1..], q);
      i := j + 1;
      assert s[i..i + |q|] == s[1..][j..j + |q|];
    }
  }

  /** `q in s` holds exactly when `q` occurs at some position of `s`. */
  lemma ContainsIff(s: string, q: string)
    ensures Contains(s, q) <==> exists i :: OccursAt(s, q, i)
  {
    if Contains(s, q) {
      var i := ContainsThenOccurs(s, q);
    }
    forall i | OccursAt(s, q, i) ensures Contains(s, q) {
      OccursThenContains(s, q, i);
    }
  }

  lemma ContainsEmpty(s: string)
    ensures Contains(s, "")
  {
  }

  /** A text none of whose characters is `q`'s first one does not contain `q`. */
  lemma {:induction false} ContainsNeedsFirst(s: string, q: string)
    requires q != []
    requires forall i :: 0 <= i < |s| ==> s[i] != q[0]
    ensures !Contains(s, q)
    decreases |s|
  {
    if s != [] {
      assert !(q <= s) by { assert s[0] != q[0]; }
      forall i | 0 <= i < |s[1..]| ensures s[1..][i] != q[0] {
        assert s[1..][i] == s[i + 1];
      }
      ContainsNeedsFirst(s[1..], q);
    }
  }

  /** `s.replace(pat, "")`: every occurrence of `pat`, found left to right without
      overlaps, removed. */
  function RemoveAll(s: string, pat: string): string
    requires pat != []
    decreases |s|
  {
    if pat <= s then RemoveAll(s[|pat|..], pat)
    else if s == [] then []
    else [s[0]] + RemoveAll(s[1..], pat)
  }

  /** A text in which `pat` does not occur is left unchanged by `replace(pat, "")`. */
  lemma {:induction false} RemoveAllAbsent(s: string, pat: string)
    requires pat != []
    requires !Contains(s, pat)
    ensures RemoveAll(s, pat) == s
    decreases |s|
  {
    if s != [] {
      RemoveAllAbsent(s[1..], pat);
    }
  }

  /** `s.split(sep, 1)[1]`: what follows the first occurrence of `sep`, or `None`
      where Python raises IndexError because `sep` does not occur. */
  function AfterFirst(s: string, sep: string): (r: Option<string>)
    requires sep != []
    decreases |s|
  {
    if sep <= s then Some(s[|sep|..])
    else if s == [] then None
    else AfterFirst(s[1..], sep)
  }

  /** `split(sep, 1)[1]` exists exactly when `sep in s`. */
  lemma {:induction false} AfterFirstDefined(s: string, sep: string)
    requires sep != []
    ensures AfterFirst(s, sep).Some? <==> Contains(s, sep)
    decreases |s|
  {
    if !(sep <= s) && s != [] {
      AfterFirstDefined(s[1..], sep);
    }
  }

  // ---------------------------------------------------------------------------
  // str(int) and int(str)
  // ---------------------------------------------------------------------------

  function DigitChar(d: nat): char
    requires d < 10
  {
    ['0', '1', '2', '3', '4', '5', '6', '7', '8', '9'][d]
  }

  predicate IsDigit(c: char)
  {
    '0' <= c <= '9'
  }

  function DigitValue(c: char): nat
    requires IsDigit(c)
  {
    c as int - '0' as int
  }

  /** `str(n)` for a natural number: its decimal digits, no leading zero. */
  function NatToString(n: nat): (s: string)
    ensures |s| > 0 && forall i :: 0 <= i < |s| ==> IsDigit(s[i])
    decreases n
  {
    if n < 10 then [DigitChar(n)] else NatToString(n / 10) + [DigitChar(n % 10)]
  }

  /** `str(i)` for any Python int. */
  function IntToString(i: int): string
  {
    if i < 0 then "-" + NatToString(-i) else NatToString(i)
  }

  predicate AllDigits(s: string)
  {
    forall i :: 0 <= i < |s| ==> IsDigit(s[i])
  }

  /** The value of a run of decimal digits. */
  function DigitsValue(s: string): nat
    requires AllDigits(s)
    decreases |s|
  {
    if s == [] then 0 else DigitsValue(s[..|s| - 1]) * 10 + DigitValue(s[|s| - 1])
  }

  /** Python's `int(s)`: surrounding whitespace allowed, an optional sign, then at least
      one ASCII digit; anything else raises ValueError, modelled as `None`. */
  function ParseInt(s: string): Option<int>
  {
    var t := Strip(s);
    if t != [] && (t[0] == '-' || t[0] == '+') then
      var body := t[1..];
      if body != [] && AllDigits(body) then
        Some(if t[0] == '-' then -(DigitsValue(body) as int) else DigitsValue(body) as int)
      else None
    else if t != [] && AllDigits(t) then Some(DigitsValue(t) as int)
    else None
  }

  predicate NoDigits(s: string)
  {
    forall i :: 0 <= i < |s| ==> !IsDigit(s[i])
  }

  /** `int(s)` raises on a text without a digit. */
  lemma ParseIntNeedsDigit(s: string)
    requires NoDigits(s)
    ensures ParseInt(s).None?
  {
    var a, b := StripSlice(s);
    var t := Strip(s);
    if t != [] && (t[0] == '-' || t[0] == '+') {
      if t[1..] != [] {
        assert t[1..][0] == s[a + 1];
      }
    } else if t != [] {
      assert t[0] == s[a];
    }
  }

  lemma {:induction false} DigitsOfNat(n: nat)
    ensures DigitsValue(NatToString(n)) == n
    decreases n
  {
    var s := NatToString(n);
    if n < 10 {
      assert s[..|s| - 1] == [];
    } else {
      assert s[..|s| - 1] == NatToString(n / 10);
      DigitsOfNat(n / 10);
    }
  }

  /** `str(i)` has no surrounding whitespace. */
  lemma IntToStringTrimmed(i: int)
    ensures Strip(IntToString(i)) == IntToString(i)
  {
    var s := IntToString(i);
    var digits := NatToString(if i < 0 then -i else i);
    assert s[|s| - 1] == digits[|digits| - 1];
    StripTrimmed(s);
  }

  /** `int(str(i)) == i` for every int. */
  lemma IntRoundTrip(i: int)
    ensures ParseInt(IntToString(i)) == Some(i)
  {
    var s := IntToString(i);
    var digits := NatToString(if i < 0 then -i else i);
    DigitsOfNat(if i < 0 then -i else i);
    assert s[0] == '-' || IsDigit(s[0]);
    assert LStrip(s) == s;
    assert RStrip(s) == s;
    if i < 0 {
      assert s[1..] == digits;
    }
  }

  /** Distinct ints print differently, so `str(id)` keys never collide. */
  lemma IntToStringInjective(a: int, b: int)
    requires IntToString(a) == IntToString(b)
    ensures a == b
  {
    IntRoundTrip(a);
    IntRoundTrip(b);
  }

  // ---------------------------------------------------------------------------
  // f-string rendering of optional values
  // ---------------------------------------------------------------------------

  /** `f"{x}"` for a text that may be None. */
  function ShowText(o: Option<string>): string
  {
    if o.Some? then o.value else "None"
  }

  /** `f"{x}"` / `str(x)` for an integer that may be None. */
  function ShowInt(o: Option<int>): string
  {
    if o.Some? then IntToString(o.value) else "None"
  }
}
