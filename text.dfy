/** The JavaScript string operations the components use: `trim`, `toLowerCase`,
    `includes`, `Number.prototype.toString`, `Array.prototype.join` and `split`. */
module Text {

  /** ECMAScript WhiteSpace and LineTerminator code points, the characters `trim` removes. */
  predicate IsJsWhiteSpace(c: char)
  {
    var n := c as int;
    n == 0x09 || n == 0x0A || n == 0x0B || n == 0x0C || n == 0x0D || n == 0x20 ||
    n == 0xA0 || n == 0x1680 || (0x2000 <= n <= 0x200A) || n == 0x2028 ||
    n == 0x2029 || n == 0x202F || n == 0x205F || n == 0x3000 || n == 0xFEFF
  }

  predicate AllWhiteSpace(s: string)
  {
    forall i :: 0 <= i < |s| ==> IsJsWhiteSpace(s[i])
  }

  /** `s` with its leading white space removed. */
  function TrimStart(s: string): (r: string)
    ensures |r| <= |s| && r == s[|s| - |r|..]
    ensures AllWhiteSpace(s[..|s| - |r|])
    ensures r != [] ==> !IsJsWhiteSpace(r[0])
  {
    if s != [] && IsJsWhiteSpace(s[0]) then TrimStart(s[1..]) else s
  }

  /** `s` with its trailing white space removed. */
  function TrimEnd(s: string): (r: string)
    ensures |r| <= |s| && r == s[..|r|]
    ensures AllWhiteSpace(s[|r|..])
    ensures r != [] ==> !IsJsWhiteSpace(r[|r| - 1])
  {
    if s != [] && IsJsWhiteSpace(s[|s| - 1]) then TrimEnd(s[..|s| - 1]) else s
  }

  /** The length of the white space `trim` removes from the front of `s`. */
  function LeadingWhiteSpace(s: string): nat
  {
    |s| - |TrimStart(s)|
  }

  /** `s.trim()`: `s` without its leading and its trailing white space. */
  function Trim(s: string): string
  {
    TrimEnd(TrimStart(s))
  }

  /** The trimmed string `r` is the slice of `s` between a white-space prefix of length `l`
      and a white-space suffix, and it neither starts nor ends with white space. */
  lemma TrimSpec(s: string, r: string, l: nat)
    requires r == Trim(s) && l == LeadingWhiteSpace(s)
    ensures l + |r| <= |s| && r == s[l..l + |r|]
    ensures AllWhiteSpace(s[..l]) && AllWhiteSpace(s[l + |r|..])
    ensures r != [] ==> !IsJsWhiteSpace(r[0]) && !IsJsWhiteSpace(r[|r| - 1])
  {
    var t := TrimStart(s);
    PrefixOfSuffix(s, l, t, r);
    assert r != [] ==> r[0] == t[0];
  }

  /** A prefix `r` of the suffix `t` of `s` that starts at `i` is the slice of `s` from `i`,
      and what follows it in `t` is what follows it in `s`. */
  lemma PrefixOfSuffix(s: string, i: nat, t: string, r: string)
    requires i <= |s| && t == s[i..] && |r| <= |t| && r == t[..|r|]
    ensures r == s[i..i + |r|] && s[i + |r|..] == t[|r|..]
  {
  }

  /** `!s.trim()`: the string is empty or consists of white space only. */
  predicate IsBlank(s: string)
  {
    Trim(s) == ""
  }

  /** A string of white space only loses all of it to `trimStart`. */
  lemma {:induction false} TrimStartAll(s: string)
    requires AllWhiteSpace(s)
    ensures TrimStart(s) == ""
  {
    if s != [] {
      assert forall k :: 0 <= k < |s| - 1 ==> s[1..][k] == s[k + 1];
      TrimStartAll(s[1..]);
    }
  }

  /** `trimEnd` keeps a string that starts with a character other than white space non-empty. */
  lemma {:induction false} TrimEndKeepsFirst(t: string)
    requires t != [] && !IsJsWhiteSpace(t[0])
    ensures TrimEnd(t) != []
  {
    if IsJsWhiteSpace(t[|t| - 1]) {
      assert t[..|t| - 1][0] == t[0];
      TrimEndKeepsFirst(t[..|t| - 1]);
    }
  }

  lemma BlankIffAllWhiteSpace(s: string)
    ensures IsBlank(s) <==> AllWhiteSpace(s)
  {
    var t := TrimStart(s);
    if t != [] {
      TrimEndKeepsFirst(t);
    }
    assert IsBlank(s) ==> t == [];
    assert s[..|s|] == s;
    if AllWhiteSpace(s) {
      TrimStartAll(s);
    }
  }

  /** Trimming is idempotent. */
  lemma TrimIdempotent(s: string)
    ensures Trim(Trim(s)) == Trim(s)
  {
    var r := Trim(s);
    TrimSpec(s, r, LeadingWhiteSpace(s));
    if r != [] {
      assert TrimStart(r) == r;
      assert TrimEnd(r) == r;
    }
  }

  /** The lower-case form of one character, for A-Z and the Latin-1 capitals (U+00C0-U+00DE
      except U+00D7); every other character is left as it is. */
  function LowerChar(c: char): char
  {
    var n := c as int;
    if 'A' <= c <= 'Z' || (0xC0 <= n <= 0xDE && n != 0xD7) then (n + 32) as char else c
  }

  /** `s.toLowerCase()`, character by character. */
  function ToLower(s: string): (r: string)
    ensures |r| == |s|
    ensures forall i :: 0 <= i < |s| ==> r[i] == LowerChar(s[i])
  {
    seq(|s|, i requires 0 <= i < |s| => LowerChar(s[i]))
  }

  lemma ToLowerIdempotent(s: string)
    ensures ToLower(ToLower(s)) == ToLower(s)
  {
  }

  lemma ToLowerAppend(a: string, b: string)
    ensures ToLower(a + b) == ToLower(a) + ToLower(b)
  {
  }

  predicate StartsWith(s: string, prefix: string)
  {
    |prefix| <= |s| && s[..|prefix|] == prefix
  }

  /** `needle` occurs in `hay` starting at position `k`. */
  predicate OccursAt(hay: string, needle: string, k: int)
  {
    0 <= k && k + |needle| <= |hay| && hay[k..k + |needle|] == needle
  }

  /** `hay.includes(needle)`: `needle` occurs in `hay` at some position. */
  function Includes(hay: string, needle: string): (b: bool)
    ensures b <==> exists k :: OccursAt(hay, needle, k)
  {
    if StartsWith(hay, needle) then
      assert OccursAt(hay, needle, 0);
      true
    else if hay == [] then
      false
    else
      OccurrencesInTail(hay, needle);
      Includes(hay[1..], needle)
  }

  /** Past a non-matching first position, the occurrences in `hay` are those in its tail. */
  lemma OccurrencesInTail(hay: string, needle: string)
    requires hay != [] && !StartsWith(hay, needle)
    ensures (exists k :: OccursAt(hay, needle, k)) <==> (exists k :: OccursAt(hay[1..], needle, k))
  {
    forall k | OccursAt(hay[1..], needle, k)
      ensures OccursAt(hay, needle, k + 1)
    {
      assert hay[k + 1..k + 1 + |needle|] == hay[1..][k..k + |needle|];
    }
    if |needle| <= |hay| {
      assert hay[..|needle|] == hay[0..|needle|];
    }
    forall k | OccursAt(hay, needle, k)
      ensures k >= 1 && OccursAt(hay[1..], needle, k - 1)
    {
      assert k >= 1;
      var a, b := hay[k..k + |needle|], hay[1..][k - 1..k - 1 + |needle|];
      assert forall i :: 0 <= i < |a| ==> a[i] == b[i];
    }
  }

  /** The empty string occurs in every string. */
  lemma IncludesEmpty(hay: string)
    ensures Includes(hay, "")
  {
  }

  function DigitChar(d: nat): char
    requires d < 10
  {
    ('0' as int + d) as char
  }

  predicate IsDigit(c: char)
  {
    '0' <= c <= '9'
  }

  /** The decimal form of a non-negative number, without leading zeros. */
  function NatToString(n: nat): (r: string)
    ensures |r| >= 1
    ensures forall i :: 0 <= i < |r| ==> IsDigit(r[i])
    ensures n < 10 <==> |r| == 1
  {
    if n < 10 then [DigitChar(n)] else NatToString(n / 10) + [DigitChar(n % 10)]
  }

  /** `n.toString()` for an integer `n`. */
  function IntToString(n: int): (r: string)
    ensures |r| >= 1
    ensures forall i :: 0 <= i < |r| ==> IsDigit(r[i]) || (i == 0 && r[i] == '-')
    ensures r[0] == '-' <==> n < 0
  {
    if n < 0 then "-" + NatToString(-n) else NatToString(n)
  }

  /** The value of a string of decimal digits. */
  function ParseNat(s: string): nat
  {
    if s == [] then 0
    else
      var last := s[|s| - 1] as int - '0' as int;
      ParseNat(s[..|s| - 1]) * 10 + (if 0 <= last then last else 0)
  }

  function ParseInt(s: string): int
  {
    if s != [] && s[0] == '-' then 0 - ParseNat(s[1..]) as int else ParseNat(s)
  }

  lemma {:induction false} ParseNatToString(n: nat)
    ensures ParseNat(NatToString(n)) == n
  {
    if n >= 10 {
      ParseNatToString(n / 10);
      var s := NatToString(n);
      assert s[..|s| - 1] == NatToString(n / 10);
    }
  }

  /** Decimal printing of integers is reversible, hence injective. */
  lemma ParseIntToString(n: int)
    ensures ParseInt(IntToString(n)) == n
  {
    if n < 0 {
      ParseNatToString(-n);
      assert IntToString(n)[1..] == NatToString(-n);
    } else {
      ParseNatToString(n);
    }
  }

  lemma IntToStringInjective(a: int, b: int)
    ensures IntToString(a) == IntToString(b) <==> a == b
  {
    if IntToString(a) == IntToString(b) {
      ParseIntToString(a);
      ParseIntToString(b);
    }
  }

  /** `parts.join(sep)`. */
  function Join(parts: seq<string>, sep: string): string
  {
    if |parts| == 0 then ""
    else if |parts| == 1 then parts[0]
    else parts[0] + sep + Join(parts[1..], sep)
  }

  lemma JoinFour(a: string, b: string, c: string, d: string, sep: string)
    ensures Join([a, b, c, d], sep) == a + sep + b + sep + c + sep + d
  {
    assert [a, b, c, d][1..] == [b, c, d];
    assert [b, c, d][1..] == [c, d];
    assert [c, d][1..] == [d];
    assert Join([c, d], sep) == c + sep + d;
    assert Join([b, c, d], sep) == b + sep + (c + sep + d);
    assert Join([a, b, c, d], sep) == a + sep + (b + sep + (c + sep + d));
  }

  /** `s.split(c)` for a one-character separator: the maximal pieces between occurrences of `c`. */
  function Split(s: string, c: char): (r: seq<string>)
    ensures |r| >= 1
  {
    if s == [] then [""]
    else if s[0] == c then [""] + Split(s[1..], c)
    else
      var t := Split(s[1..], c);
      [[s[0]] + t[0]] + t[1..]
  }

  lemma {:induction false} SplitWithout(s: string, c: char)
    requires c !in s
    ensures Split(s, c) == [s]
  {
    if s != [] {
      SplitWithout(s[1..], c);
      assert [s[0]] + s[1..] == s;
    }
  }

  lemma {:induction false} SplitAtFirst(a: string, c: char, b: string)
    requires c !in a
    ensures Split(a + [c] + b, c) == [a] + Split(b, c)
  {
    if a == [] {
      assert a + [c] + b == [c] + b;
      assert ([c] + b)[1..] == b;
    } else {
      var s := a + [c] + b;
      assert s[0] == a[0];
      assert s[1..] == a[1..] + [c] + b;
      SplitAtFirst(a[1..], c, b);
      assert [a[0]] + a[1..] == a;
    }
  }

  /** Splitting at `c` undoes joining with `c`, when no part contains `c`. */
  lemma {:induction false} SplitJoin(parts: seq<string>, c: char)
    requires |parts| >= 1
    requires forall i :: 0 <= i < |parts| ==> c !in parts[i]
    ensures Split(Join(parts, [c]), c) == parts
  {
    if |parts| == 1 {
      SplitWithout(parts[0], c);
    } else {
      SplitJoin(parts[1..], c);
      SplitAtFirst(parts[0], c, Join(parts[1..], [c]));
      assert parts == [parts[0]] + parts[1..];
    }
  }

  /** Joining with `c` undoes splitting at `c`. */
  lemma {:induction false} JoinSplit(s: string, c: char)
    ensures Join(Split(s, c), [c]) == s
  {
    if s != [] {
      JoinSplit(s[1..], c);
      var t := Split(s[1..], c);
      if s[0] == c {
        assert Split(s, c)[1..] == t;
        assert [c] + s[1..] == s;
      } else {
        var r := Split(s, c);
        if |t| == 1 {
          assert [s[0]] + s[1..] == s;
        } else {
          assert r[1..] == t[1..];
          assert Join(t, [c]) == t[0] + [c] + Join(t[1..], [c]);
          assert [s[0]] + s[1..] == s;
        }
      }
    }
  }
}
