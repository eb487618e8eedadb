/** The JavaScript string operations the pages rely on: truthiness of an optional string
    (`x || fallback`), ASCII case mapping, `includes`, `join`, the capitalisation used by
    status labels, and decimal conversion of counts and of `parseInt` arguments. */
module Text {
  import opened Wrappers

  /** `!!v` for a value that is a string, `null` or `undefined`: only a non-empty string is truthy. */
  predicate Truthy(v: Option<string>)
  {
    v.Some? && v.value != ""
  }

  /** `v || fallback` where `fallback` is a string literal. */
  function Or(v: Option<string>, fallback: string): (r: string)
    ensures Truthy(v) ==> r == v.value
    ensures !Truthy(v) ==> r == fallback
    ensures r != "" <==> Truthy(v) || fallback != ""
  {
    if Truthy(v) then v.value else fallback
  }

  /** `a || b` where both sides may be `null`: the first truthy side, else the second one. */
  function Either(a: Option<string>, b: Option<string>): (r: Option<string>)
    ensures Truthy(r) <==> Truthy(a) || Truthy(b)
    ensures Truthy(a) ==> r == a
    ensures !Truthy(a) ==> r == b
  {
    if Truthy(a) then a else b
  }

  // ASCII case mapping; `toLowerCase`/`toUpperCase` beyond ASCII is not modelled.

  function LowerChar(c: char): char
  {
    if 'A' <= c <= 'Z' then (c as int - 'A' as int + 'a' as int) as char else c
  }

  function UpperChar(c: char): char
  {
    if 'a' <= c <= 'z' then (c as int - 'a' as int + 'A' as int) as char else c
  }

  /** `s.toLowerCase()` on ASCII letters. */
  function Lower(s: string): (r: string)
    ensures |r| == |s|
    ensures forall i :: 0 <= i < |s| ==> r[i] == LowerChar(s[i])
  {
    if s == [] then [] else [LowerChar(s[0])] + Lower(s[1..])
  }

  predicate IsPrefix(p: string, s: string)
  {
    |p| <= |s| && s[..|p|] == p
  }

  /** `s.includes(t)`: `t` occurs in `s` as a contiguous block. */
  predicate Includes(s: string, t: string)
    decreases |s|
  {
    IsPrefix(t, s) || (|s| > 0 && Includes(s[1..], t))
  }

  /** `t` sits in `s` starting at position `i`. */
  predicate OccursAt(s: string, t: string, i: int)
  {
    0 <= i <= |s| - |t| && s[i..i + |t|] == t
  }

  /** `includes` agrees with its positional reading: some position where `t` occurs. */
  lemma {:induction false} IncludesAt(s: string, t: string)
    ensures Includes(s, t) <==> exists i :: OccursAt(s, t, i)
    decreases |s|
  {
    if |s| > 0 {
      IncludesAt(s[1..], t);
    }
    forall i | OccursAt(s, t, i)
      ensures Includes(s, t)
    {
      if i > 0 {
        assert s[1..][i - 1..i - 1 + |t|] == s[i..i + |t|];
        assert OccursAt(s[1..], t, i - 1);
      }
    }
    if Includes(s, t) {
      if IsPrefix(t, s) {
        assert OccursAt(s, t, 0);
      } else {
        var i :| OccursAt(s[1..], t, i);
        assert s[1..][i..i + |t|] == s[i + 1..i + 1 + |t|];
        assert OccursAt(s, t, i + 1);
      }
    }
  }

  /** Every string includes the empty string, so an empty search term matches everything. */
  lemma IncludesEmpty(s: string)
    ensures Includes(s, "")
  {
    assert IsPrefix("", s);
  }

  /** `name.toLowerCase().includes(term.toLowerCase())`: the search of the list pages. */
  predicate MatchesSearch(name: string, term: string)
  {
    Includes(Lower(name), Lower(term))
  }

  /** An empty search term matches every name. */
  lemma EmptyTermMatches(name: string)
    ensures MatchesSearch(name, "")
  {
    IncludesEmpty(Lower(name));
  }

  /** The search ignores the case of the term: lower-casing it first changes nothing. */
  lemma SearchIgnoresTermCase(name: string, term: string)
    ensures MatchesSearch(name, Lower(term)) <==> MatchesSearch(name, term)
  {
    assert Lower(Lower(term)) == Lower(term);
  }

  /** The result count under a list page's search box: "Found N <noun>", with an "s"
      unless there is exactly one. */
  function FoundLabel(n: nat, noun: string): (r: string)
    ensures n == 1 ==> r == "Found 1 " + noun
    ensures n != 1 ==> r == "Found " + NatToString(n) + " " + noun + "s"
  {
    "Found " + NatToString(n) + " " + noun + PluralSuffix(n)
  }

  /** `xs.join(sep)`. */
  function Join(xs: seq<string>, sep: string): (r: string)
    ensures xs == [] ==> r == ""
    ensures |xs| == 1 ==> r == xs[0]
  {
    if xs == [] then ""
    else if |xs| == 1 then xs[0]
    else xs[0] + sep + Join(xs[1..], sep)
  }

  /** Joining one more element appends the separator and that element. */
  lemma {:induction false} JoinAppend(xs: seq<string>, x: string, sep: string)
    requires |xs| >= 1
    ensures Join(xs + [x], sep) == Join(xs, sep) + sep + x
  {
    if |xs| > 1 {
      assert (xs + [x])[1..] == xs[1..] + [x];
      JoinAppend(xs[1..], x, sep);
    } else {
      assert (xs + [x])[1..] == [x];
    }
  }

  /** `s.charAt(0).toUpperCase() + s.slice(1)`. */
  function Capitalize(s: string): (r: string)
    ensures |r| == |s|
    ensures |s| > 0 ==> r[0] == UpperChar(s[0]) && r[1..] == s[1..]
  {
    if s == [] then "" else [UpperChar(s[0])] + s[1..]
  }

  // Decimal notation of a count, as JavaScript prints a non-negative integer.

  function DigitChar(d: nat): char
    requires d < 10
  {
    ('0' as int + d) as char
  }

  predicate IsDigit(c: char)
  {
    '0' <= c <= '9'
  }

  function DigitValue(c: char): (d: nat)
    requires IsDigit(c)
    ensures d < 10
  {
    c as int - '0' as int
  }

  /** A non-empty run of decimal digits. */
  predicate IsDecimal(s: string)
  {
    |s| > 0 && forall i :: 0 <= i < |s| ==> IsDigit(s[i])
  }

  /** `String(n)` for a natural number. */
  function NatToString(n: nat): (r: string)
    ensures IsDecimal(r)
    ensures n < 10 <==> |r| == 1
    ensures r[0] == '0' <==> n == 0
  {
    if n < 10 then [DigitChar(n)] else NatToString(n / 10) + [DigitChar(n % 10)]
  }

  /** `Number.parseInt(s)` on a string of decimal digits. */
  function ParseNat(s: string): (n: nat)
    requires forall i :: 0 <= i < |s| ==> IsDigit(s[i])
  {
    if s == [] then 0 else ParseNat(s[..|s| - 1]) * 10 + DigitValue(s[|s| - 1])
  }

  /** Parsing the printed form of a count gives the count back. */
  lemma {:induction false} ParseNatToString(n: nat)
    ensures ParseNat(NatToString(n)) == n
  {
    var s := NatToString(n);
    if n < 10 {
      assert s[..|s| - 1] == [];
    } else {
      ParseNatToString(n / 10);
      assert s[..|s| - 1] == NatToString(n / 10);
    }
  }

  /** `"s"` unless the count is exactly one, as the pages pluralise their labels. */
  function PluralSuffix(n: nat): (r: string)
    ensures r == "" <==> n == 1
  {
    if n != 1 then "s" else ""
  }
}
