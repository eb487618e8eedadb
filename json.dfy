/** `JSON.stringify` and `JSON.parse` for the flat string-valued objects the profile pages
    keep under the `hospitalProfileData` storage key. Strings are escaped as `JSON.stringify`
    does: `"` and `\` get a backslash, the five control characters with a short form use it,
    the other control characters become `\u00xx`, everything else is copied. The parser
    accepts the text `Stringify` produces, every JSON escape except surrogate pairs, and
    rejects unescaped control characters as `JSON.parse` does. */
module Json {
  import opened Wrappers
  import opened JsObjects

  function HexChar(d: nat): char
    requires d < 16
  {
    if d < 10 then ('0' as int + d) as char else ('a' as int + d - 10) as char
  }

  function HexValue(c: char): Option<nat>
  {
    if '0' <= c <= '9' then Some(c as int - '0' as int)
    else if 'a' <= c <= 'f' then Some(c as int - 'a' as int + 10)
    else if 'A' <= c <= 'F' then Some(c as int - 'A' as int + 10)
    else None
  }

  lemma HexRoundTrip(d: nat)
    requires d < 16
    ensures HexValue(HexChar(d)) == Some(d)
  {
  }

  /** The text `JSON.stringify` writes for one character inside a string literal. */
  function EscapeChar(c: char): (r: string)
    ensures |r| > 0
  {
    if c == '"' then ['\\', '"']
    else if c == '\\' then ['\\', '\\']
    else if c as int == 8 then ['\\', 'b']
    else if c as int == 12 then ['\\', 'f']
    else if c == '\n' then ['\\', 'n']
    else if c == '\r' then ['\\', 'r']
    else if c == '\t' then ['\\', 't']
    else if c as int < 0x20 then ['\\', 'u', '0', '0', HexChar(c as int / 16), HexChar(c as int % 16)]
    else [c]
  }

  function Escape(s: string): string
  {
    if s == [] then [] else EscapeChar(s[0]) + Escape(s[1..])
  }

  /** A JSON string literal. */
  function Quote(s: string): string
  {
    ['"'] + Escape(s) + ['"']
  }

  function Member(p: Prop): string
  {
    Quote(p.key) + [':'] + Quote(p.value)
  }

  function Members(o: JsObject): string
  {
    if o == [] then []
    else if |o| == 1 then Member(o[0])
    else Member(o[0]) + [','] + Members(o[1..])
  }

  /** `JSON.stringify(o)`. */
  function Stringify(o: JsObject): string
  {
    ['{'] + Members(o) + ['}']
  }

  /** The value of four hexadecimal digits. */
  function Hex4(s: string): Option<nat>
    requires |s| == 4
  {
    match (HexValue(s[0]), HexValue(s[1]), HexValue(s[2]), HexValue(s[3]))
    case (Some(a), Some(b), Some(c), Some(d)) => Some(a * 4096 + b * 256 + c * 16 + d)
    case _ => None
  }

  /** One escape sequence, read after its backslash: the character it stands for and
      the number of characters it takes. */
  function Unescape(s: string): (r: Option<(char, nat)>)
    ensures r.Some? ==> 1 <= r.value.1 <= |s|
  {
    if |s| == 0 then None
    else if s[0] == '"' then Some(('"', 1))
    else if s[0] == '\\' then Some(('\\', 1))
    else if s[0] == '/' then Some(('/', 1))
    else if s[0] == 'b' then Some((8 as char, 1))
    else if s[0] == 'f' then Some((12 as char, 1))
    else if s[0] == 'n' then Some(('\n', 1))
    else if s[0] == 'r' then Some(('\r', 1))
    else if s[0] == 't' then Some(('\t', 1))
    else if s[0] == 'u' && |s| >= 5 then
      match Hex4(s[1..5])
      case Some(code) =>
        if code < 0xD800 || 0xE000 <= code then Some((code as char, 5)) else None
      case None => None
    else None
  }

  /** The characters of a string literal after its opening quote: the decoded string and
      the text after the closing quote. */
  function StringBody(s: string): (r: Option<(string, string)>)
    ensures r.Some? ==> |r.value.1| < |s|
    decreases |s|
  {
    if |s| == 0 then None
    else if s[0] == '"' then Some(([], s[1..]))
    else if s[0] == '\\' then
      match Unescape(s[1..])
      case None => None
      case Some((c, n)) => Prepend(c, StringBody(s[1 + n..]))
    else if (s[0] as int) < 0x20 then None
    else Prepend(s[0], StringBody(s[1..]))
  }

  function Prepend(c: char, r: Option<(string, string)>): Option<(string, string)>
  {
    match r
    case None => None
    case Some((body, rest)) => Some(([c] + body, rest))
  }

  /** A string literal: its opening quote, body and closing quote. */
  function StringLiteral(s: string): (r: Option<(string, string)>)
    ensures r.Some? ==> |r.value.1| < |s|
  {
    if |s| > 0 && s[0] == '"' then StringBody(s[1..]) else None
  }

  /** `"key":"value"`. */
  function ParseMember(s: string): (r: Option<(Prop, string)>)
    ensures r.Some? ==> |r.value.1| < |s|
  {
    match StringLiteral(s)
    case None => None
    case Some((k, rest)) =>
      if |rest| > 0 && rest[0] == ':' then
        match StringLiteral(rest[1..])
        case None => None
        case Some((v, rest')) => Some((Prop(k, v), rest'))
      else None
  }

  /** The members of a non-empty object and its closing brace. */
  function ParseMembers(s: string): (r: Option<(seq<Prop>, string)>)
    ensures r.Some? ==> |r.value.1| < |s|
    decreases |s|
  {
    match ParseMember(s)
    case None => None
    case Some((p, rest)) =>
      if |rest| > 0 && rest[0] == ',' then
        match ParseMembers(rest[1..])
        case None => None
        case Some((ps, rest')) => Some(([p] + ps, rest'))
      else if |rest| > 0 && rest[0] == '}' then Some(([p], rest[1..]))
      else None
  }

  function ParseObject(s: string): Option<(seq<Prop>, string)>
  {
    if |s| >= 2 && s[0] == '{' && s[1] == '}' then Some(([], s[2..]))
    else if |s| > 0 && s[0] == '{' then ParseMembers(s[1..])
    else None
  }

  /** Builds the object the way `JSON.parse` does: property by property, a repeated key
      keeping its first place and its last value. */
  function FromProps(acc: JsObject, ps: seq<Prop>): JsObject
    decreases |ps|
  {
    if ps == [] then acc else FromProps(Set(acc, ps[0].key, ps[0].value), ps[1..])
  }

  /** `JSON.parse(s)`; `None` where `JSON.parse` would throw or where the text is JSON
      other than a flat object of strings. */
  function Parse(s: string): Option<JsObject>
  {
    match ParseObject(s)
    case Some((ps, rest)) => if rest == [] then Some(FromProps([], ps)) else None
    case None => None
  }

  // ---------------------------------------------------------------------------------------
  // Round trip: parsing what `Stringify` wrote gives the object back.

  /** The `\u00xx` form of a control character without a short escape. */
  lemma UnicodeEscapeRoundTrip(c: char, tail: string)
    requires c as int < 0x20 && c as int != 8 && c as int != 12 && c != '\n' && c != '\r' && c != '\t'
    ensures StringBody(EscapeChar(c) + tail) == Prepend(c, StringBody(tail))
  {
    var hi, lo := c as int / 16, c as int % 16;
    var e := EscapeChar(c);
    assert e == ['\\', 'u', '0', '0', HexChar(hi), HexChar(lo)];
    HexRoundTrip(hi);
    HexRoundTrip(lo);
    var s := e + tail;
    var u := s[1..];
    var digits := u[1..5];
    assert digits[0] == '0' && digits[1] == '0' && digits[2] == HexChar(hi) && digits[3] == HexChar(lo);
    assert Hex4(digits) == Some(c as int);
    assert Unescape(u) == Some((c, 5));
    assert s[6..] == tail;
  }

  lemma {:induction false} EscapeCharRoundTrip(c: char, tail: string)
    ensures StringBody(EscapeChar(c) + tail) == Prepend(c, StringBody(tail))
  {
    var s := EscapeChar(c) + tail;
    if c == '"' || c == '\\' || c as int == 8 || c as int == 12 || c == '\n' || c == '\r' || c == '\t' {
      assert s[1..][0] == s[1];
      assert s[2..] == tail;
    } else if c as int < 0x20 {
      UnicodeEscapeRoundTrip(c, tail);
    } else {
      assert s[1..] == tail;
    }
  }

  lemma {:induction false} StringBodyRoundTrip(s: string, rest: string)
    ensures StringBody(Escape(s) + ['"'] + rest) == Some((s, rest))
  {
    if s == [] {
      assert Escape(s) + ['"'] + rest == ['"'] + rest;
    } else {
      assert Escape(s) + ['"'] + rest == EscapeChar(s[0]) + (Escape(s[1..]) + ['"'] + rest);
      EscapeCharRoundTrip(s[0], Escape(s[1..]) + ['"'] + rest);
      StringBodyRoundTrip(s[1..], rest);
      assert [s[0]] + s[1..] == s;
    }
  }

  lemma StringLiteralRoundTrip(s: string, rest: string)
    ensures StringLiteral(Quote(s) + rest) == Some((s, rest))
  {
    var t := Quote(s) + rest;
    assert t[1..] == Escape(s) + ['"'] + rest;
    StringBodyRoundTrip(s, rest);
  }

  lemma MemberRoundTrip(p: Prop, rest: string)
    ensures ParseMember(Member(p) + rest) == Some((p, rest))
  {
    var k, v := Quote(p.key), Quote(p.value);
    var after := [':'] + (v + rest);
    assert Member(p) + rest == k + after by {
      assert Member(p) == k + [':'] + v;
      Regroup(k, [':'], v, rest, []);
    }
    StringLiteralRoundTrip(p.key, after);
    assert after[0] == ':' && after[1..] == v + rest;
    StringLiteralRoundTrip(p.value, rest);
  }

  /** The text after the first member of a longer object. */
  lemma MembersSplit(o: JsObject, rest: string)
    requires |o| > 1
    ensures Members(o) + ['}'] + rest == Member(o[0]) + ([','] + (Members(o[1..]) + ['}'] + rest))
  {
    var m, ms := Member(o[0]), Members(o[1..]);
    assert Members(o) == m + [','] + ms;
    Regroup(m, [','], ms, ['}'], rest);
  }

  lemma Regroup(a: string, b: string, c: string, d: string, e: string)
    ensures a + b + c + d + e == a + (b + (c + d + e))
  {
  }

  /** The closing brace after a last member. */
  lemma ParseLastMember(p: Prop, rest: string)
    ensures ParseMembers(Member(p) + (['}'] + rest)) == Some(([p], rest))
  {
    var tail := ['}'] + rest;
    MemberRoundTrip(p, tail);
    assert tail[0] == '}' && tail[1..] == rest;
  }

  /** A comma after a member, followed by members that parse. */
  lemma ParseNextMember(p: Prop, more: string, ps: seq<Prop>, rest: string)
    requires ParseMembers(more) == Some((ps, rest))
    ensures ParseMembers(Member(p) + ([','] + more)) == Some(([p] + ps, rest))
  {
    var tail := [','] + more;
    MemberRoundTrip(p, tail);
    assert tail[0] == ',' && tail[1..] == more;
  }

  lemma {:induction false} MembersRoundTrip(o: JsObject, rest: string)
    requires o != []
    ensures ParseMembers(Members(o) + ['}'] + rest) == Some((o, rest))
  {
    if |o| == 1 {
      assert Members(o) + ['}'] + rest == Member(o[0]) + (['}'] + rest);
      ParseLastMember(o[0], rest);
      assert [o[0]] == o;
    } else {
      MembersSplit(o, rest);
      MembersRoundTrip(o[1..], rest);
      ParseNextMember(o[0], Members(o[1..]) + ['}'] + rest, o[1..], rest);
      assert [o[0]] + o[1..] == o;
    }
  }

  /** A key that is not among the keys of `acc`: the spread update appends it. */
  lemma FreshKeyAppends(acc: JsObject, p: Prop, ps: seq<Prop>)
    requires DistinctKeys(acc + [p] + ps)
    ensures Set(acc, p.key, p.value) == acc + [p]
  {
    var all := acc + [p] + ps;
    assert all[|acc|] == p;
    forall i | 0 <= i < |acc|
      ensures acc[i].key != p.key
    {
      assert all[i] == acc[i];
    }
    SetFresh(acc, p.key, p.value);
  }

  /** Replaying the properties of an object whose keys are distinct rebuilds it. */
  lemma {:induction false} FromPropsRebuilds(acc: JsObject, ps: seq<Prop>)
    requires DistinctKeys(acc + ps)
    ensures FromProps(acc, ps) == acc + ps
    decreases |ps|
  {
    if ps != [] {
      var acc' := acc + [ps[0]];
      assert acc + ps == acc' + ps[1..];
      FreshKeyAppends(acc, ps[0], ps[1..]);
      FromPropsRebuilds(acc', ps[1..]);
      assert acc' + ps[1..] == acc + ps;
    }
  }

  lemma MembersStartWithQuote(o: JsObject)
    requires o != []
    ensures Members(o)[0] == '"'
  {
    var q := Quote(o[0].key);
    assert q[0] == '"';
    var m := Member(o[0]);
    assert m == q + ([':'] + Quote(o[0].value));
    assert m[0] == '"';
    if |o| > 1 {
      assert Members(o) == m + ([','] + Members(o[1..]));
    }
  }

  lemma ParseObjectStringify(o: JsObject)
    ensures ParseObject(Stringify(o)) == Some((o, []))
  {
    var s := Stringify(o);
    if o == [] {
      assert s == ['{', '}'];
      assert s[2..] == [];
    } else {
      MembersStartWithQuote(o);
      var body := Members(o) + ['}'] + [];
      assert s == ['{'] + body;
      assert s[1] == body[0] == '"';
      assert s[1..] == body;
      MembersRoundTrip(o, []);
    }
  }

  /** `JSON.parse(JSON.stringify(o))` is `o` for every flat object of strings. */
  lemma ParseStringify(o: JsObject)
    requires DistinctKeys(o)
    ensures Parse(Stringify(o)) == Some(o)
  {
    ParseObjectStringify(o);
    assert [] + o == o;
    FromPropsRebuilds([], o);
  }
}
