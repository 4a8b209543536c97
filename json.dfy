/** The text the session keeps under the "user" storage key.
    `Serialise` writes a `User` the way `JSON.stringify` lays out an object of
    that shape (keys in declaration order, no whitespace, strings escaped as
    JSON.stringify escapes them, integers in plain decimal, which is
    JSON.stringify's text for integers of magnitude below 10^21). `Parse` reads that
    layout back and fails (like `JSON.parse` throwing) on text it cannot read.
    `ParseSerialise` proves the round trip the session relies on. */
module Json {
  import opened Types

  // ---------------------------------------------------------------- writing

  /** A lower-case hexadecimal digit, as used in `\u00XX` escapes. */
  function HexDigit(d: nat): char
    requires d < 16
  {
    if d < 10 then ('0' as int + d) as char else ('a' as int + d - 10) as char
  }

  /** How one character of a string value is written between the quotes:
      quote and backslash are escaped, control characters use the short
      escapes where JSON has one and `\u00XX` otherwise; every other
      character is written as itself. */
  function EscapeChar(c: char): string
  {
    if c == '"' then "\\\""
    else if c == '\\' then "\\\\"
    else if c == 8 as char then "\\b"
    else if c == '\t' then "\\t"
    else if c == '\n' then "\\n"
    else if c == 12 as char then "\\f"
    else if c == '\r' then "\\r"
    else if c < ' ' then "\\u00" + [HexDigit(c as int / 16), HexDigit(c as int % 16)]
    else [c]
  }

  function EscapeBody(s: string): string
  {
    if s == [] then "" else EscapeChar(s[0]) + EscapeBody(s[1..])
  }

  /** A JSON string literal. */
  function Quote(s: string): string
  {
    "\"" + EscapeBody(s) + "\""
  }

  function DigitChar(d: nat): char
    requires d < 10
  {
    ('0' as int + d) as char
  }

  /** Decimal digits of `n`, most significant first, no leading zero. */
  function NatText(n: nat): string
  {
    if n < 10 then [DigitChar(n)] else NatText(n / 10) + [DigitChar(n % 10)]
  }

  function IntText(i: int): string
  {
    if i < 0 then "-" + NatText(-i) else NatText(i)
  }

  function JoinInts(xs: seq<int>): string
  {
    if |xs| == 0 then ""
    else if |xs| == 1 then IntText(xs[0])
    else IntText(xs[0]) + "," + JoinInts(xs[1..])
  }

  function IntsText(xs: seq<int>): string
  {
    "[" + JoinInts(xs) + "]"
  }

  function CompletionText(c: Completion): string
  {
    "{\"topicId\":" + Quote(c.topicId) + ",\"subtopicIds\":" + IntsText(c.subtopicIds) + "}"
  }

  function JoinCompletions(cs: seq<Completion>): string
  {
    if |cs| == 0 then ""
    else if |cs| == 1 then CompletionText(cs[0])
    else CompletionText(cs[0]) + "," + JoinCompletions(cs[1..])
  }

  function CompletionsText(cs: seq<Completion>): string
  {
    "[" + JoinCompletions(cs) + "]"
  }

  /** `JSON.stringify(user)`: an object text, never empty. */
  function Serialise(u: User): (r: string)
    ensures |r| > 1 && r[0] == '{' && r[|r| - 1] == '}'
  {
    "{\"name\":" + Quote(u.name)
    + ",\"email\":" + Quote(u.email)
    + ",\"completedTopics\":" + CompletionsText(u.completedTopics)
    + "}"
  }

  // ---------------------------------------------------------------- reading

  /** The text after `lit`, if `s` starts with `lit`. */
  function Expect(lit: string, s: string): (r: Option<string>)
    ensures r.Some? ==> |r.value| == |s| - |lit|
  {
    if lit <= s then Some(s[|lit|..]) else None
  }

  function HexValue(c: char): (r: Option<nat>)
    ensures r.Some? ==> r.value < 16
  {
    if '0' <= c <= '9' then Some(c as int - '0' as int)
    else if 'a' <= c <= 'f' then Some(c as int - 'a' as int + 10)
    else if 'A' <= c <= 'F' then Some(c as int - 'A' as int + 10)
    else None
  }

  /** The value of the four hexadecimal digits of a `\uXXXX` escape. */
  function Hex4(h: string): (r: Option<nat>)
    requires |h| == 4
    ensures r.Some? ==> r.value < 0x1_0000
  {
    var a :- HexValue(h[0]);
    var b :- HexValue(h[1]);
    var c :- HexValue(h[2]);
    var d :- HexValue(h[3]);
    Some(((a * 16 + b) * 16 + c) * 16 + d)
  }

  /** The character a one-letter escape `\e` stands for. */
  function SimpleEscape(e: char): Option<char>
  {
    if e == '"' then Some('"')
    else if e == '\\' then Some('\\')
    else if e == '/' then Some('/')
    else if e == 'b' then Some(8 as char)
    else if e == 'f' then Some(12 as char)
    else if e == 'n' then Some('\n')
    else if e == 'r' then Some('\r')
    else if e == 't' then Some('\t')
    else None
  }

  /** One character of a string literal's body, escaped or not, and the text
      after it. Fails on the closing quote, on a raw control character, on a
      malformed escape and on a `\u` escape of a lone surrogate. */
  function ReadChar(s: string): (r: Option<(char, string)>)
    ensures r.Some? ==> |r.value.1| < |s|
  {
    if |s| == 0 || s[0] == '"' || (s[0] < ' ') then None
    else if s[0] != '\\' then Some((s[0], s[1..]))
    else if |s| < 2 then None
    else if s[1] == 'u' then
      if |s| < 6 then None
      else
        var v :- Hex4(s[2..6]);
        if 0xD800 <= v < 0xE000 then None else Some((v as char, s[6..]))
    else
      var c :- SimpleEscape(s[1]);
      Some((c, s[2..]))
  }

  /** The body of a string literal up to its closing quote, and the text after
      that quote. */
  function ReadStringBody(s: string): (r: Option<(string, string)>)
    ensures r.Some? ==> |r.value.1| < |s|
    decreases |s|
  {
    if |s| == 0 then None
    else if s[0] == '"' then Some(("", s[1..]))
    else
      var (c, t) :- ReadChar(s);
      var (x, u) :- ReadStringBody(t);
      Some(([c] + x, u))
  }

  function ReadString(s: string): (r: Option<(string, string)>)
    ensures r.Some? ==> |r.value.1| < |s|
  {
    var t :- Expect("\"", s);
    ReadStringBody(t)
  }

  /** A decimal digit (`\d` of a regular expression). */
  predicate IsDigit(c: char)
  {
    '0' <= c <= '9'
  }

  predicate AllDigits(s: string)
  {
    forall i :: 0 <= i < |s| ==> IsDigit(s[i])
  }

  /** Length of the run of decimal digits at the start of `s`. */
  function DigitRun(s: string): (k: nat)
    ensures k <= |s|
  {
    if |s| > 0 && IsDigit(s[0]) then 1 + DigitRun(s[1..]) else 0
  }

  function DigitsValue(d: string): nat
    requires AllDigits(d)
  {
    if |d| == 0 then 0
    else DigitsValue(d[..|d| - 1]) * 10 + (d[|d| - 1] as int - '0' as int)
  }

  /** A natural number in decimal: the longest run of digits. */
  function ReadNat(s: string): (r: Option<(int, string)>)
    ensures r.Some? ==> r.value.0 >= 0 && |r.value.1| < |s|
  {
    var k := DigitRun(s);
    if k == 0 then None
    else
      assert AllDigits(s[..k]) by { DigitRunDigits(s); }
      Some((DigitsValue(s[..k]), s[k..]))
  }

  function ReadInt(s: string): (r: Option<(int, string)>)
    ensures r.Some? ==> |r.value.1| < |s|
  {
    if |s| > 0 && s[0] == '-' then
      var (n, t) :- ReadNat(s[1..]);
      Some((-n, t))
    else ReadNat(s)
  }

  /** The elements of a non-empty integer array after its `[`, up to and
      including the closing `]`. */
  function ReadIntsTail(s: string): (r: Option<(seq<int>, string)>)
    ensures r.Some? ==> |r.value.1| < |s|
    decreases |s|
  {
    var (x, t) :- ReadInt(s);
    if |t| > 0 && t[0] == ']' then Some(([x], t[1..]))
    else if |t| > 0 && t[0] == ',' then
      var (xs, u) :- ReadIntsTail(t[1..]);
      Some(([x] + xs, u))
    else None
  }

  function ReadInts(s: string): (r: Option<(seq<int>, string)>)
    ensures r.Some? ==> |r.value.1| < |s|
  {
    var t :- Expect("[", s);
    if |t| > 0 && t[0] == ']' then Some(([], t[1..])) else ReadIntsTail(t)
  }

  function ReadCompletion(s: string): (r: Option<(Completion, string)>)
    ensures r.Some? ==> |r.value.1| < |s|
  {
    var t :- Expect("{\"topicId\":", s);
    var (id, t) :- ReadString(t);
    var t :- Expect(",\"subtopicIds\":", t);
    var (ids, t) :- ReadInts(t);
    var t :- Expect("}", t);
    Some((Completion(id, ids), t))
  }

  function ReadCompletionsTail(s: string): (r: Option<(seq<Completion>, string)>)
    ensures r.Some? ==> |r.value.1| < |s|
    decreases |s|
  {
    var (c, t) :- ReadCompletion(s);
    if |t| > 0 && t[0] == ']' then Some(([c], t[1..]))
    else if |t| > 0 && t[0] == ',' then
      var (cs, u) :- ReadCompletionsTail(t[1..]);
      Some(([c] + cs, u))
    else None
  }

  function ReadCompletions(s: string): (r: Option<(seq<Completion>, string)>)
    ensures r.Some? ==> |r.value.1| < |s|
  {
    var t :- Expect("[", s);
    if |t| > 0 && t[0] == ']' then Some(([], t[1..])) else ReadCompletionsTail(t)
  }

  function ReadUser(s: string): (r: Option<(User, string)>)
  {
    var t :- Expect("{\"name\":", s);
    var (name, t) :- ReadString(t);
    var t :- Expect(",\"email\":", t);
    var (email, t) :- ReadString(t);
    var t :- Expect(",\"completedTopics\":", t);
    var (done, t) :- ReadCompletions(t);
    var t :- Expect("}", t);
    Some((User(name, email, done), t))
  }

  /** `JSON.parse` of a stored user: the whole text must be one user object. */
  function Parse(s: string): Option<User>
  {
    var (u, rest) :- ReadUser(s);
    if rest == [] then Some(u) else None
  }

  // ---------------------------------------------------------------- proofs

  // Sequence facts used by the reading proofs, stated once with nothing else
  // in scope so the solver does not rediscover them next to the readers.

  lemma HeadTail<T>(xs: seq<T>)
    requires |xs| > 0
    ensures [xs[0]] + xs[1..] == xs
  {
  }

  lemma Single<T>(xs: seq<T>)
    requires |xs| == 1
    ensures [xs[0]] == xs
  {
  }

  lemma AfterFirst<T>(x: T, t: seq<T>)
    ensures ([x] + t)[0] == x && ([x] + t)[1..] == t
  {
  }

  lemma FirstOfAppend<T>(a: seq<T>, b: seq<T>)
    requires |a| > 0
    ensures |a + b| > 0 && (a + b)[0] == a[0]
  {
  }

  lemma Regroup3<T>(a: seq<T>, b: seq<T>, c: seq<T>)
    ensures a + b + c == a + (b + c)
  {
  }

  lemma Regroup4<T>(a: seq<T>, b: seq<T>, c: seq<T>, d: seq<T>)
    ensures a + b + c + d == a + (b + c + d)
  {
  }

  lemma DigitRunDigits(s: string)
    ensures AllDigits(s[..DigitRun(s)])
  {
    if |s| > 0 && IsDigit(s[0]) {
      DigitRunDigits(s[1..]);
      assert s[..DigitRun(s)] == [s[0]] + s[1..][..DigitRun(s[1..])];
    }
  }

  lemma ExpectLiteral(lit: string, rest: string)
    ensures Expect(lit, lit + rest) == Some(rest)
  {
    assert lit <= lit + rest;
    assert (lit + rest)[|lit|..] == rest;
  }

  lemma HexDigitValue(d: nat)
    requires d < 16
    ensures HexValue(HexDigit(d)) == Some(d)
  {
  }

  /** Every escaped character reads back as itself, whatever follows it. */
  lemma EscapeCharRead(c: char, t: string)
    ensures EscapeChar(c)[0] != '"'
    ensures ReadChar(EscapeChar(c) + t) == Some((c, t))
  {
    var e := EscapeChar(c);
    var s := e + t;
    if c == '"' || c == '\\' || c == 8 as char || c == '\t' || c == '\n' || c == 12 as char || c == '\r' {
      assert |e| == 2 && s[0] == '\\' && s[1] == e[1];
      assert s[2..] == t;
    } else if c < ' ' {
      var hi, lo := c as int / 16, c as int % 16;
      HexDigitValue(hi);
      HexDigitValue(lo);
      assert s[0] == '\\' && s[1] == 'u';
      assert s[2..6] == ['0', '0', HexDigit(hi), HexDigit(lo)];
      assert Hex4(s[2..6]) == Some(c as int);
      assert s[6..] == t;
    } else {
      assert s[1..] == t;
    }
  }

  lemma {:induction false} StringBodyRead(x: string, rest: string)
    ensures ReadStringBody(EscapeBody(x) + "\"" + rest) == Some((x, rest))
  {
    if x == [] {
      assert EscapeBody(x) + "\"" + rest == "\"" + rest;
    } else {
      var t := EscapeBody(x[1..]) + "\"" + rest;
      assert EscapeBody(x) == EscapeChar(x[0]) + EscapeBody(x[1..]);
      Regroup4(EscapeChar(x[0]), EscapeBody(x[1..]), "\"", rest);
      EscapeCharRead(x[0], t);
      StringBodyRead(x[1..], rest);
      HeadTail(x);
    }
  }

  lemma QuoteRead(x: string, rest: string)
    ensures ReadString(Quote(x) + rest) == Some((x, rest))
  {
    Regroup4("\"", EscapeBody(x), "\"", rest);
    ExpectLiteral("\"", EscapeBody(x) + "\"" + rest);
    StringBodyRead(x, rest);
  }

  lemma {:induction false} NatTextDigits(n: nat)
    ensures |NatText(n)| > 0 && AllDigits(NatText(n))
  {
    if n >= 10 {
      NatTextDigits(n / 10);
    }
  }

  lemma {:induction false} NatTextValue(n: nat)
    ensures AllDigits(NatText(n)) && DigitsValue(NatText(n)) == n
  {
    NatTextDigits(n);
    if n >= 10 {
      var p := NatText(n / 10);
      NatTextValue(n / 10);
      assert NatText(n)[..|NatText(n)| - 1] == p;
    }
  }

  lemma {:induction false} DigitRunAppend(p: string, rest: string)
    requires AllDigits(p)
    ensures DigitRun(p + rest) == |p| + DigitRun(rest)
  {
    if p != [] {
      assert (p + rest)[1..] == p[1..] + rest;
      DigitRunAppend(p[1..], rest);
    } else {
      assert p + rest == rest;
    }
  }

  lemma NatRead(n: nat, rest: string)
    requires rest == [] || !IsDigit(rest[0])
    ensures ReadNat(NatText(n) + rest) == Some((n, rest))
  {
    var d := NatText(n);
    var s := d + rest;
    NatTextValue(n);
    DigitRunAppend(d, rest);
    assert DigitRun(s) == |d|;
    assert s[..|d|] == d && s[|d|..] == rest;
  }

  lemma IntRead(i: int, rest: string)
    requires rest == [] || !IsDigit(rest[0])
    ensures ReadInt(IntText(i) + rest) == Some((i, rest))
  {
    if i < 0 {
      Regroup3("-", NatText(-i), rest);
      AfterFirst('-', NatText(-i) + rest);
      NatRead(-i, rest);
    } else {
      NatTextDigits(i);
      NatRead(i, rest);
    }
  }

  /** The first character of an integer's text: a digit or a minus sign. */
  lemma IntTextStart(i: int)
    ensures |IntText(i)| > 0 && (IntText(i)[0] == '-' || IsDigit(IntText(i)[0]))
  {
    NatTextDigits(if i < 0 then -i else i);
  }

  /** The last element of an integer array, then its closing bracket. */
  lemma IntsTailLast(s: string, x: int, rest: string)
    requires ReadInt(s) == Some((x, "]" + rest))
    ensures ReadIntsTail(s) == Some(([x], rest))
  {
    AfterFirst(']', rest);
  }

  /** An element followed by a comma, then the remaining elements. */
  lemma IntsTailNext(s: string, x: int, t: string, xs: seq<int>, rest: string)
    requires ReadInt(s) == Some((x, "," + t))
    requires ReadIntsTail(t) == Some((xs, rest))
    ensures ReadIntsTail(s) == Some(([x] + xs, rest))
  {
    AfterFirst(',', t);
  }

  lemma {:induction false} IntsTailRead(xs: seq<int>, rest: string)
    requires |xs| > 0
    ensures ReadIntsTail(JoinInts(xs) + "]" + rest) == Some((xs, rest))
  {
    var s := JoinInts(xs) + "]" + rest;
    if |xs| == 1 {
      Regroup3(IntText(xs[0]), "]", rest);
      IntRead(xs[0], "]" + rest);
      IntsTailLast(s, xs[0], rest);
      Single(xs);
    } else {
      var tail := JoinInts(xs[1..]) + "]" + rest;
      Regroup(IntText(xs[0]), ",", JoinInts(xs[1..]), "]", rest);
      IntRead(xs[0], "," + tail);
      IntsTailRead(xs[1..], rest);
      IntsTailNext(s, xs[0], tail, xs[1..], rest);
      HeadTail(xs);
    }
  }

  /** A non-empty element list starts with its first element's text. */
  lemma JoinIntsStart(xs: seq<int>)
    requires |xs| > 0
    ensures |JoinInts(xs)| > 0 && (JoinInts(xs)[0] == '-' || IsDigit(JoinInts(xs)[0]))
  {
    IntTextStart(xs[0]);
    if |xs| > 1 {
      FirstOfAppend(IntText(xs[0]), ",");
      FirstOfAppend(IntText(xs[0]) + ",", JoinInts(xs[1..]));
    }
  }

  lemma IntsRead(xs: seq<int>, rest: string)
    ensures ReadInts(IntsText(xs) + rest) == Some((xs, rest))
  {
    var t := JoinInts(xs) + "]" + rest;
    Regroup4("[", JoinInts(xs), "]", rest);
    ExpectLiteral("[", t);
    if xs == [] {
      assert t == "]" + rest;
    } else {
      JoinIntsStart(xs);
      Regroup3(JoinInts(xs), "]", rest);
      FirstOfAppend(JoinInts(xs), "]" + rest);
      IntsTailRead(xs, rest);
    }
  }

  lemma CompletionTextSplit(c: Completion, rest: string)
    ensures CompletionText(c) + rest
      == "{\"topicId\":" + (Quote(c.topicId) + (",\"subtopicIds\":" + (IntsText(c.subtopicIds) + ("}" + rest))))
  {
  }

  lemma CompletionRead(c: Completion, rest: string)
    ensures ReadCompletion(CompletionText(c) + rest) == Some((c, rest))
  {
    var t4 := "}" + rest;
    var t3 := IntsText(c.subtopicIds) + t4;
    var t2 := ",\"subtopicIds\":" + t3;
    var t1 := Quote(c.topicId) + t2;
    CompletionTextSplit(c, rest);
    ExpectLiteral("{\"topicId\":", t1);
    QuoteRead(c.topicId, t2);
    ExpectLiteral(",\"subtopicIds\":", t3);
    IntsRead(c.subtopicIds, t4);
    ExpectLiteral("}", rest);
  }

  lemma CompletionsTailLast(s: string, c: Completion, rest: string)
    requires ReadCompletion(s) == Some((c, "]" + rest))
    ensures ReadCompletionsTail(s) == Some(([c], rest))
  {
    AfterFirst(']', rest);
  }

  lemma CompletionsTailNext(s: string, c: Completion, t: string, cs: seq<Completion>, rest: string)
    requires ReadCompletion(s) == Some((c, "," + t))
    requires ReadCompletionsTail(t) == Some((cs, rest))
    ensures ReadCompletionsTail(s) == Some(([c] + cs, rest))
  {
    AfterFirst(',', t);
  }

  lemma JoinCompletionsSplit(cs: seq<Completion>, rest: string)
    requires |cs| > 1
    ensures JoinCompletions(cs) + "]" + rest
      == CompletionText(cs[0]) + ("," + (JoinCompletions(cs[1..]) + "]" + rest))
  {
    var a, j := CompletionText(cs[0]), JoinCompletions(cs[1..]);
    assert JoinCompletions(cs) == a + "," + j;
    Regroup(a, ",", j, "]", rest);
  }

  lemma Regroup<T>(a: seq<T>, b: seq<T>, c: seq<T>, d: seq<T>, e: seq<T>)
    ensures a + b + c + d + e == a + (b + (c + d + e))
  {
  }

  lemma {:induction false} CompletionsTailRead(cs: seq<Completion>, rest: string)
    requires |cs| > 0
    ensures ReadCompletionsTail(JoinCompletions(cs) + "]" + rest) == Some((cs, rest))
  {
    var s := JoinCompletions(cs) + "]" + rest;
    if |cs| == 1 {
      Regroup3(CompletionText(cs[0]), "]", rest);
      CompletionRead(cs[0], "]" + rest);
      CompletionsTailLast(s, cs[0], rest);
      Single(cs);
    } else {
      var tail := JoinCompletions(cs[1..]) + "]" + rest;
      JoinCompletionsSplit(cs, rest);
      CompletionRead(cs[0], "," + tail);
      CompletionsTailRead(cs[1..], rest);
      CompletionsTailNext(s, cs[0], tail, cs[1..], rest);
      HeadTail(cs);
    }
  }

  /** A non-empty entry list starts with an object's opening brace. */
  lemma JoinCompletionsStart(cs: seq<Completion>)
    requires |cs| > 0
    ensures |JoinCompletions(cs)| > 0 && JoinCompletions(cs)[0] == '{'
  {
    var a := CompletionText(cs[0]);
    FirstOfAppend("{\"topicId\":", Quote(cs[0].topicId) + ",\"subtopicIds\":" + IntsText(cs[0].subtopicIds) + "}");
    assert a[0] == '{';
    if |cs| > 1 {
      FirstOfAppend(a, ",");
      FirstOfAppend(a + ",", JoinCompletions(cs[1..]));
    }
  }

  lemma CompletionsRead(cs: seq<Completion>, rest: string)
    ensures ReadCompletions(CompletionsText(cs) + rest) == Some((cs, rest))
  {
    var t := JoinCompletions(cs) + "]" + rest;
    Regroup4("[", JoinCompletions(cs), "]", rest);
    ExpectLiteral("[", t);
    if cs == [] {
      assert t == "]" + rest;
    } else {
      JoinCompletionsStart(cs);
      Regroup3(JoinCompletions(cs), "]", rest);
      FirstOfAppend(JoinCompletions(cs), "]" + rest);
      CompletionsTailRead(cs, rest);
    }
  }

  lemma UserTextSplit(u: User, rest: string)
    ensures Serialise(u) + rest
      == "{\"name\":" + (Quote(u.name) + (",\"email\":" + (Quote(u.email)
         + (",\"completedTopics\":" + (CompletionsText(u.completedTopics) + ("}" + rest))))))
  {
  }

  lemma UserRead(u: User, rest: string)
    ensures ReadUser(Serialise(u) + rest) == Some((u, rest))
  {
    var t6 := "}" + rest;
    var t5 := CompletionsText(u.completedTopics) + t6;
    var t4 := ",\"completedTopics\":" + t5;
    var t3 := Quote(u.email) + t4;
    var t2 := ",\"email\":" + t3;
    var t1 := Quote(u.name) + t2;
    UserTextSplit(u, rest);
    ExpectLiteral("{\"name\":", t1);
    QuoteRead(u.name, t2);
    ExpectLiteral(",\"email\":", t3);
    QuoteRead(u.email, t4);
    ExpectLiteral(",\"completedTopics\":", t5);
    CompletionsRead(u.completedTopics, t6);
    ExpectLiteral("}", rest);
  }

  /** Reading back what was written gives the same user. */
  lemma ParseSerialise(u: User)
    ensures Parse(Serialise(u)) == Some(u)
  {
    UserRead(u, []);
    assert Serialise(u) + [] == Serialise(u);
  }

  /** Hence two users with the same stored text are the same user. */
  lemma SerialiseInjective(u: User, v: User)
    requires Serialise(u) == Serialise(v)
    ensures u == v
  {
    ParseSerialise(u);
    ParseSerialise(v);
  }
}
