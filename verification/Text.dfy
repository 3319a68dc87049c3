// Strings as the Rust standard library handles them: splitting, joining,
// trimming, decimal printing and parsing, and reading one line of a stream.

module Wrappers {
  datatype Option<+T> = None | Some(value: T)

  lemma Assoc<T>(x: seq<T>, y: seq<T>, z: seq<T>)
    ensures x + (y + z) == x + y + z
  {
  }
}

module Text {
  import opened Wrappers

  const U16_MAX: nat := 0xFFFF
  const U32_MAX: nat := 0xFFFF_FFFF
  const U64_MAX: nat := 0xFFFF_FFFF_FFFF_FFFF

  // ----- split(sep) and join(sep) -----

  function Split(s: string, sep: char): (parts: seq<string>)
    ensures |parts| >= 1
  {
    if s == "" then [""]
    else
      var rest := Split(s[1..], sep);
      if s[0] == sep then [""] + rest else [[s[0]] + rest[0]] + rest[1..]
  }

  function Join(parts: seq<string>, sep: char): string
  {
    if |parts| == 0 then ""
    else if |parts| == 1 then parts[0]
    else parts[0] + [sep] + Join(parts[1..], sep)
  }

  lemma {:induction false} SplitPartsAvoid(s: string, sep: char, c: char)
    requires c == sep || c !in s
    ensures forall p :: p in Split(s, sep) ==> c !in p
  {
    if s != "" {
      SplitPartsAvoid(s[1..], sep, c);
    }
  }

  lemma SplitCons(c: char, rest: string, sep: char)
    ensures Split([c] + rest, sep)
            == if c == sep then [""] + Split(rest, sep) else [[c] + Split(rest, sep)[0]] + Split(rest, sep)[1..]
  {
    assert ([c] + rest)[0] == c && ([c] + rest)[1..] == rest;
  }

  lemma {:induction false} SplitAround(a: string, b: string, sep: char)
    ensures Split(a + [sep] + b, sep) == Split(a, sep) + Split(b, sep)
  {
    if a == "" {
      SplitCons(sep, b, sep);
      assert "" + [sep] + b == [sep] + b;
    } else {
      var c, rest := a[0], a[1..];
      var first, second := Split(rest, sep), Split(b, sep);
      SplitAround(rest, b, sep);
      SplitCons(c, rest + [sep] + b, sep);
      assert a + [sep] + b == [c] + (rest + [sep] + b);
      SplitCons(c, rest, sep);
      assert [c] + rest == a;
      Assoc([""], first, second);
      IntoFirst(c, first, second);
    }
  }

  lemma IntoFirst(c: char, first: seq<string>, second: seq<string>)
    requires first != []
    ensures [[c] + (first + second)[0]] + (first + second)[1..] == [[c] + first[0]] + first[1..] + second
  {
    assert (first + second)[1..] == first[1..] + second;
  }

  lemma {:induction false} SplitWhole(s: string, sep: char)
    requires sep !in s
    ensures Split(s, sep) == [s]
  {
    if s != "" {
      SplitWhole(s[1..], sep);
      assert [s[0]] + s[1..] == s;
    }
  }

  lemma {:induction false} SplitOfJoin(parts: seq<string>, sep: char)
    requires |parts| > 0
    requires forall p :: p in parts ==> sep !in p
    ensures Split(Join(parts, sep), sep) == parts
  {
    SplitWhole(parts[0], sep);
    if |parts| > 1 {
      SplitAround(parts[0], Join(parts[1..], sep), sep);
      SplitOfJoin(parts[1..], sep);
    }
  }

  lemma {:induction false} JoinOfSplit(s: string, sep: char)
    ensures Join(Split(s, sep), sep) == s
  {
    if s != "" {
      JoinOfSplit(s[1..], sep);
      var rest := Split(s[1..], sep);
      if s[0] != sep {
        var glued := [[s[0]] + rest[0]] + rest[1..];
        assert glued[1..] == rest[1..];
      } else {
        assert ([""] + rest)[1..] == rest;
      }
    }
  }

  // ----- trim() and prefixes -----

  predicate IsWhite(c: char)
  {
    '\U{0009}' <= c <= '\U{000D}' || c == ' ' || c == '\U{0085}' || c == '\U{00A0}' || c == '\U{1680}'
    || '\U{2000}' <= c <= '\U{200A}' || c == '\U{2028}' || c == '\U{2029}' || c == '\U{202F}'
    || c == '\U{205F}' || c == '\U{3000}'
  }

  function TrimStart(s: string): (r: string)
    ensures |r| <= |s| && (r == "" || !IsWhite(r[0]))
  {
    if s != "" && IsWhite(s[0]) then TrimStart(s[1..]) else s
  }

  function TrimEnd(s: string): string
  {
    if s != "" && IsWhite(s[|s| - 1]) then TrimEnd(s[..|s| - 1]) else s
  }

  function Trim(s: string): string
  {
    TrimEnd(TrimStart(s))
  }

  lemma {:induction false} TrimEndIsPrefix(s: string)
    ensures TrimEnd(s) <= s
  {
    if s != "" && IsWhite(s[|s| - 1]) {
      TrimEndIsPrefix(s[..|s| - 1]);
    }
  }

  /** Trimming at the end stops at the last character that is no blank. */
  lemma {:induction false} TrimEndKeeps(prefix: string, text: string)
    requires prefix != "" && !IsWhite(prefix[|prefix| - 1])
    ensures prefix <= TrimEnd(prefix + text)
  {
    if text != "" {
      var shorter := text[..|text| - 1];
      assert (prefix + text)[..|prefix + text| - 1] == prefix + shorter;
      TrimEndKeeps(prefix, shorter);
    }
  }

  lemma {:induction false} TrimStartChars(s: string)
    ensures forall c :: c in TrimStart(s) ==> c in s
  {
    if s != "" && IsWhite(s[0]) {
      TrimStartChars(s[1..]);
    }
  }

  lemma TrimChars(s: string)
    ensures forall c :: c in Trim(s) ==> c in s
  {
    TrimStartChars(s);
    TrimEndIsPrefix(TrimStart(s));
  }

  predicate Tight(s: string)
  {
    s != "" && !IsWhite(s[0]) && !IsWhite(s[|s| - 1])
  }

  lemma TrimTight(s: string)
    requires Tight(s)
    ensures Trim(s) == s
  {
  }

  lemma TrimNewline(s: string)
    requires Tight(s)
    ensures Trim(s + "\n") == s
  {
    TrimDropsNewline(s);
  }

  /** A trimmed line ending in a newline is the trimmed line without it. */
  lemma {:induction false} TrimDropsNewline(s: string)
    ensures Trim(s + "\n") == Trim(s)
  {
    if s != "" && IsWhite(s[0]) {
      assert (s + "\n")[1..] == s[1..] + "\n";
      TrimDropsNewline(s[1..]);
      assert Trim(s + "\n") == Trim(s[1..] + "\n");
    } else if s == "" {
      assert s + "\n" == "\n";
      assert "\n"[1..] == "";
    } else {
      assert (s + "\n")[..|s|] == s;
    }
  }

  predicate StartsWith(s: string, prefix: string)
  {
    prefix <= s
  }

  function StripPrefix(s: string, prefix: string): Option<string>
  {
    if prefix <= s then Some(s[|prefix|..]) else None
  }

  // ----- decimal numbers -----

  function Digit(d: nat): char
    requires d < 10
  {
    "0123456789"[d]
  }

  function DigitValue(c: char): Option<nat>
  {
    if '0' <= c <= '9' then Some(c as int - '0' as int) else None
  }

  function Decimal(n: nat): (s: string)
    ensures s != ""
    ensures forall c :: c in s ==> '0' <= c <= '9'
  {
    if n < 10 then [Digit(n)] else Decimal(n / 10) + [Digit(n % 10)]
  }

  function ParseDigits(s: string): Option<nat>
  {
    if s == "" then Some(0)
    else
      match (ParseDigits(s[..|s| - 1]), DigitValue(s[|s| - 1]))
      case (Some(hi), Some(lo)) => Some(10 * hi + lo)
      case _ => None
  }

  /** `str::parse` for an unsigned integer whose largest value is `max`: an
      optional plus sign, at least one digit, and no overflow. */
  function ParseUnsigned(s: string, max: nat): (r: Option<nat>)
    ensures r.Some? ==> r.value <= max
  {
    var body := if |s| > 1 && s[0] == '+' then s[1..] else s;
    if body == "" then None
    else
      var n := ParseDigits(body);
      if n.Some? && n.value <= max then n else None
  }

  lemma {:induction false} ParseDigitsOfDecimal(n: nat)
    ensures ParseDigits(Decimal(n)) == Some(n)
  {
    if n >= 10 {
      ParseDigitsOfDecimal(n / 10);
      var s := Decimal(n);
      assert s[..|s| - 1] == Decimal(n / 10);
    } else {
      assert Decimal(n)[..0] == "";
    }
  }

  lemma ParseOfDecimal(n: nat, max: nat)
    ensures ParseUnsigned(Decimal(n), max) == if n <= max then Some(n) else None
  {
    var s := Decimal(n);
    assert s[0] in s;
    ParseDigitsOfDecimal(n);
    assert ParseDigits(s) == Some(n);
  }

  lemma ParseAfterPlus(n: nat, max: nat)
    ensures ParseUnsigned("+" + Decimal(n), max) == if n <= max then Some(n) else None
  {
    var s := "+" + Decimal(n);
    assert s[1..] == Decimal(n);
    ParseDigitsOfDecimal(n);
  }

  /** What is parsed is made of digits, after an optional plus sign. */
  lemma {:induction false} ParsedAreDigits(s: string)
    requires ParseDigits(s).Some?
    ensures forall c :: c in s ==> '0' <= c <= '9'
  {
    if s != "" {
      ParsedAreDigits(s[..|s| - 1]);
      assert s == s[..|s| - 1] + [s[|s| - 1]];
    }
  }

  lemma OnlyNumbersAreParsed(s: string, max: nat)
    requires ParseUnsigned(s, max).Some?
    ensures var body := if |s| > 1 && s[0] == '+' then s[1..] else s;
            body != "" && forall c :: c in body ==> '0' <= c <= '9'
  {
    ParsedAreDigits(if |s| > 1 && s[0] == '+' then s[1..] else s);
  }

  // ----- read_line on a stream -----

  /** One line of the stream up to and including its newline (or all of a stream
      that has none), and what stays unread. */
  function ReadLine(stream: string): (r: (string, string))
    ensures r.0 + r.1 == stream
  {
    if stream == "" then ("", "")
    else if stream[0] == '\n' then ("\n", stream[1..])
    else
      var (line, rest) := ReadLine(stream[1..]);
      ([stream[0]] + line, rest)
  }

  lemma {:induction false} ReadLineStops(line: string, tail: string)
    requires '\n' !in line
    ensures ReadLine(line + "\n" + tail) == (line + "\n", tail)
  {
    if line != "" {
      ReadLineStops(line[1..], tail);
      assert (line + "\n" + tail)[1..] == line[1..] + "\n" + tail;
      assert [line[0]] + (line[1..] + "\n") == line + "\n";
    } else {
      assert line + "\n" + tail == "\n" + tail;
    }
  }

  lemma {:induction false} ReadLineShape(stream: string)
    ensures var line := ReadLine(stream).0;
            '\n' !in line || (line[|line| - 1] == '\n' && '\n' !in line[..|line| - 1])
  {
    if stream != "" && stream[0] != '\n' {
      ReadLineShape(stream[1..]);
      var line := ReadLine(stream[1..]).0;
      if line != "" {
        assert ([stream[0]] + line)[..|line|] == [stream[0]] + line[..|line| - 1];
      }
    }
  }

  /** No newline survives reading one line and trimming it. */
  lemma TrimmedLineHasNoNewline(stream: string)
    ensures '\n' !in Trim(ReadLine(stream).0)
  {
    ReadLineShape(stream);
    var line := ReadLine(stream).0;
    if '\n' in line {
      var body := line[..|line| - 1];
      assert line == body + "\n";
      TrimDropsNewline(body);
      TrimChars(body);
    } else {
      TrimChars(line);
    }
  }
}
