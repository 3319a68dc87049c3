// The proxy's reading of the relay's HTTP response: an incremental search for
// the end of the head, the status line, the content type, and the body.

module ResponseHead {
  import opened Wrappers
  import opened Text
  import opened Bytes

  /** One result of reading the relay socket. Running out of results stands for
      end of stream (a read of zero bytes). */
  datatype Read = Data(bytes: seq<byte>) | Failed

  const CRLFCRLF: seq<byte> := [13, 10, 13, 10]

  // ----- the byte stream behind a series of reads -----

  /** The bytes that arrive before the stream ends or fails. */
  function Stream(chunks: seq<Read>): seq<byte>
  {
    if chunks == [] || chunks[0].Failed? then [] else chunks[0].bytes + Stream(chunks[1..])
  }

  predicate Fails(chunks: seq<Read>)
  {
    chunks != [] && (chunks[0].Failed? || Fails(chunks[1..]))
  }

  predicate HeadEndsAt(s: seq<byte>, p: nat)
  {
    p + 4 <= |s| && s[p..p + 4] == CRLFCRLF
  }

  /** p is where the first CRLFCRLF of s begins. */
  ghost predicate FirstHeadEnd(s: seq<byte>, p: nat)
  {
    HeadEndsAt(s, p) && forall q: nat :: q < p ==> !HeadEndsAt(s, q)
  }

  lemma FirstHeadEndIsUnique(s: seq<byte>, p: nat, q: nat)
    requires FirstHeadEnd(s, p) && FirstHeadEnd(s, q)
    ensures p == q
  {
    assert HeadEndsAt(s, p) && HeadEndsAt(s, q);
  }

  /** `windows(4).position(..)`. */
  method Position(buf: seq<byte>) returns (p: Option<nat>)
    ensures p.Some? ==> FirstHeadEnd(buf, p.value)
    ensures p.None? ==> forall q: nat :: !HeadEndsAt(buf, q)
  {
    var i: nat := 0;
    while i + 4 <= |buf|
      invariant forall q: nat :: q < i ==> !HeadEndsAt(buf, q)
      decreases |buf| - i
    {
      if buf[i..i + 4] == CRLFCRLF {
        return Some(i);
      }
      i := i + 1;
    }
    return None;
  }

  // ----- head -----

  datatype Head =
    | Complete(block: seq<byte>, leftover: seq<byte>)
    | NoHeadEnd
    | ReadFailed

  lemma {:induction false} StreamAppend(a: seq<Read>, b: seq<Read>)
    requires !Fails(a)
    ensures Stream(a + b) == Stream(a) + Stream(b)
    ensures Fails(a + b) == Fails(b)
  {
    if a == [] {
      assert a + b == b;
    } else {
      var rest := a[1..] + b;
      StreamAppend(a[1..], b);
      assert (a + b)[0] == a[0] && (a + b)[1..] == rest;
      calc {
        Stream(a + b);
        a[0].bytes + Stream(rest);
        a[0].bytes + (Stream(a[1..]) + Stream(b));
        { Assoc(a[0].bytes, Stream(a[1..]), Stream(b)); }
        a[0].bytes + Stream(a[1..]) + Stream(b);
        Stream(a) + Stream(b);
      }
    }
  }

  lemma {:induction false} StreamSnoc(a: seq<Read>, bytes: seq<byte>)
    requires !Fails(a)
    ensures !Fails(a + [Data(bytes)]) && Stream(a + [Data(bytes)]) == Stream(a) + bytes
  {
    StreamAppend(a, [Data(bytes)]);
    assert Stream([Data(bytes)]) == bytes + Stream([]);
  }

  /** A head end found in what has arrived so far is the one of the whole stream. */
  lemma FirstHeadEndExtends(s: seq<byte>, more: seq<byte>, p: nat)
    requires FirstHeadEnd(s, p)
    ensures FirstHeadEnd(s + more, p)
    ensures (s + more)[..p] == s[..p] && (s + more)[p + 4..] == s[p + 4..] + more
  {
    forall q: nat | q <= p ensures HeadEndsAt(s + more, q) == HeadEndsAt(s, q) {
      assert (s + more)[q..q + 4] == s[q..q + 4];
    }
  }

  /** Chunking independence: the outcome depends on the stream alone. The head
      block ends at the first CRLFCRLF of the whole stream, the leftover and the
      reads not yet made hold exactly what follows it, and without a CRLFCRLF the
      reader reports the failed read or the missing head end. */
  method ReadHead(chunks: seq<Read>) returns (head: Head, rest: seq<Read>)
    ensures head.Complete? <==> exists p: nat :: HeadEndsAt(Stream(chunks), p)
    ensures head.Complete? ==>
              && FirstHeadEnd(Stream(chunks), |head.block|)
              && head.block == Stream(chunks)[..|head.block|]
              && head.leftover + Stream(rest) == Stream(chunks)[|head.block| + 4..]
              && Fails(rest) == Fails(chunks)
    ensures !head.Complete? ==> head == if Fails(chunks) then ReadFailed else NoHeadEnd
  {
    var buf: seq<byte> := [];
    var i: nat := 0;
    var found: Option<nat> := None;
    while i < |chunks| && found.None?
      invariant i <= |chunks|
      invariant !Fails(chunks[..i]) && Stream(chunks[..i]) == buf
      invariant found.Some? ==> FirstHeadEnd(buf, found.value)
      invariant found.None? ==> forall q: nat :: !HeadEndsAt(buf, q)
      decreases |chunks| - i, if found.None? then 1 else 0
    {
      assert chunks == chunks[..i] + chunks[i..];
      if chunks[i].Failed? {
        StreamAppend(chunks[..i], chunks[i..]);
        assert Stream(chunks) == buf + Stream(chunks[i..]) == buf;
        return ReadFailed, chunks[i..];
      }
      StreamSnoc(chunks[..i], chunks[i].bytes);
      assert chunks[..i + 1] == chunks[..i] + [chunks[i]];
      buf := buf + chunks[i].bytes;
      i := i + 1;
      found := Position(buf);
    }
    rest := chunks[i..];
    assert chunks == chunks[..i] + rest;
    StreamAppend(chunks[..i], rest);
    if found.None? {
      assert Stream(chunks) == buf + Stream(rest) == buf;
      return NoHeadEnd, rest;
    }
    FirstHeadEndExtends(buf, Stream(rest), found.value);
    assert HeadEndsAt(Stream(chunks), found.value);
    return Complete(buf[..found.value], buf[found.value + 4..]), rest;
  }

  // ----- status line and header fields -----

  /** `split("\r\n")` */
  function Lines(s: string): (lines: seq<string>)
    ensures |lines| >= 1
  {
    if |s| >= 2 && s[0] == '\r' && s[1] == '\n' then [""] + Lines(s[2..])
    else if s == "" then [""]
    else
      var rest := Lines(s[1..]);
      [[s[0]] + rest[0]] + rest[1..]
  }

  function JoinLines(lines: seq<string>): string
  {
    if lines == [] then "" else if |lines| == 1 then lines[0] else lines[0] + "\r\n" + JoinLines(lines[1..])
  }

  lemma LinesCons(c: char, s: string)
    requires !(c == '\r' && s != "" && s[0] == '\n')
    ensures Lines([c] + s) == [[c] + Lines(s)[0]] + Lines(s)[1..]
  {
    assert ([c] + s)[1..] == s;
  }

  lemma LinesBreak(s: string)
    ensures Lines("\r\n" + s) == [""] + Lines(s)
  {
    assert ("\r\n" + s)[2..] == s;
  }

  lemma {:induction false} LinesOfFirst(line: string, more: string)
    requires '\r' !in line
    ensures Lines(line + "\r\n" + more) == [line] + Lines(more)
  {
    if line == "" {
      LinesBreak(more);
      assert "" + "\r\n" + more == "\r\n" + more;
    } else {
      var rest := line[1..] + "\r\n" + more;
      LinesOfFirst(line[1..], more);
      LinesCons(line[0], rest);
      assert line + "\r\n" + more == [line[0]] + rest;
      assert [line[0]] + line[1..] == line;
    }
  }

  lemma {:induction false} LinesOfOne(line: string)
    requires '\r' !in line
    ensures Lines(line) == [line]
  {
    if line != "" {
      LinesOfOne(line[1..]);
      LinesCons(line[0], line[1..]);
      assert [line[0]] + line[1..] == line;
    }
  }

  /** A head put together from lines is taken apart into those lines. */
  lemma {:induction false} LinesOfHead(lines: seq<string>)
    requires lines != [] && forall l :: l in lines ==> '\r' !in l
    ensures Lines(JoinLines(lines)) == lines
  {
    assert lines[0] in lines;
    if |lines| == 1 {
      LinesOfOne(lines[0]);
    } else {
      LinesOfHead(lines[1..]);
      LinesOfFirst(lines[0], JoinLines(lines[1..]));
    }
  }

  /** `split_whitespace()` */
  function Words(s: string): seq<string>
    decreases |s|
  {
    var t := TrimStart(s);
    if t == "" then [] else
      var n := WordLength(t);
      [t[..n]] + Words(t[n..])
  }

  function WordLength(s: string): (n: nat)
    ensures n <= |s| && (s != "" && !IsWhite(s[0]) ==> n > 0)
  {
    if s == "" || IsWhite(s[0]) then 0 else 1 + WordLength(s[1..])
  }

  /** The number in the status line, or 502. */
  function StatusCode(lines: seq<string>): nat
    requires |lines| >= 1
  {
    var words := Words(lines[0]);
    if |words| < 2 then 502
    else
      var n := ParseUnsigned(words[1], U16_MAX);
      if n.Some? then n.value else 502
  }

  /** The status sent on: a number outside 100..999 becomes 502. */
  function SentStatus(code: nat): nat
  {
    if 100 <= code <= 999 then code else 502
  }

  lemma {:induction false} WordLengthOf(w: string, rest: string)
    requires forall c :: c in w ==> !IsWhite(c)
    requires rest == "" || IsWhite(rest[0])
    ensures WordLength(w + rest) == |w|
  {
    if w == "" {
      assert w + rest == rest;
    } else {
      assert (w + rest)[1..] == w[1..] + rest;
      WordLengthOf(w[1..], rest);
    }
  }

  lemma FirstWord(w: string, rest: string)
    requires w != "" && forall c :: c in w ==> !IsWhite(c)
    requires rest == "" || IsWhite(rest[0])
    ensures Words(w + rest) == [w] + Words(rest)
  {
    WordLengthOf(w, rest);
    assert w[0] in w;
    assert TrimStart(w + rest) == w + rest;
    assert (w + rest)[..|w|] == w && (w + rest)[|w|..] == rest;
  }

  /** A status line yields its number, and 502 when that is out of range. */
  lemma StatusOfStatusLine(version: string, code: nat, tail: string, more: seq<string>)
    requires version != "" && (forall c :: c in version ==> !IsWhite(c)) && (tail == "" || tail[0] == ' ')
    ensures StatusCode([version + " " + Decimal(code) + tail] + more) == if code <= U16_MAX then code else 502
  {
    var rest := Decimal(code) + tail;
    assert version + " " + Decimal(code) + tail == version + (" " + rest);
    FirstWord(version, " " + rest);
    FirstWord(Decimal(code), tail);
    assert (" " + rest)[1..] == rest;
    assert TrimStart(" " + rest) == TrimStart(rest);
    assert Words(" " + rest) == Words(rest);
    ParseOfDecimal(code, U16_MAX);
  }

  lemma LineBeforeBreak(line: string, more: string)
    requires '\r' !in line && (more == "" || StartsWith(more, "\r\n"))
    ensures Lines(line + more)[0] == line
  {
    if more == "" {
      LinesOfOne(line);
      assert line + more == line;
    } else {
      LinesOfFirst(line, more[2..]);
      assert line + more == line + "\r\n" + more[2..];
    }
  }

  /** A text whose first line is a version, the number n and what may follow it (section 4
      of RFC 9112). */
  predicate StatusLine(text: string, version: string, n: nat, tail: string, more: string)
  {
    && version != "" && (forall c :: c in version ==> !IsWhite(c))
    && (tail == "" || tail[0] == ' ') && '\r' !in tail
    && (more == "" || StartsWith(more, "\r\n"))
    && text == version + " " + Decimal(n) + tail + more
  }

  ghost predicate HasStatus(text: string, n: nat)
  {
    exists version, tail, more :: StatusLine(text, version, n, tail, more)
  }

  lemma StatusOfText(text: string, n: nat)
    requires HasStatus(text, n)
    ensures StatusCode(Lines(text)) == if n <= U16_MAX then n else 502
  {
    var version, tail, more :| StatusLine(text, version, n, tail, more);
    var line := version + " " + Decimal(n) + tail;
    assert forall c :: c in line ==> c in version || c == ' ' || c in Decimal(n) || c in tail;
    LineBeforeBreak(line, more);
    StatusOfStatusLine(version, n, tail, []);
    assert [line] + [] == [line];
  }

  /** A text whose first line has no digit in it. */
  predicate HasNoNumber(text: string)
  {
    forall c :: c in Lines(text)[0] ==> !('0' <= c <= '9')
  }

  lemma {:induction false} WordsAreParts(s: string)
    ensures forall w, c :: w in Words(s) && c in w ==> c in s
    ensures forall w :: w in Words(s) ==> w != ""
    decreases |s|
  {
    var t := TrimStart(s);
    TrimStartChars(s);
    if t != "" {
      WordsAreParts(t[WordLength(t)..]);
    }
  }

  lemma NoNumberNoStatus(text: string)
    requires HasNoNumber(text)
    ensures StatusCode(Lines(text)) == 502
  {
    var words := Words(Lines(text)[0]);
    WordsAreParts(Lines(text)[0]);
    if |words| >= 2 {
      assert words[1] in words;
      NoDigitsNoNumber(words[1]);
    }
  }

  lemma NoDigitsNoNumber(s: string)
    requires s != "" && forall c :: c in s ==> !('0' <= c <= '9')
    ensures ParseUnsigned(s, U16_MAX).None?
  {
    assert s[|s| - 1] in s;
  }

  predicate Billable(code: nat)
  {
    200 <= code < 300
  }

  function Lower(s: string): string
  {
    seq(|s|, i requires 0 <= i < |s| =>
      if 'A' <= s[i] <= 'Z' then (s[i] as int + 32) as char else s[i])
  }

  function FirstColon(s: string): (n: nat)
    ensures n <= |s|
  {
    if s == "" || s[0] == ':' then 0 else 1 + FirstColon(s[1..])
  }

  /** The value of a Content-Type field line. (No character outside ASCII has a
      lower-case form in that name, so ASCII case folding is exact here.) */
  function ContentTypeField(line: string): Option<string>
  {
    var c := FirstColon(line);
    if c < |line| && Lower(Trim(line[..c])) == "content-type" then Some(Trim(line[c + 1..])) else None
  }

  lemma {:induction false} FirstColonAfter(name: string, rest: string)
    requires ':' !in name
    ensures FirstColon(name + ":" + rest) == |name|
  {
    if name != "" {
      FirstColonAfter(name[1..], rest);
      assert (name + ":" + rest)[1..] == name[1..] + ":" + rest;
    }
  }

  /** The same text up to the case of its letters. */
  predicate SameButForCase(a: string, b: string)
  {
    && |a| == |b|
    && forall i :: 0 <= i < |a| ==>
         a[i] == b[i]
         || ('A' <= a[i] <= 'Z' && a[i] as int + 32 == b[i] as int)
         || ('A' <= b[i] <= 'Z' && b[i] as int + 32 == a[i] as int)
  }

  lemma LowerIgnoresCase(a: string, b: string)
    ensures Lower(a) == Lower(b) <==> SameButForCase(a, b)
  {
    if Lower(a) == Lower(b) {
      forall i | 0 <= i < |a|
        ensures a[i] == b[i] || ('A' <= a[i] <= 'Z' && a[i] as int + 32 == b[i] as int)
                || ('A' <= b[i] <= 'Z' && b[i] as int + 32 == a[i] as int)
      {
        assert Lower(a)[i] == Lower(b)[i];
      }
    }
  }

  /** A field line (section 5 of RFC 9112) is taken for a content type exactly by its
      name, in any case and between any blanks, and its value is trimmed. */
  lemma ContentTypeOfField(name: string, value: string)
    requires ':' !in name
    ensures ContentTypeField(name + ":" + value)
            == if SameButForCase(Trim(name), "Content-Type") then Some(Trim(value)) else None
  {
    var line := name + ":" + value;
    FirstColonAfter(name, value);
    assert line[..|name|] == name && line[|name| + 1..] == value;
    LowerIgnoresCase(Trim(name), "Content-Type");
    assert Lower("Content-Type") == "content-type";
  }

  const DEFAULT_TYPE := "text/event-stream"

  /** Field line i is a Content-Type line with value v, and none follows it. */
  ghost predicate LastFieldAt(lines: seq<string>, i: nat, v: string)
  {
    && 1 <= i < |lines| && ContentTypeField(lines[i]) == Some(v)
    && forall j :: i < j < |lines| ==> ContentTypeField(lines[j]).None?
  }

  /** v is the value of the last Content-Type field line, or the default when no
      field line is one. The status line does not count. */
  ghost predicate LastContentType(lines: seq<string>, v: string)
  {
    || (v == DEFAULT_TYPE && forall i :: 1 <= i < |lines| ==> ContentTypeField(lines[i]).None?)
    || (exists i :: LastFieldAt(lines, i, v))
  }

  lemma LastContentTypeIsUnique(lines: seq<string>, v: string, w: string)
    requires LastContentType(lines, v) && LastContentType(lines, w)
    ensures v == w
  {
    if i :| LastFieldAt(lines, i, v) {
      if k :| LastFieldAt(lines, k, w) {
        assert i == k;
      }
    }
  }

  lemma LastContentTypeStep(seen: seq<string>, line: string, v: string)
    requires |seen| >= 1 && LastContentType(seen, v)
    ensures var field := ContentTypeField(line);
            LastContentType(seen + [line], if field.Some? then field.value else v)
  {
    var lines := seen + [line];
    var field := ContentTypeField(line);
    if field.Some? {
      assert LastFieldAt(lines, |seen|, field.value);
    } else if i :| LastFieldAt(seen, i, v) {
      assert LastFieldAt(lines, i, v);
    }
  }

  method Overwritten(ghost seen: seq<string>, line: string, before: string) returns (v: string)
    requires |seen| >= 1 && LastContentType(seen, before)
    ensures LastContentType(seen + [line], v)
  {
    LastContentTypeStep(seen, line, before);
    var field := ContentTypeField(line);
    v := if field.Some? then field.value else before;
  }

  method ContentType(lines: seq<string>) returns (v: string)
    requires |lines| >= 1
    ensures LastContentType(lines, v)
  {
    v := DEFAULT_TYPE;
    for i := 1 to |lines|
      invariant LastContentType(lines[..i], v)
    {
      v := Overwritten(lines[..i], lines[i], v);
      assert lines[..i + 1] == lines[..i] + [lines[i]];
    }
    assert lines[..|lines|] == lines;
  }

  // ----- the whole reply -----

  /** The loop that streams the rest of the body, read by read. */
  method CopyBody(chunks: seq<Read>) returns (sent: seq<Read>)
    ensures Stream(sent) == Stream(chunks) && Fails(sent) == Fails(chunks)
    ensures sent <= chunks
  {
    sent := [];
    var i := 0;
    while i < |chunks|
      invariant 0 <= i <= |chunks| && sent == chunks[..i] && !Fails(sent)
    {
      assert chunks == chunks[..i] + chunks[i..];
      StreamAppend(sent, chunks[i..]);
      assert chunks[..i + 1] == sent + [chunks[i]];
      StreamAppend(sent, [chunks[i]]);
      sent := sent + [chunks[i]];
      if chunks[i].Failed? {
        return;
      }
      i := i + 1;
    }
    assert chunks[..i] == chunks;
  }

  datatype Reply =
    | Response(status: nat, billed: bool, contentType: string, body: seq<Read>)
    | UpstreamNoHeadEnd
    | UpstreamReadFailed

  /** Whether a relay answer counts as a success that is paid for. */
  ghost predicate Successful(stream: seq<byte>, decode: seq<byte> -> string)
  {
    exists p: nat :: FirstHeadEnd(stream, p) && Billable(StatusCode(Lines(decode(stream[..p]))))
  }

  lemma SuccessIsDecidedByTheHead(stream: seq<byte>, decode: seq<byte> -> string, p: nat)
    requires FirstHeadEnd(stream, p)
    ensures Successful(stream, decode) <==> Billable(StatusCode(Lines(decode(stream[..p]))))
  {
    if q: nat :| FirstHeadEnd(stream, q) && Billable(StatusCode(Lines(decode(stream[..q])))) {
      FirstHeadEndIsUnique(stream, p, q);
    }
  }

  /** What a client of the proxy receives is a function of the relay's byte stream
      alone: any two ways of cutting the stream into reads give replies with the
      same status, billing decision, content type and body bytes. `decode` is the
      lossy UTF-8 decoder. */
  method RelayReply(chunks: seq<Read>, decode: seq<byte> -> string) returns (reply: Reply)
    ensures reply.Response? <==> exists p: nat :: FirstHeadEnd(Stream(chunks), p)
    ensures (forall p: nat :: !HeadEndsAt(Stream(chunks), p)) ==>
              reply == if Fails(chunks) then UpstreamReadFailed else UpstreamNoHeadEnd
    ensures forall p: nat :: FirstHeadEnd(Stream(chunks), p) ==>
              var lines := Lines(decode(Stream(chunks)[..p]));
              && reply.Response?
              && reply.status == SentStatus(StatusCode(lines))
              && (reply.billed <==> Billable(StatusCode(lines)))
              && LastContentType(lines, reply.contentType)
              && Stream(reply.body) == Stream(chunks)[p + 4..]
              && Fails(reply.body) == Fails(chunks)
    ensures forall p: nat, n: nat :: FirstHeadEnd(Stream(chunks), p) && HasStatus(decode(Stream(chunks)[..p]), n) ==>
              && reply.Response? && (reply.billed <==> n / 100 == 2)
              && reply.status == (if 100 <= n <= 999 then n else 502)
    ensures forall p: nat :: FirstHeadEnd(Stream(chunks), p) && HasNoNumber(decode(Stream(chunks)[..p])) ==>
              reply.Response? && !reply.billed && reply.status == 502
  {
    var head, rest := ReadHead(chunks);
    match head {
      case ReadFailed =>
        reply := UpstreamReadFailed;
      case NoHeadEnd =>
        reply := UpstreamNoHeadEnd;
      case Complete(block, leftover) =>
        var lines := Lines(decode(block));
        var code := StatusCode(lines);
        var contentType := ContentType(lines);
        var tail := CopyBody(rest);
        var first := if leftover == [] then [] else [Data(leftover)];
        StreamAppend(first, tail);
        assert Stream(first) == leftover by {
          if leftover != [] {
            assert Stream([Data(leftover)]) == leftover + Stream([]);
          }
        }
        reply := Response(SentStatus(code), Billable(code), contentType, first + tail);
        forall p: nat | FirstHeadEnd(Stream(chunks), p) ensures p == |block| {
          FirstHeadEndIsUnique(Stream(chunks), p, |block|);
        }
        PaidIffSuccess(decode(block));
    }
  }

  /** The numbers that are paid for, and the status that is sent on. */
  lemma PaidIffSuccess(text: string)
    ensures var code := StatusCode(Lines(text));
            && (forall n: nat :: HasStatus(text, n) ==>
                  (Billable(code) <==> n / 100 == 2) && SentStatus(code) == if 100 <= n <= 999 then n else 502)
            && (HasNoNumber(text) ==> !Billable(code) && SentStatus(code) == 502)
  {
    forall n: nat | HasStatus(text, n) ensures StatusCode(Lines(text)) == if n <= U16_MAX then n else 502 {
      StatusOfText(text, n);
    }
    if HasNoNumber(text) {
      NoNumberNoStatus(text);
    }
  }

  /** The numbers decide, at the level of the stream. */
  lemma StatusDecides(stream: seq<byte>, decode: seq<byte> -> string, p: nat)
    requires FirstHeadEnd(stream, p)
    ensures var text := decode(stream[..p]);
            && (forall n: nat :: HasStatus(text, n) ==>
                  && (Successful(stream, decode) <==> n / 100 == 2)
                  && SentStatus(StatusCode(Lines(text))) == if 100 <= n <= 999 then n else 502)
            && (HasNoNumber(text) ==> !Successful(stream, decode))
  {
    SuccessIsDecidedByTheHead(stream, decode, p);
    PaidIffSuccess(decode(stream[..p]));
  }
}
