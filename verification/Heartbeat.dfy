// The worker's heartbeat: PING, the master's reply lines, and the slave lists
// that reach the local llama-server.

module Heartbeat {
  import opened Wrappers
  import opened Text
  import opened Workers

  // ----- what the master writes in reply to a PING -----

  datatype Reply = NotFound | Pong(credits: u64, update: Option<seq<string>>)

  const CREDITS_PREFIX := "PONG:CREDITS="
  const UPDATE_PREFIX := "UPDATE_SLAVES:"

  function ReplyText(r: Reply): string
  {
    match r
    case NotFound => "ERROR:worker_not_found\n"
    case Pong(credits, None) => CREDITS_PREFIX + Decimal(credits) + "\n"
    case Pong(credits, Some(slaves)) =>
      CREDITS_PREFIX + Decimal(credits) + "\n" + UPDATE_PREFIX + Join(slaves, ',') + "\n"
  }

  function ReplyLines(r: Reply): (lines: seq<string>)
    ensures 1 <= |lines| <= 2
  {
    match r
    case NotFound => ["ERROR:worker_not_found"]
    case Pong(credits, None) => [CREDITS_PREFIX + Decimal(credits)]
    case Pong(credits, Some(slaves)) => [CREDITS_PREFIX + Decimal(credits), UPDATE_PREFIX + Join(slaves, ',')]
  }

  function TextOf(lines: seq<string>): string
  {
    if lines == [] then "" else lines[0] + "\n" + TextOf(lines[1..])
  }

  lemma TextOfAppend(line: string, lines: seq<string>)
    ensures TextOf([line] + lines) == line + "\n" + TextOf(lines)
  {
    assert ([line] + lines)[1..] == lines;
  }

  lemma ReplyIsItsText(r: Reply)
    ensures ReplyText(r) == TextOf(ReplyLines(r))
  {
    var lines := ReplyLines(r);
    assert TextOf([]) == "";
    if |lines| == 2 {
      assert lines == [lines[0]] + [lines[1]];
      TextOfAppend(lines[0], [lines[1]]);
      TextOfAppend(lines[1], []);
    } else {
      assert lines == [lines[0]] + [];
      TextOfAppend(lines[0], []);
    }
  }

  /** Reading line by line gives a text of newline-free lines back. */
  lemma ReadFirstLine(lines: seq<string>, tail: string)
    requires lines != [] && '\n' !in lines[0]
    ensures ReadLine(TextOf(lines) + tail) == (lines[0] + "\n", TextOf(lines[1..]) + tail)
  {
    assert TextOf(lines) + tail == lines[0] + "\n" + (TextOf(lines[1..]) + tail);
    ReadLineStops(lines[0], TextOf(lines[1..]) + tail);
  }

  /** The bytes of a reply are its lines, and they are read back in order; trimming
      makes up for the newline each of them ends with. */
  lemma ReplyIsItsLines(r: Reply, tail: string)
    requires r.Pong? && r.update.Some? ==> '\n' !in Join(r.update.value, ',')
    ensures var lines := ReplyLines(r);
            && ReadLine(ReplyText(r) + tail) == (lines[0] + "\n", TextOf(lines[1..]) + tail)
            && (|lines| == 2 ==> ReadLine(TextOf(lines[1..]) + tail) == (lines[1] + "\n", TextOf([]) + tail))
            && forall line :: line in lines ==> Trim(line + "\n") == Trim(line)
  {
    var lines := ReplyLines(r);
    ReplyIsItsText(r);
    ReadFirstLine(lines, tail);
    if |lines| == 2 {
      assert lines[1..][1..] == [];
      ReadFirstLine(lines[1..], tail);
    }
    forall line | line in lines ensures Trim(line + "\n") == Trim(line) {
      TrimDropsNewline(line);
    }
  }

  // ----- the worker's reader -----

  /** What one heartbeat does with a line, read first or as the extra line. */
  function Payload(line: string): Option<string>
  {
    StripPrefix(Trim(line), UPDATE_PREFIX)
  }

  function Payloads(lines: seq<string>): seq<string>
  {
    if lines == [] then []
    else
      var p := Payload(lines[0]);
      (if p.Some? then [p.value] else []) + Payloads(lines[1..])
  }

  function CreditsIn(line: string, before: u64): u64
  {
    var text := StripPrefix(Trim(line), CREDITS_PREFIX);
    var n := if text.Some? then ParseUnsigned(text.value, U64_MAX) else None;
    if n.Some? then n.value else before
  }

  /** `unread` are the lines sent by the master that the worker has not read. */
  datatype Reader = Reader(unread: seq<string>, consumed: seq<string>, forwarded: seq<string>, credits: u64)

  function Consume(c: Reader): Reader
    requires c.unread != []
  {
    var p := Payload(c.unread[0]);
    c.(unread := c.unread[1..], consumed := c.consumed + [c.unread[0]],
       forwarded := if p.Some? then c.forwarded + [p.value] else c.forwarded)
  }

  /** One heartbeat: the master answers the PING with `reply`; `inTime` says whether
      the line after the first arrives before the 100 ms are over. */
  function Beat(c: Reader, reply: seq<string>, inTime: bool): Reader
    requires reply != []
  {
    var sent := c.(unread := c.unread + reply);
    var first := sent.unread[0];
    var read := Consume(sent);
    if StartsWith(Trim(first), "PONG") then
      var counted := read.(credits := CreditsIn(first, c.credits));
      if counted.unread != [] && inTime then Consume(counted) else counted
    else read
  }

  class MasterConnection {
    var unread: seq<string>
    var creditsTracker: u64
    var slavesSent: seq<string>
    ghost var consumed: seq<string>

    ghost function View(): Reader
      reads this
    {
      Reader(unread, consumed, slavesSent, creditsTracker)
    }

    constructor (credits: u64)
      ensures View() == Reader([], [], [], credits)
    {
      unread, creditsTracker, slavesSent, consumed := [], credits, [], [];
    }

    method ReadLine() returns (line: string)
      requires unread != []
      modifies this`unread, this`consumed
      ensures line == old(unread)[0] && unread == old(unread)[1..] && consumed == old(consumed) + [line]
    {
      line := unread[0];
      unread := unread[1..];
      consumed := consumed + [line];
    }

    method Heartbeat(reply: seq<string>, inTime: bool)
      requires reply != []
      modifies this
      ensures View() == Beat(old(View()), reply, inTime)
    {
      unread := unread + reply;
      var response := ReadLine();
      var first := Trim(response);
      if StartsWith(first, "PONG") {
        var creds := StripPrefix(first, CREDITS_PREFIX);
        if creds.Some? {
          var n := ParseUnsigned(creds.value, U64_MAX);
          if n.Some? {
            creditsTracker := n.value;
          }
        }
        PongHasNoPayload(response);
        if unread != [] && inTime {
          var extra := ReadLine();
          var slaves := StripPrefix(Trim(extra), UPDATE_PREFIX);
          if slaves.Some? {
            slavesSent := slavesSent + [slaves.value];
          }
        }
      } else {
        // The source also tests for "PONG:UPDATE_SLAVES:" here, which the branch
        // above has already taken.
        var slaves := StripPrefix(first, UPDATE_PREFIX);
        if slaves.Some? {
          slavesSent := slavesSent + [slaves.value];
        }
      }
    }
  }

  // ----- every timing -----

  datatype Round = Round(reply: Reply, inTime: bool)

  /** A reply has arrived in full by the time of the next PING: a line that was
      unread before this PING is there when the extra read looks for it. */
  predicate Prompt(c: Reader, r: Round)
  {
    |c.unread| >= 2 ==> r.inTime
  }

  function Beats(c: Reader, rounds: seq<Round>): Reader
  {
    if rounds == [] then c
    else
      var n := |rounds| - 1;
      Beat(Beats(c, rounds[..n]), ReplyLines(rounds[n].reply), rounds[n].inTime)
  }

  ghost predicate AllPrompt(c: Reader, rounds: seq<Round>)
  {
    forall n {:trigger rounds[n]} :: 0 <= n < |rounds| ==> Prompt(Beats(c, rounds[..n]), rounds[n])
  }

  function Sent(rounds: seq<Round>): seq<string>
  {
    if rounds == [] then []
    else Sent(rounds[..|rounds| - 1]) + ReplyLines(rounds[|rounds| - 1].reply)
  }

  predicate IsSuffix(a: seq<string>, b: seq<string>)
  {
    |a| <= |b| && a == b[|b| - |a|..]
  }

  predicate IsPong(line: string)
  {
    StartsWith(Trim(line), "PONG")
  }

  lemma CreditsLineIsPong(credits: u64)
    ensures IsPong(CREDITS_PREFIX + Decimal(credits))
  {
    var line := CREDITS_PREFIX + Decimal(credits);
    assert Decimal(credits)[|Decimal(credits)| - 1] in Decimal(credits);
    assert line[|line| - 1] == Decimal(credits)[|Decimal(credits)| - 1];
    TrimTight(line);
  }

  lemma UnreadAfterBeat(c: Reader, reply: seq<string>, inTime: bool)
    requires reply != []
    ensures var all := c.unread + reply;
            Beat(c, reply, inTime).unread == if IsPong(all[0]) && |all| > 1 && inTime then all[2..] else all[1..]
  {
    assert (c.unread + reply)[1..] != [] ==> (c.unread + reply)[1..][1..] == (c.unread + reply)[2..];
  }

  lemma DropFront(a: seq<string>, b: seq<string>, n: nat)
    requires |a| <= n <= |a| + |b|
    ensures IsSuffix((a + b)[n..], b)
  {
    assert (a + b)[n..] == b[n - |a|..];
  }

  lemma BeatLeavesASuffix(c: Reader, reply: seq<string>, inTime: bool, previous: seq<string>)
    requires 1 <= |reply| <= 2 && |previous| <= 2 && (|previous| == 2 ==> IsPong(previous[0]))
    requires IsSuffix(c.unread, previous) && (|c.unread| >= 2 ==> inTime)
    ensures IsSuffix(Beat(c, reply, inTime).unread, reply)
  {
    UnreadAfterBeat(c, reply, inTime);
    var all := c.unread + reply;
    if |c.unread| == 2 {
      assert all[0] == c.unread[0] == previous[0];
      DropFront(c.unread, reply, 2);
    } else if IsPong(all[0]) && |all| > 1 && inTime {
      DropFront(c.unread, reply, 2);
    } else {
      DropFront(c.unread, reply, 1);
    }
  }

  lemma TwoLineRepliesStartWithPong(r: Reply)
    ensures |ReplyLines(r)| == 2 ==> IsPong(ReplyLines(r)[0])
  {
    if r.Pong? {
      CreditsLineIsPong(r.credits);
    }
  }

  lemma PromptPrefix(c: Reader, rounds: seq<Round>)
    requires rounds != [] && AllPrompt(c, rounds)
    ensures AllPrompt(c, rounds[..|rounds| - 1])
  {
    var front := rounds[..|rounds| - 1];
    forall k | 0 <= k < |front| ensures Prompt(Beats(c, front[..k]), front[k]) {
      assert front[..k] == rounds[..k] && front[k] == rounds[k];
    }
  }

  /** Under prompt reading, the unread lines are a suffix of the latest reply. */
  lemma {:induction false} NeverMoreThanOneReplyBehind(c: Reader, rounds: seq<Round>)
    requires c.unread == [] && rounds != [] && AllPrompt(c, rounds)
    ensures IsSuffix(Beats(c, rounds).unread, ReplyLines(rounds[|rounds| - 1].reply))
  {
    var n := |rounds| - 1;
    assert Prompt(Beats(c, rounds[..n]), rounds[n]);
    if n == 0 {
      BeatLeavesASuffix(c, ReplyLines(rounds[0].reply), rounds[0].inTime, []);
    } else {
      PromptPrefix(c, rounds);
      NeverMoreThanOneReplyBehind(c, rounds[..n]);
      var previous := rounds[n - 1].reply;
      TwoLineRepliesStartWithPong(previous);
      BeatLeavesASuffix(Beats(c, rounds[..n]), ReplyLines(rounds[n].reply), rounds[n].inTime, ReplyLines(previous));
    }
  }

  /** Before every PING the unread lines are a suffix of the master's latest reply. */
  ghost predicate AtMostOneReplyBehind(c: Reader, rounds: seq<Round>)
  {
    forall n :: 1 <= n <= |rounds| ==> IsSuffix(Beats(c, rounds[..n]).unread, ReplyLines(rounds[n - 1].reply))
  }

  lemma BeatsPrefix(c: Reader, rounds: seq<Round>, n: nat)
    requires n < |rounds|
    ensures Beats(c, rounds[..n + 1]) == Beat(Beats(c, rounds[..n]), ReplyLines(rounds[n].reply), rounds[n].inTime)
  {
    assert rounds[..n + 1][..n] == rounds[..n];
  }

  lemma UnpromptBeatFallsBehind(c: Reader, reply: seq<string>, inTime: bool)
    requires reply != [] && |c.unread| >= 2 && !inTime
    ensures !IsSuffix(Beat(c, reply, inTime).unread, reply)
  {
    UnreadAfterBeat(c, reply, inTime);
  }

  /** The reader is never more than one reply behind, for every timing, exactly when
      at each PING that finds two lines unread the second is read in time. */
  lemma AtMostOneReplyBehindIffPrompt(c: Reader, rounds: seq<Round>)
    requires c.unread == []
    ensures AtMostOneReplyBehind(c, rounds) <==> AllPrompt(c, rounds)
  {
    if AllPrompt(c, rounds) {
      forall n | 1 <= n <= |rounds| ensures IsSuffix(Beats(c, rounds[..n]).unread, ReplyLines(rounds[n - 1].reply)) {
        var front := rounds[..n];
        forall k | 0 <= k < |front| ensures Prompt(Beats(c, front[..k]), front[k]) {
          assert front[..k] == rounds[..k] && front[k] == rounds[k];
        }
        NeverMoreThanOneReplyBehind(c, front);
      }
    }
    if n :| 0 <= n < |rounds| && !Prompt(Beats(c, rounds[..n]), rounds[n]) {
      BeatsPrefix(c, rounds, n);
      UnpromptBeatFallsBehind(Beats(c, rounds[..n]), ReplyLines(rounds[n].reply), rounds[n].inTime);
      assert rounds[..n + 1] == rounds[..n + 1] && rounds[n + 1 - 1] == rounds[n];
    }
  }

  lemma {:induction false} PayloadsSnoc(lines: seq<string>, line: string)
    ensures Payloads(lines + [line])
            == Payloads(lines) + (if Payload(line).Some? then [Payload(line).value] else [])
  {
    if lines == [] {
      assert [] + [line] == [line];
      assert [line][1..] == [];
    } else {
      PayloadsSnoc(lines[1..], line);
      assert (lines + [line])[1..] == lines[1..] + [line];
    }
  }

  lemma {:induction false} PayloadsAppend(a: seq<string>, b: seq<string>)
    ensures Payloads(a + b) == Payloads(a) + Payloads(b)
  {
    if a == [] {
      assert a + b == b;
    } else {
      PayloadsAppend(a[1..], b);
      assert (a + b)[0] == a[0] && (a + b)[1..] == a[1..] + b;
      var p := Payload(a[0]);
      Assoc(if p.Some? then [p.value] else [], Payloads(a[1..]), Payloads(b));
    }
  }

  ghost predicate Accounted(c: Reader, sent: seq<string>)
  {
    c.consumed + c.unread == sent && c.forwarded == Payloads(c.consumed)
  }

  lemma MoveOne(a: seq<string>, b: seq<string>)
    requires b != []
    ensures a + [b[0]] + b[1..] == a + b
  {
  }

  lemma ConsumeAccounts(c: Reader, sent: seq<string>)
    requires c.unread != [] && Accounted(c, sent)
    ensures Accounted(Consume(c), sent)
  {
    PayloadsSnoc(c.consumed, c.unread[0]);
    MoveOne(c.consumed, c.unread);
  }

  /** A line that starts with PONG announces no slaves. */
  lemma PongHasNoPayload(line: string)
    requires IsPong(line)
    ensures Payload(line).None?
  {
    assert Trim(line)[0] == 'P';
  }

  lemma BeatAccounts(c: Reader, sent: seq<string>, reply: seq<string>, inTime: bool)
    requires reply != [] && Accounted(c, sent)
    ensures Accounted(Beat(c, reply, inTime), sent + reply)
  {
    var more := c.(unread := c.unread + reply);
    assert c.consumed + (c.unread + reply) == sent + reply;
    ConsumeAccounts(more, sent + reply);
    var read := Consume(more);
    if IsPong(more.unread[0]) {
      var counted := read.(credits := CreditsIn(more.unread[0], c.credits));
      assert Accounted(counted, sent + reply);
      if counted.unread != [] {
        ConsumeAccounts(counted, sent + reply);
      }
    }
  }

  /** Whatever the timing: the lines are consumed in the order they were sent, and
      the strings forwarded are exactly the UPDATE_SLAVES lines consumed, in order,
      so that with those still unread they make up all that the master announced. */
  lemma {:induction false} ForwardedExactly(credits: u64, rounds: seq<Round>)
    ensures var c := Beats(Reader([], [], [], credits), rounds);
            && c.consumed + c.unread == Sent(rounds)
            && c.forwarded == Payloads(c.consumed)
            && c.forwarded + Payloads(c.unread) == Payloads(Sent(rounds))
  {
    var c := Beats(Reader([], [], [], credits), rounds);
    if rounds != [] {
      var n := |rounds| - 1;
      ForwardedExactly(credits, rounds[..n]);
      BeatAccounts(Beats(Reader([], [], [], credits), rounds[..n]), Sent(rounds[..n]), ReplyLines(rounds[n].reply),
        rounds[n].inTime);
    }
    PayloadsAppend(c.consumed, c.unread);
  }

  lemma UpdateLineIsNoPong(slaves: seq<string>)
    ensures !IsPong(UPDATE_PREFIX + Join(slaves, ','))
  {
    var line := UPDATE_PREFIX + Join(slaves, ',');
    assert TrimStart(line) == line;
    TrimEndIsPrefix(line);
  }

  lemma BeatsOne(c: Reader, r: Round)
    ensures Beats(c, [r]) == Beat(c, ReplyLines(r.reply), r.inTime)
  {
    assert [r][..0] == [];
  }

  lemma BeatsMore(c: Reader, rounds: seq<Round>, r: Round)
    ensures Beats(c, rounds + [r]) == Beat(Beats(c, rounds), ReplyLines(r.reply), r.inTime)
  {
    assert (rounds + [r])[..|rounds|] == rounds;
  }

  // ----- the credits shown -----

  lemma CreditsAreRead(n: u64, before: u64)
    ensures CreditsIn(CREDITS_PREFIX + Decimal(n), before) == n
  {
    var line := CREDITS_PREFIX + Decimal(n);
    assert Decimal(n)[|Decimal(n)| - 1] in Decimal(n);
    assert line[|line| - 1] == Decimal(n)[|Decimal(n)| - 1];
    TrimTight(line);
    assert line[|CREDITS_PREFIX|..] == Decimal(n);
    ParseOfDecimal(n, U64_MAX);
  }

  /** The line that each heartbeat reads first. */
  function FirstLines(c: Reader, rounds: seq<Round>): seq<string>
  {
    if rounds == [] then []
    else
      var front, last := rounds[..|rounds| - 1], rounds[|rounds| - 1];
      FirstLines(c, front) + [(Beats(c, front).unread + ReplyLines(last.reply))[0]]
  }

  /** Line n is the last PONG among these, and it carries these credits. */
  ghost predicate LastPong(lines: seq<string>, n: nat, credits: u64)
  {
    && n < |lines| && lines[n] == "PONG:CREDITS=" + Decimal(credits)
    && forall m :: n < m < |lines| ==> !IsPong(lines[m])
  }

  /** These are the credits of the last PONG, or the old ones if there is none. */
  ghost predicate ShowsTheLast(lines: seq<string>, before: u64, shown: u64)
  {
    if forall line :: line in lines ==> !IsPong(line) then shown == before else exists n :: LastPong(lines, n, shown)
  }

  lemma NoPongMore(lines: seq<string>, line: string, before: u64, shown: u64)
    requires ShowsTheLast(lines, before, shown) && !IsPong(line)
    ensures ShowsTheLast(lines + [line], before, shown)
  {
    if n :| LastPong(lines, n, shown) {
      assert LastPong(lines + [line], n, shown);
    }
  }

  lemma OnePongMore(lines: seq<string>, before: u64, shown: u64)
    ensures ShowsTheLast(lines + ["PONG:CREDITS=" + Decimal(shown)], before, shown)
  {
    CreditsLineIsPong(shown);
    var all := lines + ["PONG:CREDITS=" + Decimal(shown)];
    assert LastPong(all, |lines|, shown) && all[|lines|] in all;
  }

  ghost predicate FromTheMaster(line: string)
  {
    !IsPong(line) || exists n: u64 :: line == CREDITS_PREFIX + Decimal(n)
  }

  lemma RepliesAreFromTheMaster(r: Reply)
    ensures forall line :: line in ReplyLines(r) ==> FromTheMaster(line)
  {
    match r
    case NotFound => NotFoundIsNoPong();
    case Pong(_, update) =>
      if update.Some? {
        UpdateLineIsNoPong(update.value);
      }
  }

  lemma {:induction false} SentIsFromTheMaster(rounds: seq<Round>)
    ensures forall line :: line in Sent(rounds) ==> FromTheMaster(line)
  {
    if rounds != [] {
      SentIsFromTheMaster(rounds[..|rounds| - 1]);
      RepliesAreFromTheMaster(rounds[|rounds| - 1].reply);
    }
  }

  lemma NextLineIsFromTheMaster(credits: u64, rounds: seq<Round>, r: Reply)
    ensures FromTheMaster((Beats(Reader([], [], [], credits), rounds).unread + ReplyLines(r))[0])
  {
    var c := Beats(Reader([], [], [], credits), rounds);
    ForwardedExactly(credits, rounds);
    SentIsFromTheMaster(rounds);
    RepliesAreFromTheMaster(r);
    assert forall line :: line in c.unread ==> line in c.consumed + c.unread;
    assert (c.unread + ReplyLines(r))[0] in c.unread + ReplyLines(r);
  }

  lemma BeatShows(c: Reader, reply: seq<string>, inTime: bool)
    requires reply != [] && FromTheMaster((c.unread + reply)[0])
    ensures var first, shown := (c.unread + reply)[0], Beat(c, reply, inTime).credits;
            if IsPong(first) then first == "PONG:CREDITS=" + Decimal(shown) else shown == c.credits
  {
    var first := (c.unread + reply)[0];
    if IsPong(first) {
      var n: u64 :| first == CREDITS_PREFIX + Decimal(n);
      CreditsAreRead(n, c.credits);
    }
  }

  /** Whatever the timing, the credits shown are those of the last PONG that was read as
      the first line of a heartbeat, or the old ones if there was none. */
  lemma {:induction false} ShownAreTheLastRead(credits: u64, rounds: seq<Round>)
    ensures var c := Reader([], [], [], credits);
            ShowsTheLast(FirstLines(c, rounds), credits, Beats(c, rounds).credits)
  {
    var c := Reader([], [], [], credits);
    if rounds != [] {
      var front, last := rounds[..|rounds| - 1], rounds[|rounds| - 1];
      ShownAreTheLastRead(credits, front);
      NextLineIsFromTheMaster(credits, front, last.reply);
      BeatShows(Beats(c, front), ReplyLines(last.reply), last.inTime);
      var first := (Beats(c, front).unread + ReplyLines(last.reply))[0];
      if IsPong(first) {
        OnePongMore(FirstLines(c, front), credits, Beats(c, rounds).credits);
      } else {
        NoPongMore(FirstLines(c, front), first, credits, Beats(c, rounds).credits);
      }
    }
  }

  // ----- current credits, and announcements in their own beat -----

  predicate SecondLineInTime(r: Round)
  {
    |ReplyLines(r.reply)| == 2 ==> r.inTime
  }

  predicate InTime(rounds: seq<Round>)
  {
    forall n :: 0 <= n < |rounds| ==> SecondLineInTime(rounds[n])
  }

  /** The credits in the last PONG so far. */
  function LatestCredits(before: u64, rounds: seq<Round>): u64
  {
    if rounds == [] then before
    else
      var reply := rounds[|rounds| - 1].reply;
      if reply.Pong? then reply.credits else LatestCredits(before, rounds[..|rounds| - 1])
  }

  lemma NotFoundIsNoPong()
    ensures !IsPong("ERROR:worker_not_found") && Payload("ERROR:worker_not_found").None?
  {
    TrimTight("ERROR:worker_not_found");
  }

  /** An announcement line always announces something. */
  lemma UpdateLineHasAPayload(slaves: seq<string>)
    ensures Payload(UPDATE_PREFIX + Join(slaves, ',')).Some?
  {
    var text := Join(slaves, ',');
    assert TrimStart(UPDATE_PREFIX + text) == UPDATE_PREFIX + text;
    TrimEndKeeps(UPDATE_PREFIX, text);
  }

  /** A reader with nothing unread shows the credits of the reply. It has nothing
      unread afterwards, and has forwarded what the reply announces, exactly when no
      second line is late. */
  lemma LevelBeat(c: Reader, r: Round)
    requires c.unread == []
    ensures var n := Beat(c, ReplyLines(r.reply), r.inTime);
            && n.credits == (if r.reply.Pong? then r.reply.credits else c.credits)
            && (SecondLineInTime(r) <==> n.unread == [])
            && (!SecondLineInTime(r) ==> n.unread == [ReplyLines(r.reply)[1]])
            && (SecondLineInTime(r) <==> n.forwarded == c.forwarded + Payloads(ReplyLines(r.reply)))
            && (!SecondLineInTime(r) ==> n.forwarded == c.forwarded)
  {
    var lines := ReplyLines(r.reply);
    assert [] + lines == lines;
    assert lines[1..] == if |lines| == 2 then [lines[1]] else [];
    assert Payloads([]) == [];
    match r.reply
    case NotFound =>
      NotFoundIsNoPong();
    case Pong(credits, update) =>
      CreditsLineIsPong(credits);
      CreditsAreRead(credits, c.credits);
      PongHasNoPayload(lines[0]);
      if update.Some? {
        UpdateLineHasAPayload(update.value);
        assert Payloads(lines) == Payloads([lines[1]]);
      }
  }

  /** Whatever credits the next PONG carries, they are what is shown. */
  ghost predicate ShowsTheNextPong(c: Reader)
  {
    forall r: Round :: r.reply.Pong? ==> Beat(c, ReplyLines(r.reply), r.inTime).credits == r.reply.credits
  }

  lemma OnlyLevelReadersShowTheNextPong(c: Reader)
    ensures ShowsTheNextPong(c) <==> c.unread == []
  {
    if c.unread == [] {
      forall r: Round | r.reply.Pong? ensures Beat(c, ReplyLines(r.reply), r.inTime).credits == r.reply.credits {
        LevelBeat(c, r);
      }
    } else {
      var one, two := Round(Pong(1, None), false), Round(Pong(2, None), false);
      assert (c.unread + ReplyLines(one.reply))[0] == c.unread[0] == (c.unread + ReplyLines(two.reply))[0];
      assert Beat(c, ReplyLines(one.reply), false).credits == Beat(c, ReplyLines(two.reply), false).credits;
    }
  }

  lemma {:induction false} InTimeKeepsLevel(c: Reader, rounds: seq<Round>)
    requires c.unread == [] && InTime(rounds)
    ensures var n := Beats(c, rounds);
            && n.unread == []
            && n.credits == LatestCredits(c.credits, rounds)
            && n.forwarded == c.forwarded + Payloads(Sent(rounds))
  {
    if rounds != [] {
      var last, front := rounds[|rounds| - 1], rounds[..|rounds| - 1];
      InTimeKeepsLevel(c, front);
      LevelBeat(Beats(c, front), last);
      PayloadsAppend(Sent(front), ReplyLines(last.reply));
      Assoc(c.forwarded, Payloads(Sent(front)), Payloads(ReplyLines(last.reply)));
    } else {
      assert c.forwarded + Payloads(Sent([])) == c.forwarded;
    }
  }

  lemma {:induction false} FirstLateLine(rounds: seq<Round>) returns (k: nat)
    requires !InTime(rounds)
    ensures k < |rounds| && !SecondLineInTime(rounds[k]) && InTime(rounds[..k])
  {
    var n := |rounds| - 1;
    var front := rounds[..n];
    if InTime(front) {
      k := n;
      assert forall i :: 0 <= i < n ==> front[i] == rounds[i];
    } else {
      k := FirstLateLine(front);
      assert front[..k] == rounds[..k];
    }
  }

  /** The first late line: it stays unread and its list is not forwarded. The next
      beat forwards it, shows the old credits and leaves its own reply unread. */
  lemma AfterTheFirstLateLine(c: Reader, rounds: seq<Round>, k: nat)
    requires c.unread == [] && k < |rounds| && InTime(rounds[..k]) && !SecondLineInTime(rounds[k])
    ensures var n := Beats(c, rounds[..k + 1]);
            && n.unread == [ReplyLines(rounds[k].reply)[1]]
            && n.credits == rounds[k].reply.credits
            && n.forwarded == c.forwarded + Payloads(Sent(rounds[..k])) != c.forwarded + Payloads(Sent(rounds[..k + 1]))
    ensures k + 1 < |rounds| ==>
              var n := Beats(c, rounds[..k + 2]);
              && n.unread == ReplyLines(rounds[k + 1].reply)
              && n.credits == rounds[k].reply.credits
              && n.forwarded == c.forwarded + Payloads(Sent(rounds[..k + 1]))
  {
    var d := Beats(c, rounds[..k]);
    var lines := ReplyLines(rounds[k].reply);
    InTimeKeepsLevel(c, rounds[..k]);
    LevelBeat(d, rounds[k]);
    BeatsPrefix(c, rounds, k);
    LateListIsLeftOut(c.forwarded, rounds, k);
    if k + 1 < |rounds| {
      BeatsPrefix(c, rounds, k + 1);
      UpdateLineIsNoPong(rounds[k].reply.update.value);
      LaggingByTheUpdate(Beats(c, rounds[..k + 1]), lines[1], rounds[k + 1]);
    }
  }

  lemma LateListIsLeftOut(forwarded: seq<string>, rounds: seq<Round>, k: nat)
    requires k < |rounds| && |ReplyLines(rounds[k].reply)| == 2
    ensures var line := ReplyLines(rounds[k].reply)[1];
            && Payload(line).Some?
            && forwarded + Payloads(Sent(rounds[..k + 1]))
               == forwarded + Payloads(Sent(rounds[..k])) + [Payload(line).value]
  {
    var lines := ReplyLines(rounds[k].reply);
    assert rounds[..k + 1][..k] == rounds[..k];
    PayloadsAppend(Sent(rounds[..k]), lines);
    CreditsLineIsPong(rounds[k].reply.credits);
    PongHasNoPayload(lines[0]);
    UpdateLineHasAPayload(rounds[k].reply.update.value);
    assert lines[1..] == [lines[1]] && [lines[1]][1..] == [];
    assert Payloads([lines[1]]) == [Payload(lines[1]).value] + Payloads([]);
    Assoc(forwarded, Payloads(Sent(rounds[..k])), Payloads(lines));
  }

  lemma LaggingByTheUpdate(c: Reader, line: string, r: Round)
    requires c.unread == [line] && !IsPong(line) && Payload(line).Some?
    ensures var n := Beat(c, ReplyLines(r.reply), r.inTime);
            n.unread == ReplyLines(r.reply) && n.credits == c.credits
              && n.forwarded == c.forwarded + [Payload(line).value]
  {
    var lines := ReplyLines(r.reply);
    assert ([line] + lines)[1..] == lines;
  }

  /** A reader a whole reply behind shows the credits of that reply, and catches up
      only by dropping a PONG: when the reply it reads has one line, and the extra
      line it gets in time is the one line of the next. */
  lemma LaggingBeat(c: Reader, previous: Reply, r: Round)
    requires c.unread == ReplyLines(previous) && Prompt(c, r)
    ensures var n := Beat(c, ReplyLines(r.reply), r.inTime);
            && n.credits == (if previous.Pong? then previous.credits else c.credits)
            && n.unread == (if previous.Pong? && previous.update.None? && r.inTime
                            then ReplyLines(r.reply)[1..] else ReplyLines(r.reply))
  {
    UnreadAfterBeat(c, ReplyLines(r.reply), r.inTime);
    var lines, next := ReplyLines(previous), ReplyLines(r.reply);
    assert (lines + next)[|lines|..] == next;
    assert (lines + next)[0] == lines[0];
    match previous
    case NotFound =>
      NotFoundIsNoPong();
    case Pong(credits, update) =>
      CreditsLineIsPong(credits);
      CreditsAreRead(credits, c.credits);
      assert |lines| == 1 ==> (lines + next)[2..] == next[1..];
  }

  /** Every announcement is forwarded in the beat whose reply carries it. */
  ghost predicate ForwardsInOwnBeat(c: Reader, rounds: seq<Round>)
  {
    forall n :: 0 <= n <= |rounds| ==> Beats(c, rounds[..n]).forwarded == c.forwarded + Payloads(Sent(rounds[..n]))
  }

  /** Exactly as long as no second line is late: nothing is unread after any beat,
      every announcement is forwarded in its own beat, and whatever the next PONG says
      is shown. Then the credits shown are those of the latest PONG. */
  lemma CurrentIffInTime(c: Reader, rounds: seq<Round>)
    requires c.unread == []
    ensures InTime(rounds) <==> forall n :: 0 <= n <= |rounds| ==> Beats(c, rounds[..n]).unread == []
    ensures InTime(rounds) <==> ForwardsInOwnBeat(c, rounds)
    ensures InTime(rounds) <==> forall n :: 0 <= n <= |rounds| ==> ShowsTheNextPong(Beats(c, rounds[..n]))
    ensures InTime(rounds) ==> forall n :: 0 <= n <= |rounds| ==>
              Beats(c, rounds[..n]).credits == LatestCredits(c.credits, rounds[..n])
  {
    if InTime(rounds) {
      forall n | 0 <= n <= |rounds|
        ensures Beats(c, rounds[..n]).unread == [] && ShowsTheNextPong(Beats(c, rounds[..n]))
        ensures Beats(c, rounds[..n]).forwarded == c.forwarded + Payloads(Sent(rounds[..n]))
        ensures Beats(c, rounds[..n]).credits == LatestCredits(c.credits, rounds[..n])
      {
        InTimeKeepsLevel(c, rounds[..n]);
        OnlyLevelReadersShowTheNextPong(Beats(c, rounds[..n]));
      }
    } else {
      var k := FirstLateLine(rounds);
      AfterTheFirstLateLine(c, rounds, k);
      OnlyLevelReadersShowTheNextPong(Beats(c, rounds[..k + 1]));
    }
  }

  // ----- two readers that are late -----

  function Late(credits: u64, slaves: seq<string>): Round
  {
    Round(Pong(credits, Some(slaves)), false)
  }

  lemma LateBeat(c: Reader, credits: u64, slaves: seq<string>)
    ensures Beat(c, ReplyLines(Late(credits, slaves).reply), false).unread
            == (c.unread + [CREDITS_PREFIX + Decimal(credits), UPDATE_PREFIX + Join(slaves, ',')])[1..]
  {
    UnreadAfterBeat(c, ReplyLines(Late(credits, slaves).reply), false);
  }

  lemma TwoLateBeats(c: Reader, a: u64, first: seq<string>, b: u64, second: seq<string>)
    requires c.unread == []
    ensures Beats(c, [Late(a, first), Late(b, second)]).unread == ReplyLines(Late(b, second).reply)
  {
    var r0, r1 := Late(a, first), Late(b, second);
    BeatsOne(c, r0);
    LateBeat(c, a, first);
    BeatsMore(c, [r0], r1);
    assert [r0] + [r1] == [r0, r1];
    LateBeat(Beats(c, [r0]), b, second);
  }

  /** Three lists in a row whose lines are late for longer than a heartbeat: the
      reader is more than one reply behind. */
  lemma ALineLateForAWholeBeat(c: Reader, a: u64, first: seq<string>, b: u64, second: seq<string>, d: u64,
                               third: seq<string>)
    requires c.unread == []
    ensures var rounds := [Late(a, first), Late(b, second)] + [Late(d, third)];
            && !AtMostOneReplyBehind(c, rounds)
            && Beats(c, rounds).unread == [UPDATE_PREFIX + Join(second, ',')] + ReplyLines(Late(d, third).reply)
  {
    var two := [Late(a, first), Late(b, second)];
    var rounds := two + [Late(d, third)];
    TwoLateBeats(c, a, first, b, second);
    BeatsMore(c, two, Late(d, third));
    LateBeat(Beats(c, two), d, third);
    assert rounds[..3] == rounds && rounds[2] == Late(d, third);
  }

  /** When the extra line is late once and the next reply is a lone PONG, the PONG
      after that is swallowed as an extra line and its credit count is lost. */
  lemma ALatePongIsSwallowed(c: Reader, a: u64, b: u64, d: u64, slaves: seq<string>)
    requires c.unread == []
    ensures var rounds := [Late(a, slaves), Round(Pong(b, None), false)] + [Round(Pong(d, None), true)];
            Beats(c, rounds).unread == [] && Beats(c, rounds).credits == b
  {
    var two := [Late(a, slaves), Round(Pong(b, None), false)];
    var rounds := two + [Round(Pong(d, None), true)];
    assert InTime(two[..0]);
    AfterTheFirstLateLine(c, two, 0);
    assert two[..2] == two;
    BeatsMore(c, two, rounds[2]);
    LaggingBeat(Beats(c, two), Pong(b, None), rounds[2]);
  }

  // ----- from an announcement to the llama-server command line -----

  const RPC_PORT: nat := 8090

  function LocalRpc(): string
  {
    "127.0.0.1:" + Decimal(RPC_PORT)
  }

  function RpcChain(slaves: string): string
  {
    if slaves == "" then LocalRpc() else LocalRpc() + "," + slaves
  }

  /** The --rpc argument of the llama-server after some updates, of which `spawns`
      says whether the relaunch succeeded; only the last one counts. */
  function Running(process: Option<string>, updates: seq<string>, spawns: seq<bool>): Option<string>
    requires |spawns| == |updates|
  {
    if updates == [] then process
    else if spawns[|updates| - 1] then Some(RpcChain(updates[|updates| - 1]))
    else None
  }

  class SlaveUpdates {
    /** The --rpc argument of the running llama-server, if one runs. */
    var serverProcess: Option<string>

    constructor (running: Option<string>)
      ensures serverProcess == running
    {
      serverProcess := running;
    }

    /** `spawns` says which relaunches succeed. */
    method HandleSlaveUpdates(updates: seq<string>, spawns: seq<bool>)
      requires |spawns| == |updates|
      modifies this
      ensures serverProcess == Running(old(serverProcess), updates, spawns)
      ensures updates == [] ==> serverProcess == old(serverProcess)
      ensures updates != [] ==>
                serverProcess == if spawns[|updates| - 1] then Some(RpcChain(updates[|updates| - 1])) else None
    {
      for i := 0 to |updates|
        invariant serverProcess == Running(old(serverProcess), updates[..i], spawns[..i])
      {
        serverProcess := None;
        var chain := if updates[i] == "" then LocalRpc() else LocalRpc() + "," + updates[i];
        if spawns[i] {
          serverProcess := Some(chain);
        }
      }
      assert updates[..|updates|] == updates && spawns[..|updates|] == spawns;
    }
  }

  /** An address as the registry builds it, from a peer without comma or newline. */
  predicate CleanAddr(addr: string)
  {
    ',' !in addr && '\n' !in addr && addr != "" && !IsWhite(addr[|addr| - 1])
  }

  lemma {:induction false} JoinCommaEnds(parts: seq<string>)
    requires parts != [] && forall p :: p in parts ==> CleanAddr(p)
    ensures var s := Join(parts, ',');
            s != "" && !IsWhite(s[|s| - 1]) && '\n' !in s
  {
    assert parts[0] in parts;
    if |parts| > 1 {
      JoinCommaEnds(parts[1..]);
    }
  }

  lemma LocalRpcHasNoComma()
    ensures ',' !in LocalRpc()
  {
    var digits := Decimal(RPC_PORT);
    assert forall c :: c in LocalRpc() ==> c in "127.0.0.1:" || c in digits;
  }

  /** An announced list of clean addresses ends up on the command line: the chain
      splits at commas into the local address and exactly that list, in order. */
  lemma AnnouncedListReachesTheCommandLine(slaves: seq<string>)
    requires slaves != [] && forall a :: a in slaves ==> CleanAddr(a)
    ensures '\n' !in Join(slaves, ',')
    ensures Payload(UPDATE_PREFIX + Join(slaves, ',')) == Some(Join(slaves, ','))
    ensures Split(RpcChain(Join(slaves, ',')), ',') == [LocalRpc()] + slaves
  {
    var text := Join(slaves, ',');
    JoinCommaEnds(slaves);
    var line := UPDATE_PREFIX + text;
    assert line[|line| - 1] == text[|text| - 1];
    TrimTight(line);
    assert line[|UPDATE_PREFIX|..] == text;
    LocalRpcHasNoComma();
    var parts := [LocalRpc()] + slaves;
    assert Join(parts, ',') == LocalRpc() + [','] + Join(parts[1..], ',') && parts[1..] == slaves;
    SplitOfJoin(parts, ',');
  }
}
