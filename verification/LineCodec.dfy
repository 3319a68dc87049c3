// The text protocol between workers and the master: what each end prints and
// what the other end makes of it.

module LineCodec {
  import opened Wrappers
  import opened Text

  // ----- worker to master -----

  datatype Command =
    | Register(id: string, vramMb: nat, ramMb: nat, cpuCores: nat, hasGpu: bool, rpcPort: nat)
    | Ping(id: string, vramFreeMb: nat, ramFreeMb: nat)
    | Infer(modelName: string)
  {
    predicate InRange()
    {
      match this
      case Register(_, vram, ram, cores, _, port) =>
        vram <= U64_MAX && ram <= U64_MAX && cores <= U64_MAX && port <= U16_MAX
      case Ping(_, vram, ram) => vram <= U64_MAX && ram <= U64_MAX
      case Infer(_) => true
    }
  }

  function PrintRegister(id: string, vramMb: nat, ramMb: nat, cpuCores: nat, hasGpu: bool, rpcPort: nat): string
  {
    Join(["REGISTER", id, Decimal(vramMb), Decimal(ramMb), Decimal(cpuCores),
          if hasGpu then "1" else "0", Decimal(rpcPort)], ':') + "\n"
  }

  function PrintPing(id: string, vramFreeMb: nat, ramFreeMb: nat): string
  {
    Join(["PING", id, Decimal(vramFreeMb), Decimal(ramFreeMb)], ':') + "\n"
  }

  function ParseLine(line: string): Option<Command>
  {
    var p := Split(Trim(line), ':');
    if p[0] == "REGISTER" then
      if |p| < 7 then None
      else
        match (ParseUnsigned(p[2], U64_MAX), ParseUnsigned(p[3], U64_MAX),
               ParseUnsigned(p[4], U64_MAX), ParseUnsigned(p[6], U16_MAX))
        case (Some(vram), Some(ram), Some(cores), Some(port)) =>
          Some(Register(p[1], vram, ram, cores, p[5] == "1", port))
        case _ => None
    else if p[0] == "PING" then
      if |p| < 4 then None
      else
        match (ParseUnsigned(p[2], U64_MAX), ParseUnsigned(p[3], U64_MAX))
        case (Some(vram), Some(ram)) => Some(Ping(p[1], vram, ram))
        case _ => None
    else if p[0] == "INFER" then
      if |p| < 2 then None else Some(Infer(p[1]))
    else None
  }

  /** What the connection handler gets from the byte stream: one line, trimmed
      once by the handler and once more by the parser. */
  function ReceiveCommand(stream: string): (Option<Command>, string)
  {
    var (line, rest) := ReadLine(stream);
    (ParseLine(Trim(line)), rest)
  }

  predicate CleanId(id: string)
  {
    ':' !in id && '\n' !in id
  }

  /** Whatever arrives, an id the master extracts has neither separator in it,
      and every number is in the range of its type. */
  lemma ReceivedIdsAreClean(stream: string)
    ensures var c := ReceiveCommand(stream).0;
            c.Some? ==> c.value.InRange() && (c.value.Infer? || CleanId(c.value.id))
  {
    TrimmedLineHasNoNewline(stream);
    var line := Trim(ReadLine(stream).0);
    var p := Split(Trim(line), ':');
    TrimChars(line);
    SplitPartsAvoid(Trim(line), ':', ':');
    SplitPartsAvoid(Trim(line), ':', '\n');
    if ParseLine(line).Some? && !ParseLine(line).value.Infer? {
      assert p[1] in p;
    }
  }

  /** The text of an id-free command line survives reading and trimming. */
  lemma ReceiveTight(body: string, tail: string)
    requires Tight(body) && '\n' !in body
    ensures ReceiveCommand(body + "\n" + tail) == (ParseLine(body), tail)
  {
    ReadLineStops(body, tail);
    TrimNewline(body);
    TrimTight(body);
  }

  /** A joined line starts with its first part and ends with its last. */
  lemma {:induction false} JoinEnds(parts: seq<string>)
    requires |parts| >= 2 && parts[0] != "" && parts[|parts| - 1] != ""
    requires !IsWhite(parts[0][0])
    requires var last := parts[|parts| - 1]; !IsWhite(last[|last| - 1])
    ensures Tight(Join(parts, ':'))
  {
    var s := Join(parts, ':');
    assert s[0] == parts[0][0];
    JoinLast(parts);
  }

  lemma {:induction false} JoinLast(parts: seq<string>)
    requires |parts| >= 1 && parts[|parts| - 1] != ""
    ensures var s := Join(parts, ':'); var last := parts[|parts| - 1];
            s != "" && s[|s| - 1] == last[|last| - 1]
  {
    if |parts| > 1 {
      JoinLast(parts[1..]);
    }
  }

  lemma {:induction false} JoinChars(parts: seq<string>, c: char)
    requires c != ':' && forall p :: p in parts ==> c !in p
    ensures c !in Join(parts, ':')
  {
    if |parts| > 1 {
      assert parts[0] in parts;
      JoinChars(parts[1..], c);
    }
  }

  lemma ReceiveJoined(parts: seq<string>, tail: string)
    requires |parts| >= 2 && parts[0] != "" && parts[|parts| - 1] != ""
    requires !IsWhite(parts[0][0])
    requires var last := parts[|parts| - 1]; !IsWhite(last[|last| - 1])
    requires forall p :: p in parts ==> ':' !in p && '\n' !in p
    ensures var line := Join(parts, ':');
            && ReceiveCommand(line + "\n" + tail) == (ParseLine(line), tail)
            && Split(Trim(line), ':') == parts
  {
    JoinEnds(parts);
    JoinChars(parts, '\n');
    ReceiveTight(Join(parts, ':'), tail);
    TrimTight(Join(parts, ':'));
    SplitOfJoin(parts, ':');
  }

  lemma RegisterArrives(id: string, vramMb: nat, ramMb: nat, cpuCores: nat, hasGpu: bool, rpcPort: nat, tail: string)
    requires vramMb <= U64_MAX && ramMb <= U64_MAX && cpuCores <= U64_MAX && rpcPort <= U16_MAX
    requires CleanId(id)
    ensures ReceiveCommand(PrintRegister(id, vramMb, ramMb, cpuCores, hasGpu, rpcPort) + tail)
            == (Some(Register(id, vramMb, ramMb, cpuCores, hasGpu, rpcPort)), tail)
  {
    var parts := ["REGISTER", id, Decimal(vramMb), Decimal(ramMb), Decimal(cpuCores),
                  if hasGpu then "1" else "0", Decimal(rpcPort)];
    ReceiveJoined(parts, tail);
    ParseOfDecimal(vramMb, U64_MAX);
    ParseOfDecimal(ramMb, U64_MAX);
    ParseOfDecimal(cpuCores, U64_MAX);
    ParseOfDecimal(rpcPort, U16_MAX);
  }

  /** A REGISTER line needs seven fields. */
  lemma RegisterNeedsSevenFields(parts: seq<string>)
    requires parts != [] && parts[0] == "REGISTER" && |parts| < 7 && (forall p :: p in parts ==> ':' !in p)
    requires Tight(Join(parts, ':'))
    ensures ParseLine(Join(parts, ':')).None?
  {
    TrimTight(Join(parts, ':'));
    SplitOfJoin(parts, ':');
  }

  /** Further ones do no harm, only "1" says that there is a GPU, and numbers out of range
      make the line no command. */
  lemma RegisterFields(id: string, vramMb: nat, ramMb: nat, cpuCores: nat, gpu: string, rpcPort: nat,
                       extra: seq<string>)
    requires ':' !in id && ':' !in gpu && (forall p :: p in extra ==> ':' !in p)
    requires Tight(Join(["REGISTER", id, Decimal(vramMb), Decimal(ramMb), Decimal(cpuCores), gpu, Decimal(rpcPort)]
                        + extra, ':'))
    ensures ParseLine(Join(["REGISTER", id, Decimal(vramMb), Decimal(ramMb), Decimal(cpuCores), gpu, Decimal(rpcPort)]
                           + extra, ':'))
            == if vramMb <= U64_MAX && ramMb <= U64_MAX && cpuCores <= U64_MAX && rpcPort <= U16_MAX
               then Some(Register(id, vramMb, ramMb, cpuCores, gpu == "1", rpcPort)) else None
  {
    var fields := ["REGISTER", id, Decimal(vramMb), Decimal(ramMb), Decimal(cpuCores), gpu, Decimal(rpcPort)];
    var parts := fields + extra;
    forall p | p in parts ensures ':' !in p {
      assert p in fields || p in extra;
    }
    TrimTight(Join(parts, ':'));
    SplitOfJoin(parts, ':');
    ParseOfDecimal(vramMb, U64_MAX);
    ParseOfDecimal(ramMb, U64_MAX);
    ParseOfDecimal(cpuCores, U64_MAX);
    ParseOfDecimal(rpcPort, U16_MAX);
  }

  /** REGISTER arrives unchanged exactly when the id has no separator in it. */
  lemma RegisterRoundTrip(id: string, vramMb: nat, ramMb: nat, cpuCores: nat, hasGpu: bool, rpcPort: nat, tail: string)
    requires vramMb <= U64_MAX && ramMb <= U64_MAX && cpuCores <= U64_MAX && rpcPort <= U16_MAX
    ensures ReceiveCommand(PrintRegister(id, vramMb, ramMb, cpuCores, hasGpu, rpcPort) + tail)
            == (Some(Register(id, vramMb, ramMb, cpuCores, hasGpu, rpcPort)), tail)
            <==> CleanId(id)
  {
    ReceivedIdsAreClean(PrintRegister(id, vramMb, ramMb, cpuCores, hasGpu, rpcPort) + tail);
    if CleanId(id) {
      RegisterArrives(id, vramMb, ramMb, cpuCores, hasGpu, rpcPort, tail);
    }
  }

  /** PING arrives unchanged exactly when the id has no separator in it. */
  lemma PingRoundTrip(id: string, vramFreeMb: nat, ramFreeMb: nat, tail: string)
    requires vramFreeMb <= U64_MAX && ramFreeMb <= U64_MAX
    ensures ReceiveCommand(PrintPing(id, vramFreeMb, ramFreeMb) + tail)
            == (Some(Ping(id, vramFreeMb, ramFreeMb)), tail)
            <==> CleanId(id)
  {
    var parts := ["PING", id, Decimal(vramFreeMb), Decimal(ramFreeMb)];
    var printed := PrintPing(id, vramFreeMb, ramFreeMb);
    assert printed == Join(parts, ':') + "\n";
    ReceivedIdsAreClean(printed + tail);
    if CleanId(id) {
      ReceiveJoined(parts, tail);
      ParseOfDecimal(vramFreeMb, U64_MAX);
      ParseOfDecimal(ramFreeMb, U64_MAX);
    }
  }

  /** INFER names a model by what stands between its colon and the end of the line or the
      next colon. */
  lemma InferArrives(name: string)
    requires ':' !in name && '\n' !in name && (name != "" ==> !IsWhite(name[|name| - 1]))
    ensures ReadLine("INFER:" + name + "\n") == ("INFER:" + name + "\n", "")
    ensures ParseLine(Trim("INFER:" + name + "\n")) == Some(Infer(name))
  {
    var body := "INFER:" + name;
    assert Tight(body) && '\n' !in body;
    assert body + "\n" + "" == body + "\n";
    ReadLineStops(body, "");
    TrimNewline(body);
    ParseInfer(name);
  }

  lemma ParseInfer(name: string)
    requires ':' !in name && Tight("INFER:" + name)
    ensures ParseLine("INFER:" + name) == Some(Infer(name))
  {
    TrimTight("INFER:" + name);
    SplitAround("INFER", name, ':');
    SplitWhole("INFER", ':');
    SplitWhole(name, ':');
    assert "INFER" + [':'] + name == "INFER:" + name;
  }

  // ----- master to worker: INIT_MODEL -----

  datatype InitModel =
    | SuperNode(name: string, url: string, totalLayers: nat)
    | Consumer
    | GpuProvider(tunnelPort: nat)

  const SUPER_PREFIX := "INIT_MODEL:SUPER_NODE:"
  const CONSUMER_LINE := "INIT_MODEL:CONSUMER"
  const GPU_PREFIX := "INIT_MODEL:GPU_PROVIDER:"

  function PrintInit(m: InitModel): string
  {
    match m
    case SuperNode(name, url, layers) => SUPER_PREFIX + name + ":" + url + ":" + Decimal(layers) + "\n"
    case Consumer => CONSUMER_LINE + "\n"
    case GpuProvider(port) => GPU_PREFIX + Decimal(port) + "\n"
  }

  /** The client's reading of the reply to REGISTER; None stands for the warnings
      after which it reconnects. */
  function ParseInit(trimmed: string): Option<InitModel>
  {
    if !StartsWith(trimmed, "INIT_MODEL:") then None
    else if StartsWith(trimmed, SUPER_PREFIX) then
      var parts := Split(trimmed[|SUPER_PREFIX|..], ':');
      if |parts| < 3 then None
      else
        var layers := ParseUnsigned(parts[|parts| - 1], U32_MAX);
        Some(SuperNode(parts[0], Join(parts[1..|parts| - 1], ':'),
                       if layers.Some? then layers.value else 28))
    else if StartsWith(trimmed, CONSUMER_LINE) then Some(Consumer)
    else if StartsWith(trimmed, GPU_PREFIX) then
      var port := ParseUnsigned(Trim(trimmed[|GPU_PREFIX|..]), U16_MAX);
      Some(GpuProvider(if port.Some? then port.value else 0))
    else None
  }

  function ReceiveInit(stream: string): (Option<InitModel>, string)
  {
    var (line, rest) := ReadLine(stream);
    (ParseInit(Trim(line)), rest)
  }

  predicate CleanInit(m: InitModel)
  {
    m.SuperNode? ==> ':' !in m.name && '\n' !in m.name && '\n' !in m.url
  }

  /** Whatever arrives, a name the client extracts has no separator in it and the
      url no newline. */
  lemma ReceivedInitsAreClean(stream: string)
    ensures var m := ReceiveInit(stream).0; m.Some? ==> CleanInit(m.value)
  {
    TrimmedLineHasNoNewline(stream);
    var trimmed := Trim(ReadLine(stream).0);
    var m := ParseInit(trimmed);
    if m.Some? && m.value.SuperNode? {
      var rest := trimmed[|SUPER_PREFIX|..];
      var parts := Split(rest, ':');
      SplitPartsAvoid(rest, ':', ':');
      SplitPartsAvoid(rest, ':', '\n');
      assert parts[0] in parts;
      JoinChars(parts[1..|parts| - 1], '\n');
    }
  }

  lemma ReceiveInitTight(body: string, tail: string)
    requires Tight(body) && '\n' !in body
    ensures ReceiveInit(body + "\n" + tail) == (ParseInit(body), tail)
  {
    ReadLineStops(body, tail);
    TrimNewline(body);
  }

  /** The parts of a printed SuperNode line: the name, the pieces of the url, the
      layer count. */
  lemma SuperNodeParts(name: string, url: string, layers: nat)
    requires ':' !in name
    ensures Split(name + ":" + url + ":" + Decimal(layers), ':') == [name] + Split(url, ':') + [Decimal(layers)]
  {
    SplitAround(name + ":" + url, Decimal(layers), ':');
    SplitAround(name, url, ':');
    SplitWhole(name, ':');
    SplitWhole(Decimal(layers), ':');
  }

  lemma ParseSuperNode(name: string, url: string, layers: nat)
    requires ':' !in name && layers <= U32_MAX
    ensures ParseInit(SUPER_PREFIX + name + ":" + url + ":" + Decimal(layers)) == Some(SuperNode(name, url, layers))
  {
    var text := name + ":" + url + ":" + Decimal(layers);
    var body := SUPER_PREFIX + name + ":" + url + ":" + Decimal(layers);
    assert body == SUPER_PREFIX + text;
    assert body[|SUPER_PREFIX|..] == text;
    assert body[..11] == "INIT_MODEL:";
    SuperNodeParts(name, url, layers);
    var parts := [name] + Split(url, ':') + [Decimal(layers)];
    assert parts[1..|parts| - 1] == Split(url, ':');
    JoinOfSplit(url, ':');
    ParseOfDecimal(layers, U32_MAX);
  }

  lemma ParseGpuProvider(port: nat)
    requires port <= U16_MAX
    ensures ParseInit(GPU_PREFIX + Decimal(port)) == Some(GpuProvider(port))
  {
    var digits := Decimal(port);
    var body := GPU_PREFIX + digits;
    assert body[..11] == "INIT_MODEL:";
    assert body[11] == 'G';
    assert body[|GPU_PREFIX|..] == digits;
    assert digits[0] in digits && digits[|digits| - 1] in digits;
    TrimTight(digits);
    ParseOfDecimal(port, U16_MAX);
  }

  lemma TightBeforeNumber(prefix: string, n: nat)
    requires prefix != "" && !IsWhite(prefix[0])
    ensures Tight(prefix + Decimal(n))
  {
    var digits := Decimal(n);
    assert digits[|digits| - 1] in digits;
  }

  lemma SuperNodeArrives(name: string, url: string, layers: nat, tail: string)
    requires CleanInit(SuperNode(name, url, layers)) && layers <= U32_MAX
    ensures ReceiveInit(PrintInit(SuperNode(name, url, layers)) + tail) == (Some(SuperNode(name, url, layers)), tail)
  {
    var body := SUPER_PREFIX + name + ":" + url + ":" + Decimal(layers);
    TightBeforeNumber(SUPER_PREFIX + name + ":" + url + ":", layers);
    ReceiveInitTight(body, tail);
    ParseSuperNode(name, url, layers);
  }

  /** INIT_MODEL arrives unchanged exactly when the model name has no separator
      and neither name nor url a newline; the url may hold any number of colons.
      In particular no message is ever taken for one of another shape. */
  lemma InitRoundTrip(m: InitModel, tail: string)
    requires m.SuperNode? ==> m.totalLayers <= U32_MAX
    requires m.GpuProvider? ==> m.tunnelPort <= U16_MAX
    ensures ReceiveInit(PrintInit(m) + tail) == (Some(m), tail) <==> CleanInit(m)
  {
    ReceivedInitsAreClean(PrintInit(m) + tail);
    if CleanInit(m) {
      match m
      case SuperNode(name, url, layers) =>
        SuperNodeArrives(name, url, layers, tail);
      case Consumer =>
        ReceiveInitTight(CONSUMER_LINE, tail);
        assert CONSUMER_LINE[..11] == "INIT_MODEL:";
      case GpuProvider(port) =>
        TightBeforeNumber(GPU_PREFIX, port);
        ReceiveInitTight(GPU_PREFIX + Decimal(port), tail);
        ParseGpuProvider(port);
    }
  }
}
