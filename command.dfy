/**
 * The argument vectors of the two child processes of one trial: the web
 * framework server and the wrk load generator, each optionally pinned to a
 * CPU list with `taskset -c`.  Each vector is paired with a reader that takes
 * it apart again, and building then reading gives back every parameter.
 */
module Command {
  import opened Wrappers
  import opened Text

  // ---------------------------------------------------------------------------
  // CPU lists

  /** The decimal texts of the CPU numbers. */
  function CpuTexts(cpus: seq<int>): (r: seq<string>)
    ensures |r| == |cpus| && forall i :: 0 <= i < |cpus| ==> r[i] == IntToString(cpus[i])
  {
    seq(|cpus|, i requires 0 <= i < |cpus| => IntToString(cpus[i]))
  }

  /** The CPU list as `taskset -c` takes it: the decimal numbers joined by commas. */
  function CpuList(cpus: seq<int>): string {
    Join(CpuTexts(cpus), ',')
  }

  /** Reads decimal numbers one by one; `None` as soon as one is not a number. */
  function ParseInts(parts: seq<string>): (r: Option<seq<int>>)
    ensures r.Some? ==> |r.value| == |parts|
  {
    if |parts| == 0 then Some([])
    else
      match IntValue(parts[0])
      case None => None
      case Some(n) =>
        match ParseInts(parts[1..])
        case None => None
        case Some(ns) => Some([n] + ns)
  }

  /** Reads a comma-separated CPU list; the empty text is the empty list. */
  function ParseCpuList(s: string): Option<seq<int>> {
    if s == "" then Some([]) else ParseInts(Split(s, ','))
  }

  /** Texts that each read as a number read, together, as the list of those numbers. */
  lemma {:induction false} ParseIntsOf(parts: seq<string>, ns: seq<int>)
    requires |parts| == |ns| && forall i :: 0 <= i < |parts| ==> IntValue(parts[i]) == Some(ns[i])
    ensures ParseInts(parts) == Some(ns)
  {
    if |parts| > 0 {
      assert forall i :: 0 <= i < |parts| - 1 ==> parts[1..][i] == parts[i + 1] && ns[1..][i] == ns[i + 1];
      ParseIntsOf(parts[1..], ns[1..]);
      assert [ns[0]] + ns[1..] == ns;
    }
  }

  lemma ParseIntTexts(cpus: seq<int>)
    ensures ParseInts(CpuTexts(cpus)) == Some(cpus)
  {
    forall i | 0 <= i < |cpus| ensures IntValue(CpuTexts(cpus)[i]) == Some(cpus[i]) {
      IntToStringRoundTrip(cpus[i]);
    }
    ParseIntsOf(CpuTexts(cpus), cpus);
  }

  /** A join whose first part is not empty is not empty. */
  lemma {:induction false} JoinNonEmpty(parts: seq<string>, sep: char)
    requires |parts| > 0 && |parts[0]| > 0
    ensures Join(parts, sep) != ""
  {
    if |parts| > 1 {
      assert Join(parts, sep)[0] == parts[0][0];
    }
  }

  /** Reading a CPU list back gives the CPUs it was written from. */
  lemma CpuListRoundTrip(cpus: seq<int>)
    ensures ParseCpuList(CpuList(cpus)) == Some(cpus)
  {
    var parts := CpuTexts(cpus);
    if |cpus| > 0 {
      JoinNonEmpty(parts, ',');
      SplitJoin(parts, ',');
      ParseIntTexts(cpus);
    }
  }

  // ---------------------------------------------------------------------------
  // Options written as a flag glued to a number

  /** The number after `flag` in `arg`, if `arg` is the flag followed by a decimal. */
  function FlagValue(arg: string, flag: string): Option<int> {
    if |flag| <= |arg| && arg[..|flag|] == flag then IntValue(arg[|flag|..]) else None
  }

  lemma FlagRoundTrip(flag: string, n: int)
    ensures FlagValue(flag + IntToString(n), flag) == Some(n)
  {
    var arg := flag + IntToString(n);
    assert arg[..|flag|] == flag && arg[|flag|..] == IntToString(n);
    IntToStringRoundTrip(n);
  }

  /** `-d{}s`: the duration in seconds between `-d` and `s`. */
  function DurationValue(arg: string): Option<int> {
    if 3 <= |arg| && arg[..2] == "-d" && arg[|arg| - 1] == 's' then IntValue(arg[2..|arg| - 1]) else None
  }

  lemma DurationRoundTrip(n: int)
    ensures DurationValue("-d" + IntToString(n) + "s") == Some(n)
  {
    var arg := "-d" + IntToString(n) + "s";
    assert arg[..2] == "-d" && arg[2..|arg| - 1] == IntToString(n);
    IntToStringRoundTrip(n);
  }

  // ---------------------------------------------------------------------------
  // Pinning

  /** The CPUs a process is pinned to: only when affinity is on and a list is given. */
  function Pin(affinity: bool, cpus: Option<seq<int>>): (r: Option<seq<int>>)
    ensures r.Some? <==> affinity && cpus.Some?
    ensures r.Some? ==> r == cpus
  {
    if affinity && cpus.Some? then cpus else None
  }

  /** The `taskset -c <cpus>` prefix. */
  function Taskset(cpus: seq<int>): seq<string> {
    ["taskset", "-c", CpuList(cpus)]
  }

  /** The vector starts with a `taskset -c` prefix. */
  predicate HasTaskset(args: seq<string>) {
    |args| >= 3 && args[0] == "taskset" && args[1] == "-c"
  }

  // ---------------------------------------------------------------------------
  // The web framework server

  /** What the server vector says: its pin, binary, framework and mocked processing time. */
  datatype ServerCall = ServerCall(pin: Option<seq<int>>, serverPath: string, framework: string, processingTimeMs: int)

  /** Takes a server vector apart: three words, after a `taskset -c` prefix when there are six. */
  function ReadServerArgs(args: seq<string>): Option<ServerCall> {
    if |args| == 6 && HasTaskset(args) then
      match (ParseCpuList(args[2]), IntValue(args[5]))
      case (Some(cpus), Some(ms)) => Some(ServerCall(Some(cpus), args[3], args[4], ms))
      case _ => None
    else if |args| == 3 then
      match IntValue(args[2])
      case Some(ms) => Some(ServerCall(None, args[0], args[1], ms))
      case None => None
    else None
  }

  /** Builds the server vector as the trial does, growing it part by part. */
  method WebFrameworkArgs(serverPath: string, framework: string, processingTimeMs: int,
                          affinity: bool, cpus: Option<seq<int>>) returns (args: seq<string>)
    ensures |args| == if affinity && cpus.Some? then 6 else 3
    ensures affinity && cpus.Some? ==> HasTaskset(args) && args[..3] == Taskset(cpus.value)
    ensures args[|args| - 3..] == [serverPath, framework, IntToString(processingTimeMs)]
    ensures ReadServerArgs(args) == Some(ServerCall(Pin(affinity, cpus), serverPath, framework, processingTimeMs))
  {
    args := [];
    if affinity && cpus.Some? {
      args := args + Taskset(cpus.value);
      CpuListRoundTrip(cpus.value);
    }
    args := args + [serverPath, framework, IntToString(processingTimeMs)];
    IntToStringRoundTrip(processingTimeMs);
  }

  // ---------------------------------------------------------------------------
  // The wrk load generator

  /** What the wrk vector says. */
  datatype WrkCall = WrkCall(pin: Option<seq<int>>, wrkPath: string, threads: int, connections: int,
                             maxRps: int, durationSecs: int, endpoint: string, luaPath: string,
                             pipeline: int, extra: seq<string>)

  /** The twelve fixed words after the optional prefix. */
  function WrkWords(wrkPath: string, threads: int, connections: int, maxRps: int, durationSecs: int,
                    endpoint: string, luaPath: string, pipeline: int): (r: seq<string>)
    ensures |r| == 12
  {
    [wrkPath, "-t" + IntToString(threads), "-c" + IntToString(connections), "-R" + IntToString(maxRps),
     "-d" + IntToString(durationSecs) + "s", "--u_latency", endpoint, "-s", luaPath, "--", "/hello",
     IntToString(pipeline)]
  }

  /** Takes the words after the prefix apart: the fixed layout, then the extra arguments. */
  function ReadWrkWords(pin: Option<seq<int>>, ws: seq<string>): Option<WrkCall> {
    if |ws| < 12 || ws[5] != "--u_latency" || ws[7] != "-s" || ws[9] != "--" || ws[10] != "/hello" then None
    else
      match (FlagValue(ws[1], "-t"), FlagValue(ws[2], "-c"), FlagValue(ws[3], "-R"), DurationValue(ws[4]), IntValue(ws[11]))
      case (Some(t), Some(c), Some(rate), Some(d), Some(p)) =>
        Some(WrkCall(pin, ws[0], t, c, rate, d, ws[6], ws[8], p, ws[12..]))
      case _ => None
  }

  lemma ReadWrkWordsOf(pin: Option<seq<int>>, ws: seq<string>, t: int, c: int, rate: int, d: int, p: int)
    requires |ws| >= 12 && ws[5] == "--u_latency" && ws[7] == "-s" && ws[9] == "--" && ws[10] == "/hello"
    requires FlagValue(ws[1], "-t") == Some(t) && FlagValue(ws[2], "-c") == Some(c) && FlagValue(ws[3], "-R") == Some(rate)
    requires DurationValue(ws[4]) == Some(d) && IntValue(ws[11]) == Some(p)
    ensures ReadWrkWords(pin, ws) == Some(WrkCall(pin, ws[0], t, c, rate, d, ws[6], ws[8], p, ws[12..]))
  {
  }

  /** Where the numeric parameters sit among the words after the prefix. */
  lemma WrkNumbersAt(wrkPath: string, threads: int, connections: int, maxRps: int, durationSecs: int,
                     endpoint: string, luaPath: string, pipeline: int, extra: seq<string>)
    ensures var ws := WrkWords(wrkPath, threads, connections, maxRps, durationSecs, endpoint, luaPath, pipeline) + extra;
      && ws[1] == "-t" + IntToString(threads) && ws[2] == "-c" + IntToString(connections)
      && ws[3] == "-R" + IntToString(maxRps) && ws[4] == "-d" + IntToString(durationSecs) + "s"
      && ws[11] == IntToString(pipeline)
  {
  }

  /** Where the fixed words, the paths and the extra arguments sit after the prefix. */
  lemma WrkLayoutAt(wrkPath: string, threads: int, connections: int, maxRps: int, durationSecs: int,
                    endpoint: string, luaPath: string, pipeline: int, extra: seq<string>)
    ensures var ws := WrkWords(wrkPath, threads, connections, maxRps, durationSecs, endpoint, luaPath, pipeline) + extra;
      && |ws| >= 12 && ws[12..] == extra
      && ws[0] == wrkPath && ws[5] == "--u_latency" && ws[6] == endpoint && ws[7] == "-s" && ws[8] == luaPath
      && ws[9] == "--" && ws[10] == "/hello"
  {
    var w := WrkWords(wrkPath, threads, connections, maxRps, durationSecs, endpoint, luaPath, pipeline);
    assert (w + extra)[12..] == extra;
  }

  lemma WrkWordsRoundTrip(pin: Option<seq<int>>, wrkPath: string, threads: int, connections: int, maxRps: int,
                          durationSecs: int, endpoint: string, luaPath: string, pipeline: int, extra: seq<string>)
    ensures ReadWrkWords(pin, WrkWords(wrkPath, threads, connections, maxRps, durationSecs, endpoint, luaPath, pipeline) + extra)
      == Some(WrkCall(pin, wrkPath, threads, connections, maxRps, durationSecs, endpoint, luaPath, pipeline, extra))
  {
    var ws := WrkWords(wrkPath, threads, connections, maxRps, durationSecs, endpoint, luaPath, pipeline) + extra;
    WrkNumbersAt(wrkPath, threads, connections, maxRps, durationSecs, endpoint, luaPath, pipeline, extra);
    WrkLayoutAt(wrkPath, threads, connections, maxRps, durationSecs, endpoint, luaPath, pipeline, extra);
    FlagRoundTrip("-t", threads);
    FlagRoundTrip("-c", connections);
    FlagRoundTrip("-R", maxRps);
    DurationRoundTrip(durationSecs);
    IntToStringRoundTrip(pipeline);
    ReadWrkWordsOf(pin, ws, threads, connections, maxRps, durationSecs, pipeline);
  }

  /** Takes a wrk vector apart; a second word `-c` can only come from the prefix, since the unpinned second word starts with `-t`. */
  function ReadWrkArgs(args: seq<string>): Option<WrkCall> {
    if HasTaskset(args) then
      match ParseCpuList(args[2])
      case Some(cpus) => ReadWrkWords(Some(cpus), args[3..])
      case None => None
    else ReadWrkWords(None, args)
  }

  lemma ReadPinnedWrk(cpus: seq<int>, tail: seq<string>)
    ensures HasTaskset(Taskset(cpus) + tail)
    ensures ReadWrkArgs(Taskset(cpus) + tail) == ReadWrkWords(Some(cpus), tail)
  {
    var args := Taskset(cpus) + tail;
    assert args[2] == CpuList(cpus) && args[3..] == tail;
    CpuListRoundTrip(cpus);
  }

  lemma ReadUnpinnedWrk(tail: seq<string>)
    requires |tail| >= 2 && |tail[1]| >= 2 && tail[1][1] == 't'
    ensures !HasTaskset(tail)
    ensures ReadWrkArgs(tail) == ReadWrkWords(None, tail)
  {
  }

  /** The thread count option reads `-t` and then the number. */
  lemma ThreadsFlag(threads: int)
    ensures |"-t" + IntToString(threads)| >= 2 && ("-t" + IntToString(threads))[1] == 't'
  {
  }

  /** The prefix a process gets: `taskset -c <cpus>` when pinned, nothing otherwise. */
  function Prefix(affinity: bool, cpus: Option<seq<int>>): (r: seq<string>)
    ensures |r| == if affinity && cpus.Some? then 3 else 0
  {
    if affinity && cpus.Some? then Taskset(cpus.value) else []
  }

  /** The layout of a wrk vector: the prefix, its length, and the extras at its end. */
  lemma WrkVectorShape(prefix: seq<string>, words: seq<string>, extra: seq<string>)
    requires |words| == 12
    ensures var args := prefix + (words + extra);
      && |args| == |prefix| + 12 + |extra|
      && args[..|prefix|] == prefix
      && args[|args| - |extra|..] == extra
  {
    var args := prefix + (words + extra);
    assert args[..|prefix|] == prefix;
    assert args[|args| - |extra|..] == extra;
  }

  lemma WrkVectorRoundTrip(wrkPath: string, threads: int, connections: int, maxRps: int, durationSecs: int,
                           endpoint: string, luaPath: string, pipeline: int,
                           affinity: bool, cpus: Option<seq<int>>, extra: seq<string>)
    ensures var args := Prefix(affinity, cpus) + (WrkWords(wrkPath, threads, connections, maxRps, durationSecs, endpoint, luaPath, pipeline) + extra);
      && (HasTaskset(args) <==> affinity && cpus.Some?)
      && ReadWrkArgs(args)
         == Some(WrkCall(Pin(affinity, cpus), wrkPath, threads, connections, maxRps, durationSecs, endpoint, luaPath, pipeline, extra))
  {
    var words := WrkWords(wrkPath, threads, connections, maxRps, durationSecs, endpoint, luaPath, pipeline);
    var tail := words + extra;
    WrkWordsRoundTrip(Pin(affinity, cpus), wrkPath, threads, connections, maxRps, durationSecs, endpoint, luaPath, pipeline, extra);
    if affinity && cpus.Some? {
      assert Prefix(affinity, cpus) == Taskset(cpus.value);
      ReadPinnedWrk(cpus.value, tail);
    } else {
      assert Prefix(affinity, cpus) + tail == tail;
      WrkNumbersAt(wrkPath, threads, connections, maxRps, durationSecs, endpoint, luaPath, pipeline, extra);
      ThreadsFlag(threads);
      ReadUnpinnedWrk(tail);
    }
  }

  /** Builds the wrk vector as the trial does: the prefix, the fixed layout, then the extra arguments. */
  method WrkArgs(wrkPath: string, threads: int, connections: int, maxRps: int, durationSecs: int,
                 endpoint: string, luaPath: string, pipeline: int,
                 affinity: bool, cpus: Option<seq<int>>, extra: seq<string>) returns (args: seq<string>)
    ensures args == Prefix(affinity, cpus) + (WrkWords(wrkPath, threads, connections, maxRps, durationSecs, endpoint, luaPath, pipeline) + extra)
    ensures HasTaskset(args) <==> affinity && cpus.Some?
    ensures affinity && cpus.Some? ==> args[..3] == Taskset(cpus.value)
    ensures |args| == (if affinity && cpus.Some? then 15 else 12) + |extra|
    ensures args[|args| - |extra|..] == extra
    ensures ReadWrkArgs(args)
      == Some(WrkCall(Pin(affinity, cpus), wrkPath, threads, connections, maxRps, durationSecs, endpoint, luaPath, pipeline, extra))
  {
    args := [];
    if affinity && cpus.Some? {
      args := args + Taskset(cpus.value);
    }
    var words := WrkWords(wrkPath, threads, connections, maxRps, durationSecs, endpoint, luaPath, pipeline);
    args := args + words;
    args := args + extra;
    assert args == Prefix(affinity, cpus) + (words + extra);
    WrkVectorShape(Prefix(affinity, cpus), words, extra);
    WrkVectorRoundTrip(wrkPath, threads, connections, maxRps, durationSecs, endpoint, luaPath, pipeline, affinity, cpus, extra);
  }
}
