/**
  What a hext script means: the packets, commands and flow records its lines stand for.
  Characters are the bytes of the file.
 */
module HextSpec {
  import opened Options
  import opened Hex

  const MAX_LINE := 127
  const FLOW_FIELDS := 21
  const MAX_TOKEN := 45

  function Byte(x: int): char {
    (x % 256) as char
  }

  predicate IsSpace(c: char) {
    c == ' ' || c == '\t' || c == '\n' || c == '\r' || c == 11 as char || c == 12 as char
  }

  function SkipSpace(s: string): string {
    if s != "" && IsSpace(s[0]) then SkipSpace(s[1..]) else s
  }

  // ---------------------------------------------------------------------
  // Lines
  // ---------------------------------------------------------------------

  /** How much of the file one read takes: up to `room` characters, ending with a newline if one comes. */
  function ChunkLength(f: string, room: nat): (n: nat)
    ensures n <= |f| && n <= room && (f != "" && room > 0 ==> n > 0)
    decreases room
  {
    if f == "" || room == 0 then 0
    else if f[0] == '\n' then 1
    else 1 + ChunkLength(f[1..], room - 1)
  }

  /** A character array as a C string: what comes before the first NUL. */
  function CString(s: string): string {
    if s == "" || s[0] == '\0' then "" else [s[0]] + CString(s[1..])
  }

  /** The lines successive reads of the file yield. */
  function Lines(f: string): seq<string>
    decreases |f|
  {
    if f == "" then []
    else
      var n := ChunkLength(f, MAX_LINE);
      [CString(f[..n])] + Lines(f[n..])
  }

  datatype Line = Blank | Skip | Command(text: string) | Text(text: string) | Hex(text: string)

  function Classify(line: string): Line {
    var s := SkipSpace(line);
    if s == "" then Blank
    else if s[0] == '$' then Command(s[1..])
    else if s[0] == '"' then Text(s[1..])
    else if s[0] == 'x' then Hex(s[1..])
    else Skip
  }

  // ---------------------------------------------------------------------
  // Data
  // ---------------------------------------------------------------------

  function Xlat(c: char): char {
    if c == 'r' then '\r' else if c == 'n' then '\n' else if c == 't' then '\t' else c
  }

  /** The characters a quoted string stands for, and the escape automaton afterwards, with room for `room` more. */
  function Unquote(s: string, esc: bool, room: nat): (string, bool)
    decreases s
  {
    if s == "" || s[0] == '"' || room == 0 then ("", esc)
    else if !esc && s[0] == '\\' then Unquote(s[1..], true, room)
    else
      var (rest, esc1) := Unquote(s[1..], false, room - 1);
      ([if esc then Xlat(s[0]) else s[0]] + rest, esc1)
  }

  lemma UnquoteStops(s: string, esc: bool, room: nat)
    requires s == "" || s[0] == '"' || room == 0
    ensures Unquote(s, esc, room) == ("", esc)
  {
  }

  lemma UnquoteAt(s: string, i: nat, esc: bool, room: nat)
    requires i < |s| && s[i] != '"' && room > 0
    ensures !esc && s[i] == '\\' ==> Unquote(s[i..], esc, room) == Unquote(s[i + 1..], true, room)
    ensures esc || s[i] != '\\' ==>
              var (t, e) := Unquote(s[i + 1..], false, room - 1);
              Unquote(s[i..], esc, room) == ([if esc then Xlat(s[i]) else s[i]] + t, e)
  {
    assert s[i..][0] == s[i] && s[i..][1..] == s[i + 1..];
  }

  /** The leading hex digits of `s`, read after the value `v`, and how many there are. */
  function Digits(s: string, v: nat): (r: (nat, nat))
    ensures r.1 <= |s|
  {
    if s == "" || HexDigit(s[0]).None? then (v, 0)
    else
      var (w, n) := Digits(s[1..], 16 * v + HexDigit(s[0]).value);
      (w, n + 1)
  }

  const LONG_MAX := 0x7FFF_FFFF_FFFF_FFFF

  function Clamp(x: int): int {
    if x > LONG_MAX then LONG_MAX else if x < -LONG_MAX - 1 then -LONG_MAX - 1 else x
  }

  /** The library's `strtol` with base 16: the value, and how much of `s` it used; 0 when there is no number. */
  function Strtol(s: string): (r: (int, nat))
    ensures r.1 <= |s|
  {
    var t := SkipSpace(s);
    SkipSpaceShorter(s);
    var signed := t != "" && (t[0] == '-' || t[0] == '+');
    var u := if signed then t[1..] else t;
    var prefixed := |u| >= 3 && u[0] == '0' && (u[1] == 'x' || u[1] == 'X') && HexDigit(u[2]).Some?;
    var d := if prefixed then u[2..] else u;
    var (v, n) := Digits(d, 0);
    if n == 0 then (0, 0)
    else (Clamp(if signed && t[0] == '-' then -(v as int) else v), |s| - |d| + n)
  }

  lemma {:induction false} SkipSpaceShorter(s: string)
    ensures |SkipSpace(s)| <= |s|
    decreases s
  {
    if s != "" && IsSpace(s[0]) {
      SkipSpaceShorter(s[1..]);
    }
  }

  /** The bytes a line of hex numbers stands for; a number that ends the line does not count. */
  function Unhex(s: string, room: nat): string
    decreases room
  {
    var (x, n) := Strtol(s);
    if n == 0 || n == |s| || room == 0 then ""
    else [Byte(x)] + Unhex(s[n..], room - 1)
  }

  // ---------------------------------------------------------------------
  // Commands
  // ---------------------------------------------------------------------

  datatype UsrHdr = UsrHdr(srcAddr: int, srcPort: int, dstAddr: int, dstPort: int, toServer: bool)

  /** The endpoints of the next packet, and the configured client and server. */
  datatype Ends = Ends(pci: UsrHdr, cfg: UsrHdr)

  type Flow = map<nat, string>

  /** Reads an address and a port, given the address so far. */
  type HostReader = (string, int) -> (int, int)

  datatype Env = Env(snaplen: nat, user: bool, host: HostReader)

  function FindArrow(s: string): Option<string> {
    if |s| < 2 then None
    else if s[..2] == "->" then Some(s[2..])
    else FindArrow(s[1..])
  }

  predicate Starts(s: string, prefix: string) {
    prefix <= s
  }

  /** Packets go to the server, or back to the client. */
  function Toward(e: Ends, server: bool): Ends {
    if server then e.(pci := e.cfg)
    else e.(pci := UsrHdr(e.cfg.dstAddr, e.cfg.dstPort, e.cfg.srcAddr, e.cfg.srcPort, false))
  }

  function SetPacket(env: Env, e: Ends, s: string): Ends {
    var (a, p) := env.host(s, e.pci.srcAddr);
    var pci := e.pci.(srcAddr := a, srcPort := p);
    match FindArrow(s)
    case None => e.(pci := pci)
    case Some(t) =>
      var (b, q) := env.host(t, pci.dstAddr);
      e.(pci := pci.(dstAddr := b, dstPort := q, toServer := p >= q))
  }

  function SetClient(env: Env, e: Ends, s: string): Ends {
    var (a, p) := env.host(s, e.cfg.srcAddr);
    e.(cfg := e.cfg.(srcAddr := a, srcPort := p))
  }

  function SetServer(env: Env, e: Ends, s: string): Ends {
    var (a, p) := env.host(s, e.cfg.dstAddr);
    e.(cfg := e.cfg.(dstAddr := a, dstPort := p))
  }

  /** The endpoints after a command that is not a flow record. */
  function Redirect(env: Env, e: Ends, s: string): Ends {
    if Starts(s, "packet -> client") then Toward(e, false)
    else if Starts(s, "packet -> server") then Toward(e, true)
    else if Starts(s, "packet ") then SetPacket(env, e, s[7..])
    else if Starts(s, "client ") then SetClient(env, e, s[7..])
    else if Starts(s, "server ") then SetServer(env, e, s[7..])
    else e
  }

  predicate IsFlow(s: string) {
    Starts(s, "sof ") || Starts(s, "eof ")
  }

  /** Fills flow fields from `field` on with the words of `s`, the first of which continues `token`; done after the last
      field. */
  function FillFlow(s: string, field: nat, token: string, flow: Flow): (Flow, bool)
    decreases s
  {
    if field == FLOW_FIELDS then (flow, true)
    else if s == "" || |token| >= MAX_TOKEN then (flow, false)
    else if !IsSpace(s[0]) then FillFlow(s[1..], field, token + [s[0]], flow)
    else if token == "" then FillFlow(s[1..], field, token, flow)
    else FillFlow(s[1..], field + 1, "", flow[field := token])
  }

  // ---------------------------------------------------------------------
  // Scripts
  // ---------------------------------------------------------------------

  /** What goes with a packet of user data: its endpoints, and whether it starts or ends the flow. */
  datatype Header = Header(pci: UsrHdr, first: bool, last: bool)

  datatype Event =
    | Packet(bytes: string, header: Option<Header>)
    | EndMark(mark: Header)
    | Ran(command: string)
    | Meta(sof: bool, flow: Flow)

  datatype State = State(buf: string, esc: bool, ends: Ends, flow: Flow, start: bool, eof: bool)

  function HeaderOf(env: Env, st: State): Option<Header> {
    if env.user then Some(Header(st.ends.pci, st.start, !st.start && st.eof)) else None
  }

  function Started(env: Env, st: State): State {
    st.(buf := "", start := st.start && !env.user)
  }

  /** Delivers what has been gathered, if anything. */
  function Deliver(env: Env, st: State): (State, seq<Event>) {
    if st.buf == "" then (st, []) else (Started(env, st), [Packet(st.buf, HeaderOf(env, st))])
  }

  /** Runs a command once nothing is gathered. */
  function Execute(env: Env, st: State, s: string): (State, seq<Event>) {
    if IsFlow(s) then
      var (flow, done) := FillFlow(s[4..], 0, "", st.flow);
      (st.(flow := flow), [Ran(s)] + if done then [Meta(Starts(s, "sof "), flow)] else [])
    else
      (st.(ends := Redirect(env, st.ends, s)), [Ran(s)])
  }

  /** Gathers the data of a line. */
  function Gather(env: Env, st: State, line: Line): State {
    var room := if |st.buf| <= env.snaplen then env.snaplen - |st.buf| else 0;
    match line
    case Text(s) => var (t, esc) := Unquote(s, st.esc, room); st.(buf := st.buf + t, esc := esc)
    case Hex(s) => st.(buf := st.buf + Unhex(s, room))
    case _ => st
  }

  function Step(env: Env, st: State, line: Line): (State, seq<Event>) {
    match line
    case Blank => Deliver(env, st)
    case Command(s) =>
      var (st1, es) := Deliver(env, st);
      var (st2, fs) := Execute(env, st1, s);
      (st2, es + fs)
    case _ => (Gather(env, st, line), [])
  }

  /** The end of the script: what is left is delivered, and user data is ended with a mark, once. */
  function Finish(env: Env, st: State): seq<Event> {
    var (st1, es) := Deliver(env, st);
    if env.user && !st.eof then es + [EndMark(Header(st1.ends.pci, st1.start, !st1.start))] else es
  }

  function Events(env: Env, st: State, lines: seq<string>): seq<Event>
    decreases lines
  {
    if lines == [] then Finish(env, st)
    else
      var (st1, es) := Step(env, st, Classify(lines[0]));
      es + Events(env, st1, lines[1..])
  }

  // ---------------------------------------------------------------------
  // The reference: groups of data lines
  // ---------------------------------------------------------------------

  /** The characters a quoted string stands for, without regard to room. */
  function FullText(s: string, esc: bool): (string, bool) {
    if s == "" || s[0] == '"' then ("", esc)
    else if !esc && s[0] == '\\' then FullText(s[1..], true)
    else
      var (rest, esc1) := FullText(s[1..], false);
      ([if esc then Xlat(s[0]) else s[0]] + rest, esc1)
  }

  function FullHex(s: string): string
    decreases |s|
  {
    var (x, n) := Strtol(s);
    if n == 0 || n == |s| then "" else [Byte(x)] + FullHex(s[n..])
  }

  /** A line whose escapes are all completed. */
  predicate WellFormed(line: string) {
    match Classify(line)
    case Text(s) => !FullText(s, false).1
    case _ => true
  }

  predicate AllWellFormed(lines: seq<string>) {
    forall i | 0 <= i < |lines| :: WellFormed(lines[i])
  }

  function Data(line: string): string {
    match Classify(line)
    case Text(s) => FullText(s, false).0
    case Hex(s) => FullHex(s)
    case _ => ""
  }

  predicate Breaks(line: string) {
    Classify(line).Blank? || Classify(line).Command?
  }

  function Cut(s: string, n: nat): string {
    if |s| <= n then s else s[..n]
  }

  function NonEmpty(s: string, snaplen: nat): seq<string> {
    if s == "" then [] else [Cut(s, snaplen)]
  }

  /** The groups of data closed by the lines, each cut at the snap length, empty ones dropped; `acc` begins the
      first. */
  function Closed(lines: seq<string>, acc: string, snaplen: nat): seq<string>
    decreases lines
  {
    if lines == [] then []
    else if Breaks(lines[0]) then NonEmpty(acc, snaplen) + Closed(lines[1..], "", snaplen)
    else Closed(lines[1..], acc + Data(lines[0]), snaplen)
  }

  /** The data not yet closed by the lines. */
  function Open(lines: seq<string>, acc: string): string
    decreases lines
  {
    if lines == [] then acc
    else if Breaks(lines[0]) then Open(lines[1..], "")
    else Open(lines[1..], acc + Data(lines[0]))
  }

  /** The commands among the lines. */
  function Commands(lines: seq<string>): seq<string> {
    if lines == [] then []
    else (match Classify(lines[0]) case Command(s) => [s] case _ => []) + Commands(lines[1..])
  }

  function PacketsOf(es: seq<Event>): seq<string> {
    if es == [] then []
    else (if es[0].Packet? then [es[0].bytes] else []) + PacketsOf(es[1..])
  }

  function RunsOf(es: seq<Event>): seq<string> {
    if es == [] then []
    else (if es[0].Ran? then [es[0].command] else []) + RunsOf(es[1..])
  }

  lemma {:induction false} PacketsSplit(es: seq<Event>, fs: seq<Event>)
    ensures PacketsOf(es + fs) == PacketsOf(es) + PacketsOf(fs)
    decreases es
  {
    if es == [] {
      assert es + fs == fs;
    } else {
      var head := if es[0].Packet? then [es[0].bytes] else [];
      assert (es + fs)[0] == es[0] && (es + fs)[1..] == es[1..] + fs;
      assert PacketsOf(es + fs) == head + PacketsOf(es[1..] + fs);
      PacketsSplit(es[1..], fs);
      assert head + (PacketsOf(es[1..]) + PacketsOf(fs)) == head + PacketsOf(es[1..]) + PacketsOf(fs);
    }
  }

  lemma {:induction false} RunsSplit(es: seq<Event>, fs: seq<Event>)
    ensures RunsOf(es + fs) == RunsOf(es) + RunsOf(fs)
    decreases es
  {
    if es == [] {
      assert es + fs == fs;
    } else {
      var head := if es[0].Ran? then [es[0].command] else [];
      assert (es + fs)[0] == es[0] && (es + fs)[1..] == es[1..] + fs;
      assert RunsOf(es + fs) == head + RunsOf(es[1..] + fs);
      RunsSplit(es[1..], fs);
      assert head + (RunsOf(es[1..]) + RunsOf(fs)) == head + RunsOf(es[1..]) + RunsOf(fs);
    }
  }

  // Decoding into limited room is decoding and cutting.

  lemma {:induction false} UnquoteCuts(s: string, esc: bool, room: nat)
    ensures Unquote(s, esc, room).0 == Cut(FullText(s, esc).0, room)
    ensures (esc ==> room > 0) && !FullText(s, esc).1 ==> !Unquote(s, esc, room).1
    decreases s
  {
    if s == "" || s[0] == '"' || room == 0 {
    } else if !esc && s[0] == '\\' {
      UnquoteCuts(s[1..], true, room);
    } else {
      UnquoteCuts(s[1..], false, room - 1);
    }
  }

  lemma {:induction false} UnhexCuts(s: string, room: nat)
    ensures Unhex(s, room) == Cut(FullHex(s), room)
    decreases room
  {
    hide Strtol;
    var (x, n) := Strtol(s);
    if room > 0 && n != 0 && n != |s| {
      UnhexCuts(s[n..], room - 1);
      assert FullHex(s) == [Byte(x)] + FullHex(s[n..]);
    }
  }

  // ---------------------------------------------------------------------
  // A script means its groups and its commands
  // ---------------------------------------------------------------------

  /** The state and events after some lines, before the end of the script. */
  function Run(env: Env, st: State, lines: seq<string>): (State, seq<Event>)
    decreases lines
  {
    if lines == [] then (st, [])
    else
      var (st1, es) := Step(env, st, Classify(lines[0]));
      var (st2, fs) := Run(env, st1, lines[1..]);
      (st2, es + fs)
  }

  lemma {:induction false} EventsRun(env: Env, st: State, lines: seq<string>, more: seq<string>)
    ensures Events(env, st, lines + more) == Run(env, st, lines).1 + Events(env, Run(env, st, lines).0, more)
    decreases lines
  {
    hide Step, Finish, Classify;
    if lines == [] {
      assert lines + more == more;
    } else {
      assert (lines + more)[1..] == lines[1..] + more;
      EventsRun(env, Step(env, st, Classify(lines[0])).0, lines[1..], more);
    }
  }

  /** One line, on a state that has gathered `acc` but for the cut. */
  lemma StepGroups(env: Env, st: State, line: string, acc: string)
    requires env.snaplen > 0 && WellFormed(line) && !st.esc && st.buf == Cut(acc, env.snaplen)
    ensures var (st1, es) := Step(env, st, Classify(line));
            && !st1.esc && st1.buf == Cut(if Breaks(line) then "" else acc + Data(line), env.snaplen)
            && PacketsOf(es) == (if Breaks(line) then NonEmpty(acc, env.snaplen) else [])
            && RunsOf(es) == (match Classify(line) case Command(s) => [s] case _ => [])
  {
    var room := if |st.buf| <= env.snaplen then env.snaplen - |st.buf| else 0;
    match Classify(line)
    case Blank =>
    case Command(s) =>
      CommandGroups(env, st, s, acc);
    case Text(s) =>
      UnquoteCuts(s, false, room);
    case Hex(s) =>
      UnhexCuts(s, room);
    case Skip =>
      assert acc + "" == acc;
  }

  lemma CommandGroups(env: Env, st: State, s: string, acc: string)
    requires env.snaplen > 0 && !st.esc && st.buf == Cut(acc, env.snaplen)
    ensures var (st1, es) := Step(env, st, Command(s));
            && !st1.esc && st1.buf == "" && PacketsOf(es) == NonEmpty(acc, env.snaplen) && RunsOf(es) == [s]
  {
    hide PacketsOf, RunsOf, Deliver, Execute, Cut, NonEmpty;
    var (st1, es) := Deliver(env, st);
    var (st2, fs) := Execute(env, st1, s);
    DeliverGroups(env, st, acc);
    ExecuteGroups(env, st1, s);
    PacketsSplit(es, fs);
    RunsSplit(es, fs);
  }

  lemma DeliverGroups(env: Env, st: State, acc: string)
    requires env.snaplen > 0 && st.buf == Cut(acc, env.snaplen)
    ensures var (st1, es) := Deliver(env, st);
            && st1.buf == "" && st1.esc == st.esc && PacketsOf(es) == NonEmpty(acc, env.snaplen) && RunsOf(es) == []
  {
  }

  lemma ExecuteGroups(env: Env, st: State, s: string)
    ensures var (st1, es) := Execute(env, st, s);
            && st1.buf == st.buf && st1.esc == st.esc && PacketsOf(es) == [] && RunsOf(es) == [s]
            && es != [] && es[0] == Ran(s)
  {
    hide FillFlow, Redirect;
    var es := Execute(env, st, s).1;
    if |es| == 1 {
      assert es[1..] == [];
    } else {
      assert es[1].Meta? && es[1..][1..] == [];
      assert PacketsOf(es[1..]) == [] && RunsOf(es[1..]) == [];
    }
  }

  lemma {:induction false} RunGroups(env: Env, st: State, lines: seq<string>, acc: string)
    requires env.snaplen > 0 && AllWellFormed(lines) && !st.esc && st.buf == Cut(acc, env.snaplen)
    ensures var (st1, es) := Run(env, st, lines);
            && !st1.esc && st1.buf == Cut(Open(lines, acc), env.snaplen)
            && PacketsOf(es) == Closed(lines, acc, env.snaplen) && RunsOf(es) == Commands(lines)
    decreases lines
  {
    if lines != [] {
      hide Step, Classify, Cut, Data, WellFormed, PacketsOf, RunsOf;
      StepGroups(env, st, lines[0], acc);
      var (st1, es) := Step(env, st, Classify(lines[0]));
      var acc1 := if Breaks(lines[0]) then "" else acc + Data(lines[0]);
      RunGroups(env, st1, lines[1..], acc1);
      PacketsSplit(es, Run(env, st1, lines[1..]).1);
      RunsSplit(es, Run(env, st1, lines[1..]).1);
    }
  }

  ghost predicate Initial(st: State) {
    st.buf == "" && !st.esc && !st.eof
  }

  /**
    The packets of a script are its groups of decoded data lines, split at blank lines,
    commands and the end, empty groups dropped, each cut at the snap length; every command
    runs exactly once, in order.
   */
  lemma ScriptMeansGroups(env: Env, st: State, lines: seq<string>)
    requires env.snaplen > 0 && AllWellFormed(lines) && Initial(st)
    ensures PacketsOf(Events(env, st, lines)) == Closed(lines, "", env.snaplen) + NonEmpty(Open(lines, ""), env.snaplen)
    ensures RunsOf(Events(env, st, lines)) == Commands(lines)
  {
    RunGroups(env, st, lines, "");
    EventsRun(env, st, lines, []);
    assert lines + [] == lines;
    var (st1, es) := Run(env, st, lines);
    hide Run, Events;
    assert Events(env, st1, []) == Finish(env, st1);
    PacketsSplit(es, Finish(env, st1));
    RunsSplit(es, Finish(env, st1));
    FinishGroups(env, st1, Open(lines, ""));
  }

  lemma FinishGroups(env: Env, st: State, acc: string)
    requires env.snaplen > 0 && st.buf == Cut(acc, env.snaplen)
    ensures PacketsOf(Finish(env, st)) == NonEmpty(acc, env.snaplen) && RunsOf(Finish(env, st)) == []
  {
    var (st1, es) := Deliver(env, st);
    var mark := [EndMark(Header(st1.ends.pci, st1.start, !st1.start))];
    PacketsSplit(es, mark);
    RunsSplit(es, mark);
  }

  /** When a command runs, exactly the groups before it have been delivered and exactly the commands before it have
      run. */
  lemma CommandInItsPlace(env: Env, st: State, before: seq<string>, line: string, after: seq<string>)
    returns (es: seq<Event>, fs: seq<Event>)
    requires env.snaplen > 0 && AllWellFormed(before) && Initial(st) && Classify(line).Command?
    ensures Events(env, st, before + [line] + after) == es + [Ran(Classify(line).text)] + fs
    ensures PacketsOf(es) == Closed(before, "", env.snaplen) + NonEmpty(Open(before, ""), env.snaplen)
    ensures RunsOf(es) == Commands(before)
  {
    hide PacketsOf, RunsOf, Deliver, Execute, NonEmpty, Run, Events, Classify, Closed, Open, Commands;
    RunGroups(env, st, before, "");
    EventsRun(env, st, before, [line] + after);
    assert before + [line] + after == before + ([line] + after);
    var (st1, ds) := Run(env, st, before);
    var (st2, ps) := Deliver(env, st1);
    var (st3, cs) := Execute(env, st2, Classify(line).text);
    DeliverGroups(env, st1, Open(before, ""));
    ExecuteGroups(env, st2, Classify(line).text);
    PacketsSplit(ds, ps);
    RunsSplit(ds, ps);
    EventsFirst(env, st1, line, after);
    es, fs := ds + ps, cs[1..] + Events(env, st3, after);
    assert cs == [cs[0]] + cs[1..];
    assert RunsOf(ds) + [] == RunsOf(ds);
  }

  lemma EventsFirst(env: Env, st: State, line: string, after: seq<string>)
    ensures var (st1, es) := Step(env, st, Classify(line));
            Events(env, st, [line] + after) == es + Events(env, st1, after)
  {
    hide Step, Classify;
    assert ([line] + after)[1..] == after;
  }

  // ---------------------------------------------------------------------
  // Endpoints and flow flags
  // ---------------------------------------------------------------------

  function EndsAfter(env: Env, e: Ends, commands: seq<string>): Ends
    decreases commands
  {
    if commands == [] then e else EndsAfter(env, Redirect(env, e, commands[0]), commands[1..])
  }

  lemma {:induction false} EndsAfterSplit(env: Env, e: Ends, cs: seq<string>, ds: seq<string>)
    ensures EndsAfter(env, e, cs + ds) == EndsAfter(env, EndsAfter(env, e, cs), ds)
    decreases cs
  {
    hide Redirect;
    if cs == [] {
      assert cs + ds == ds;
    } else {
      assert (cs + ds)[1..] == cs[1..] + ds;
      EndsAfterSplit(env, Redirect(env, e, cs[0]), cs[1..], ds);
    }
  }

  /** The header of a packet or of the end mark. */
  function HeaderAt(e: Event): Option<Header> {
    match e case Packet(_, h) => h case EndMark(h) => Some(h) case _ => None
  }

  predicate Marks(es: seq<Event>) {
    exists k :: 0 <= k < |es| && HeaderAt(es[k]).Some?
  }

  /**
    Every packet goes out under the endpoints its preceding commands set up; only the first
    carries the start flag, and only the end mark, unless it is first, the end flag.
   */
  ghost predicate HeadersOk(env: Env, e: Ends, start: bool, es: seq<Event>) {
    forall k | 0 <= k < |es| && HeaderAt(es[k]).Some? :: HeaderOk(env, e, start, es, k)
  }

  ghost predicate HeaderOk(env: Env, e: Ends, start: bool, es: seq<Event>, k: nat)
    requires k < |es| && HeaderAt(es[k]).Some?
  {
    var h := HeaderAt(es[k]).value;
    && h.pci == EndsAfter(env, e, RunsOf(es[..k])).pci
    && (h.first <==> start && !Marks(es[..k]))
    && (h.last <==> es[k].EndMark? && !h.first)
  }

  lemma HeadersAppend(env: Env, e: Ends, start: bool, es: seq<Event>, fs: seq<Event>)
    requires HeadersOk(env, e, start, es)
    requires HeadersOk(env, EndsAfter(env, e, RunsOf(es)), start && !Marks(es), fs)
    ensures HeadersOk(env, e, start, es + fs)
  {
    hide HeaderOk, Marks, EndsAfter, RunsOf;
    forall k | 0 <= k < |es + fs| && HeaderAt((es + fs)[k]).Some?
      ensures HeaderOk(env, e, start, es + fs, k)
    {
      if k < |es| {
        HeaderKept(env, e, start, es, fs, k);
      } else {
        HeaderMoved(env, e, start, es, fs, k - |es|);
      }
    }
  }

  lemma HeaderKept(env: Env, e: Ends, start: bool, es: seq<Event>, fs: seq<Event>, k: nat)
    requires k < |es| && HeaderAt(es[k]).Some? && HeaderOk(env, e, start, es, k)
    ensures HeaderOk(env, e, start, es + fs, k)
  {
    hide EndsAfter, RunsOf, Marks;
    assert (es + fs)[..k] == es[..k];
  }

  lemma HeaderMoved(env: Env, e: Ends, start: bool, es: seq<Event>, fs: seq<Event>, j: nat)
    requires j < |fs| && HeaderAt(fs[j]).Some?
             && HeaderOk(env, EndsAfter(env, e, RunsOf(es)), start && !Marks(es), fs, j)
    ensures HeaderOk(env, e, start, es + fs, |es| + j)
  {
    hide EndsAfter, RunsOf, Marks;
    assert (es + fs)[..|es| + j] == es + fs[..j];
    RunsSplit(es, fs[..j]);
    EndsAfterSplit(env, e, RunsOf(es), RunsOf(fs[..j]));
    MarksSplit(es, fs[..j]);
  }

  lemma MarksSplit(es: seq<Event>, fs: seq<Event>)
    ensures Marks(es + fs) <==> Marks(es) || Marks(fs)
  {
    if k :| 0 <= k < |es| && HeaderAt(es[k]).Some? {
      assert HeaderAt((es + fs)[k]).Some?;
    }
    if k :| 0 <= k < |fs| && HeaderAt(fs[k]).Some? {
      assert HeaderAt((es + fs)[|es| + k]).Some?;
    }
  }

  lemma DeliverHeaders(env: Env, st: State)
    requires env.user && !st.eof
    ensures var (st1, es) := Deliver(env, st);
            && HeadersOk(env, st.ends, st.start, es) && RunsOf(es) == [] && st1.ends == st.ends
            && st1.start == (st.start && !Marks(es)) && !st1.eof
  {
    var es := Deliver(env, st).1;
    if es != [] {
      assert es[..0] == [] && RunsOf([]) == [] && !Marks([]);
      assert HeaderAt(es[0]).Some?;
      assert EndsAfter(env, st.ends, []) == st.ends;
    }
  }

  lemma ExecuteHeaders(env: Env, st: State, s: string)
    requires env.user && !st.eof
    ensures var (st1, es) := Execute(env, st, s);
            && HeadersOk(env, st.ends, st.start, es) && st1.ends == EndsAfter(env, st.ends, RunsOf(es))
            && !Marks(es) && st1.start == st.start && !st1.eof
  {
    ExecuteGroups(env, st, s);
    hide FillFlow, RunsOf, PacketsOf, SetPacket, SetClient, SetServer, Toward;
    var (st1, es) := Execute(env, st, s);
    var cs := [s];
    assert RunsOf(es) == cs && cs[1..] == [];
    assert EndsAfter(env, st.ends, cs) == EndsAfter(env, Redirect(env, st.ends, s), cs[1..]);
    if IsFlow(s) {
      FlowIsNoRedirect(env, st.ends, s);
    }
  }

  lemma FlowIsNoRedirect(env: Env, e: Ends, s: string)
    requires IsFlow(s)
    ensures Redirect(env, e, s) == e
  {
    FlowIsNothingElse(s);
  }

  lemma FlowIsNothingElse(s: string)
    requires IsFlow(s)
    ensures !Starts(s, "packet ") && !Starts(s, "packet -> client") && !Starts(s, "packet -> server")
    ensures !Starts(s, "client ") && !Starts(s, "server ")
  {
    assert s[0] == 's' || s[0] == 'e';
    assert s[1] == 'o';
  }

  lemma StepHeaders(env: Env, st: State, line: Line)
    requires env.user && !st.eof
    ensures var (st1, es) := Step(env, st, line);
            && HeadersOk(env, st.ends, st.start, es) && st1.ends == EndsAfter(env, st.ends, RunsOf(es))
            && st1.start == (st.start && !Marks(es)) && !st1.eof
  {
    hide Deliver, Execute, HeadersOk, Marks;
    assert RunsOf([]) == [] && EndsAfter(env, st.ends, []) == st.ends;
    NoHeaders(env, st.ends, st.start);
    match line
    case Blank =>
      DeliverHeaders(env, st);
    case Command(s) =>
      var (st1, es) := Deliver(env, st);
      var (st2, fs) := Execute(env, st1, s);
      DeliverHeaders(env, st);
      ExecuteHeaders(env, st1, s);
      HeadersAppend(env, st.ends, st.start, es, fs);
      RunsSplit(es, fs);
      MarksSplit(es, fs);
      EndsAfterSplit(env, st.ends, RunsOf(es), RunsOf(fs));
    case _ =>
  }

  lemma NoHeaders(env: Env, e: Ends, start: bool)
    ensures HeadersOk(env, e, start, []) && !Marks([])
  {
  }

  /** Headers are right over a whole script of user data, for any lines. */
  lemma {:induction false} ScriptHeaders(env: Env, st: State, lines: seq<string>)
    requires env.user && !st.eof
    ensures HeadersOk(env, st.ends, st.start, Events(env, st, lines))
    decreases lines
  {
    if lines == [] {
      hide Deliver, HeadersOk, Marks, EndsAfter;
      var (st1, es) := Deliver(env, st);
      DeliverHeaders(env, st);
      EndMarkHeader(env, st1);
      var mark := [EndMark(Header(st1.ends.pci, st1.start, !st1.start))];
      assert EndsAfter(env, st.ends, RunsOf(es)) == st.ends by {
        EndsAfterNone(env, st.ends);
      }
      HeadersAppend(env, st.ends, st.start, es, mark);
    } else {
      hide Step, HeadersOk, Marks, EndsAfter, RunsOf, Classify;
      var (st1, es) := Step(env, st, Classify(lines[0]));
      StepHeaders(env, st, Classify(lines[0]));
      ScriptHeaders(env, st1, lines[1..]);
      HeadersAppend(env, st.ends, st.start, es, Events(env, st1, lines[1..]));
    }
  }

  lemma EndsAfterNone(env: Env, e: Ends)
    ensures EndsAfter(env, e, []) == e
  {
  }

  lemma EndMarkHeader(env: Env, st: State)
    ensures HeadersOk(env, st.ends, st.start, [EndMark(Header(st.ends.pci, st.start, !st.start))])
  {
    var es := [EndMark(Header(st.ends.pci, st.start, !st.start))];
    assert es[..0] == [] && RunsOf([]) == [] && !Marks([]);
    EndsAfterNone(env, st.ends);
  }

  // ---------------------------------------------------------------------
  // What the commands set up
  // ---------------------------------------------------------------------

  lemma EndsAfterOne(env: Env, e: Ends, c: string)
    ensures EndsAfter(env, e, [c]) == Redirect(env, e, c)
  {
    assert [c][1..] == [];
    EndsAfterNone(env, Redirect(env, e, c));
  }

  /** The configured client is the one named last, and so is the server; the direction of the
      configuration is never changed. */
  lemma {:induction false} ConfiguredKept(env: Env, e: Ends, cs: seq<string>)
    ensures EndsAfter(env, e, cs).cfg.toServer == e.cfg.toServer
    ensures (forall i | 0 <= i < |cs| :: !Starts(cs[i], "client ")) ==>
              EndsAfter(env, e, cs).cfg.srcAddr == e.cfg.srcAddr && EndsAfter(env, e, cs).cfg.srcPort == e.cfg.srcPort
    ensures (forall i | 0 <= i < |cs| :: !Starts(cs[i], "server ")) ==>
              EndsAfter(env, e, cs).cfg.dstAddr == e.cfg.dstAddr && EndsAfter(env, e, cs).cfg.dstPort == e.cfg.dstPort
    decreases cs
  {
    if cs != [] {
      assert forall i | 0 <= i < |cs| - 1 :: cs[1..][i] == cs[i + 1];
      ConfiguredKept(env, Redirect(env, e, cs[0]), cs[1..]);
      hide FindArrow;
    }
  }

  /**
    A client and a server named in a script are what its packets go between, whatever other
    commands stand between: towards the server with the configured direction flag, and
    towards the client with the flag cleared.
   */
  lemma NamedEnds(env: Env, e: Ends, client: string, mid: seq<string>, server: string, last: seq<string>)
    requires forall i | 0 <= i < |mid| :: !Starts(mid[i], "client ")
    requires forall i | 0 <= i < |last| :: !Starts(last[i], "client ") && !Starts(last[i], "server ")
    ensures var named := ["client " + client] + mid + ["server " + server] + last;
            var default := EndsAfter(env, e, ["client " + client] + mid).cfg.dstAddr;
            var there := EndsAfter(env, e, named + ["packet -> server"]).pci;
            var back := EndsAfter(env, e, named + ["packet -> client"]).pci;
            && (there.srcAddr, there.srcPort) == env.host(client, e.cfg.srcAddr) == (back.dstAddr, back.dstPort)
            && (there.dstAddr, there.dstPort) == env.host(server, default) == (back.srcAddr, back.srcPort)
            && there.toServer == e.cfg.toServer && !back.toServer
  {
    hide EndsAfter, Redirect;
    var c, s := "client " + client, "server " + server;
    var named := [c] + mid + [s] + last;
    var e1 := EndsAfter(env, e, [c] + mid);
    var e2 := EndsAfter(env, e, named);
    NamingClient(env, e, client);
    EndsAfterOne(env, e, c);
    EndsAfterSplit(env, e, [c], mid);
    ConfiguredKept(env, Redirect(env, e, c), mid);
    NamingServer(env, e1, server);
    EndsAfterOne(env, e1, s);
    EndsAfterSplit(env, e1, [s], last);
    ConfiguredKept(env, Redirect(env, e1, s), last);
    assert named == ([c] + mid) + ([s] + last);
    EndsAfterSplit(env, e, [c] + mid, [s] + last);
    EndsAfterSplit(env, e, named, ["packet -> server"]);
    EndsAfterSplit(env, e, named, ["packet -> client"]);
    EndsAfterOne(env, e2, "packet -> server");
    EndsAfterOne(env, e2, "packet -> client");
    Turning(env, e2);
  }

  lemma NamingClient(env: Env, e: Ends, client: string)
    ensures Redirect(env, e, "client " + client) == SetClient(env, e, client)
  {
    var c := "client " + client;
    assert c[7..] == client && c[0] == 'c';
  }

  lemma NamingServer(env: Env, e: Ends, server: string)
    ensures Redirect(env, e, "server " + server) == SetServer(env, e, server)
  {
    var s := "server " + server;
    assert s[7..] == server && s[0] == 's' && s[1] == 'e';
  }

  lemma Turning(env: Env, e: Ends)
    ensures Redirect(env, e, "packet -> client") == Toward(e, false)
    ensures Redirect(env, e, "packet -> server") == Toward(e, true)
  {
    assert "packet -> server"[10] == 's' && "packet -> client"[10] == 'c';
  }

  lemma {:induction false} ArrowFound(before: string, after: string)
    requires '-' !in before
    ensures FindArrow(before + "->" + after) == Some(after)
    decreases before
  {
    var s := before + "->" + after;
    if before == "" {
      assert s[..2] == "->" && s[2..] == after;
    } else {
      assert s[0] == before[0] && s[1..] == before[1..] + "->" + after;
      assert s[..2] != "->" by { assert s[..2][0] == before[0]; }
      ArrowFound(before[1..], after);
    }
  }

  /** A packet's own endpoints: the first before the arrow, the second after it; the higher port is the client's. */
  lemma PacketEnds(env: Env, e: Ends, before: string, after: string)
    requires '-' !in before
    ensures var pci := SetPacket(env, e, before + "->" + after).pci;
            && (pci.srcAddr, pci.srcPort) == env.host(before + "->" + after, e.pci.srcAddr)
            && (pci.dstAddr, pci.dstPort) == env.host(after, e.pci.dstAddr)
            && (pci.toServer <==> pci.srcPort >= pci.dstPort)
  {
    ArrowFound(before, after);
  }
}
