/**
  The hext reader: a line at a time is read, parsed into the packet buffer or run as a
  command; a command that closes a packet is held back until the packet is delivered.
  Whatever the script and however the reader is driven, the events so far followed by
  those still to come are the events the script means.
 */
module HextReader {
  import opened Options
  import opened HextSpec

  /** The status at the end of the file; any negative number serves. */
  const READFILE_EOF := -1

  class Reader {
    const env: Env
    var rest: string
    var line: string
    var buf: array<char>
    var idx: nat
    var esc: bool
    var ends: Ends
    var flow: Flow
    var sof: bool
    var meta: bool
    var start: bool
    var eof: bool
    var stop: bool
    ghost var log: seq<Event>

    constructor (env: Env, content: string, ends: Ends)
      requires env.snaplen > 0
      ensures Valid() && fresh(buf) && this.env == env && rest == content && line == "" && !meta && log == []
      ensures Now() == State("", false, ends, map[], true, false)
    {
      this.env, rest, line, this.ends := env, content, "", ends;
      buf := new char[env.snaplen];
      idx, esc, flow, sof, meta, start, eof, stop := 0, false, map[], false, false, true, false, false;
      log := [];
    }

    ghost predicate Valid()
      reads this
    {
      env.snaplen > 0 && buf.Length == env.snaplen && idx <= buf.Length
    }

    ghost function Now(): State
      reads this, buf
      requires Valid()
    {
      State(buf[..idx], esc, ends, flow, start, eof)
    }

    // -------------------------------------------------------------------
    // Data
    // -------------------------------------------------------------------

    method Unescape(c: char) returns (u: Option<char>)
      modifies this`esc
      ensures !old(esc) && c == '\\' ==> u == None && esc
      ensures old(esc) ==> u == Some(Xlat(c)) && !esc
      ensures !old(esc) && c != '\\' ==> u == Some(c) && !esc
    {
      if !esc && c == '\\' {
        esc := true;
        u := None;
      } else if esc {
        esc := false;
        u := Some(Xlat(c));
      } else {
        u := Some(c);
      }
    }

    /** Loads quoted string data into the buffer, as far as it fits. */
    method ParseString(s: string)
      requires Valid()
      modifies this`idx, this`esc, buf
      ensures Valid()
      ensures var (t, esc1) := Unquote(s, old(esc), env.snaplen - old(idx));
              buf[..idx] == old(buf[..idx]) + t && esc == esc1
    {
      hide Unquote, Xlat;
      var i := 0;
      ghost var whole := Unquote(s, esc, env.snaplen - idx);
      ghost var had := buf[..idx];
      assert s[0..] == s;
      while i < |s| && s[i] != '"' && idx < env.snaplen
        invariant i <= |s| && Valid() && buf == old(buf)
        invariant had + whole.0 == buf[..idx] + Unquote(s[i..], esc, env.snaplen - idx).0
        invariant whole.1 == Unquote(s[i..], esc, env.snaplen - idx).1
        decreases |s| - i
      {
        ghost var before := buf[..idx];
        UnquoteAt(s, i, esc, env.snaplen - idx);
        var u := Unescape(s[i]);
        if u.Some? {
          buf[idx] := u.value;
          idx := idx + 1;
          assert buf[..idx] == before + [u.value];
        }
        i := i + 1;
      }
      UnquoteStops(s[i..], esc, env.snaplen - idx);
      assert buf[..idx] + "" == buf[..idx];
    }

    /** Loads hex data into the buffer, as far as it fits. */
    method ParseHex(s: string)
      requires Valid()
      modifies this`idx, buf
      ensures Valid()
      ensures buf[..idx] == old(buf[..idx]) + Unhex(s, env.snaplen - old(idx))
    {
      hide Strtol;
      ghost var whole, had := Unhex(s, env.snaplen - idx), buf[..idx];
      var t := s;
      var (x, n) := Strtol(t);
      while n != |t| && n != 0 && idx < env.snaplen
        invariant Valid() && buf == old(buf) && (x, n) == Strtol(t)
        invariant had + whole == buf[..idx] + Unhex(t, env.snaplen - idx)
        decreases env.snaplen - idx
      {
        ghost var before := buf[..idx];
        buf[idx] := Byte(x);
        idx := idx + 1;
        assert buf[..idx] == before + [Byte(x)];
        t := t[n..];
        var y := Strtol(t);
        x, n := y.0, y.1;
      }
      assert buf[..idx] + "" == buf[..idx];
    }

    // -------------------------------------------------------------------
    // Commands
    // -------------------------------------------------------------------

    /** Reads a flow record, field by field; a complete one is left for the caller to report. */
    method ParseFlow(isSof: bool, text: string)
      modifies this`flow, this`sof, this`meta, this`line
      ensures var (flow1, done) := FillFlow(text, 0, "", old(flow));
              && flow == flow1 && sof == isSof && meta == (old(meta) || done)
              && line == (if done then "" else old(line))
    {
      sof := isSof;
      var p, field, token := 0, 0, "";
      assert text[0..] == text;
      while field != FLOW_FIELDS
        invariant p <= |text| && field <= FLOW_FIELDS && line == old(line) && meta == old(meta) && sof == isSof
        invariant FillFlow(text[p..], field, token, flow) == FillFlow(text, 0, "", old(flow))
        decreases |text| - p
      {
        if p == |text| || |token| >= MAX_TOKEN {
          return;
        }
        assert text[p..][0] == text[p] && text[p..][1..] == text[p + 1..];
        if IsSpace(text[p]) {
          if token != "" {
            flow := flow[field := token];
            token := "";
            field := field + 1;
          }
        } else {
          token := token + [text[p]];
        }
        p := p + 1;
      }
      meta := true;
      line := "";
    }

    method ParseCommand(s: string)
      requires Valid() && !meta
      modifies this`ends, this`flow, this`sof, this`meta, this`line, this`log
      ensures var (st, es) := Execute(env, old(Now()), s);
              Now() == st && log + Reported() == old(log) + es
      ensures meta ==> line == ""
      ensures !meta ==> line == old(line)
    {
      hide Toward, SetPacket, SetClient, SetServer, FillFlow;
      if IsFlow(s) {
        FlowIsNothingElse(s);
      }
      log := log + [Ran(s)];
      assert forall es: seq<Event> :: log + es == old(log) + ([Ran(s)] + es);
      if Starts(s, "packet -> client") {
        ends := Toward(ends, false);
      } else if Starts(s, "packet -> server") {
        ends := Toward(ends, true);
      } else if Starts(s, "packet ") {
        ends := SetPacket(env, ends, s[7..]);
      } else if Starts(s, "client ") {
        ends := SetClient(env, ends, s[7..]);
      } else if Starts(s, "server ") {
        ends := SetServer(env, ends, s[7..]);
      } else if Starts(s, "sof ") {
        ParseFlow(true, s[4..]);
      } else if Starts(s, "eof ") {
        ParseFlow(false, s[4..]);
      }
    }

    /** A complete flow record that has not been reported yet. */
    ghost function Reported(): seq<Event>
      reads this
    {
      if meta then [Meta(sof, flow)] else []
    }

    // -------------------------------------------------------------------
    // Lines
    // -------------------------------------------------------------------

    /** The lines still to be dealt with: the one held back, and those unread. */
    ghost function Pending(): seq<string>
      reads this
    {
      (if line != "" then [line] else []) + Lines(rest)
    }

    /** The events still to come. */
    ghost function Future(): seq<Event>
      reads this, buf
      requires Valid()
    {
      Reported() + Events(env, Now(), Pending())
    }

    method Fgets()
      requires rest != ""
      modifies this`line, this`rest
      ensures [line] + Lines(rest) == Lines(old(rest)) && |rest| < |old(rest)|
    {
      var n := ChunkLength(rest, MAX_LINE);
      line := CString(rest[..n]);
      rest := rest[n..];
    }

    method Flush() returns (n: nat)
      requires Valid()
      modifies this`idx
      ensures Valid() && n == old(idx) && idx == 0
    {
      n := idx;
      idx := 0;
    }

    /** Parses the line; a command that would cut a packet short only flushes the packet and stays. */
    method Parse() returns (n: nat)
      requires Valid() && !meta
      modifies this`line, this`idx, this`esc, this`ends, this`flow, this`sof, this`meta, this`log, buf
      ensures Valid() && n <= buf.Length
      ensures var l, st := Classify(old(line)), old(Now());
              && (n > 0 <==> (l.Blank? || l.Command?) && st.buf != "")
              && (n > 0 ==> !meta && buf[..n] == st.buf && Now() == st.(buf := "") && log == old(log))
              && line == (if n > 0 && l.Command? then old(line) else "")
              && (n == 0 ==> Now() == Step(env, st, l).0 && log + Reported() == old(log) + Step(env, st, l).1)
    {
      n := 0;
      var l := Classify(line);
      hide Classify, Unquote, Unhex, Execute;
      match l {
        case Blank =>
          line := "";
          n := Flush();
          return;
        case Skip =>
        case Command(s) =>
          if idx != 0 {
            n := Flush();
            return;
          }
          ParseCommand(s);
        case Text(s) =>
          ParseString(s);
        case Hex(s) =>
          ParseHex(s);
      }
      line := "";
    }

    // -------------------------------------------------------------------
    // Reading
    // -------------------------------------------------------------------

    /** How much is left to do. */
    ghost function Work(): nat
      reads this
    {
      3 * |rest| + (if line != "" then 2 else 0) + (if idx > 0 then 1 else 0) + if env.user && !eof then 1 else 0
    }

    /** The event a read has made ready: a packet of `n` bytes, or the end mark. */
    ghost function Ready(n: int): seq<Event>
      reads this, buf
      requires Valid() && n <= buf.Length
    {
      if n < 1 then []
      else if eof then [EndMark(Header(ends.pci, start, !start))]
      else [Packet(buf[..n], HeaderOf(env, Now()))]
    }

    /** The state once the packet or mark that is ready has gone out. */
    ghost function After(n: int): State
      reads this, buf
      requires Valid()
    {
      if n < 1 then Now() else Now().(start := start && !env.user)
    }

    /** The whole run: the events so far, those made ready, and those to come. */
    ghost function Whole(n: int): seq<Event>
      reads this, buf
      requires Valid() && n <= buf.Length
    {
      log + (Reported() + Ready(n) + Events(env, After(n), Pending()))
    }

    method NextLine()
      requires Valid() && (line != "" || rest != "")
      modifies this`line, this`rest
      ensures [line] + Lines(rest) == old(Pending())
      ensures 3 * |rest| + 2 < old(Work()) || (old(line) != "" && line == old(line) && rest == old(rest))
    {
      hide Lines;
      if line == "" {
        assert [] + Lines(rest) == Lines(rest);
        Fgets();
      }
    }

    /** Deals with one line. */
    method Advance() returns (n: nat)
      requires Valid() && !meta && !eof && (line != "" || rest != "")
      modifies this`line, this`rest, this`idx, this`esc, this`ends, this`flow, this`sof, this`meta, this`log, buf
      ensures Valid() && n <= buf.Length && (n > 0 ==> idx == 0 && !meta) && Work() < old(Work())
      ensures Whole(n) == old(Whole(0))
    {
      hide Events, Step, Classify, Lines, Whole, Ready, After, Reported;
      QuietWhole();
      NextLine();
      ghost var st, l, lines, before := Now(), line, Lines(rest), log;
      n := Parse();
      if n > 0 {
        PacketWhole(n, st, l, lines);
      } else {
        LineWhole(st, l, lines, before);
      }
    }

    lemma QuietWhole()
      requires Valid() && !meta
      ensures Whole(0) == log + Events(env, Now(), Pending())
    {
      assert [] + [] + Events(env, Now(), Pending()) == Events(env, Now(), Pending());
    }

    lemma PacketWhole(n: nat, st: State, l: string, lines: seq<string>)
      requires Valid() && 0 < n <= buf.Length && !meta && !eof && buf[..n] == st.buf && Now() == st.(buf := "")
      requires Classify(l).Blank? || Classify(l).Command?
      requires line == (if Classify(l).Command? then l else "") && Lines(rest) == lines
      ensures Whole(n) == log + Events(env, st, [l] + lines)
    {
      hide Events, Step, Classify, Lines, Deliver;
      LineEvents(env, st, l, lines);
      assert After(n) == Started(env, st);
      assert Ready(n) == [Packet(st.buf, HeaderOf(env, st))];
      CommandsAreNotEmpty(l);
      assert [] + lines == lines;
      assert [] + Ready(n) == Ready(n);
    }

    lemma LineWhole(st: State, l: string, lines: seq<string>, before: seq<Event>)
      requires Valid() && line == "" && Lines(rest) == lines
      requires Now() == Step(env, st, Classify(l)).0 && log + Reported() == before + Step(env, st, Classify(l)).1
      ensures Whole(0) == before + Events(env, st, [l] + lines)
    {
      hide Events, Step, Classify, Lines, Deliver;
      LineEvents(env, st, l, lines);
      assert [] + lines == lines;
      assert Reported() + [] == Reported();
      assert Whole(0) == (log + Reported()) + Events(env, Now(), lines);
    }

    /** The end of the file: what is left is flushed, or the flow of user data is ended. */
    method AtEnd() returns (n: int)
      requires Valid() && !meta && line == "" && rest == "" && (eof ==> idx == 0)
      modifies this`idx, this`eof
      ensures Valid() && n != 0 && n <= buf.Length && idx == 0 && (eof ==> Work() == 0)
      ensures n > 0 ==> Work() < old(Work())
      ensures Whole(n) == old(Whole(0))
      ensures n < 0 ==> Future() == []
    {
      assert Pending() == [];
      ghost var st := Now();
      n := Flush();
      if n == 0 {
        if env.user && !eof {
          eof := true;
          return 1;
        }
        return READFILE_EOF;
      }
      assert After(n) == Started(env, st);
    }

    /** Reads up to the next packet, flow record or end. */
    method Read() returns (n: int)
      requires Valid() && !meta && (eof ==> Work() == 0)
      modifies this`line, this`rest, this`idx, this`esc, this`ends, this`flow, this`sof, this`meta, this`log, this`eof,
               buf
      ensures Valid() && n <= buf.Length && (n == 0 <==> meta) && (n >= 1 ==> idx == 0) && (eof ==> Work() == 0)
      ensures n >= 0 ==> Work() < old(Work())
      ensures Whole(n) == old(Whole(0))
      ensures n < 0 ==> Future() == []
    {
      hide Whole, Future;
      while line != "" || rest != ""
        invariant Valid() && !meta && (eof ==> Work() == 0) && Work() <= old(Work()) && Whole(0) == old(Whole(0))
        decreases Work()
      {
        n := Advance();
        if n > 0 || meta {
          return;
        }
      }
      n := AtEnd();
    }

    // -------------------------------------------------------------------
    // Driving the reader
    // -------------------------------------------------------------------

    lemma WholeFuture()
      requires Valid()
      ensures Whole(0) == log + Future()
    {
      assert Reported() + [] == Reported();
    }

    /** Delivers what a read made ready: the header takes the flow flags, and the callback the packet. */
    method Dispatch(n: nat)
      requires Valid() && 0 < n <= buf.Length && !meta
      modifies this`start, this`log
      ensures log + Future() == old(Whole(n))
    {
      hide Events, Lines, Ready;
      ghost var before, event, to := log, Ready(n), Events(env, After(n), Pending());
      assert Whole(n) == before + event + to by {
        assert [] + event == event;
      }
      if env.user && start {
        start := false;
      }
      log := log + event;
      assert [] + Events(env, Now(), Pending()) == to;
    }

    /** One packet, flow record or end.  Without a callback for flow records (`mb`) a complete record is left
        pending. */
    method Process(mb: bool) returns (n: int)
      requires Valid() && !meta && (eof ==> Work() == 0)
      modifies this, buf
      ensures Valid() && buf == old(buf) && (eof ==> Work() == 0) && (meta ==> n == 0 && !mb)
      ensures n >= 0 ==> Work() < old(Work())
      ensures log + Future() == old(log + Future())
      ensures n < 0 ==> Future() == []
    {
      hide Whole, Ready, After, Events, Lines;
      WholeFuture();
      n := Read();
      if meta && mb {
        WholeAtEnd(n);
        WholeFuture();
        ReportNow();
        log := log + [Meta(sof, flow)];
        meta := false;
        return 0;
      }
      if n < 1 {
        WholeAtEnd(n);
        WholeFuture();
        return n;
      }
      Dispatch(n);
    }

    lemma ReportNow()
      requires Valid() && meta
      ensures log + Future() == (log + [Meta(sof, flow)]) + ([] + Events(env, Now(), Pending()))
    {
      hide Events, Pending;
    }

    lemma WholeAtEnd(n: int)
      requires Valid() && n < 1
      ensures Whole(n) == Whole(0)
    {
    }

    /** Packets until `cnt` have come, the file ends, or two calls in a row bring none; `stop` may be set at any
        time. */
    method Acquire(cnt: int) returns (status: int)
      requires Valid() && !meta && (eof ==> Work() == 0)
      modifies this, buf
      ensures Valid() && buf == old(buf) && !meta && (eof ==> Work() == 0)
      ensures log + Future() == old(log + Future())
      ensures status < 0 ==> Future() == []
      ensures status >= 0 ==> Work() < old(Work())
    {
      hide Events, Lines;
      var hit, miss := 0, 0;
      stop := false;
      while hit < cnt || cnt <= 0
        invariant Valid() && buf == old(buf) && !meta && (eof ==> Work() == 0)
        invariant log + Future() == old(log + Future())
        invariant Work() <= old(Work()) && (hit > 0 || miss > 0 ==> Work() < old(Work())) && hit >= 0
        decreases Work()
      {
        var n := Process(true);
        stop := *;
        if n > 0 {
          hit, miss := hit + 1, 0;
        } else if n < 0 {
          return n;
        } else {
          miss := miss + 1;
          if miss == 2 || stop {
            break;
          }
        }
      }
      status := 0;
    }
  }

  lemma CommandsAreNotEmpty(line: string)
    ensures Classify(line).Command? ==> line != ""
  {
  }

  /** What dealing with one line comes to. */
  lemma LineEvents(env: Env, st: State, line: string, more: seq<string>)
    ensures var l := Classify(line);
            && Events(env, st, [line] + more) == Step(env, st, l).1 + Events(env, Step(env, st, l).0, more)
            && (l.Blank? && st.buf != "" ==>
                  Events(env, st, [line] + more) ==
                      [Packet(st.buf, HeaderOf(env, st))] + Events(env, Started(env, st), more))
            && (l.Command? && st.buf != "" ==>
                  Events(env, st, [line] + more) ==
                      [Packet(st.buf, HeaderOf(env, st))] + Events(env, Started(env, st), [line] + more))
  {
    hide Classify, Execute, Finish;
    EventsFirst(env, st, line, more);
    EventsFirst(env, Started(env, st), line, more);
    var l := Classify(line);
    if l.Command? && st.buf != "" {
      var es := Execute(env, Started(env, st), l.text).1;
      assert Deliver(env, Started(env, st)) == (Started(env, st), []);
      assert [] + es == es;
    }
  }
}
