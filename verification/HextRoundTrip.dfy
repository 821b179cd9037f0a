/**
  Writing hext: any bytes without a quote or NUL written as an escaped string, and any
  bytes written as hex numbers, are read back exactly; so is a flow record.
 */
module HextRoundTrip {
  import opened Options
  import opened Hex
  import opened HextSpec

  // ---------------------------------------------------------------------
  // Lines in a file
  // ---------------------------------------------------------------------

  /** A line a single read returns whole: it ends at its only newline, has no NUL, and is short enough. */
  ghost predicate ProperLine(line: string) {
    && 0 < |line| <= MAX_LINE && line[|line| - 1] == '\n'
    && (forall i | 0 <= i < |line| - 1 :: line[i] != '\n')
    && (forall i | 0 <= i < |line| :: line[i] != '\0')
  }

  lemma {:induction false} ChunkIsLine(line: string, f: string, room: nat)
    requires 0 < |line| <= room && line[|line| - 1] == '\n' && forall i | 0 <= i < |line| - 1 :: line[i] != '\n'
    ensures ChunkLength(line + f, room) == |line|
    decreases line
  {
    assert (line + f)[0] == line[0];
    if |line| > 1 {
      assert (line + f)[1..] == line[1..] + f;
      ChunkIsLine(line[1..], f, room - 1);
    }
  }

  lemma {:induction false} NoNulWhole(s: string)
    requires forall i | 0 <= i < |s| :: s[i] != '\0'
    ensures CString(s) == s
    decreases s
  {
    if s != "" {
      NoNulWhole(s[1..]);
    }
  }

  /** Reading a proper line off a file. */
  lemma LineBack(line: string, f: string)
    requires ProperLine(line)
    ensures Lines(line + f) == [line] + Lines(f)
  {
    ChunkIsLine(line, f, MAX_LINE);
    NoNulWhole(line);
    assert (line + f)[..|line|] == line && (line + f)[|line|..] == f;
  }

  function Concat(lines: seq<string>): string {
    if lines == [] then "" else lines[0] + Concat(lines[1..])
  }

  /** A file of proper lines is read back as those lines. */
  lemma {:induction false} FileBack(lines: seq<string>)
    requires forall i | 0 <= i < |lines| :: ProperLine(lines[i])
    ensures Lines(Concat(lines)) == lines
    decreases lines
  {
    hide ProperLine, Lines;
    if lines == [] {
      assert Lines("") == [] by { NoLines(); }
    } else {
      FileBack(lines[1..]);
      LineBack(lines[0], Concat(lines[1..]));
    }
  }

  lemma NoLines()
    ensures Lines("") == []
  {
  }

  // ---------------------------------------------------------------------
  // Quoted strings
  // ---------------------------------------------------------------------

  function Escape(c: char): string {
    if c == '\r' then "\\r"
    else if c == '\n' then "\\n"
    else if c == '\t' then "\\t"
    else if c == '\\' then "\\\\"
    else [c]
  }

  function Quote(bs: string): string {
    if bs == "" then "" else Escape(bs[0]) + Quote(bs[1..])
  }

  predicate Quotable(bs: string) {
    forall i | 0 <= i < |bs| :: bs[i] != '"' && bs[i] != '\0'
  }

  lemma {:induction false} QuoteBack(bs: string, tail: string, room: nat)
    requires Quotable(bs) && |bs| <= room
    ensures Unquote(Quote(bs) + ['"'] + tail, false, room) == (bs, false)
    decreases bs
  {
    var rest := ['"'] + tail;
    if bs == "" {
      assert Quote(bs) + ['"'] + tail == rest;
    } else {
      var more := Quote(bs[1..]) + ['"'] + tail;
      assert Quote(bs) + ['"'] + tail == Escape(bs[0]) + more;
      QuoteBack(bs[1..], tail, room - 1);
      assert [bs[0]] + bs[1..] == bs;
    }
  }

  /** Text lines: the bytes come back, and the escape automaton is left clear. */
  lemma QuotedLineBack(env: Env, st: State, bs: string)
    requires Quotable(bs) && !st.esc && |st.buf| + |bs| <= env.snaplen
    ensures var line := ['"'] + Quote(bs) + ['"', '\n'];
            && Step(env, st, Classify(line)) == (st.(buf := st.buf + bs), [])
            && (|line| <= MAX_LINE ==> ProperLine(line))
  {
    hide Unquote, Quote;
    var line := ['"'] + Quote(bs) + ['"', '\n'];
    assert SkipSpace(line) == line;
    assert line[1..] == Quote(bs) + ['"'] + ['\n'];
    QuoteBack(bs, ['\n'], env.snaplen - |st.buf|);
    QuoteClean(bs);
    assert Classify(line) == Text(line[1..]);
  }

  lemma {:induction false} QuoteClean(bs: string)
    requires Quotable(bs)
    ensures forall i | 0 <= i < |Quote(bs)| :: Quote(bs)[i] != '\n' && Quote(bs)[i] != '\0'
    decreases bs
  {
    if bs != "" {
      QuoteClean(bs[1..]);
    }
  }

  // ---------------------------------------------------------------------
  // Hex
  // ---------------------------------------------------------------------

  function HexOf(b: char): string
    requires b as nat < 256
  {
    [' ', HexChar(b as nat / 16), HexChar(b as nat % 16)]
  }

  predicate Bytes(bs: string) {
    forall i | 0 <= i < |bs| :: bs[i] as nat < 256
  }

  function HexAll(bs: string): string
    requires Bytes(bs)
  {
    if bs == "" then "" else HexOf(bs[0]) + HexAll(bs[1..])
  }

  lemma HexCharBack(d: nat)
    requires d < 16
    ensures HexDigit(HexChar(d)) == Some(d) && !IsSpace(HexChar(d)) && HexChar(d) !in {'x', 'X', '+', '-', '\n', '\0'}
  {
  }

  /** Two hex digits after a space, and before something that is not a digit, are one number. */
  lemma OneHexBack(b: char, more: string)
    requires b as nat < 256 && more != "" && HexDigit(more[0]).None?
    ensures Strtol(HexOf(b) + more) == (b as int, 3)
  {
    var hi, lo := b as nat / 16, b as nat % 16;
    HexCharBack(hi);
    HexCharBack(lo);
    var s := HexOf(b) + more;
    var t := [HexChar(hi), HexChar(lo)] + more;
    assert s[0] == ' ' && s[1..] == t;
    assert SkipSpace(s) == SkipSpace(t) == t;
    TwoDigits(hi, lo, more);
    hide Digits, SkipSpace;
    assert Digits(t, 0) == (16 * hi + lo, 2);
  }

  lemma TwoDigits(hi: nat, lo: nat, more: string)
    requires hi < 16 && lo < 16 && more != "" && HexDigit(more[0]).None?
    ensures Digits([HexChar(hi), HexChar(lo)] + more, 0) == (16 * hi + lo, 2)
  {
    HexCharBack(hi);
    HexCharBack(lo);
    hide HexDigit, HexChar;
    var t := [HexChar(hi), HexChar(lo)] + more;
    assert t[1..] == [HexChar(lo)] + more && t[1..][1..] == more;
    assert Digits(more, 16 * hi + lo) == (16 * hi + lo, 0);
    assert Digits(t[1..], hi) == (16 * hi + lo, 1);
  }

  lemma {:induction false} HexBack(bs: string, room: nat)
    requires Bytes(bs) && |bs| <= room
    ensures Unhex(HexAll(bs) + ['\n'], room) == bs
    decreases bs
  {
    hide Strtol, HexOf, Unhex, Bytes;
    if bs == "" {
      assert HexAll(bs) + ['\n'] == ['\n'];
      HexNothing(room);
    } else {
      BytesRest(bs);
      var more := HexAll(bs[1..]) + ['\n'];
      assert HexAll(bs) + ['\n'] == HexOf(bs[0]) + more;
      HexStarts(bs[1..]);
      HexStep(bs[0], more, room);
      HexBack(bs[1..], room - 1);
      assert [bs[0]] + bs[1..] == bs;
    }
  }

  lemma HexStarts(bs: string)
    requires Bytes(bs)
    ensures (HexAll(bs) + ['\n'])[0] == if bs == "" then '\n' else ' '
  {
  }

  lemma HexStep(b: char, more: string, room: nat)
    requires b as nat < 256 && more != "" && (more[0] == ' ' || more[0] == '\n') && room > 0
    ensures Unhex(HexOf(b) + more, room) == [b] + Unhex(more, room - 1)
  {
    assert HexDigit(more[0]).None?;
    OneHexBack(b, more);
    hide Strtol, HexChar;
    var s := HexOf(b) + more;
    assert |s| == 3 + |more| && s[3..] == more;
    assert Byte(b as int) == b;
  }

  lemma BytesRest(bs: string)
    requires Bytes(bs) && bs != ""
    ensures bs[0] as nat < 256 && Bytes(bs[1..])
  {
  }

  lemma HexNothing(room: nat)
    ensures Unhex(['\n'], room) == ""
  {
  }

  /** Hex lines: the bytes come back, and the escape automaton is untouched. */
  lemma HexLineBack(env: Env, st: State, bs: string)
    requires Bytes(bs) && |st.buf| + |bs| <= env.snaplen
    ensures var line := ['x'] + HexAll(bs) + ['\n'];
            && Step(env, st, Classify(line)) == (st.(buf := st.buf + bs), [])
            && (|line| <= MAX_LINE ==> ProperLine(line))
  {
    hide Unhex, HexAll;
    var line := ['x'] + HexAll(bs) + ['\n'];
    assert SkipSpace(line) == line;
    assert line[1..] == HexAll(bs) + ['\n'];
    HexBack(bs, env.snaplen - |st.buf|);
    HexClean(bs);
    assert Classify(line) == Hex(line[1..]);
  }

  lemma {:induction false} HexClean(bs: string)
    requires Bytes(bs)
    ensures forall i | 0 <= i < |HexAll(bs)| :: HexAll(bs)[i] != '\n' && HexAll(bs)[i] != '\0'
    decreases bs
  {
    if bs != "" {
      HexCharBack(bs[0] as nat / 16);
      HexCharBack(bs[0] as nat % 16);
      HexClean(bs[1..]);
    }
  }

  // ---------------------------------------------------------------------
  // Flow records
  // ---------------------------------------------------------------------

  ghost predicate Word(t: string) {
    0 < |t| < MAX_TOKEN && forall i | 0 <= i < |t| :: !IsSpace(t[i])
  }

  function Spaced(ts: seq<string>): string {
    if ts == [] then "" else ts[0] + [' '] + Spaced(ts[1..])
  }

  lemma {:induction false} WordBack(t: string, done: string, rest: string, field: nat, flow: Flow)
    requires field != FLOW_FIELDS && done + t != "" && |done + t| < MAX_TOKEN
    requires forall i | 0 <= i < |t| :: !IsSpace(t[i])
    ensures FillFlow(t + [' '] + rest, field, done, flow) == FillFlow(rest, field + 1, "", flow[field := done + t])
    decreases t
  {
    var s := t + [' '] + rest;
    if t == "" {
      assert s[0] == ' ' && s[1..] == rest && done + t == done;
    } else {
      assert s[0] == t[0] && s[1..] == t[1..] + [' '] + rest;
      assert (done + [t[0]]) + t[1..] == done + t;
      WordBack(t[1..], done + [t[0]], rest, field, flow);
    }
  }

  /** A word of 45 characters or more ends the record unfinished. */
  lemma {:induction false} LongWordStops(t: string, done: string, rest: string, field: nat, flow: Flow)
    requires field != FLOW_FIELDS && |done + t| >= MAX_TOKEN && forall i | 0 <= i < |t| :: !IsSpace(t[i])
    ensures FillFlow(t + rest, field, done, flow) == (flow, false)
    decreases t
  {
    if |done| < MAX_TOKEN {
      var s := t + rest;
      assert s[0] == t[0] && s[1..] == t[1..] + rest;
      LongWordStops(t[1..], done + [t[0]], rest, field, flow);
    }
  }

  function Filled(ts: seq<string>, field: nat, flow: Flow): Flow
    decreases ts
  {
    if ts == [] then flow else Filled(ts[1..], field + 1, flow[field := ts[0]])
  }

  /** A record is complete exactly when no field is missing, and then every field is its word. */
  lemma {:induction false} FlowBack(ts: seq<string>, field: nat, flow: Flow)
    requires field + |ts| <= FLOW_FIELDS && forall i | 0 <= i < |ts| :: Word(ts[i])
    ensures FillFlow(Spaced(ts), field, "", flow) == (Filled(ts, field, flow), field + |ts| == FLOW_FIELDS)
    decreases ts
  {
    if ts != [] {
      assert Word(ts[0]);
      assert "" + ts[0] == ts[0];
      WordBack(ts[0], "", Spaced(ts[1..]), field, flow);
      FlowBack(ts[1..], field + 1, flow[field := ts[0]]);
    }
  }

  lemma {:induction false} FilledAt(ts: seq<string>, field: nat, flow: Flow, i: nat)
    requires i < |ts|
    ensures field + i in Filled(ts, field, flow) && Filled(ts, field, flow)[field + i] == ts[i]
    decreases ts
  {
    if i > 0 {
      FilledAt(ts[1..], field + 1, flow[field := ts[0]], i - 1);
    } else {
      FilledKeeps(ts[1..], field + 1, flow[field := ts[0]], field);
    }
  }

  lemma {:induction false} FilledKeeps(ts: seq<string>, field: nat, flow: Flow, k: nat)
    requires k < field && k in flow
    ensures k in Filled(ts, field, flow) && Filled(ts, field, flow)[k] == flow[k]
    decreases ts
  {
    if ts != [] {
      FilledKeeps(ts[1..], field + 1, flow[field := ts[0]], k);
    }
  }
}
