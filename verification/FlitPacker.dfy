/**
  The flit packer: a hex dump of packets, read line by line, becomes a stream of 64-byte
  flits with start and end marks and a count of unused bytes.
 */
module FlitPacker {
  import opened Options
  import opened Hex

  datatype Flit = Flit(sop: bool, eop: bool, empty: int, data: string)

  // ---------------------------------------------------------------------
  // Lines of the dump
  // ---------------------------------------------------------------------

  predicate Contains(s: string, t: string) {
    |s| >= |t| && (s[..|t|] == t || (|s| > 0 && Contains(s[1..], t)))
  }

  predicate IsData(line: string) {
    Contains(line, "0x") && '>' !in line
  }

  predicate IsFirst(line: string) {
    Contains(line, "0x0000:")
  }

  function NoSpaces(s: string): string {
    if s == "" then "" else (if s[0] == ' ' then "" else [s[0]]) + NoSpaces(s[1..])
  }

  function UpToColon(s: string): string {
    if s == "" || s[0] == ':' then "" else [s[0]] + UpToColon(s[1..])
  }

  /** What stands between the first colon and the next. */
  function AfterColon(s: string): Option<string> {
    if s == "" then None
    else if s[0] == ':' then Some(UpToColon(s[1..]))
    else AfterColon(s[1..])
  }

  function Fs(n: int): string {
    if n <= 0 then "" else ['f'] + Fs(n - 1)
  }

  /** The hex digits of a data line: what follows the colon, without spaces and without its last character. */
  function Payload(line: string): Option<string> {
    match AfterColon(NoSpaces(line))
    case None => None
    case Some(t) => Some(if t == "" then "" else t[..|t| - 1])
  }

  /** How many bytes a line falls short of 16, as the length with its terminator says. */
  function Short(line: string): int {
    match AfterColon(NoSpaces(line))
    case None => 0
    case Some(t) => if |t| - 1 == 32 then 0 else (32 - (|t| - 1)) / 2
  }

  /** A data line's digits, filled up, and the bytes filled; a line without a colon is an error. */
  method ParseLine(line: string) returns (r: Option<(string, int)>)
    ensures r.None? <==> Payload(line).None?
    ensures r.Some? ==> r.value == (Payload(line).value + Fs(2 * Short(line)), Short(line))
  {
    match AfterColon(NoSpaces(line)) {
      case None => r := None;
      case Some(temp) =>
        var length := |temp|;
        var body := if temp == "" then "" else temp[..length - 1];
        if length - 1 == 32 {
          assert body + Fs(0) == body;
          r := Some((body, 0));
        } else {
          var empty := (32 - (length - 1)) / 2;
          r := Some((body + Fs(empty * 2), empty));
        }
    }
  }

  // ---------------------------------------------------------------------
  // Packets of a dump, and packets of a flit stream
  // ---------------------------------------------------------------------

  datatype Split = Split(done: seq<string>, open: string)

  /** The packets of a dump: the digits of each run of data lines. */
  function PacketsOf(lines: seq<string>): Split {
    if lines == [] then Split([], "")
    else
      var r, line := PacketsOf(lines[..|lines| - 1]), lines[|lines| - 1];
      if IsData(line) then r.(open := r.open + if Payload(line).Some? then Payload(line).value else "")
      else if r.open == "" then r
      else Split(r.done + [r.open], "")
  }

  /** A flit's digits without its unused bytes. */
  function Used(f: Flit): string {
    if 0 <= 2 * f.empty <= |f.data| then f.data[..|f.data| - 2 * f.empty] else f.data
  }

  /** The packets of a flit stream: a start mark begins one, an end mark ends it. */
  function Decode(flits: seq<Flit>): Split {
    if flits == [] then Split([], "")
    else
      var r, f := Decode(flits[..|flits| - 1]), flits[|flits| - 1];
      var now := (if f.sop then "" else r.open) + Used(f);
      if f.eop then Split(r.done + [now], "") else r.(open := now)
  }

  /** A well-framed stream: 64-byte flits, the start mark exactly on first flits, only last flits part empty. */
  ghost predicate Framed(flits: seq<Flit>) {
    forall i | 0 <= i < |flits| ::
      && |flits[i].data| == 128 && 0 <= flits[i].empty < 64
      && (flits[i].sop <==> i == 0 || flits[i - 1].eop)
      && (!flits[i].eop ==> flits[i].empty == 0)
  }

  /**
    A dump whose packets are marked at their first line, whose lines are full except
    possibly a packet's last, and whose packets are each followed by another line.
   */
  ghost predicate ProperLine(lines: seq<string>, i: nat)
    requires i < |lines|
  {
    if IsData(lines[i]) then
      && i + 1 < |lines|
      && (IsFirst(lines[i]) <==> i == 0 || !IsData(lines[i - 1]))
      && Payload(lines[i]).Some?
      && (var n := |Payload(lines[i]).value|;
          Ends(lines[i]) && n % 2 == 0 && 2 <= n <= 32 && (IsData(lines[i + 1]) ==> n == 32))
    else !IsFirst(lines[i])
  }

  /** Something, the line's terminator, follows the digits. */
  predicate Ends(line: string) {
    AfterColon(NoSpaces(line)).Some? && AfterColon(NoSpaces(line)).value != ""
  }

  ghost predicate Proper(lines: seq<string>) {
    forall i | 0 <= i < |lines| :: ProperLine(lines, i)
  }

  function Join(parts: seq<string>): string {
    if parts == [] then "" else Join(parts[..|parts| - 1]) + parts[|parts| - 1]
  }

  lemma {:induction false} FsLength(n: nat)
    ensures |Fs(n)| == n
    decreases n
  {
    if n > 0 {
      FsLength(n - 1);
    }
  }

  lemma DecodeAdd(flits: seq<Flit>, f: Flit)
    ensures var r := Decode(flits); var now := (if f.sop then "" else r.open) + Used(f);
            Decode(flits + [f]) == if f.eop then Split(r.done + [now], "") else r.(open := now)
  {
    assert (flits + [f])[..|flits|] == flits;
  }

  // ---------------------------------------------------------------------
  // The packer
  // ---------------------------------------------------------------------

  /**
    What holds between lines of a proper dump: the flits written decode to the packets
    closed so far, and the slots hold the rest of the open one, the last slot filled up.
   */
  ghost predicate Held(out: seq<Flit>, open: string, sop: bool, empty: int, slots: seq<string>, held: seq<string>)
  {
    && |held| == |slots| && 1 <= |slots| <= 4
    && open == Decode(out).open + Join(held)
    && (sop ==> Decode(out).open == "") && (sop <==> out == [] || out[|out| - 1].eop)
    && (forall j | 0 <= j < |slots| - 1 :: slots[j] == held[j] && |held[j]| == 32)
    && slots[|slots| - 1] == held[|slots| - 1] + Fs(2 * empty) && 0 <= empty < 16
        && |held[|slots| - 1]| == 32 - 2 * empty
  }

  ghost predicate Idle(out: seq<Flit>, open: string, sop: bool) {
    open == "" && Decode(out).open == "" && !sop && (out == [] || out[|out| - 1].eop)
  }

  lemma JoinAdd(parts: seq<string>, t: string)
    ensures Join(parts + [t]) == Join(parts) + t
  {
    assert (parts + [t])[..|parts|] == parts;
  }

  lemma {:induction false} JoinSame(slots: seq<string>, held: seq<string>)
    requires |slots| == |held| && forall j | 0 <= j < |slots| :: slots[j] == held[j] && |held[j]| == 32
    ensures Join(slots) == Join(held) && |Join(held)| == 32 * |held|
    decreases slots
  {
    if slots != [] {
      JoinSame(slots[..|slots| - 1], held[..|held| - 1]);
    }
  }

  /** The slots joined are the digits held, filled up at the end. */
  lemma SlotsJoin(out: seq<Flit>, open: string, sop: bool, empty: int, slots: seq<string>, held: seq<string>)
    requires Held(out, open, sop, empty, slots, held)
    ensures Join(slots) == Join(held) + Fs(2 * empty) && |Join(held)| == 32 * |slots| - 2 * empty
  {
    hide Join, Fs, Decode;
    var n := |slots| - 1;
    JoinSame(slots[..n], held[..n]);
    JoinAdd(slots[..n], slots[n]);
    JoinAdd(held[..n], held[n]);
    assert slots == slots[..n] + [slots[n]] && held == held[..n] + [held[n]];
  }

  lemma FramedAdd(flits: seq<Flit>, f: Flit)
    requires Framed(flits) && |f.data| == 128 && 0 <= f.empty < 64
    requires f.sop <==> flits == [] || flits[|flits| - 1].eop
    requires !f.eop ==> f.empty == 0
    ensures Framed(flits + [f])
  {
  }

  /** Writing four full slots. */
  lemma WriteFull(out: seq<Flit>, open: string, sop: bool, slots: seq<string>, held: seq<string>)
    requires Held(out, open, sop, 0, slots, held) && |slots| == 4 && Framed(out)
    ensures var out1 := out + [Flit(sop, false, 0, Join(slots))];
            Framed(out1) && Decode(out1) == Split(Decode(out).done, open)
  {
    SlotsJoin(out, open, sop, 0, slots, held);
    hide Join;
    var f := Flit(sop, false, 0, Join(slots));
    assert Join(held) + Fs(0) == Join(held);
    DecodeAdd(out, f);
    FramedAdd(out, f);
    assert Used(f) == Join(held);
    assert sop ==> "" + Join(held) == Decode(out).open + Join(held);
  }

  /** Writing a packet's last flit, filled up to 64 bytes. */
  lemma WriteLast(out: seq<Flit>, open: string, sop: bool, empty: int, slots: seq<string>, held: seq<string>)
    requires Held(out, open, sop, empty, slots, held) && Framed(out)
    ensures var spare := 4 - |slots|;
            var out1 := out + [Flit(sop, true, empty + spare * 16, Join(slots) + Fs(spare * 16 * 2))];
            Framed(out1) && Decode(out1) == Split(Decode(out).done + [open], "")
  {
    hide Join, Fs, Decode, Framed;
    SlotsJoin(out, open, sop, empty, slots, held);
    var spare := 4 - |slots|;
    FsLength(2 * empty);
    FsLength(spare * 16 * 2);
    var f := Flit(sop, true, empty + spare * 16, Join(slots) + Fs(spare * 16 * 2));
    UsedPrefix(f, Join(held), Fs(2 * empty) + Fs(spare * 16 * 2));
    DecodeAdd(out, f);
    FramedAdd(out, f);
    assert sop ==> "" + Join(held) == Decode(out).open + Join(held);
  }

  lemma UsedPrefix(f: Flit, used: string, filling: string)
    requires f.data == used + filling && |filling| == 2 * f.empty
    ensures Used(f) == used
  {
  }

  /** Putting a line into the next slot. */
  lemma Store(out: seq<Flit>, open: string, sop: bool, slots: seq<string>, held: seq<string>, t: string, empty: int)
    requires |held| == |slots| < 4 && open == Decode(out).open + Join(held)
    requires (sop ==> Decode(out).open == "") && (sop <==> out == [] || out[|out| - 1].eop)
    requires forall j | 0 <= j < |slots| :: slots[j] == held[j] && |held[j]| == 32
    requires 0 <= empty < 16 && |t| == 32 - 2 * empty
    ensures Held(out, open + t, sop, empty, slots + [t + Fs(2 * empty)], held + [t])
  {
    JoinAdd(held, t);
    hide Join, Fs, Decode;
    assert (Decode(out).open + Join(held)) + t == Decode(out).open + (Join(held) + t);
  }

  method JoinSlots(slots: array<string>, cnt: nat) returns (field: string)
    requires cnt <= slots.Length
    ensures field == Join(slots[..cnt])
  {
    field := "";
    for j := 0 to cnt
      invariant field == Join(slots[..j])
    {
      assert slots[..j + 1] == slots[..j] + [slots[j]];
      JoinAdd(slots[..j], slots[j]);
      if j == 0 {
        field := slots[0];
      } else {
        field := field + slots[j];
      }
    }
  }

  /** What the next line adds to the packets. */
  lemma PacketsStep(lines: seq<string>, i: nat)
    requires i < |lines|
    ensures var r := PacketsOf(lines[..i]);
            PacketsOf(lines[..i + 1]) ==
              if IsData(lines[i]) then
                r.(open := r.open + if Payload(lines[i]).Some? then Payload(lines[i]).value else "")
              else if r.open == "" then r
              else Split(r.done + [r.open], "")
  {
    assert lines[..i + 1][..i] == lines[..i] && lines[..i + 1][i] == lines[i];
  }

  /** Between lines. */
  ghost predicate Between(lines: seq<string>, i: nat, out: seq<Flit>, sop: bool, p: bool, empty: int,
                          slots: seq<string>, held: seq<string>)
    requires i <= |lines|
  {
    var r := PacketsOf(lines[..i]);
    && Framed(out) && Decode(out).done == r.done
    && (p <==> i > 0 && IsData(lines[i - 1]))
    && if p then Held(out, r.open, sop, empty, slots, held) && i < |lines| && (IsData(lines[i]) ==> empty == 0)
       else Idle(out, r.open, sop) && slots == []
  }

  /** A line between packets, or the first of a packet. */
  lemma OutsidePacket(lines: seq<string>, i: nat, out: seq<Flit>, empty: int, later: int)
    requires Proper(lines) && i < |lines| && Between(lines, i, out, false, false, empty, [], [])
    ensures !IsData(lines[i]) ==> !IsFirst(lines[i]) && Between(lines, i + 1, out, false, false, later, [], [])
    ensures IsData(lines[i]) ==> IsFirst(lines[i]) && Payload(lines[i]).Some?
    ensures IsData(lines[i]) ==>
              var t, e := Payload(lines[i]).value, Short(lines[i]);
              Between(lines, i + 1, out, true, true, e, [t + Fs(2 * e)], [t])
  {
    hide Framed, Join, Fs, IsData, IsFirst, PacketsOf, Decode;
    PacketsStep(lines, i);
    assert ProperLine(lines, i);
    if IsData(lines[i]) {
      JoinNothing();
      var t, e := Payload(lines[i]).value, Short(lines[i]);
      assert [] + [t + Fs(2 * e)] == [t + Fs(2 * e)] && [] + [t] == [t];
      Store(out, "", true, [], [], t, e);
    }
  }

  lemma JoinNothing()
    ensures Join([]) == ""
  {
  }

  /** A further line of a packet: it takes the next slot. */
  lemma NextSlot(lines: seq<string>, i: nat, out: seq<Flit>, sop: bool, slots: seq<string>, held: seq<string>)
    requires Proper(lines) && i < |lines| && Between(lines, i, out, sop, true, 0, slots, held) && IsData(lines[i])
    ensures !IsFirst(lines[i]) && Payload(lines[i]).Some?
    ensures var t, e := Payload(lines[i]).value, Short(lines[i]);
            |slots| < 4 ==> Between(lines, i + 1, out, sop, true, e, slots + [t + Fs(2 * e)], held + [t])
  {
    hide Framed, Join, IsData, IsFirst, PacketsOf, Decode, Fs;
    PacketsStep(lines, i);
    assert ProperLine(lines, i);
    NoFs();
    if |slots| < 4 {
      Store(out, PacketsOf(lines[..i]).open, sop, slots, held, Payload(lines[i]).value, Short(lines[i]));
    }
  }

  /** When the slots are full they go out first. */
  lemma FullSlots(lines: seq<string>, i: nat, out: seq<Flit>, sop: bool, slots: seq<string>, held: seq<string>)
    requires Proper(lines) && i < |lines| && Between(lines, i, out, sop, true, 0, slots, held) && IsData(lines[i])
    requires |slots| == 4
    ensures !IsFirst(lines[i]) && Payload(lines[i]).Some?
    ensures var t, e := Payload(lines[i]).value, Short(lines[i]);
            Between(lines, i + 1, out + [Flit(sop, false, 0, Join(slots))], false, true, e, [t + Fs(2 * e)], [t])
  {
    hide Framed, Join, IsData, IsFirst, PacketsOf, Decode, Fs;
    PacketsStep(lines, i);
    assert ProperLine(lines, i);
    NoFs();
    JoinNothing();
    var t, e, open := Payload(lines[i]).value, Short(lines[i]), PacketsOf(lines[..i]).open;
    WriteFull(out, open, sop, slots, held);
    Store(out + [Flit(sop, false, 0, Join(slots))], open, false, [], [], t, e);
    assert [] + [t + Fs(2 * e)] == [t + Fs(2 * e)] && [] + [t] == [t];
  }

  /** A further line of a packet. */
  lemma InsidePacket(lines: seq<string>, i: nat, out: seq<Flit>, sop: bool, slots: seq<string>, held: seq<string>)
    requires Proper(lines) && i < |lines| && Between(lines, i, out, sop, true, 0, slots, held) && IsData(lines[i])
    ensures !IsFirst(lines[i]) && Payload(lines[i]).Some?
    ensures var t, e := Payload(lines[i]).value, Short(lines[i]);
            && (|slots| < 4 ==> Between(lines, i + 1, out, sop, true, e, slots + [t + Fs(2 * e)], held + [t]))
            && (|slots| == 4 ==>
                  Between(lines, i + 1, out + [Flit(sop, false, 0, Join(slots))], false, true, e, [t + Fs(2 * e)], [t]))
  {
    hide Between, Proper, Join, IsData, IsFirst, Fs, Payload, Short;
    NextSlot(lines, i, out, sop, slots, held);
    if |slots| == 4 {
      FullSlots(lines, i, out, sop, slots, held);
    }
  }

  lemma NoFs()
    ensures Fs(0) == ""
  {
  }

  /** The line after a packet. */
  lemma AfterPacket(lines: seq<string>, i: nat, out: seq<Flit>, sop: bool, empty: int, slots: seq<string>,
                    held: seq<string>, later: int)
    requires Proper(lines) && i < |lines| && Between(lines, i, out, sop, true, empty, slots, held) && !IsData(lines[i])
    ensures !IsFirst(lines[i])
    ensures var spare := 4 - |slots|;
            var out1 := out + [Flit(sop, true, empty + spare * 16, Join(slots) + Fs(spare * 16 * 2))];
            Between(lines, i + 1, out1, false, false, later, [], [])
  {
    hide Framed, Join, IsData, IsFirst, PacketsOf, Decode, Fs;
    PacketsStep(lines, i);
    assert ProperLine(lines, i);
    var open := PacketsOf(lines[..i]).open;
    SlotsJoin(out, open, sop, empty, slots, held);
    WriteLast(out, open, sop, empty, slots, held);
  }

  /**
    Packs a dump into flits; a data line without a colon is an error.  The slot index is
    in range whatever the dump.  A proper dump is never an error, and the flits decode to
    exactly its packets, well framed.
   */
  method Pack(lines: seq<string>) returns (ok: bool, out: seq<Flit>)
    ensures ok <==> forall i | 0 <= i < |lines| && IsData(lines[i]) :: Payload(lines[i]).Some?
    ensures Proper(lines) ==>
              && ok && Framed(out) && (out == [] || out[|out| - 1].eop)
              && Decode(out) == PacketsOf(lines) && PacketsOf(lines).open == ""
  {
    hide Between, Proper, IsData, IsFirst, Payload, Short, Join, Fs, Framed, Decode, PacketsOf;
    out := [];
    var sop, eop, p, c := false, true, false, false;
    var cnt, emptyP, emptyC := 0, 0, 0;
    var slots := new string[4];
    var dataC := "";
    ghost var held: seq<string> := [];
    ghost var proper := Proper(lines);
    AtStart(lines);
    for i := 0 to |lines|
      invariant cnt <= 4 && (p <==> cnt > 0) && slots.Length == 4 && (!p ==> held == [])
      invariant forall j | 0 <= j < i && IsData(lines[j]) :: Payload(lines[j]).Some?
      invariant proper ==> Between(lines, i, out, sop, p, emptyP, slots[..cnt], held)
    {
      if proper {
        Facts(lines, i, out, sop, p, emptyP, slots[..cnt], held);
        if !p {
          OutsidePacket(lines, i, out, emptyP, emptyC);
        } else if IsData(lines[i]) {
          InsidePacket(lines, i, out, sop, slots[..cnt], held);
        } else {
          AfterPacket(lines, i, out, sop, emptyP, slots[..cnt], held, emptyC);
        }
      }
      if IsData(lines[i]) {
        c := true;
        var r := ParseLine(lines[i]);
        if r.None? {
          return false, out;
        }
        dataC, emptyC := r.value.0, r.value.1;
      } else {
        c := false;
      }
      if IsFirst(lines[i]) {
        sop := true;
      }
      if p && c {
        eop := false;
        if cnt == 4 {
          JoinFour(slots[..4]);
          out := out + [Flit(sop, eop, emptyP, slots[0] + slots[1] + slots[2] + slots[3])];
          cnt, held := 0, [];
          sop := false;
        }
      } else if p {
        eop := true;
        emptyP := emptyP + (4 - cnt) * 16;
        var field := JoinSlots(slots, cnt);
        field := field + Fs((4 - cnt) * 16 * 2);
        out := out + [Flit(sop, eop, emptyP, field)];
        sop := false;
        cnt, held := 0, [];
      } else {
        eop := false;
      }
      p := c;
      assert slots[..0] == [];
      if c {
        ghost var before, was := slots[..cnt], held;
        slots[cnt] := dataC;
        cnt := cnt + 1;
        held := held + [Payload(lines[i]).value];
        assert slots[..cnt] == before + [dataC];
        assert before == [] ==> slots[..cnt] == [dataC];
        assert was == [] ==> held == [Payload(lines[i]).value];
      }
      emptyP := emptyC;
    }
    ok := true;
    if proper {
      AtFinish(lines, out, sop, p, emptyP, slots[..cnt], held);
    }
  }

  lemma AtStart(lines: seq<string>)
    ensures Between(lines, 0, [], false, false, 0, [], [])
  {
  }

  lemma Facts(lines: seq<string>, i: nat, out: seq<Flit>, sop: bool, p: bool, empty: int, slots: seq<string>,
              held: seq<string>)
    requires i < |lines| && Between(lines, i, out, sop, p, empty, slots, held)
    ensures (p && IsData(lines[i]) ==> empty == 0) && (!p ==> !sop && slots == [])
  {
  }

  lemma AtFinish(lines: seq<string>, out: seq<Flit>, sop: bool, p: bool, empty: int, slots: seq<string>,
                 held: seq<string>)
    requires Between(lines, |lines|, out, sop, p, empty, slots, held)
    ensures Framed(out) && (out == [] || out[|out| - 1].eop) && Decode(out) == PacketsOf(lines)
            && PacketsOf(lines).open == ""
  {
    assert lines[..|lines|] == lines;
  }

  lemma JoinFour(slots: seq<string>)
    requires |slots| == 4
    ensures Join(slots) == slots[0] + slots[1] + slots[2] + slots[3]
  {
    hide Join;
    JoinNothing();
    var one, two, three := [slots[0]], [slots[0], slots[1]], [slots[0], slots[1], slots[2]];
    JoinAdd([], slots[0]);
    JoinAdd(one, slots[1]);
    JoinAdd(two, slots[2]);
    JoinAdd(three, slots[3]);
    assert [] + [slots[0]] == one && one + [slots[1]] == two && two + [slots[2]] == three
           && three + [slots[3]] == slots;
  }

  // ---------------------------------------------------------------------
  // The printed form
  // ---------------------------------------------------------------------

  function DigitValue(c: char): nat {
    if HexDigit(c).Some? then HexDigit(c).value else 0
  }

  /** A flit's line of output. */
  function Print(f: Flit): string
    requires 0 <= f.empty < 256
  {
    [if f.sop then '1' else '0', if f.eop then '1' else '0', HexChar(f.empty / 16), HexChar(f.empty % 16)] + f.data
        + "\n"
  }

  function Scan(s: string): Flit
    requires |s| >= 5
  {
    Flit(s[0] == '1', s[1] == '1', 16 * DigitValue(s[2]) + DigitValue(s[3]), s[4..|s| - 1])
  }

  lemma PrintBack(f: Flit)
    requires 0 <= f.empty < 256
    ensures Scan(Print(f)) == f
  {
    var s := Print(f);
    assert s[4..|s| - 1] == f.data;
    assert DigitValue(HexChar(f.empty / 16)) == f.empty / 16;
    assert DigitValue(HexChar(f.empty % 16)) == f.empty % 16;
  }
}
