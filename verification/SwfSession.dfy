/**
  The start of an incremental SWF decompression session: the signature is replaced, the
  rest of the uncompressed header is passed through however input and output come in
  pieces, and then the compression engine, which is left open here, is entered.
 */
module SwfSession {
  import opened Options

  type byte = x: int | 0 <= x < 256

  datatype Status = DecompError | Error | OK | NoSig | Complete | BlockOut | BlockIn

  datatype FileType = NoFile | Swf | Pdf

  datatype Compression = NoCompression | Zlib | Lzma

  datatype State = New | Ready | Active | Completed

  datatype SwfState = GetHeader | ProcHeader | Data

  const MAX_SIG_LENGTH := 5
  const SWF_HDR_LEN := 8
  const SWF_MAX_HEADER := 14
  const WORD := 0x1_0000_0000

  const PDF_SIG: seq<byte> := [37, 80, 68, 70, 45]
  const SWF_ZLIB_SIG: seq<byte> := [67, 87, 83]
  const SWF_LZMA_SIG: seq<byte> := [90, 87, 83]
  const SWF_UNCOMP_SIG: seq<byte> := [70, 87, 83]

  datatype Signature = Signature(text: seq<byte>, enabled: bool, fileType: FileType, compression: Compression)

  datatype Modes = Modes(pdf: bool, zlib: bool, lzma: bool)

  function SignatureMap(modes: Modes): seq<Signature> {
    [Signature(PDF_SIG, modes.pdf, Pdf, NoCompression),
     Signature(SWF_ZLIB_SIG, modes.zlib, Swf, Zlib),
     Signature(SWF_LZMA_SIG, modes.lzma, Swf, Lzma)]
  }

  /** The uncompressed header after the signature: version and length, and for LZMA a length and properties. */
  function HeaderLength(c: Compression): nat {
    if c == Lzma then 14 else 5
  }

  function SignatureOf(c: Compression): seq<byte> {
    if c == Lzma then SWF_LZMA_SIG else SWF_ZLIB_SIG
  }

  function LittleEndian(b: seq<byte>): nat {
    if b == [] then 0 else b[0] + 256 * LittleEndian(b[1..])
  }

  /** A 32-bit count. */
  function Wrap(n: nat): (r: nat)
    ensures r < WORD && (n < WORD ==> r == n)
  {
    n % WORD
  }

  /** What the engine first sees: the output so far and the saved header. */
  datatype Entry = Entry(out: seq<byte>, header: seq<byte>)

  /** Input and output as a session sees them: what is left, the room, the totals, and what has been put out. */
  datatype Account = Account(input: seq<byte>, availOut: nat, totalIn: nat, totalOut: nat, out: seq<byte>)

  /** From `a` to `b` bytes were only consumed from the front and put out at the end, and counted: available and total
      together stay. */
  ghost predicate Follows(a: Account, b: Account) {
    && |b.input| <= |a.input| && b.input == a.input[|a.input| - |b.input|..]
    && b.availOut <= a.availOut && |b.out| == |a.out| + a.availOut - b.availOut && a.out <= b.out
    && b.totalIn == Wrap(a.totalIn + |a.input| - |b.input|)
    && b.totalOut == Wrap(a.totalOut + a.availOut - b.availOut)
  }

  lemma FollowsInTurn(a: Account, b: Account, c: Account)
    requires Follows(a, b) && Follows(b, c)
    ensures Follows(a, c)
  {
    WrapTwice(a.totalIn + |a.input| - |b.input|, |b.input| - |c.input|);
    WrapTwice(a.totalOut + a.availOut - b.availOut, b.availOut - c.availOut);
    hide Wrap;
    assert c.input == a.input[|a.input| - |c.input|..];
  }

  lemma WrapTwice(m: nat, n: nat)
    ensures Wrap(Wrap(m) + n) == Wrap(m + n)
  {
  }

  lemma HeaderGrows(fed: seq<byte>, from: nat, cnt: nat)
    requires from + cnt < |fed|
    ensures fed[from + cnt..][0] == fed[from + cnt] && fed[from + cnt..][1..] == fed[from + cnt + 1..]
    ensures fed[from..from + cnt + 1] == fed[from..from + cnt] + [fed[from + cnt]]
  {
  }

  class Session {
    var hasIn: bool
    var hasOut: bool
    var input: seq<byte>
    var availOut: nat
    var totalIn: nat
    var totalOut: nat
    var modes: Modes
    var state: State
    var fileType: FileType
    var decompType: Compression
    var swfState: SwfState
    var headerLen: nat
    var headerCnt: nat
    /** A signature was cut off by the end of the input, and how many of its characters had been matched. */
    var sigActive: bool
    var sigChar: nat
    const headerBytes: array<byte>
    ghost var fed: seq<byte>
    ghost var out: seq<byte>
    ghost var entry: Option<Entry>
    /** The engine could not be set up, or the signature ran over the end of the input; the session is
        of no further use. */
    ghost var failed: bool

    constructor (modes: Modes)
      ensures Inv() && fresh(headerBytes) && state == Ready && !failed && this.modes == modes && !sigActive
      ensures input == [] && fed == [] && out == [] && totalIn == 0 && totalOut == 0 && availOut == 0 && !hasIn
              && !hasOut
    {
      hasIn, hasOut, input, availOut, totalIn, totalOut := false, false, [], 0, 0, 0;
      this.modes, state, fileType, decompType := modes, Ready, NoFile, NoCompression;
      swfState, headerLen, headerCnt, sigActive, sigChar := GetHeader, 0, 0, false, 0;
      headerBytes := new byte[SWF_MAX_HEADER];
      fed, out, entry, failed := [], [], None, false;
    }

    /** What every call keeps. */
    ghost predicate Inv()
      reads this, headerBytes
    {
      && headerBytes.Length == SWF_MAX_HEADER && headerCnt <= headerLen <= SWF_MAX_HEADER
      && totalIn < WORD && totalOut < WORD && sigChar < MAX_SIG_LENGTH
      && (state == Ready && !failed ==> fed == input && out == [] && entry == None)
      && (Begun() ==> SwfInv())
    }

    /** An SWF signature has been found and the engine set up. */
    ghost predicate Begun()
      reads this
    {
      (state == Active || state == Completed) && fileType == Swf && !failed
    }

    /** An SWF session: until the engine is entered, exactly the signature and the header so far have gone through. */
    ghost predicate SwfInv()
      reads this, headerBytes
      requires headerBytes.Length == SWF_MAX_HEADER && headerCnt <= headerLen <= SWF_MAX_HEADER
    {
      && headerLen == HeaderLength(decompType) && decompType != NoCompression
      && (swfState != GetHeader ==> headerCnt == headerLen)
      && |fed| >= 3 + headerCnt && fed[..3] == SignatureOf(decompType)
      && headerBytes[..headerCnt] == fed[3..3 + headerCnt]
      && (entry == None ==>
            swfState != Data && input == fed[3 + headerCnt..] && out == SWF_UNCOMP_SIG + headerBytes[..headerCnt])
      && (entry.Some? ==> swfState != GetHeader && entry == Some(FirstEntry()))
    }

    /** What the engine should first see, whatever the pieces. */
    ghost function FirstEntry(): Entry
      reads this
      requires |fed| >= 3 + headerLen
    {
      Entry(SWF_UNCOMP_SIG + fed[3..3 + headerLen], fed[3..3 + headerLen])
    }

    ghost function Io(): Account
      reads this
    {
      Account(input, availOut, totalIn, totalOut, out)
    }

    /** Byte counts agree with the bytes consumed and produced since the earlier state. */
    twostate predicate Accounted()
      reads this
    {
      Follows(old(Io()), Io()) && fed == old(fed)
    }

    // -------------------------------------------------------------------
    // The caller
    // -------------------------------------------------------------------

    /** More input, after what has not been consumed. */
    method Feed(chunk: seq<byte>)
      requires Inv()
      modifies this`input, this`fed, this`hasIn
      ensures Inv() && input == old(input) + chunk && fed == old(fed) + chunk && hasIn
    {
      hasIn, input := true, input + chunk;
      fed := fed + chunk;
      assert SwfKept() by {
        if Begun() {
          assert fed[3..3 + headerCnt] == old(fed)[3..3 + headerCnt] && fed[..3] == old(fed)[..3];
          assert entry == None ==> input == fed[3 + headerCnt..];
        }
      }
    }

    ghost predicate SwfKept()
      reads this, headerBytes
      requires headerBytes.Length == SWF_MAX_HEADER && headerCnt <= headerLen <= SWF_MAX_HEADER
    {
      Begun() ==> SwfInv()
    }

    /** A new output buffer. */
    method Room(n: nat)
      requires Inv()
      modifies this`availOut, this`hasOut
      ensures Inv() && availOut == n && hasOut
    {
      hasOut, availOut := true, n;
    }

    // -------------------------------------------------------------------
    // Moving bytes
    // -------------------------------------------------------------------

    method PutN(c: seq<byte>) returns (ok: bool)
      modifies this`availOut, this`totalOut, this`out
      ensures ok <==> old(hasOut) && |c| <= old(availOut)
      ensures ok ==> availOut == old(availOut) - |c| && totalOut == Wrap(old(totalOut) + |c|) && out == old(out) + c
      ensures !ok ==> unchanged(this)
    {
      ok := hasOut && availOut >= |c|;
      if ok {
        availOut, totalOut := availOut - |c|, Wrap(totalOut + |c|);
        out := out + c;
      }
    }

    method Move1() returns (ok: bool)
      modifies this`input, this`availOut, this`totalIn, this`totalOut, this`out
      ensures ok <==> old(hasOut && availOut > 0 && hasIn && input != [])
      ensures ok ==> input == old(input)[1..] && availOut == old(availOut) - 1 && out == old(out) + [old(input)[0]]
      ensures ok ==> totalIn == Wrap(old(totalIn) + 1) && totalOut == Wrap(old(totalOut) + 1)
      ensures !ok ==> unchanged(this)
    {
      ok := hasOut && availOut > 0 && hasIn && input != [];
      if ok {
        out := out + [input[0]];
        input, availOut := input[1..], availOut - 1;
        totalIn, totalOut := Wrap(totalIn + 1), Wrap(totalOut + 1);
      }
    }

    // -------------------------------------------------------------------
    // The engine
    // -------------------------------------------------------------------

    /** The compression engine: consumes and produces whatever it will, within what is available. */
    method Engine() returns (r: Status)
      requires totalIn < WORD && totalOut < WORD
      modifies this`input, this`availOut, this`totalIn, this`totalOut, this`out
      ensures Accounted() && totalIn < WORD && totalOut < WORD
    {
      var k: nat :| k <= |input|;
      var m: nat :| m <= availOut;
      ghost var bytes: seq<byte> :| |bytes| == m by { var zero: byte := 0; assert |seq(m, i => zero)| == m; }
      input, totalIn := input[k..], Wrap(totalIn + k);
      availOut, totalOut := availOut - m, Wrap(totalOut + m);
      out := out + bytes;
      r := *;
    }

    // -------------------------------------------------------------------
    // The header
    // -------------------------------------------------------------------

    /** Saves one header byte and passes it through. */
    method SaveByte()
      requires Inv() && !failed && state == Active && fileType == Swf && swfState == GetHeader && hasIn && hasOut
      requires headerCnt < headerLen && input != [] && availOut > 0
      modifies this`input, this`availOut, this`totalIn, this`totalOut, this`out, this`headerCnt, headerBytes
      ensures Inv() && headerCnt == old(headerCnt) + 1 && Accounted()
      ensures |input| == |old(input)| - 1 && availOut == old(availOut) - 1
    {
      hide Wrap;
      ghost var saved, next := headerBytes[..headerCnt], input[0];
      HeaderGrows(fed, 3, headerCnt);
      headerBytes[headerCnt] := input[0];
      var moved := Move1();
      headerCnt := headerCnt + 1;
      assert headerBytes[..headerCnt] == saved + [next];
      assert out == SWF_UNCOMP_SIG + (saved + [next]);
      assert SwfInv();
    }

    /** Passes header bytes through, as many as input, room and the header allow. */
    method GetHeaderBytes() returns (r: Status)
      requires Inv() && !failed && state == Active && fileType == Swf && swfState == GetHeader && hasIn && hasOut
      modifies this`input, this`availOut, this`totalIn, this`totalOut, this`out, this`headerCnt, headerBytes
      ensures Inv() && Accounted() && |old(input)| - |input| == headerCnt - old(headerCnt)
      ensures headerCnt == old(headerCnt) + Least(|old(input)|, old(availOut), headerLen - old(headerCnt))
      ensures r == if headerCnt == headerLen then OK else if input == [] then BlockIn else BlockOut
    {
      hide SwfInv, Wrap, Follows;
      ghost var a, cnt0 := Io(), headerCnt;
      Stays(a);
      while headerLen > headerCnt
        invariant Inv() && cnt0 <= headerCnt && Follows(a, Io())
        invariant |a.input| - |input| == headerCnt - cnt0 == a.availOut - availOut
      {
        if input == [] {
          return BlockIn;
        }
        if availOut == 0 {
          return BlockOut;
        }
        ghost var b := Io();
        SaveByte();
        FollowsInTurn(a, b, Io());
      }
      r := OK;
    }

    /** The engine is entered; the first time, what it sees is noted. */
    ghost method Enter()
      requires Inv() && !failed && state == Active && fileType == Swf && swfState == ProcHeader
      modifies this`entry
      ensures Inv() && entry == Some(FirstEntry())
    {
      if entry == None {
        entry := Some(Entry(out, headerBytes[..headerCnt]));
      }
    }

    /** Gives the engine the header it expects; only output can come of it. */
    method LzmaHeader() returns (r: Status)
      requires Inv() && !failed && state == Active && fileType == Swf && swfState == ProcHeader
      modifies this`availOut, this`totalOut, this`out, this`entry
      ensures Inv() && Accounted()
      ensures r == OK ==> entry.Some?
      ensures LittleEndian(headerBytes[1..5]) < SWF_HDR_LEN ==>
              r == DecompError && entry == old(entry) && out == old(out)
    {
      var length := LittleEndian(headerBytes[1..5]);
      if length < SWF_HDR_LEN {
        return DecompError;
      }
      hide LittleEndian, SwfInv, Follows;
      Enter();
      r := EngineHeader();
    }

    /** Puts out whatever the engine will, within the room. */
    method PutSome()
      requires totalIn < WORD
      modifies this`availOut, this`totalOut, this`out
      ensures Accounted() && totalOut < WORD
    {
      var m: nat :| m <= availOut;
      ghost var bytes: seq<byte> :| |bytes| == m by { var zero: byte := 0; assert |seq(m, i => zero)| == m; }
      availOut, totalOut := availOut - m, Wrap(totalOut + m);
      out := out + bytes;
    }

    /** The engine reads its header; it may put something out, or refuse. */
    method EngineHeader() returns (r: Status)
      requires Inv() && !failed && state == Active && fileType == Swf && swfState == ProcHeader && entry.Some?
      modifies this`availOut, this`totalOut, this`out
      ensures Inv() && Accounted() && r in {OK, DecompError}
    {
      hide Wrap, Follows;
      PutSome();
      if * {
        r := DecompError;
      } else {
        r := OK;
      }
    }

    method HeaderDone()
      requires Inv() && !failed && state == Active && fileType == Swf && swfState == GetHeader && headerCnt == headerLen
      modifies this`swfState
      ensures Inv() && swfState == ProcHeader
    {
      swfState := ProcHeader;
    }

    method HeaderProcessed()
      requires Inv() && !failed && state == Active && fileType == Swf && swfState == ProcHeader && entry.Some?
      modifies this`swfState
      ensures Inv() && swfState == Data
    {
      swfState := Data;
    }

    method Decomp() returns (r: Status)
      requires Inv() && !failed && state == Active && fileType == Swf && swfState == Data
      modifies this`input, this`availOut, this`totalIn, this`totalOut, this`out
      ensures Inv() && Accounted() && entry.Some?
    {
      r := Engine();
    }

    /** Continues an SWF session. */
    method DecompSwf() returns (r: Status)
      requires Inv() && !failed && state == Active && hasIn && hasOut
      modifies this`input, this`availOut, this`totalIn, this`totalOut, this`out, this`headerCnt, this`swfState,
               this`entry, headerBytes
      ensures Inv() && Accounted()
      ensures fileType != Swf ==> r == Error
      ensures fileType == Swf && old(swfState) == GetHeader ==>
                var moved := Least(|old(input)|, old(availOut), headerLen - old(headerCnt));
                && headerCnt == old(headerCnt) + moved
                && (swfState == GetHeader <==> headerCnt < headerLen)
                && (headerCnt < headerLen ==> r == if moved == |old(input)| then BlockIn else BlockOut)
      ensures fileType == Swf && swfState == Data ==> entry.Some?
    {
      hide SwfInv, Wrap, Follows;
      if fileType != Swf {
        Stays(Io());
        return Error;
      }
      ghost var a := Io();
      if swfState == GetHeader {
        r := GetHeaderBytes();
        if r != OK {
          return;
        }
        HeaderDone();
      } else {
        Stays(a);
      }
      if swfState == ProcHeader {
        if decompType == Lzma {
          ghost var b := Io();
          r := LzmaHeader();
          FollowsInTurn(a, b, Io());
          if r != OK {
            return;
          }
        } else {
          Enter();
        }
        HeaderProcessed();
      }
      ghost var c := Io();
      r := Decomp();
      FollowsInTurn(a, c, Io());
      if r != Complete {
        return;
      }
      if * {
        r := DecompError;
      }
    }

    // -------------------------------------------------------------------
    // The signature
    // -------------------------------------------------------------------

    /** Where the comparison with the first signature starts. */
    ghost function Resume(): nat
      reads this
    {
      if sigActive then sigChar else 0
    }

    /** What the signatures say of the input, when `past` is the byte that follows it in memory. */
    ghost function Verdict(past: byte): Outcome
      reads this
      requires Resume() < |input| && sigChar < MAX_SIG_LENGTH
    {
      Scan(SignatureMap(modes), input, past, 0, Resume())
    }

    /** A signature is completed by the byte after the input. */
    ghost predicate RunsOver(past: byte)
      reads this
    {
      && input != [] && hasIn && hasOut && availOut >= MAX_SIG_LENGTH
      && Resume() < |input| && sigChar < MAX_SIG_LENGTH && Verdict(past).Overrun?
    }

    /** Looks for a signature at the front of the input, and replaces it in the output. */
    method LocateSig(past: byte) returns (r: Status, over: bool)
      requires Inv() && state == Ready && !failed
      modifies this`input, this`availOut, this`totalIn, this`totalOut, this`out, this`fileType, this`decompType
      modifies this`sigActive, this`sigChar
      ensures over == old(RunsOver(past)) && (!over ==> Accounted()) && (over ==> r == OK)
      ensures totalIn < WORD && totalOut < WORD && sigChar < MAX_SIG_LENGTH
      ensures r == if old(input) == [] || !hasIn || !hasOut then Error
                   else if old(availOut) < MAX_SIG_LENGTH then BlockOut
                   else if |old(input)| <= old(Resume()) then BlockIn
                   else match old(Verdict(past))
                     case Hit(_) => OK
                     case Overrun(_) => OK
                     case More => BlockIn
                     case NoMatch => NoSig
      ensures r != OK ==> Io() == old(Io()) && fileType == old(fileType) && decompType == old(decompType)
      ensures r == BlockIn && old(Resume()) < |old(input)| ==> sigActive && sigChar == |input|
      ensures (r != OK && r != BlockIn) || |old(input)| <= old(Resume()) ==>
                sigActive == old(sigActive) && sigChar == old(sigChar)
      ensures r == OK ==> old(Resume()) < |old(input)|
      ensures r == OK ==>
                var v := old(Verdict(past));
                && (v.Hit? || v.Overrun?) && v.index < |SignatureMap(modes)|
                && var sig := SignatureMap(modes)[v.index];
                   var put := if sig.fileType == Swf then SWF_UNCOMP_SIG else sig.text;
                   && fileType == sig.fileType && decompType == sig.compression
                   && out == put && availOut == old(availOut) - |put|
                   && (v.Hit? ==> |put| <= |old(input)| && input == old(input)[|put|..])
    {
      hide Wrap, Scan, Follows;
      Stays(Io());
      over := false;
      if input == [] || !hasIn || !hasOut {
        return Error, false;
      }
      if availOut < MAX_SIG_LENGTH {
        return BlockOut, false;
      }
      var charIndex := if sigActive then sigChar else 0;
      if |input| <= charIndex {
        return BlockIn, false;
      }
      var sigs := SignatureMap(modes);
      ScanIs(sigs, input, past, 0, charIndex);
      var v := FindSig(sigs, charIndex, past);
      match v {
        case NoMatch =>
          r := NoSig;
        case More =>
          sigActive, sigChar := true, |input|;
          r := BlockIn;
        case Hit(i) =>
          Accept(sigs[i]);
          r := OK;
        case Overrun(i) =>
          Accept(sigs[i]);
          r, over := OK, true;
      }
    }

    /** Compares the input with one signature after another, character by character, the first one from
        `start` on.  The comparison may look at the byte after the input. */
    method FindSig(sigs: seq<Signature>, start: nat, past: byte) returns (v: Outcome)
      requires start <= |input| && Texts(sigs) && (sigs != [] ==> start < |sigs[0].text|)
      ensures v == Scan(sigs, input, past, 0, start)
    {
      hide Scan;
      var sigIndex, charIndex: nat := 0, start;
      while sigIndex < |sigs|
        invariant sigIndex <= |sigs| && charIndex <= |input|
        invariant sigIndex < |sigs| ==> charIndex < |sigs[sigIndex].text|
        invariant Scan(sigs, input, past, sigIndex, charIndex) == Scan(sigs, input, past, 0, start)
        decreases |sigs| - sigIndex, MAX_SIG_LENGTH - charIndex
      {
        ScanStep(sigs, input, past, sigIndex, charIndex);
        var sig := sigs[sigIndex];
        var c := if charIndex < |input| then input[charIndex] else past;
        if sig.enabled && c == sig.text[charIndex] {
          if charIndex == |sig.text| - 1 {
            return if charIndex < |input| then Hit(sigIndex) else Overrun(sigIndex);
          }
          if charIndex < |input| {
            charIndex := charIndex + 1;
          } else {
            return More;
          }
        } else {
          sigIndex, charIndex := sigIndex + 1, 0;
        }
      }
      ScanEnd(sigs, input, past, charIndex);
      v := NoMatch;
    }

    /** Puts the signature out, for SWF the uncompressed one, and skips it in the input. */
    method Accept(sig: Signature)
      requires hasOut && availOut >= MAX_SIG_LENGTH && |sig.text| <= MAX_SIG_LENGTH
      modifies this`input, this`availOut, this`totalIn, this`totalOut, this`out, this`fileType, this`decompType
      ensures var put := if sig.fileType == Swf then SWF_UNCOMP_SIG else sig.text;
              && fileType == sig.fileType && decompType == sig.compression
              && out == old(out) + put && availOut == old(availOut) - |put|
              && (|put| <= |old(input)| ==> Accounted() && input == old(input)[|put|..])
      ensures totalIn < WORD && totalOut < WORD
    {
      hide Wrap;
      fileType, decompType := sig.fileType, sig.compression;
      var put := if fileType == Swf then SWF_UNCOMP_SIG else sig.text;
      var ok := PutN(put);
      // the count of bytes available would wrap around here
      input, totalIn := if |put| <= |input| then input[|put|..] else [], Wrap(totalIn + |put|);
    }

    // -------------------------------------------------------------------
    // The session
    // -------------------------------------------------------------------

    /** Sets up the decompressor for the type found; setting up an engine may fail. */
    method Initialize() returns (r: Status)
      requires headerBytes.Length == SWF_MAX_HEADER && totalIn < WORD && totalOut < WORD && sigChar < MAX_SIG_LENGTH
      requires state == Ready && !failed
      requires fileType == Swf ==> decompType != NoCompression && |fed| >= 3 && fed[..3] == SignatureOf(decompType)
      requires fileType == Swf ==> input == fed[3..] && out == SWF_UNCOMP_SIG && entry == None
      modifies this`state, this`swfState, this`headerLen, this`headerCnt, this`failed
      ensures Inv() && r in {OK, DecompError, Error}
      ensures (r == OK <==> state == Active && !failed) && (r != OK ==> failed)
      ensures fileType == Swf && r == OK ==>
              swfState == GetHeader && headerCnt == 0 && headerLen == HeaderLength(decompType)
    {
      headerLen, headerCnt := 0, 0;
      if fileType == NoFile {
        failed := true;
        return Error;
      }
      if fileType == Swf {
        swfState, headerCnt, headerLen := GetHeader, 0, HeaderLength(decompType);
        assert fed[3..3] == [] && headerBytes[..0] == [] && SWF_UNCOMP_SIG + [] == SWF_UNCOMP_SIG;
      }
      if * {
        failed := true;
        return DecompError;
      }
      state := Active;
      r := OK;
    }

    method ProcessDecompression() returns (r: Status)
      requires Inv() && !failed && state == Active && hasIn && hasOut
      modifies this`input, this`availOut, this`totalIn, this`totalOut, this`out, this`headerCnt, this`swfState,
               this`entry, this`state, headerBytes
      ensures Inv() && Accounted() && (state == Active || state == Completed)
    {
      hide SwfInv, Follows, Wrap;
      Stays(Io());
      if fileType == Swf {
        r := DecompSwf();
      } else if fileType == Pdf {
        r := Engine();
      } else {
        return Error;
      }
      if r == Complete {
        Finish();
      }
    }

    method Finish()
      requires Inv() && state == Active
      modifies this`state
      ensures Inv() && state == Completed
    {
      state := Completed;
    }

    lemma EntryIsFirst()
      requires Inv()
      ensures Begun() && entry.Some? ==> |fed| >= 3 + headerLen && entry == Some(FirstEntry())
    {
    }

    /** What a call comes to, by what the signatures said of its input. */
    ghost predicate Answers(v: Outcome, r: Status, before: seq<byte>)
      reads this
    {
      match v
      case NoMatch => r == NoSig && state == Ready && input == before
      case More => r == BlockIn && state == Ready && input == before && sigActive && sigChar == |before|
      case Hit(i) =>
        i < |SignatureMap(modes)| && fileType == SignatureMap(modes)[i].fileType && (failed || state != Ready)
      case Overrun(i) =>
        i < |SignatureMap(modes)| && fileType == SignatureMap(modes)[i].fileType && failed
    }

    /** The first call that finds a signature sets the session up and goes on. */
    method Begin(past: byte) returns (r: Status)
      requires Inv() && !failed && state == Ready && hasIn && hasOut
      modifies this, headerBytes
      ensures Inv() && modes == old(modes) && hasIn && hasOut && fed == old(fed)
      ensures if old(RunsOver(past)) then failed else Accounted()
      ensures old(Resume()) < |old(input)| && old(availOut) >= MAX_SIG_LENGTH ==>
              Answers(old(Verdict(past)), r, old(input))
    {
      hide SwfInv, Follows, Wrap, Scan;
      ghost var a, k := Io(), Resume();
      var over: bool;
      r, over := LocateSig(past);
      if r != OK {
        return;
      }
      ScanIs(SignatureMap(modes), a.input, past, 0, k);
      ScanHits(modes, a.input, past, k);
      if over {
        // the bytes the code goes on with are not those it was given
        failed := true;
        r := *;
        return;
      }
      ghost var b := Io();
      r := Continue();
      FollowsInTurn(a, b, Io());
    }

    /** The type is known: the decompressor is set up and run. */
    method Continue() returns (r: Status)
      requires headerBytes.Length == SWF_MAX_HEADER && totalIn < WORD && totalOut < WORD && sigChar < MAX_SIG_LENGTH
      requires state == Ready && !failed && hasIn && hasOut
      requires fileType == Swf ==> decompType != NoCompression && |fed| >= 3 && fed[..3] == SignatureOf(decompType)
      requires fileType == Swf ==> input == fed[3..] && out == SWF_UNCOMP_SIG && entry == None
      modifies this, headerBytes
      ensures Inv() && Accounted() && modes == old(modes) && hasIn && hasOut
      ensures fileType == old(fileType) && (failed || state != Ready)
    {
      hide SwfInv, Follows, Wrap;
      Stays(Io());
      r := Initialize();
      if r == OK {
        r := ProcessDecompression();
      }
    }

    /**
      One call.  Whatever the pieces in which input and room arrive, consumed and produced
      bytes are accounted for, and the engine is first entered with the uncompressed
      signature and exactly the header bytes that follow the signature in the stream.
     */
    method FileDecomp(past: byte) returns (r: Status)
      requires Inv() && !failed
      modifies this, headerBytes
      ensures Inv() && modes == old(modes) && fed == old(fed)
      ensures if old(state == Ready && RunsOver(past)) then failed else Accounted()
      ensures Begun() && entry.Some? ==> |fed| >= 3 + headerLen && entry == Some(FirstEntry())
      ensures old(state) == Ready && hasIn && hasOut && old(Resume()) < |old(input)|
              && old(availOut) >= MAX_SIG_LENGTH ==>
                Answers(old(Verdict(past)), r, old(input))
    {
      hide SwfInv, Follows, Wrap, Scan, Answers;
      Stays(Io());
      if state == New || !hasIn || !hasOut {
        EntryIsFirst();
        return Error;
      }
      if state == Ready {
        r := Begin(past);
      } else if state == Active {
        r := ProcessDecompression();
      } else {
        r := Error;
      }
      EntryIsFirst();
    }
  }

  /** Two sessions whose streams begin alike have their engines first see the same, however each was fed. */
  lemma StartIsIndependentOfPieces(s: Session, t: Session)
    requires s.Inv() && t.Inv() && s.Begun() && t.Begun() && s.entry.Some? && t.entry.Some?
    requires s.fed <= t.fed || t.fed <= s.fed
    ensures s.entry == t.entry && s.decompType == t.decompType
  {
    s.EntryIsFirst();
    t.EntryIsFirst();
    assert s.fed[..3] == t.fed[..3];
    assert SignatureOf(s.decompType)[0] == SignatureOf(t.decompType)[0];
    assert s.fed[3..3 + s.headerLen] == t.fed[3..3 + s.headerLen];
  }

  // ---------------------------------------------------------------------
  // Finding a signature
  // ---------------------------------------------------------------------

  /** A signature the input has; one that the byte after the input completes; one that goes on after
      that byte; or none. */
  datatype Outcome = Hit(index: nat) | Overrun(index: nat) | More | NoMatch

  predicate Texts(sigs: seq<Signature>) {
    forall i | 0 <= i < |sigs| :: 0 < |sigs[i].text| <= MAX_SIG_LENGTH
  }

  /** The comparison with signature `i` from its character `k` on, and with those after it. */
  function Scan(sigs: seq<Signature>, input: seq<byte>, past: byte, i: nat, k: nat): Outcome
    requires Texts(sigs) && i <= |sigs| && k <= |input| && (i < |sigs| ==> k < |sigs[i].text|)
    decreases |sigs| - i, MAX_SIG_LENGTH - k
  {
    if i == |sigs| then NoMatch
    else if !sigs[i].enabled || (if k < |input| then input[k] else past) != sigs[i].text[k] then
      Scan(sigs, input, past, i + 1, 0)
    else if k == |sigs[i].text| - 1 then if k < |input| then Hit(i) else Overrun(i)
    else if k < |input| then Scan(sigs, input, past, i, k + 1)
    else More
  }

  lemma ScanStep(sigs: seq<Signature>, input: seq<byte>, past: byte, i: nat, k: nat)
    requires Texts(sigs) && i < |sigs| && k <= |input| && k < |sigs[i].text|
    ensures Scan(sigs, input, past, i, k) ==
            if !sigs[i].enabled || (if k < |input| then input[k] else past) != sigs[i].text[k] then
              Scan(sigs, input, past, i + 1, 0)
            else if k == |sigs[i].text| - 1 then if k < |input| then Hit(i) else Overrun(i)
            else if k < |input| then Scan(sigs, input, past, i, k + 1)
            else More
  {
  }

  lemma ScanEnd(sigs: seq<Signature>, input: seq<byte>, past: byte, k: nat)
    requires Texts(sigs) && k <= |input|
    ensures Scan(sigs, input, past, |sigs|, k) == NoMatch
  {
  }

  /** The input and the signature agree from character `k` on. */
  predicate Agree(sig: Signature, input: seq<byte>, k: nat) {
    sig.enabled && forall j | k <= j < |sig.text| && j < |input| :: sig.text[j] == input[j]
  }

  /** The input starts with the signature. */
  predicate Matches(sig: Signature, input: seq<byte>) {
    |sig.text| <= |input| && Agree(sig, input, 0)
  }

  /** The input is a proper beginning of the signature. */
  predicate Begins(sig: Signature, input: seq<byte>) {
    |input| < |sig.text| && Agree(sig, input, 0)
  }

  /** One signature: what its comparison from `k` on comes to. */
  lemma {:induction false} ScanIs(sigs: seq<Signature>, input: seq<byte>, past: byte, i: nat, k: nat)
    requires Texts(sigs) && i <= |sigs| && k <= |input| && (i < |sigs| ==> k < |sigs[i].text|)
    ensures i == |sigs| ==> Scan(sigs, input, past, i, k) == NoMatch
    ensures i < |sigs| ==>
              var sig, n := sigs[i], |input|;
              Scan(sigs, input, past, i, k) ==
                if !Agree(sig, input, k) then Scan(sigs, input, past, i + 1, 0)
                else if |sig.text| <= n then Hit(i)
                else if sig.text[n] != past then Scan(sigs, input, past, i + 1, 0)
                else if |sig.text| == n + 1 then Overrun(i)
                else More
    ensures var v := Scan(sigs, input, past, i, k);
            && (v.Hit? || v.Overrun? ==> i <= v.index < |sigs|)
            && (v.Overrun? ==> |sigs[v.index].text| == |input| + 1)
            && (v.Hit? ==>
                  |sigs[v.index].text| <= |input| && Agree(sigs[v.index], input, if v.index == i then k else 0))
            && (v.More? ==> |input| < MAX_SIG_LENGTH)
    decreases |sigs| - i, MAX_SIG_LENGTH - k
  {
    if i < |sigs| {
      ScanStep(sigs, input, past, i, k);
      if k < |input| && k < |sigs[i].text| - 1 {
        ScanIs(sigs, input, past, i, k + 1);
      }
      ScanIs(sigs, input, past, i + 1, 0);
      hide Scan;
    }
  }

  /** An SWF signature is found only where it is: those are always compared from their first character. */
  lemma ScanHits(modes: Modes, input: seq<byte>, past: byte, k: nat)
    requires k < |input| && k < MAX_SIG_LENGTH
    ensures var v, sigs := Scan(SignatureMap(modes), input, past, 0, k), SignatureMap(modes);
            v.Hit? && v.index < |sigs| && sigs[v.index].fileType == Swf ==>
              && sigs[v.index].compression != NoCompression
              && |input| >= 3 && input[..3] == SignatureOf(sigs[v.index].compression)
  {
    ScanIs(SignatureMap(modes), input, past, 0, k);
  }

  /** The answer the input calls for, taking the signatures in turn. */
  datatype Answer = StartsWith(index: nat) | Unfinished | Neither

  function Expected(sigs: seq<Signature>, input: seq<byte>, i: nat): Answer
    requires i <= |sigs|
    decreases |sigs| - i
  {
    if i == |sigs| then Neither
    else if Matches(sigs[i], input) then StartsWith(i)
    else if Begins(sigs[i], input) then Unfinished
    else Expected(sigs, input, i + 1)
  }

  function AnswerOf(v: Outcome): Answer {
    match v
    case Hit(i) => StartsWith(i)
    case Overrun(i) => StartsWith(i)
    case More => Unfinished
    case NoMatch => Neither
  }

  lemma {:induction false} ScanExpected(sigs: seq<Signature>, input: seq<byte>, past: byte, i: nat)
    requires Texts(sigs) && i <= |sigs|
    ensures Expected(sigs, input, i) != Unfinished ==>
            AnswerOf(Scan(sigs, input, past, i, 0)) == Expected(sigs, input, i)
    ensures (forall j | 0 <= j < |sigs| :: past !in sigs[j].text) ==> !Scan(sigs, input, past, i, 0).More?
    decreases |sigs| - i
  {
    ScanIs(sigs, input, past, i, 0);
    if i < |sigs| {
      ScanExpected(sigs, input, past, i + 1);
      assert |input| < |sigs[i].text| ==> sigs[i].text[|input|] in sigs[i].text;
    }
    hide Scan;
  }

  /** A search from the start gives the answer the input calls for, whatever byte follows it, exactly
      when the input is not cut off inside a signature. */
  lemma FoundExactly(modes: Modes, input: seq<byte>)
    requires input != []
    ensures (forall past: byte ::
            AnswerOf(Scan(SignatureMap(modes), input, past, 0, 0)) == Expected(SignatureMap(modes), input, 0))
       <==> Expected(SignatureMap(modes), input, 0) != Unfinished
  {
    hide Scan, Expected;
    var sigs := SignatureMap(modes);
    forall past: byte
      ensures Expected(sigs, input, 0) != Unfinished ==>
              AnswerOf(Scan(sigs, input, past, 0, 0)) == Expected(sigs, input, 0)
    {
      ScanExpected(sigs, input, past, 0);
    }
    ScanExpected(sigs, input, 0, 0);
  }

  /** A search resumed at character `k`, with enough input, finds what a search from the start finds
      exactly when the first signature does not match from `k` on only. */
  lemma ResumedExactly(sigs: seq<Signature>, input: seq<byte>, past: byte, k: nat)
    requires Texts(sigs) && sigs != [] && k < |sigs[0].text| && |input| >= MAX_SIG_LENGTH
    ensures Scan(sigs, input, past, 0, k) == Scan(sigs, input, past, 0, 0)
       <==> (Agree(sigs[0], input, k) ==> Agree(sigs[0], input, 0))
  {
    ScanIs(sigs, input, past, 0, k);
    ScanIs(sigs, input, past, 0, 0);
    ScanIs(sigs, input, past, 1, 0);
    hide Scan;
  }

  /** `CW` is given up unless the byte that happens to follow it is `S`. */
  lemma CutOffSignature(past: byte)
    ensures var sigs := SignatureMap(Modes(false, true, false));
            && Expected(sigs, [67, 87], 0) == Unfinished
            && Scan(sigs, [67, 87], past, 0, 0) == if past == 83 then Overrun(1) else NoMatch
  {
    var sigs, input: seq<byte> := SignatureMap(Modes(false, true, false)), [67, 87];
    ScanIs(sigs, input, past, 0, 0);
    ScanIs(sigs, input, past, 1, 0);
    ScanIs(sigs, input, past, 2, 0);
    ScanIs(sigs, input, past, 3, 0);
    assert !Matches(sigs[0], input) && !Begins(sigs[0], input) && !Matches(sigs[1], input) && Begins(sigs[1], input);
    assert Expected(sigs, input, 1) == Unfinished;
  }

  /** After `C`, followed by a `W` that is not part of the input, `CPDF-` is taken for a PDF. */
  lemma ResumedWrongly(past: byte)
    ensures var sigs := SignatureMap(Modes(true, true, false));
            && Scan(sigs, [67], 87, 0, 0) == More
            && Scan(sigs, [67, 80, 68, 70, 45], past, 0, 1) == Hit(0)
            && Expected(sigs, [67, 80, 68, 70, 45], 0) == Neither
  {
    var sigs := SignatureMap(Modes(true, true, false));
    var first: seq<byte>, whole: seq<byte> := [67], [67, 80, 68, 70, 45];
    ScanIs(sigs, first, 87, 0, 0);
    ScanIs(sigs, first, 87, 1, 0);
    ScanIs(sigs, whole, past, 0, 1);
    hide Scan;
    assert !Agree(sigs[0], whole, 0) && !Agree(sigs[1], whole, 0) && !Agree(sigs[2], whole, 0);
    assert Expected(sigs, whole, 3) == Neither && Expected(sigs, whole, 2) == Neither;
    assert Expected(sigs, whole, 1) == Neither;
  }

  lemma Stays(a: Account)
    requires a.totalIn < WORD && a.totalOut < WORD
    ensures Follows(a, a)
  {
  }

  function Least(a: nat, b: nat, c: nat): nat {
    var m := if a < b then a else b;
    if m < c then m else c
  }
}
