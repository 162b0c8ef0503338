/** The control channel: commands are written into framed messages and read back from a byte buffer that
    may hold several of them. */
module ControlMsg {

  type Byte = x: int | 0 <= x < 256

  type Bytes = seq<Byte>

  const CONTROL_MAGIC: nat := 0x676d4c5443767273
  const CMD_MAGIC: nat := 0x5F446d43
  const TYPE_CMD: nat := 1
  const TYPE_COUNT: nat := 8
  const HEAD_LEN: nat := 16
  const U32: nat := 0x1_0000_0000
  const INT_MAX: nat := 0x7fff_ffff
  const SIZE_T: nat := 0x1_0000_0000_0000_0000

  datatype Status = OK | AGAIN | INVALID | NOBUFS

  datatype Result<+T> = Success(value: T) | Failure(status: Status)

  // ----- integers in little-endian bytes -----

  function LE(n: nat, k: nat): (b: Bytes)
    ensures |b| == k
  {
    if k == 0 then [] else [n % 256] + LE(n / 256, k - 1)
  }

  function FromLE(b: Bytes): nat {
    if b == [] then 0 else b[0] + 256 * FromLE(b[1..])
  }

  function Pow256(k: nat): nat {
    if k == 0 then 1 else 256 * Pow256(k - 1)
  }

  lemma {:induction false} FromLEofLE(n: nat, k: nat)
    requires n < Pow256(k)
    ensures FromLE(LE(n, k)) == n
  {
    if k > 0 {
      FromLEofLE(n / 256, k - 1);
      assert LE(n, k)[1..] == LE(n / 256, k - 1);
    }
  }

  lemma {:induction false} LEofFromLE(b: Bytes)
    ensures LE(FromLE(b), |b|) == b
    decreases |b|
  {
    if b != [] {
      LEofFromLE(b[1..]);
      assert FromLE(b) % 256 == b[0] && FromLE(b) / 256 == FromLE(b[1..]);
    }
  }

  lemma {:induction false} Written32(b: Bytes, n: nat)
    requires |b| == 4 && n < U32
    ensures FromLE(b) == n <==> b == LE(n, 4)
  {
    LEofFromLE(b);
    Read32(n);
  }

  lemma {:induction false} Read32(n: nat)
    requires n < U32
    ensures FromLE(LE(n, 4)) == n
  {
    assert Pow256(1) == 256 && Pow256(2) == 65536 && Pow256(3) == 16777216 && Pow256(4) == U32;
    FromLEofLE(n, 4);
  }

  lemma {:induction false} ReadMagic()
    ensures FromLE(LE(CONTROL_MAGIC, 8)) == CONTROL_MAGIC
  {
    assert Pow256(1) == 256 && Pow256(2) == 65536 && Pow256(3) == 16777216 && Pow256(4) == U32;
    assert Pow256(5) == 256 * U32 && Pow256(6) == 65536 * U32 && Pow256(7) == 16777216 * U32;
    assert Pow256(8) == U32 * U32;
    FromLEofLE(CONTROL_MAGIC, 8);
  }

  // ----- the command payload -----

  type Arg = Bytes

  /** Length with the closing NUL, magic, the characters, NUL. */
  function EncodeArg(a: Arg): (b: Bytes)
    ensures |b| == 9 + |a|
  {
    LE(|a| + 1, 4) + LE(CMD_MAGIC, 4) + a + [0]
  }

  function EncodeArgs(argv: seq<Arg>): Bytes {
    if argv == [] then [] else EncodeArg(argv[0]) + EncodeArgs(argv[1..])
  }

  function Encode(argv: seq<Arg>): Bytes {
    LE(|argv|, 4) + LE(CMD_MAGIC, 4) + EncodeArgs(argv)
  }

  /** Reads arguments until the payload is used up. */
  function DecodeArgs(b: Bytes): (r: Result<seq<Arg>>)
    ensures r.Failure? ==> r.status == NOBUFS || r.status == INVALID
    decreases |b|
  {
    if b == [] then Success([])
    else if |b| < 8 then Failure(NOBUFS)
    else
      var len := FromLE(b[..4]);
      if len > |b| - 8 || len == 0 then Failure(NOBUFS)
      else if FromLE(b[4..8]) != CMD_MAGIC || b[8 + len - 1] != 0 then Failure(INVALID)
      else
        var rest := DecodeArgs(b[8 + len..]);
        if rest.Failure? then rest else Success([b[8..8 + len - 1]] + rest.value)
  }

  function Decode(b: Bytes): (r: Result<seq<Arg>>)
    ensures r.Failure? ==> r.status == NOBUFS || r.status == INVALID
  {
    if |b| < 8 then Failure(NOBUFS)
    else if FromLE(b[4..8]) != CMD_MAGIC then Failure(INVALID)
    else
      var args := DecodeArgs(b[8..]);
      if args.Failure? then args
      else if FromLE(b[..4]) != |args.value| || args.value == [] then Failure(INVALID)
      else args
  }

  lemma {:induction false} ArgParts(a: Arg, rest: Bytes)
    requires |a| + 1 < U32
    ensures var b, len := EncodeArg(a) + rest, |a| + 1;
            && |b| == 8 + len + |rest|
            && FromLE(b[..4]) == len && FromLE(b[4..8]) == CMD_MAGIC
            && b[8..8 + len - 1] == a && b[8 + len - 1] == 0 && b[8 + len..] == rest
  {
    var b := EncodeArg(a) + rest;
    assert b[..4] == LE(|a| + 1, 4);
    assert b[4..8] == LE(CMD_MAGIC, 4);
    Read32(|a| + 1);
    Read32(CMD_MAGIC);
  }

  lemma {:induction false} ArgsRoundTrip(argv: seq<Arg>)
    requires |EncodeArgs(argv)| < U32
    ensures DecodeArgs(EncodeArgs(argv)) == Success(argv)
    ensures |argv| <= |EncodeArgs(argv)|
    decreases |argv|
  {
    if argv != [] {
      ArgsRoundTrip(argv[1..]);
      ArgParts(argv[0], EncodeArgs(argv[1..]));
      assert argv == [argv[0]] + argv[1..];
    }
  }

  /** A command is read back exactly, and only an empty one is refused. */
  lemma {:induction false} CommandRoundTrip(argv: seq<Arg>)
    requires |Encode(argv)| < U32
    ensures Decode(Encode(argv)) == if argv == [] then Failure(INVALID) else Success(argv)
  {
    var b := Encode(argv);
    assert b[..4] == LE(|argv|, 4) && b[4..8] == LE(CMD_MAGIC, 4) && b[8..] == EncodeArgs(argv);
    ArgsRoundTrip(argv);
    Read32(|argv|);
    Read32(CMD_MAGIC);
  }

  /** What a read that has got `argv` so far will make of the rest. */
  function Prepended(argv: seq<Arg>, r: Result<seq<Arg>>): Result<seq<Arg>> {
    if r.Failure? then r else Success(argv + r.value)
  }

  lemma {:induction false} PrependedNone(r: Result<seq<Arg>>)
    ensures Prepended([], r) == r
  {
    if r.Success? { assert [] + r.value == r.value; }
  }

  lemma {:induction false} PrependedTwice(argv: seq<Arg>, more: seq<Arg>, r: Result<seq<Arg>>)
    ensures Prepended(argv, Prepended(more, r)) == Prepended(argv + more, r)
  {
    if r.Success? { assert argv + (more + r.value) == argv + more + r.value; }
  }

  lemma {:induction false} ReadsFirst(a: Arg, rest: Bytes)
    requires |a| + 1 < U32
    ensures DecodeArgs(EncodeArg(a) + rest) == Prepended([a], DecodeArgs(rest))
  {
    ArgParts(a, rest);
  }

  /** Reading goes on after any arguments as it would from the start. */
  lemma {:induction false} ReadingResumes(argv: seq<Arg>, tail: Bytes)
    requires forall k | 0 <= k < |argv| :: |argv[k]| + 1 < U32
    ensures DecodeArgs(EncodeArgs(argv) + tail) == Prepended(argv, DecodeArgs(tail))
    decreases |argv|
  {
    if argv == [] {
      assert EncodeArgs(argv) + tail == tail;
      PrependedNone(DecodeArgs(tail));
    } else {
      var rest := EncodeArgs(argv[1..]) + tail;
      assert EncodeArgs(argv) + tail == EncodeArg(argv[0]) + rest;
      ReadsFirst(argv[0], rest);
      ReadingResumes(argv[1..], tail);
      assert [argv[0]] + argv[1..] == argv;
      PrependedTwice([argv[0]], argv[1..], DecodeArgs(tail));
    }
  }

  lemma {:induction false} FirstArg(b: Bytes, a: Arg, rest: Bytes)
    requires |b| >= 8 && |a| + 1 < U32 && FromLE(b[..4]) == |a| + 1 && FromLE(b[4..8]) == CMD_MAGIC
    requires |b| == 9 + |a| + |rest| && b[8..8 + |a|] == a && b[8 + |a|] == 0 && b[9 + |a|..] == rest
    ensures b == EncodeArg(a) + rest
  {
    Written32(b[..4], |a| + 1);
    Written32(b[4..8], CMD_MAGIC);
    assert b == b[..4] + b[4..8] + b[8..8 + |a|] + [b[8 + |a|]] + b[9 + |a|..];
  }

  lemma {:induction false} ArgsAreWritten(b: Bytes)
    requires |b| < U32 && DecodeArgs(b).Success?
    ensures b == EncodeArgs(DecodeArgs(b).value) && |DecodeArgs(b).value| <= |b|
    decreases |b|
  {
    if b != [] {
      var len := FromLE(b[..4]);
      var a, rest := b[8..8 + len - 1], b[8 + len..];
      ArgsAreWritten(rest);
      FirstArg(b, a, rest);
      var argv := DecodeArgs(b).value;
      assert argv[0] == a && argv[1..] == DecodeArgs(rest).value;
    }
  }

  /** Nothing but a command that was written is read as one: the bytes decide the arguments and the
      arguments the bytes.  With another magic it is invalid. */
  lemma {:induction false} ReadIffWritten(b: Bytes, argv: seq<Arg>)
    requires |b| < U32
    ensures Decode(b) == Success(argv) <==> argv != [] && b == Encode(argv)
    ensures |b| >= 8 && b[4..8] != LE(CMD_MAGIC, 4) ==> Decode(b) == Failure(INVALID)
  {
    if argv != [] && b == Encode(argv) {
      CommandRoundTrip(argv);
    }
    if |b| >= 8 {
      Written32(b[4..8], CMD_MAGIC);
      if Decode(b) == Success(argv) {
        ArgsAreWritten(b[8..]);
        Written32(b[..4], |argv|);
        assert b == b[..4] + b[4..8] + b[8..];
      }
    }
  }

  lemma {:induction false} CutArg(a: Arg, n: nat)
    requires |a| + 1 < U32 && 0 < n < |EncodeArg(a)|
    ensures DecodeArgs(EncodeArg(a)[..n]) == Failure(NOBUFS)
  {
    if n >= 8 {
      ArgParts(a, []);
      assert EncodeArg(a) + [] == EncodeArg(a);
      assert EncodeArg(a)[..n][..4] == EncodeArg(a)[..4];
    }
  }

  /** The first `k` arguments of a command and `n` bytes of the next. */
  function Part(argv: seq<Arg>, k: nat, n: nat): Bytes
    requires k < |argv| && n < |EncodeArg(argv[k])|
  {
    LE(|argv|, 4) + LE(CMD_MAGIC, 4) + (EncodeArgs(argv[..k]) + EncodeArg(argv[k])[..n])
  }

  /** A command cut short is never taken for another: it is invalid when the cut is right after an
      argument, and too short when it is within one. */
  lemma {:induction false} CutShort(argv: seq<Arg>, k: nat, n: nat)
    requires |Encode(argv)| < U32 && k < |argv| && n < |EncodeArg(argv[k])|
    ensures Part(argv, k, n) < Encode(argv)
    ensures Decode(Part(argv, k, n)) == Failure(if n == 0 then INVALID else NOBUFS)
  {
    var cut, b := EncodeArg(argv[k])[..n], Part(argv, k, n);
    assert b[..4] == LE(|argv|, 4) && b[4..8] == LE(CMD_MAGIC, 4) && b[8..] == EncodeArgs(argv[..k]) + cut;
    EncodeArgsSplit(argv, k);
    ArgsRoundTrip(argv);
    Read32(|argv|);
    Read32(CMD_MAGIC);
    forall i | 0 <= i < |argv| ensures |argv[i]| + 1 < U32 { EncodeArgsSplit(argv, i); }
    ReadingResumes(argv[..k], cut);
    if n > 0 { CutArg(argv[k], n); } else { assert argv[..k] + [] == argv[..k]; }
  }

  lemma {:induction false} Regrouped(a: Bytes, x: Bytes, y: Bytes, z: Bytes)
    ensures a + (x + y + z) == (a + x) + y + z
  {
  }

  lemma {:induction false} EncodeArgsCons(a: Arg, argv: seq<Arg>)
    ensures EncodeArgs([a] + argv) == EncodeArg(a) + EncodeArgs(argv)
  {
    assert ([a] + argv)[1..] == argv;
  }

  lemma {:induction false} EncodeArgsSplit(argv: seq<Arg>, k: nat)
    requires k < |argv|
    ensures EncodeArgs(argv) == EncodeArgs(argv[..k]) + EncodeArg(argv[k]) + EncodeArgs(argv[k + 1..])
    decreases k
  {
    var rest := argv[1..];
    assert argv == [argv[0]] + rest;
    EncodeArgsCons(argv[0], rest);
    if k == 0 {
      assert argv[..0] == [];
    } else {
      EncodeArgsSplit(rest, k - 1);
      assert argv[..k] == [argv[0]] + rest[..k - 1] && rest[k..] == argv[k + 1..];
      EncodeArgsCons(argv[0], rest[..k - 1]);
      Regrouped(EncodeArg(argv[0]), EncodeArgs(rest[..k - 1]), EncodeArg(argv[k]), EncodeArgs(argv[k + 1..]));
    }
  }

  // ----- framing -----

  datatype Message = Message(kind: nat, payload: Bytes)

  function Frame(m: Message): (b: Bytes)
    ensures |b| == HEAD_LEN + |m.payload|
  {
    LE(CONTROL_MAGIC, 8) + LE(m.kind, 4) + LE(|m.payload|, 4) + m.payload
  }

  /** What `Unserialize` makes of the bytes received so far, in a buffer of `cap` bytes. */
  function HeadStatus(data: Bytes, cap: nat): Status
    requires cap >= HEAD_LEN
  {
    if |data| < HEAD_LEN then AGAIN
    else if FromLE(data[..8]) != CONTROL_MAGIC then INVALID
    else if FromLE(data[12..16]) >= cap - HEAD_LEN then INVALID
    else if FromLE(data[8..12]) >= TYPE_COUNT then INVALID
    else OK
  }

  function MessageLen(data: Bytes): nat
    requires |data| >= HEAD_LEN
  {
    HEAD_LEN + FromLE(data[12..16])
  }

  ghost predicate Complete(data: Bytes, cap: nat)
    requires cap >= HEAD_LEN
  {
    HeadStatus(data, cap) == OK && MessageLen(data) <= |data|
  }

  lemma {:induction false} Slices(a: Bytes, b: Bytes, c: Bytes, p: Bytes, rest: Bytes)
    requires |a| == 8 && |b| == 4 && |c| == 4
    ensures var s, n := a + b + c + p + rest, HEAD_LEN + |p|;
            s[..8] == a && s[8..12] == b && s[12..16] == c && s[HEAD_LEN..n] == p && s[..n] == a + b + c + p && s[n..] == rest
  {
  }

  lemma {:induction false} FrameParts(m: Message, rest: Bytes)
    requires m.kind < U32 && |m.payload| < U32
    ensures var b := Frame(m) + rest;
            && FromLE(b[..8]) == CONTROL_MAGIC && FromLE(b[8..12]) == m.kind && FromLE(b[12..16]) == |m.payload|
            && MessageLen(b) == |Frame(m)| && b[..|Frame(m)|] == Frame(m) && b[|Frame(m)|..] == rest
            && b[HEAD_LEN..|Frame(m)|] == m.payload
  {
    Slices(LE(CONTROL_MAGIC, 8), LE(m.kind, 4), LE(|m.payload|, 4), m.payload, rest);
    ReadMagic();
    Read32(m.kind);
    Read32(|m.payload|);
  }

  /** A frame is accepted exactly when it leaves a byte of the buffer free. */
  lemma {:induction false} FrameAccepted(m: Message, rest: Bytes, cap: nat)
    requires cap >= HEAD_LEN && m.kind < TYPE_COUNT && |m.payload| < U32
    ensures HeadStatus(Frame(m) + rest, cap) == OK <==> |m.payload| < cap - HEAD_LEN
  {
    FrameParts(m, rest);
  }

  ghost predicate IsHead(head: Bytes, kind: nat, len: nat) {
    head == LE(CONTROL_MAGIC, 8) + LE(kind, 4) + LE(len, 4)
  }

  lemma {:induction false} HeadParts(head: Bytes)
    requires |head| == HEAD_LEN && FromLE(head[..8]) == CONTROL_MAGIC
    ensures IsHead(head, FromLE(head[8..12]), FromLE(head[12..16]))
  {
    LEofFromLE(head[..8]);
    LEofFromLE(head[8..12]);
    LEofFromLE(head[12..16]);
    assert head == head[..8] + head[8..12] + head[12..16];
  }

  lemma {:induction false} PartsOfHead(head: Bytes, kind: nat, len: nat)
    requires IsHead(head, kind, len) && kind < U32 && len < U32
    ensures |head| == HEAD_LEN && FromLE(head[..8]) == CONTROL_MAGIC
    ensures FromLE(head[8..12]) == kind && FromLE(head[12..16]) == len
  {
    Slices(LE(CONTROL_MAGIC, 8), LE(kind, 4), LE(len, 4), [], []);
    assert head == LE(CONTROL_MAGIC, 8) + LE(kind, 4) + LE(len, 4) + [] + [];
    ReadMagic();
    Read32(kind);
    Read32(len);
  }

  /** A head passes exactly if it is one that a frame of a known type, short enough for the buffer, has. */
  lemma {:induction false} HeadPassesIff(data: Bytes, cap: nat)
    requires HEAD_LEN <= cap <= INT_MAX
    ensures HeadStatus(data, cap) == AGAIN <==> |data| < HEAD_LEN
    ensures HeadStatus(data, cap) == OK <==>
              && |data| >= HEAD_LEN
              && exists kind: nat, len: nat ::
                   IsHead(data[..HEAD_LEN], kind, len) && kind < TYPE_COUNT && len < cap - HEAD_LEN
    ensures HeadStatus(data, cap) in {OK, AGAIN, INVALID}
  {
    if |data| >= HEAD_LEN {
      var head := data[..HEAD_LEN];
      HeadOnly(data, cap);
      if HeadStatus(head, cap) == OK { HeadParts(head); }
      if k: nat, n: nat :| IsHead(head, k, n) && k < TYPE_COUNT && n < cap - HEAD_LEN { PartsOfHead(head, k, n); }
    }
  }

  /** A command goes through the frame: what is built from the bytes is what was written. */
  lemma {:induction false} CommandThroughFrame(argv: seq<Arg>, rest: Bytes, cap: nat)
    requires argv != [] && HEAD_LEN + |Encode(argv)| < cap < U32
    ensures var b := Frame(Message(TYPE_CMD, Encode(argv))) + rest;
            && Complete(b, cap)
            && Decode(b[HEAD_LEN..MessageLen(b)]) == Success(argv) && b[MessageLen(b)..] == rest
  {
    var m := Message(TYPE_CMD, Encode(argv));
    FrameParts(m, rest);
    FrameAccepted(m, rest, cap);
    CommandRoundTrip(argv);
  }

  /** The head is all that is looked at. */
  lemma {:induction false} HeadOnly(data: Bytes, cap: nat)
    requires |data| >= HEAD_LEN && cap >= HEAD_LEN
    ensures HeadStatus(data[..HEAD_LEN], cap) == HeadStatus(data, cap)
    ensures MessageLen(data[..HEAD_LEN]) == MessageLen(data)
  {
    var head := data[..HEAD_LEN];
    assert head[..8] == data[..8] && head[8..12] == data[8..12] && head[12..16] == data[12..16];
  }

  function Frames(cmds: seq<seq<Arg>>): Bytes {
    if cmds == [] then [] else Frame(Message(TYPE_CMD, Encode(cmds[0]))) + Frames(cmds[1..])
  }

  /** What building from a buffer comes to, until it fails: the commands, the bytes left and the reason. */
  function Taken(data: Bytes, cap: nat): (seq<seq<Arg>>, Bytes, Status)
    requires cap >= HEAD_LEN
    decreases |data|
  {
    if HeadStatus(data, cap) != OK then ([], data, HeadStatus(data, cap))
    else if MessageLen(data) > |data| then ([], data, NOBUFS)
    else
      var n := MessageLen(data);
      var r := Decode(data[HEAD_LEN..n]);
      if r.Failure? then ([], data[n..], r.status)
      else
        var (cmds, left, st) := Taken(data[n..], cap);
        ([r.value] + cmds, left, st)
  }

  /** Commands sent back to back are taken off in order, each as it was written, up to bytes that are no
      complete message; these stay as they are. */
  lemma {:induction false} CommandsTakenInOrder(cmds: seq<seq<Arg>>, tail: Bytes, cap: nat)
    requires HEAD_LEN <= cap < U32 && !Complete(tail, cap)
    requires forall k | 0 <= k < |cmds| :: cmds[k] != [] && HEAD_LEN + |Encode(cmds[k])| < cap
    ensures Taken(Frames(cmds) + tail, cap)
         == (cmds, tail, if HeadStatus(tail, cap) == OK then NOBUFS else HeadStatus(tail, cap))
    decreases |cmds|
  {
    if cmds == [] {
      assert Frames(cmds) + tail == tail;
    } else {
      var rest := Frames(cmds[1..]) + tail;
      assert Frames(cmds) + tail == Frame(Message(TYPE_CMD, Encode(cmds[0]))) + rest;
      CommandThroughFrame(cmds[0], rest, cap);
      CommandsTakenInOrder(cmds[1..], tail, cap);
      assert [cmds[0]] + cmds[1..] == cmds;
    }
  }

  // ----- writing into the buffer -----

  method WriteAt(buff: array<Byte>, at: nat, bytes: Bytes)
    requires at + |bytes| <= buff.Length
    modifies buff
    ensures buff[..at + |bytes|] == old(buff[..at]) + bytes
  {
    for k := 0 to |bytes|
      invariant buff[..at] == old(buff[..at])
      invariant forall i | 0 <= i < k :: buff[at + i] == bytes[i]
    {
      buff[at + k] := bytes[k];
    }
  }

  /** One argument, if there is room for it. */
  method WriteArg(buff: array<Byte>, at: nat, a: Arg) returns (ok: bool)
    requires at <= buff.Length
    modifies buff
    ensures ok <==> at + |EncodeArg(a)| <= buff.Length
    ensures ok ==> buff[..at + |EncodeArg(a)|] == old(buff[..at]) + EncodeArg(a)
    ensures !ok ==> buff[..at] == old(buff[..at])
  {
    if buff.Length - at < 8 {
      return false;
    }
    if buff.Length - at - 8 < |a| + 1 {
      return false;
    }
    WriteAt(buff, at, EncodeArg(a));
    ok := true;
  }

  lemma {:induction false} EncodeArgsAppend(argv: seq<Arg>, a: Arg)
    ensures EncodeArgs(argv + [a]) == EncodeArgs(argv) + EncodeArg(a)
    decreases |argv|
  {
    if argv == [] {
      assert EncodeArgs([a]) == EncodeArg(a) + EncodeArgs([]);
    } else {
      assert (argv + [a])[1..] == argv[1..] + [a];
      EncodeArgsAppend(argv[1..], a);
    }
  }

  lemma {:induction false} EncodeArgsPrefix(argv: seq<Arg>, k: nat)
    requires k < |argv|
    ensures EncodeArgs(argv[..k + 1]) == EncodeArgs(argv[..k]) + EncodeArg(argv[k])
    ensures |EncodeArgs(argv[..k + 1])| <= |EncodeArgs(argv)|
    decreases |argv| - k
  {
    assert argv[..k + 1] == argv[..k] + [argv[k]];
    EncodeArgsAppend(argv[..k], argv[k]);
    if k + 1 < |argv| {
      EncodeArgsPrefix(argv, k + 1);
    } else {
      assert argv[..k + 1] == argv;
    }
  }

  lemma {:induction false} Regroup(a: Bytes, b: Bytes, c: Bytes)
    ensures a + b + c == a + (b + c)
  {
  }

  /** All arguments, or as many as there is room for. */
  method WriteArgs(buff: array<Byte>, at: nat, argv: seq<Arg>) returns (ok: bool)
    requires at <= buff.Length
    modifies buff
    ensures ok <==> at + |EncodeArgs(argv)| <= buff.Length
    ensures ok ==> buff[..at + |EncodeArgs(argv)|] == old(buff[..at]) + EncodeArgs(argv)
  {
    var pos := at;
    ghost var before := buff[..at];
    for k := 0 to |argv|
      invariant pos == at + |EncodeArgs(argv[..k])| <= buff.Length
      invariant buff[..pos] == before + EncodeArgs(argv[..k])
    {
      EncodeArgsPrefix(argv, k);
      Regroup(before, EncodeArgs(argv[..k]), EncodeArg(argv[k]));
      var fits := WriteArg(buff, pos, argv[k]);
      if !fits {
        return false;
      }
      pos := pos + 9 + |argv[k]|;
    }
    assert argv[..|argv|] == argv;
    ok := true;
  }

  /** Arguments come from C strings. */
  ghost predicate NulFree(argv: seq<Arg>) {
    forall k, i | 0 <= k < |argv| && 0 <= i < |argv[k]| :: argv[k][i] != 0
  }

  /** The payload of a command. */
  method SerializeMsg(buff: array<Byte>, at: nat, argv: seq<Arg>) returns (ok: bool)
    requires at <= buff.Length && NulFree(argv)
    modifies buff
    ensures ok <==> at + |Encode(argv)| <= buff.Length
    ensures ok ==> buff[..at + |Encode(argv)|] == old(buff[..at]) + Encode(argv)
  {
    if buff.Length - at < 8 {
      return false;
    }
    Regroup(buff[..at], LE(|argv|, 4) + LE(CMD_MAGIC, 4), EncodeArgs(argv));
    WriteAt(buff, at, LE(|argv|, 4) + LE(CMD_MAGIC, 4));
    ok := WriteArgs(buff, at + 8, argv);
  }

  // ----- reading a payload -----

  method ReadArgs(b: Bytes) returns (r: Result<seq<Arg>>)
    ensures r == DecodeArgs(b)
  {
    var argv: seq<Arg> := [];
    var rest := b;
    PrependedNone(DecodeArgs(b));
    while rest != []
      invariant DecodeArgs(b) == Prepended(argv, DecodeArgs(rest))
      decreases |rest|
    {
      if |rest| < 8 {
        return Failure(NOBUFS);
      }
      var len := FromLE(rest[..4]);
      if len > |rest| - 8 || len == 0 {
        return Failure(NOBUFS);
      }
      if FromLE(rest[4..8]) != CMD_MAGIC || rest[8 + len - 1] != 0 {
        return Failure(INVALID);
      }
      var a := rest[8..8 + len - 1];
      PrependedTwice(argv, [a], DecodeArgs(rest[8 + len..]));
      argv, rest := argv + [a], rest[8 + len..];
    }
    assert argv + [] == argv;
    r := Success(argv);
  }

  method UnSerializeMsg(b: Bytes) returns (r: Result<seq<Arg>>)
    ensures r == Decode(b)
  {
    if |b| < 8 {
      return Failure(NOBUFS);
    }
    if FromLE(b[4..8]) != CMD_MAGIC {
      return Failure(INVALID);
    }
    r := ReadArgs(b[8..]);
    if r.Success? && (FromLE(b[..4]) != |r.value| || r.value == []) {
      r := Failure(INVALID);
    }
  }

  // ----- the message object -----

  class ControlMsgCmd {
    var buff: array<Byte>
    var len: nat
    var ready: bool
    var kind: nat
    var argv: seq<Arg>

    ghost predicate Valid()
      reads this
    {
      HEAD_LEN <= buff.Length <= INT_MAX && len <= buff.Length
    }

    /** The bytes held. */
    ghost function Data(): Bytes
      requires Valid()
      reads this, buff
    {
      buff[..len]
    }

    constructor (cap: nat)
      requires HEAD_LEN <= cap <= INT_MAX
      ensures Valid() && buff.Length == cap && fresh(buff) && Data() == [] && !ready && kind == TYPE_CMD && argv == []
    {
      buff := new Byte[cap](_ => 0);
      len, ready, kind, argv := 0, false, TYPE_CMD, [];
    }

    /** A command too long for the buffer is not reported: the length of the message then wraps around, to
        one byte less than a head. */
    method Serialize() returns (st: Status)
      requires Valid() && kind < TYPE_COUNT && NulFree(argv)
      modifies this`len, this`ready, buff
      ensures Valid() && st == OK && ready
      ensures HEAD_LEN + |Encode(argv)| <= buff.Length ==> Data() == Frame(Message(kind, Encode(argv)))
      ensures HEAD_LEN + |Encode(argv)| > buff.Length ==> len == HEAD_LEN - 1
    {
      ghost var payload := Encode(argv);
      var written := SerializeMsg(buff, HEAD_LEN, argv);
      if written {
        var n := |Encode(argv)|;
        assert buff[..HEAD_LEN + n][HEAD_LEN..] == payload;
        WriteHead(buff, kind, n);
        len := HEAD_LEN + n;
      } else {
        len := HEAD_LEN - 1;
      }
      ready, st := true, OK;
    }

    method Reset()
      modifies this`len, this`ready
      ensures len == 0 && !ready
    {
      len, ready := 0, false;
    }

    /** Looks at a head, in this message's buffer or another one. */
    method Unserialize(src: array<Byte>) returns (st: Status)
      requires HEAD_LEN <= buff.Length && HEAD_LEN <= src.Length
      modifies this`ready, this`kind
      ensures old(ready) ==> st == OK && ready && kind == old(kind)
      ensures !old(ready) ==>
                && st == (if len < HEAD_LEN then AGAIN else HeadStatus(src[..HEAD_LEN], buff.Length))
                && ready == (st == OK) && kind == if ready then FromLE(src[8..12]) else old(kind)
    {
      if ready {
        return OK;
      }
      if len < HEAD_LEN {
        return AGAIN;
      }
      var head := src[..HEAD_LEN];
      assert head[8..12] == src[8..12];
      if FromLE(head[..8]) != CONTROL_MAGIC {
        return INVALID;
      }
      if FromLE(head[12..16]) >= buff.Length - HEAD_LEN {
        return INVALID;
      }
      if FromLE(head[8..12]) >= TYPE_COUNT {
        return INVALID;
      }
      ready, kind, st := true, FromLE(head[8..12]), OK;
    }

    lemma HeadOfData()
      requires Valid()
      ensures len >= HEAD_LEN ==> buff[..HEAD_LEN] == Data()[..HEAD_LEN] && buff[8..12] == Data()[8..12]
      ensures HeadStatus(Data(), buff.Length)
           == if len < HEAD_LEN then AGAIN else HeadStatus(buff[..HEAD_LEN], buff.Length)
    {
      if len >= HEAD_LEN {
        HeadOnly(Data(), buff.Length);
        assert buff[..HEAD_LEN] == Data()[..HEAD_LEN];
      }
    }

    /** Drops the message in front and looks at the next head.  A message whose payload has not all arrived
        stays: the unsigned length goes below zero, and the same head passes for the next. */
    method Flip()
      requires Valid() && (ready ==> HeadStatus(Data(), buff.Length) == OK)
      modifies this`len, this`ready, this`kind, buff
      ensures !old(ready) ==> Valid() && Data() == old(Data()) && !ready
      ensures old(ready) && MessageLen(old(Data())) <= old(len) ==>
                && Valid() && Data() == old(Data())[MessageLen(old(Data()))..]
                && ready == (HeadStatus(Data(), buff.Length) == OK)
      ensures old(ready) && MessageLen(old(Data())) > old(len) ==>
                buff[..] == old(buff[..]) && ready && len == SIZE_T - (MessageLen(old(Data())) - old(len))
    {
      if !ready {
        return;
      }
      HeadOfData();
      var n := MessageLen(buff[..len]);
      if n > len {
        len := SIZE_T - (n - len);
      } else {
        var rest := buff[n..len];
        WriteFront(buff, rest);
        assert buff[..][..|rest|] == rest;
        len := len - n;
        HeadOfData();
      }
      ready := false;
      var st := Unserialize(buff);
    }

    /** `from` gets this message's buffer with the rest at its front, and this message gets the other. */
    method MoveRest(from: ControlMsgCmd, rest: Bytes)
      requires Valid() && from.Valid() && this != from && buff != from.buff
      requires |rest| <= buff.Length == from.buff.Length
      modifies this`buff, from, buff
      ensures buff == old(from.buff) && from.buff == old(buff) && buff[..] == old(from.buff[..])
      ensures from.Valid() && from.Data() == rest && from.ready == (HeadStatus(rest, buff.Length) == OK)
    {
      WriteFront(buff, rest);
      assert buff[..][..|rest|] == rest;
      var other := from.buff;
      from.buff, buff := buff, other;
      from.Reset();
      from.len := |rest|;
      from.HeadOfData();
      if |rest| > 0 {
        var ignored := from.Unserialize(from.buff);
      }
    }

    /** Takes the first message out of `from`: the buffers change places, and the bytes after the message
        move to the front of the one `from` gets.  When its payload has not all arrived the copy fails,
        `from` stays as it was, and this message is left marked ready. */
    method BuildFromOtherMsg(from: ControlMsgCmd) returns (st: Status)
      requires Valid() && from.Valid() && this != from && buff != from.buff && buff.Length == from.buff.Length && !ready
      requires from.ready == (HeadStatus(from.Data(), buff.Length) == OK)
      modifies this, from, buff
      ensures Valid() && from.Valid() && buff.Length == from.buff.Length == old(buff.Length)
      ensures !old(from.ready) || MessageLen(old(from.Data())) > old(from.len) ==>
                && buff == old(buff) && from.buff == old(from.buff) && from.Data() == old(from.Data())
                && from.ready == old(from.ready)
      ensures !old(from.ready) ==> st == HeadStatus(old(from.Data()), buff.Length) && st != OK && Data() == [] && !ready
      ensures old(from.ready) && MessageLen(old(from.Data())) > old(from.len) ==>
                st == NOBUFS && ready && len == old(from.len) && argv == old(argv)
      ensures old(from.ready) && MessageLen(old(from.Data())) <= old(from.len) ==>
                var all := old(from.Data());
                var n := MessageLen(all);
                && buff == old(from.buff) && from.buff == old(buff)
                && Data() == all[..n] && ready && kind == FromLE(all[8..12])
                && from.Data() == all[n..] && from.ready == (HeadStatus(all[n..], buff.Length) == OK)
                && var r := Decode(all[HEAD_LEN..n]);
                   if r.Success? then st == OK && argv == r.value else st == r.status
    {
      from.HeadOfData();
      len := from.len;
      st := Unserialize(from.buff);
      if st != OK {
        Reset();
        return;
      }
      var all := from.buff[..from.len];
      var n := MessageLen(all);
      if n > from.len {
        return NOBUFS;
      }
      MoveRest(from, all[n..]);
      len := n;
      assert buff[..n] == all[..n];
      var r := UnSerializeMsg(all[HEAD_LEN..n]);
      if r.Success? {
        argv := r.value;
      } else {
        st := r.status;
      }
    }
  }

  lemma {:induction false} TakenStep(cmds: seq<seq<Arg>>, data: Bytes, cap: nat)
    requires cap >= HEAD_LEN && Complete(data, cap) && Decode(data[HEAD_LEN..MessageLen(data)]).Success?
    ensures var n := MessageLen(data);
            var next := cmds + [Decode(data[HEAD_LEN..n]).value];
            && cmds + Taken(data, cap).0 == next + Taken(data[n..], cap).0
            && Taken(data, cap).1 == Taken(data[n..], cap).1 && Taken(data, cap).2 == Taken(data[n..], cap).2
  {
  }

  /** Builds commands from a buffer, as it was received, until there is none. */
  method TakeAll(from: ControlMsgCmd) returns (cmds: seq<seq<Arg>>, st: Status)
    requires from.Valid() && from.ready == (HeadStatus(from.Data(), from.buff.Length) == OK)
    modifies from, from.buff
    ensures from.Valid() && from.buff.Length == old(from.buff.Length)
    ensures (cmds, from.Data(), st) == Taken(old(from.Data()), from.buff.Length)
  {
    var cap := from.buff.Length;
    ghost var all := from.Data();
    cmds, st := [], OK;
    assert cmds + Taken(all, cap).0 == Taken(all, cap).0;
    while st == OK
      invariant from.Valid() && from.buff.Length == cap && (from.buff == old(from.buff) || fresh(from.buff))
      invariant st == OK ==>
                  && from.ready == (HeadStatus(from.Data(), cap) == OK)
                  && Taken(all, cap) == (cmds + Taken(from.Data(), cap).0, Taken(from.Data(), cap).1, Taken(from.Data(), cap).2)
      invariant st != OK ==> Taken(all, cap) == (cmds, from.Data(), st)
      decreases st == OK, from.len
    {
      ghost var data := from.Data();
      var msg := new ControlMsgCmd(cap);
      st := msg.BuildFromOtherMsg(from);
      if st == OK {
        TakenStep(cmds, data, cap);
        cmds := cmds + [msg.argv];
      } else {
        assert cmds + [] == cmds;
      }
    }
  }

  /** Overwrites the front of the buffer. */
  method WriteFront(buff: array<Byte>, bytes: Bytes)
    requires |bytes| <= buff.Length
    modifies buff
    ensures buff[..] == bytes + old(buff[|bytes|..])
  {
    for k := 0 to |bytes|
      invariant forall i | 0 <= i < k :: buff[i] == bytes[i]
      invariant forall i | k <= i < buff.Length :: buff[i] == old(buff[i])
    {
      buff[k] := bytes[k];
    }
  }

  lemma {:induction false} FrontOf(all: Bytes, head: Bytes, tail: Bytes, n: nat)
    requires all == head + tail && n <= |tail|
    ensures all[..|head| + n] == head + tail[..n]
  {
  }

  method WriteHead(buff: array<Byte>, kind: nat, n: nat)
    requires HEAD_LEN + n <= buff.Length
    modifies buff
    ensures buff[..HEAD_LEN + n] == LE(CONTROL_MAGIC, 8) + LE(kind, 4) + LE(n, 4) + old(buff[HEAD_LEN..HEAD_LEN + n])
  {
    var head := LE(CONTROL_MAGIC, 8) + LE(kind, 4) + LE(n, 4);
    ghost var tail := buff[HEAD_LEN..];
    assert tail[..n] == buff[HEAD_LEN..HEAD_LEN + n];
    WriteFront(buff, head);
    FrontOf(buff[..], head, tail, n);
    assert buff[..][..HEAD_LEN + n] == buff[..HEAD_LEN + n];
  }
}
