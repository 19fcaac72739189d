/** The wire form of events between engines: a header with a checksum, and 8-byte arguments. */
module Pto {
  import opened Seqs
  import Protocol

  newtype byte = x: int | 0 <= x < 256

  const ARG_SIZE: nat := 8
  const WORD: nat := 0x1_0000_0000
  const CHECK_BITS: nat := 0x1_0000

  /** Priority, number of arguments and salt of a protocol. */
  datatype Proto = Proto(pri: nat, argc: nat, salt: nat)

  const MAX_ID: nat := 12

  function Table(id: nat): Proto
    requires id < MAX_ID
  {
    match id
    case 0 => Proto(7, 1, 10)      // TCP_ACCEPT
    case 1 => Proto(5, 0, 11)      // WORKFLOW_RUN
    case 2 => Proto(9, 0, 12)      // ENTITY_DESTROY
    case 3 => Proto(6, 5, 13)      // SVC_IOCALL
    case 4 => Proto(4, 5, 14)      // SVC_TASK_RUN
    case 5 => Proto(6, 3, 15)      // SVC_TASK_DONE
    case 6 => Proto(8, 3, 16)      // TIMER_TRIGGERED
    case 7 => Proto(8, 7, 17)      // TIMER_EMIT
    case 8 => Proto(7, 0, 18)      // STD_START
    case 9 => Proto(8, 6, 19)      // SVC_TIMER_RUN
    case 10 => Proto(8, 3, 20)     // SVC_TIMER_DONE
    case _ => Proto(6, 5, 21)      // SVC_TASK_CB
  }

  type Arg = s: seq<byte> | |s| == ARG_SIZE witness seq(ARG_SIZE, i => 0 as byte)

  datatype Packet = Packet(id: nat, argc: nat, chk: nat, body: seq<byte>)

  /** How a byte enters the sum: as a 32-bit word, sign-extended where char is signed; zero
      counts as one. */
  function Weight(b: byte, signed: bool): nat {
    if b == 0 then 1
    else if signed && b >= 128 then WORD - 256 + b as nat
    else b as nat
  }

  /** The running 32-bit checksum, summed from the left. */
  function Checksum(body: seq<byte>, salt: nat, signed: bool): nat {
    if body == [] then 0
    else (Checksum(body[..|body| - 1], salt, signed) + Weight(body[|body| - 1], signed) * salt) % WORD
  }

  function Check16(body: seq<byte>, salt: nat, signed: bool): nat { Checksum(body, salt, signed) % CHECK_BITS }

  function Flat(args: seq<Arg>): (r: seq<byte>)
    ensures |r| == ARG_SIZE * |args|
  {
    if args == [] then [] else Flat(args[..|args| - 1]) + args[|args| - 1]
  }

  function PackSpec(id: nat, args: seq<Arg>, signed: bool): Packet
    requires id < MAX_ID && |args| == Table(id).argc
  {
    Packet(id, Table(id).argc, Check16(Flat(args), Table(id).salt, signed), Flat(args))
  }

  // ----- the loops -----

  method ComputeChecksum(body: seq<byte>, salt: nat, signed: bool) returns (sum: nat)
    ensures sum == Checksum(body, salt, signed)
  {
    sum := 0;
    for i := 0 to |body|
      invariant sum == Checksum(body[..i], salt, signed)
    {
      var uc := if body[i] == 0 then 1
                else if signed && body[i] >= 128 then WORD - 256 + body[i] as nat
                else body[i] as nat;
      assert body[..i + 1][..i] == body[..i];
      sum := (sum + uc * salt) % WORD;
    }
    assert body[..|body|] == body;
  }

  /** Copy the arguments behind the header and seal them with the checksum. */
  method Pack(id: nat, args: seq<Arg>, signed: bool) returns (p: Packet)
    requires id < MAX_ID && |args| == Table(id).argc
    ensures p == PackSpec(id, args, signed)
  {
    var body: seq<byte> := [];
    for i := 0 to |args|
      invariant body == Flat(args[..i])
    {
      assert args[..i + 1][..i] == args[..i];
      body := body + args[i];
    }
    assert args[..|args|] == args;
    var sum := ComputeChecksum(body, Table(id).salt, signed);
    p := Packet(id, Table(id).argc, sum % CHECK_BITS, body);
  }

  /** A packet without arguments always passes. */
  predicate Check(p: Packet, signed: bool)
    requires p.id < MAX_ID
  {
    p.argc == 0 || p.chk == Check16(p.body, Table(p.id).salt, signed)
  }

  datatype Lookup = NoArg | Found(arg: Arg)

  function ArgOf(p: Packet, i: nat): Lookup
    requires p.argc > 0 ==> i < p.argc && |p.body| == ARG_SIZE * p.argc
  {
    if p.argc == 0 then NoArg else Found(p.body[ARG_SIZE * i..ARG_SIZE * i + ARG_SIZE])
  }

  // ----- round trip -----

  lemma {:induction false} FlatAt(args: seq<Arg>, i: nat)
    requires i < |args|
    ensures Flat(args)[ARG_SIZE * i..ARG_SIZE * i + ARG_SIZE] == args[i]
  {
    var init := args[..|args| - 1];
    if i < |init| {
      FlatAt(init, i);
      assert Flat(args)[ARG_SIZE * i..ARG_SIZE * i + ARG_SIZE] == Flat(init)[ARG_SIZE * i..ARG_SIZE * i + ARG_SIZE];
    }
  }

  /** Packing then checking succeeds, and every argument reads back as packed. */
  lemma RoundTrip(id: nat, args: seq<Arg>, signed: bool)
    requires id < MAX_ID && |args| == Table(id).argc
    ensures var p := PackSpec(id, args, signed);
      Check(p, signed) && forall i :: 0 <= i < |args| ==> ArgOf(p, i) == Found(args[i])
  {
    var p := PackSpec(id, args, signed);
    forall i | 0 <= i < |args| ensures ArgOf(p, i) == Found(args[i]) {
      FlatAt(args, i);
    }
  }

  // ----- what the checksum detects -----

  /** The value of a byte modulo 2^16, as a small signed number. */
  function Value(b: byte, signed: bool): int {
    if b == 0 then 1 else if signed && b >= 128 then b as int - 256 else b as int
  }

  function Values(body: seq<byte>, signed: bool): int {
    if body == [] then 0 else Values(body[..|body| - 1], signed) + Value(body[|body| - 1], signed)
  }

  lemma ModStep(a: int, b: int, m: int, v: int, w: int, salt: int, k: int)
    requires m > 0 && (a - b) % m == 0 && w == v + k * m
    ensures ((a + w * salt) - (b + v * salt)) % m == 0
  {
    assert (a + w * salt) - (b + v * salt) == (a - b) + (k * salt) * m by {
      assert w * salt == v * salt + (k * m) * salt;
      assert (k * m) * salt == (k * salt) * m;
    }
    AddMultiple(a - b, k * salt, m);
  }

  lemma AddMultiple(x: int, q: int, m: int)
    requires m > 0
    ensures (x + q * m) % m == x % m
  {
    var d := x / m;
    assert x + q * m == (d + q) * m + x % m;
    ModUnique((d + q), x % m, m);
  }

  lemma ModUnique(q: int, r: int, m: int)
    requires m > 0 && 0 <= r < m
    ensures (q * m + r) % m == r
  {
    var x := q * m + r;
    assert x == (x / m) * m + x % m;
    assert (x / m - q) * m == r - x % m;
    var k := x / m - q;
    assert k >= 1 ==> k * m >= m;
    assert k <= -1 ==> k * m <= -m;
  }

  /** A weight is its byte's value, up to a multiple of 2^16. */
  lemma WeightIsValue(b: byte, signed: bool)
    ensures Weight(b, signed) == Value(b, signed) + (if signed && b >= 128 then CHECK_BITS else 0) * CHECK_BITS
  {
  }

  /** Reducing modulo 2^32 does not matter modulo 2^16. */
  lemma Reduced(raw: int, x: int)
    requires (raw - x) % CHECK_BITS == 0
    ensures (raw % WORD - x) % CHECK_BITS == 0
  {
    var q := raw / WORD;
    assert raw % WORD - x == (raw - x) + (-q * CHECK_BITS) * CHECK_BITS;
    AddMultiple(raw - x, -q * CHECK_BITS, CHECK_BITS);
  }

  /** Modulo 2^16 the checksum is the salted sum of the byte values. */
  lemma {:induction false} ChecksumIsSum(body: seq<byte>, salt: nat, signed: bool)
    ensures (Checksum(body, salt, signed) - Values(body, signed) * salt) % CHECK_BITS == 0
  {
    if body != [] {
      var init, b := body[..|body| - 1], body[|body| - 1];
      ChecksumIsSum(init, salt, signed);
      SumStep(Checksum(init, salt, signed), Values(init, signed), b, salt, signed);
    }
  }

  lemma SumStep(c: int, v: int, b: byte, salt: nat, signed: bool)
    requires (c - v * salt) % CHECK_BITS == 0
    ensures ((c + Weight(b, signed) * salt) % WORD - (v + Value(b, signed)) * salt) % CHECK_BITS == 0
  {
    var w, x := Weight(b, signed), Value(b, signed);
    WeightIsValue(b, signed);
    ModStep(c, v * salt, CHECK_BITS, x, w, salt, if signed && b >= 128 then CHECK_BITS else 0);
    Distribute(v, x, salt);
    Reduced(c + w * salt, (v + x) * salt);
  }

  lemma Distribute(v: int, x: int, salt: int)
    ensures v * salt + x * salt == (v + x) * salt
  {
  }

  lemma {:induction false} ValuesChange(body: seq<byte>, i: nat, b: byte, signed: bool)
    requires i < |body|
    ensures Values(body[i := b], signed) == Values(body, signed) - Value(body[i], signed) + Value(b, signed)
  {
    var init := body[..|body| - 1];
    if i < |init| {
      assert body[i := b][..|body| - 1] == init[i := b];
      ValuesChange(init, i, b, signed);
    } else {
      assert body[i := b][..|body| - 1] == init;
    }
  }

  /** Two bytes count the same exactly when they are equal or are 0 and 1. */
  lemma ValueInjective(a: byte, b: byte, signed: bool)
    ensures Value(a, signed) == Value(b, signed) <==> a == b || (a <= 1 && b <= 1)
    ensures -255 <= Value(a, signed) - Value(b, signed) <= 255
  {
  }

  lemma SmallMultiple(d: int, salt: nat)
    requires -255 <= d <= 255 && 0 < salt <= 21
    ensures (d * salt) % CHECK_BITS == 0 <==> d == 0
  {
    var p := d * salt;
    assert d > 0 ==> 0 < p <= 255 * 21;
    assert d < 0 ==> -255 * 21 <= p < 0;
    SmallResidue(p, CHECK_BITS);
  }

  lemma SameResidue(x: int, y: int, m: int)
    requires m > 0
    ensures x % m == y % m <==> (x - y) % m == 0
  {
    var (r, q) := (x % m - y % m, x / m - y / m);
    Division(x, m);
    Division(y, m);
    Distribute(x / m, -(y / m), m);
    assert x - y == r + q * m;
    AddMultiple(r, q, m);
    SmallResidue(r, m);
  }

  lemma Division(x: int, m: int)
    requires m > 0
    ensures x == (x / m) * m + x % m && 0 <= x % m < m
  {
  }

  lemma SmallResidue(r: int, m: int)
    requires m > 0 && -m < r < m
    ensures r % m == 0 <==> r == 0
  {
    if r < 0 { AddMultiple(r, 1, m); }
  }

  lemma ChangeDetected(body: seq<byte>, i: nat, b: byte, salt: nat, signed: bool)
    requires i < |body| && 0 < salt <= 21
    ensures Check16(body[i := b], salt, signed) == Check16(body, salt, signed) <==>
      b == body[i] || (b <= 1 && body[i] <= 1)
  {
    var new_ := body[i := b];
    var d := Value(b, signed) - Value(body[i], signed);
    assert Values(new_, signed) == Values(body, signed) + d by { ValuesChange(body, i, b, signed); }
    ChecksumIsSum(body, salt, signed);
    ChecksumIsSum(new_, salt, signed);
    SumsDiffer(Checksum(body, salt, signed), Checksum(new_, salt, signed), Values(body, signed), d, salt);
    ValueInjective(b, body[i], signed);
    SmallMultiple(d, salt);
  }

  /** Changing one body byte is detected, except for exchanging 0 and 1. */
  lemma OneByteDetected(id: nat, args: seq<Arg>, i: nat, b: byte, signed: bool)
    requires id < MAX_ID && |args| == Table(id).argc && i < |Flat(args)|
    ensures var p := PackSpec(id, args, signed);
      Check(p.(body := p.body[i := b]), signed) <==> b == p.body[i] || (b <= 1 && p.body[i] <= 1)
  {
    ChangeDetected(Flat(args), i, b, Table(id).salt, signed);
  }

  lemma SumsDiffer(c: int, c': int, v: int, d: int, salt: nat)
    requires (c - v * salt) % CHECK_BITS == 0 && (c' - (v + d) * salt) % CHECK_BITS == 0
    ensures c % CHECK_BITS == c' % CHECK_BITS <==> (d * salt) % CHECK_BITS == 0
  {
    assert (v + d) * salt == v * salt + d * salt;
    SameResidue(c, v * salt, CHECK_BITS);
    SameResidue(c', v * salt + d * salt, CHECK_BITS);
    SameResidue(v * salt + d * salt, v * salt, CHECK_BITS);
  }

  // ----- the table -----

  /** The protocol an event travels as. */
  function IdOf(m: Protocol.Msg): nat {
    match m
    case WorkflowRun(_) => 1
    case IoCall(_, _, _, _, _) => 3
    case TaskRun(_, _, _, _, _) => 4
    case Done(_, _, _, _, _) => 5
    case TimerEmit(_, _) => 7
    case TimerRun(_, _, _) => 9
    case TimerDone(_, _, _) => 10
    case TaskCb(_, _, _, _, _, _) => 11
  }

  /** Events are queued at the priority of the table, one of ten, and no two protocols share
      a salt. */
  lemma TableSound(m: Protocol.Msg)
    ensures Protocol.Priority(m) == Table(IdOf(m)).pri <= 9
    ensures forall a, b :: 0 <= a < b < MAX_ID ==> Table(a).salt != Table(b).salt
  {
  }
}
