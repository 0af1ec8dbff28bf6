/**
 * The byte protocol between the socket back end of lib_db (databases/socket.rs) and the
 * socket server example (examples/socket.rs): one command byte, for an insert a 32-bit
 * big-endian length and that many bytes of JSON, and one reply byte per command.
 */
module Wire {
  import opened Wrappers
  import opened Records

  const CmdInsert: byte := 73  // 'I'
  const CmdFlush: byte := 70   // 'F'
  const ReplyOk: byte := 75    // 'K'
  const ReplyErr: byte := 69   // 'E'

  const U32Modulus: nat := 0x1_0000_0000

  /** `write_u32`: the four bytes of `n`, most significant first. */
  function U32BE(n: nat): (r: seq<byte>)
    requires n < U32Modulus
    ensures |r| == 4
  {
    [(n / 0x100_0000) as byte, (n / 0x1_0000 % 0x100) as byte, (n / 0x100 % 0x100) as byte, (n % 0x100) as byte]
  }

  /** `u32::from_be_bytes`. */
  function FromU32BE(b: seq<byte>): (r: nat)
    requires |b| == 4
    ensures r < U32Modulus
  {
    ((b[0] as nat * 0x100 + b[1] as nat) * 0x100 + b[2] as nat) * 0x100 + b[3] as nat
  }

  /** Reading back a written length gives the length. */
  lemma U32RoundTrip(n: nat)
    requires n < U32Modulus
    ensures FromU32BE(U32BE(n)) == n
  {
    var b := U32BE(n);
    ShiftTwice(n);
    Digit(n / 0x100, n % 0x100);
    Digit(n / 0x1_0000, n / 0x100 % 0x100);
    Digit(n / 0x100_0000, n / 0x1_0000 % 0x100);
    assert b[0] as nat == n / 0x100_0000;
  }

  /** And writing a read length gives back the four bytes: the encoding is a bijection. */
  lemma U32BytesRoundTrip(b: seq<byte>)
    requires |b| == 4
    ensures U32BE(FromU32BE(b)) == b
  {
    var mid := b[0] as nat * 0x100 + b[1] as nat;
    var hi := mid * 0x100 + b[2] as nat;
    var n := hi * 0x100 + b[3] as nat;
    assert FromU32BE(b) == n;
    Digit(hi, b[3] as nat);
    Digit(mid, b[2] as nat);
    Digit(b[0] as nat, b[1] as nat);
    ShiftTwice(n);
  }

  /** One byte more or less at the bottom of a number. */
  lemma Digit(q: nat, d: nat)
    requires d < 0x100
    ensures (q * 0x100 + d) % 0x100 == d && (q * 0x100 + d) / 0x100 == q
  {
  }

  /** Shifting right by 16 or 24 bits is shifting by 8 bits two or three times. */
  lemma ShiftTwice(n: nat)
    ensures n / 0x1_0000 == n / 0x100 / 0x100
    ensures n / 0x100_0000 == n / 0x1_0000 / 0x100
  {
    var q1, r1 := n / 0x100, n % 0x100;
    var q2, r2 := q1 / 0x100, q1 % 0x100;
    assert n == q2 * 0x1_0000 + (r2 * 0x100 + r1);
    var q3, r3 := q2 / 0x100, q2 % 0x100;
    assert n == q3 * 0x100_0000 + (r3 * 0x1_0000 + r2 * 0x100 + r1);
  }

  /** What the client asks of the database. */
  datatype Command = Insert(batch: seq<Record>) | Flush

  /** `data.len() as u32`: the length field keeps the low 32 bits of the length. */
  function LengthField(data: seq<byte>): (r: nat)
    ensures r < U32Modulus
    ensures |data| < U32Modulus ==> r == |data|
  {
    |data| % U32Modulus
  }

  /** The bytes one command puts on the stream. */
  function Frame(json: Json, c: Command): (r: seq<byte>)
    ensures |r| > 0
  {
    match c
    case Insert(batch) =>
      var data := json.encode(batch);
      [CmdInsert] + U32BE(LengthField(data)) + data
    case Flush => [CmdFlush]
  }

  /** The bytes of a command sequence, in order. */
  function Frames(json: Json, cmds: seq<Command>): seq<byte> {
    if cmds == [] then [] else Frame(json, cmds[0]) + Frames(json, cmds[1..])
  }

  /** Every batch of the session encodes to less than 4 GiB, so no length field wraps. */
  ghost predicate LengthsFit(json: Json, cmds: seq<Command>) {
    forall k :: 0 <= k < |cmds| && cmds[k].Insert? ==> |json.encode(cmds[k].batch)| < U32Modulus
  }
}
