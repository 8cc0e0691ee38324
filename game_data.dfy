/*
 * The game setup message sent to every client before a game starts: the
 * start script, the map and the mod, each archive with its checksum. The
 * message is a sequence of typed fields: a message id byte, a 16-bit size,
 * then the five values.
 */
module GameData {

  /** Values of an `unsigned char`, `unsigned short` and `unsigned int`. */
  type UInt8 = x: nat | x < 0x100
  type UInt16 = x: nat | x < 0x1_0000
  type UInt32 = x: nat | x < 0x1_0000_0000

  /** The message id of the game setup message (`NETMSG_GAMEDATA`). */
  const NETMSG_GAMEDATA: UInt8

  /** One field of a packet as the packet writer appends it. */
  datatype Field =
    | ByteField(b: UInt8)
    | ShortField(s: UInt16)
    | UIntField(u: UInt32)
    | StringField(str: string)

  /** Bytes a field takes in the packet: a string is written with a terminating zero. */
  function FieldBytes(f: Field): nat {
    match f
    case ByteField(_) => 1
    case ShortField(_) => 2
    case UIntField(_) => 4
    case StringField(str) => |str| + 1
  }

  function PacketBytes(fields: seq<Field>): nat {
    if fields == [] then 0 else FieldBytes(fields[0]) + PacketBytes(fields[1..])
  }

  /** The contents of the message. */
  datatype Setup = Setup(script: string, mapName: string, mapChecksum: UInt32, modName: string, modChecksum: UInt32)

  /** The size `Pack` computes and stores in an `unsigned short`: id, size, two
      checksums, the three strings and their three terminators, modulo 2^16. */
  function SizeField(v: Setup): UInt16
  {
    (3 + 2 * 4 + |v.mapName| + |v.modName| + |v.script| + 3) % 0x1_0000
  }

  /** The fields `Pack` writes, in order. */
  function Encode(v: Setup): (fields: seq<Field>)
    ensures |fields| == 7
  {
    [ByteField(NETMSG_GAMEDATA), ShortField(SizeField(v)), StringField(v.script), StringField(v.mapName),
     UIntField(v.mapChecksum), StringField(v.modName), UIntField(v.modChecksum)]
  }

  /** A packet the unpacking constructor reads without running out of fields or
      reading a field of the wrong kind, and whose id is the game setup id. */
  predicate Readable(p: seq<Field>) {
    |p| >= 7 && p[0] == ByteField(NETMSG_GAMEDATA) && p[1].ShortField? && p[2].StringField?
    && p[3].StringField? && p[4].UIntField? && p[5].StringField? && p[6].UIntField?
  }

  /** What the unpacking constructor reads: the size field is read and dropped. */
  function Decode(p: seq<Field>): (v: Setup)
    requires Readable(p)
  {
    Setup(p[2].str, p[3].str, p[4].u, p[5].str, p[6].u)
  }

  /** Unpacking what `Pack` wrote gives back every field. */
  lemma DecodeEncode(v: Setup)
    ensures Readable(Encode(v)) && Decode(Encode(v)) == v
  {
  }

  /** A readable packet whose size field is the computed one is, in its first seven
      fields, exactly the encoding of what it decodes to. */
  lemma EncodeDecode(p: seq<Field>)
    requires Readable(p) && p[1] == ShortField(SizeField(Decode(p)))
    ensures Encode(Decode(p)) == p[..7]
  {
  }

  /** The stored size is the message's length in bytes modulo 2^16; it is the length
      itself only while the three strings together stay below 65522 characters. */
  lemma {:induction false} SizeFieldCountsBytes(v: Setup)
    ensures SizeField(v) == PacketBytes(Encode(v)) % 0x1_0000
    ensures SizeField(v) == PacketBytes(Encode(v)) <==> |v.mapName| + |v.modName| + |v.script| < 0x1_0000 - 14
  {
    var e := Encode(v);
    calc {
      PacketBytes(e);
      1 + PacketBytes(e[1..]);
      { assert e[1..][1..] == e[2..]; }
      1 + 2 + PacketBytes(e[2..]);
      { assert e[2..][1..] == e[3..]; }
      3 + |v.script| + 1 + PacketBytes(e[3..]);
      { assert e[3..][1..] == e[4..]; }
      3 + |v.script| + 1 + |v.mapName| + 1 + PacketBytes(e[4..]);
      { assert e[4..][1..] == e[5..]; }
      3 + |v.script| + 1 + |v.mapName| + 1 + 4 + PacketBytes(e[5..]);
      { assert e[5..][1..] == e[6..]; }
      3 + |v.script| + 1 + |v.mapName| + 1 + 4 + |v.modName| + 1 + PacketBytes(e[6..]);
      { assert e[6..][1..] == []; }
      3 + |v.script| + 1 + |v.mapName| + 1 + 4 + |v.modName| + 1 + 4;
    }
  }

  /** `GameData`. */
  class GameData {
    var script: string
    var mapName: string
    var mapChecksum: UInt32
    var modName: string
    var modChecksum: UInt32

    function Value(): Setup
      reads this
    {
      Setup(script, mapName, mapChecksum, modName, modChecksum)
    }

    /** The default constructor: empty names and both checksums 0. */
    constructor ()
      ensures Value() == Setup([], [], 0, [], 0)
    {
      mapChecksum := 0;
      modChecksum := 0;
      script, mapName, modName := [], [], [];
    }

    /** The unpacking constructor: reads the fields in the order `Pack` writes them. */
    constructor FromPacket(packet: seq<Field>)
      requires Readable(packet)
      ensures Value() == Decode(packet)
    {
      var pos := 0;
      var id := packet[pos].b;
      assert id == NETMSG_GAMEDATA;
      pos := pos + 1;
      var length := packet[pos].s;
      pos := pos + 1;
      script := packet[pos].str;
      pos := pos + 1;
      mapName := packet[pos].str;
      pos := pos + 1;
      mapChecksum := packet[pos].u;
      pos := pos + 1;
      modName := packet[pos].str;
      pos := pos + 1;
      modChecksum := packet[pos].u;
    }

    /** `Pack`: the size, then the fields appended one by one. */
    method Pack() returns (buffer: seq<Field>)
      ensures buffer == Encode(Value())
    {
      var size: UInt16 := (3 + 2 * 4 + |mapName| + |modName| + |script| + 3) % 0x1_0000;
      buffer := [];
      buffer := buffer + [ByteField(NETMSG_GAMEDATA)];
      buffer := buffer + [ShortField(size)];
      buffer := buffer + [StringField(script)];
      buffer := buffer + [StringField(mapName)];
      buffer := buffer + [UIntField(mapChecksum)];
      buffer := buffer + [StringField(modName)];
      buffer := buffer + [UIntField(modChecksum)];
    }

    method SetScript(newScript: string)
      modifies this`script
      ensures Value() == old(Value()).(script := newScript)
    {
      script := newScript;
    }

    method SetMap(newMapName: string, checksum: UInt32)
      modifies this`mapName, this`mapChecksum
      ensures Value() == old(Value()).(mapName := newMapName, mapChecksum := checksum)
    {
      mapName := newMapName;
      mapChecksum := checksum;
    }

    method SetMod(newModName: string, checksum: UInt32)
      modifies this`modName, this`modChecksum
      ensures Value() == old(Value()).(modName := newModName, modChecksum := checksum)
    {
      modName := newModName;
      modChecksum := checksum;
    }
  }
}
