/**
 The socket address codec at the edge of WebAssembly memory: `unisockets_accept`
 writes an alias into memory, `unisockets_bind` and `unisockets_connect` read one.
 Memory is little-endian, as WebAssembly's is.
 */
module Sockaddr {
  import opened Wrappers
  import opened Address

  type Byte = b: nat | b < 256

  const AF_INET: nat := 2
  const SIZE: nat := 8

  /** The two low bytes of a number, swapped. */
  function Htons(val: int): nat { val % 256 * 256 + val / 256 % 256 }

  /** getAsBinary, as far as it is used: byte k of a 32-bit number. */
  function AsBinary(val: nat, k: nat): Byte
    requires k < 2
  {
    if k == 0 then val % 256 else val / 256 % 256
  }

  /** The 16-bit number stored as these two bytes. */
  function Word(low: nat, high: nat): nat { low + 256 * high }

  /** `slice` on a typed array: bounds beyond the end are clamped. */
  function Slice(bytes: seq<Byte>, from: nat, to: nat): seq<Byte> {
    var end := if to < |bytes| then to else |bytes|;
    if from <= end then bytes[from..end] else []
  }

  // ------------------------------------------------------------- decoder

  function Decimals(octets: seq<nat>): (texts: seq<string>)
    ensures |texts| == |octets|
  {
    seq(|octets|, i requires 0 <= i < |octets| => Decimal(octets[i]))
  }

  /** `${address}:${port}` */
  function AliasText(octets: seq<nat>, port: nat): string {
    ToTCPAddress(Join(Decimals(octets), '.'), port)
  }

  /** The alias bind and connect read; None stands for the RangeError of an odd buffer. */
  function Decode(memory: seq<Byte>, pointer: nat, length: nat): Option<string> {
    var socket := Slice(memory, pointer, pointer + length);
    var address, port := Slice(socket, 4, 8), Slice(socket, 2, 4);
    match |port|
    case 0 => Some(AliasText(address, Htons(0)))
    case 1 => None
    case _ => Some(AliasText(address, Htons(Word(port[0], port[1]))))
  }

  // ------------------------------------------------------------- encoder

  function NumberOr0(text: string): nat {
    match ParseInt(text) case Some(n) => n case None => 0
  }

  /** The port and the octets accept takes from an alias; missing and unreadable parts are 0. */
  function PortOf(alias: string): nat {
    var parts := Split(alias, ':');
    if |parts| > 1 then NumberOr0(parts[1]) else 0
  }

  function OctetOf(alias: string, k: nat): Byte {
    var octets := Split(Split(alias, ':')[0], '.');
    if k < |octets| then NumberOr0(octets[k]) % 256 else 0
  }

  /** Byte i of the socket address of an alias. */
  function Field(alias: string, i: nat): Byte
    requires i < SIZE
  {
    if i < 2 then AsBinary(AF_INET, i) else if i < 4 then AsBinary(PortOf(alias), i - 2) else OctetOf(alias, i - 4)
  }

  /**
   The stored length: an Int32Array built from four bytes copies them one by one, so
   its element 0 is the first byte alone; past the end of memory it is undefined and
   the loop does not run.
   */
  function StoredLength(memory: seq<Byte>, lengthPointer: nat): nat {
    if lengthPointer < |memory| then memory[lengthPointer] else 0
  }

  function StoredByte(memory: seq<Byte>, pointer: nat, length: nat, alias: string, k: nat): Byte
    requires k < |memory|
  {
    if pointer <= k < pointer + length && k < pointer + SIZE then Field(alias, k - pointer) else memory[k]
  }

  /** Memory after accept stored an alias: the first bytes of the address field, and nothing else. */
  function Encoded(memory: seq<Byte>, pointer: nat, length: nat, alias: string): (after: seq<Byte>)
    ensures |after| == |memory|
  {
    seq<Byte>(|memory|, k requires 0 <= k < |memory| => StoredByte(memory, pointer, length, alias, k))
  }

  method WriteAddress(memory: array<Byte>, pointer: nat, lengthPointer: nat, alias: string)
    modifies memory
    ensures memory[..] == Encoded(old(memory[..]), pointer, StoredLength(old(memory[..]), lengthPointer), alias)
  {
    var length: nat := 0;
    if lengthPointer < memory.Length {
      length := memory[lengthPointer];
    }
    var parts := Split(alias, ':');
    var port := if |parts| > 1 then NumberOr0(parts[1]) else 0;
    var octets := Split(parts[0], '.');
    for i := 0 to length
      invariant forall k | 0 <= k < memory.Length ::
                  memory[k] == if pointer <= k < pointer + i && k < pointer + SIZE then Field(alias, k - pointer)
                               else old(memory[k])
    {
      var index := pointer + i;
      if index < memory.Length {
        if i < 2 {
          memory[index] := AsBinary(AF_INET, i);
        } else if i < 4 {
          memory[index] := AsBinary(port, i - 2);
        } else if i < SIZE {
          memory[index] := if i - 4 < |octets| then NumberOr0(octets[i - 4]) % 256 else 0;
        }
      }
    }
  }

  // ---------------------------------------------------------------- laws

  lemma SwapsBytes(low: int, high: int)
    requires 0 <= low < 256 && 0 <= high < 256
    ensures Htons(low * 256 + high) == high * 256 + low
  {}

  /** The byte swap undoes itself exactly on 16-bit numbers, and keeps those with two equal bytes. */
  lemma HtonsInvolution(val: int)
    ensures Htons(Htons(val)) == val <==> 0 <= val < 65536
    ensures Htons(Htons(val)) == val % 65536
    ensures Htons(val) == val <==> 0 <= val < 65536 && val % 256 == val / 256
  {
    var low, high, rest := val % 256, val / 256 % 256, val / 256 / 256;
    assert val == 256 * (256 * rest + high) + low;
    SwapsBytes(low, high);
    assert Htons(val) == low * 256 + high && Htons(Htons(val)) == high * 256 + low;
    assert val % 65536 == high * 256 + low;
  }

  lemma ReadDecimal(n: nat)
    ensures NumberOr0(Decimal(n)) == n
  {
    ParseDecimal(n, "");
    assert Decimal(n) + "" == Decimal(n);
  }

  /** The parts of an alias text. */
  lemma AliasParts(octets: seq<nat>, port: nat)
    requires |octets| >= 1
    ensures Split(AliasText(octets, port), ':') == [Join(Decimals(octets), '.'), Decimal(port)]
    ensures Split(Join(Decimals(octets), '.'), '.') == Decimals(octets)
  {
    var texts := Decimals(octets);
    forall i | 0 <= i < |texts| ensures ':' !in texts[i] && '.' !in texts[i] { DecimalDigits(octets[i]); }
    DecimalDigits(port);
    PartsOfText(texts, Decimal(port));
  }

  /** What accept takes from an alias text is what the text was made from. */
  lemma FieldsOfText(octets: seq<Byte>, port: nat)
    requires |octets| >= 1
    ensures PortOf(AliasText(octets, port)) == port
    ensures forall k | 0 <= k < |octets| :: OctetOf(AliasText(octets, port), k) == octets[k]
  {
    AliasParts(octets, port);
    ReadDecimal(port);
    forall k | 0 <= k < |octets| ensures OctetOf(AliasText(octets, port), k) == octets[k] { ReadDecimal(octets[k]); }
  }

  lemma TextInjective(octets: seq<Byte>, port: nat, others: seq<Byte>, other: nat)
    requires |octets| == |others| >= 1
    ensures AliasText(octets, port) == AliasText(others, other) <==> octets == others && port == other
  {
    FieldsOfText(octets, port);
    FieldsOfText(others, other);
    if AliasText(octets, port) == AliasText(others, other) {
      assert forall k | 0 <= k < |octets| :: octets[k] == OctetOf(AliasText(octets, port), k) == others[k];
    }
  }

  /** The number of a text as accept stores it: nothing readable counts as 0. */
  lemma NumberOfText(text: string)
    ensures NumberOr0(text) == if ParseInt(text).Some? then ParseInt(text).value else 0
    ensures text == "" ==> NumberOr0(text) == 0
  {}

  /** The same for any alias text: parts that are missing or no numbers are stored as 0, large ones modulo 256. */
  lemma FieldsOfAnyText(alias: string, host: string, parts: seq<string>, port: string, k: nat)
    requires |parts| >= 1 && forall i | 0 <= i < |parts| :: '.' !in parts[i] && ':' !in parts[i]
    requires ':' !in port && host == Join(parts, '.') && alias == host + ":" + port
    ensures PortOf(alias) == (if ParseInt(port).Some? then ParseInt(port).value else 0) && PortOf(host) == 0
    ensures OctetOf(alias, k) ==
      if k < |parts| && ParseInt(parts[k]).Some? then ParseInt(parts[k]).value % 256 else 0
  {
    hide Split, Join, ParseInt, NumberOr0, OctetOf, PortOf;
    PartsOfText(parts, port);
    FieldsOfParts(alias, host, parts, port, k);
    NumberOfText(port);
    if k < |parts| { NumberOfText(parts[k]); }
  }

  lemma FieldsOfParts(alias: string, host: string, parts: seq<string>, port: string, k: nat)
    requires Split(alias, ':') == [host, port] && Split(host, '.') == parts && Split(host, ':') == [host]
    ensures PortOf(alias) == NumberOr0(port) && PortOf(host) == 0
    ensures OctetOf(alias, k) == if k < |parts| then NumberOr0(parts[k]) % 256 else 0
  {
    hide Split, NumberOr0;
  }

  lemma PartsOfText(parts: seq<string>, port: string)
    requires |parts| >= 1 && forall i | 0 <= i < |parts| :: '.' !in parts[i] && ':' !in parts[i]
    requires ':' !in port
    ensures Split(Join(parts, '.') + ":" + port, ':') == [Join(parts, '.'), port]
    ensures Split(Join(parts, '.'), ':') == [Join(parts, '.')] && Split(Join(parts, '.'), '.') == parts
  {
    var host := Join(parts, '.');
    if ':' in host { JoinChars(parts, '.', ':'); }
    SplitWithout(host, ':');
    SplitWithout(port, ':');
    SplitConcat(host, port, ':');
    assert host + ":" + port == host + [':'] + port;
    SplitJoin(parts, '.');
  }

  /** How much of an address is there to be read. */
  function Available(memory: seq<Byte>, pointer: nat, length: nat): nat {
    if pointer >= |memory| then 0 else if pointer + length < |memory| then length else |memory| - pointer
  }

  /** What is read of an address, however it is cut: octets that are there, and a port if both bytes are. */
  lemma DecodeIs(memory: seq<Byte>, pointer: nat, length: nat)
    ensures var n := Available(memory, pointer, length);
      Decode(memory, pointer, length) ==
        if n <= 2 then Some(AliasText([], 0))
        else if n == 3 then None
        else Some(AliasText(memory[pointer + 4..pointer + if n < 8 then n else 8],
                            Word(memory[pointer + 3], memory[pointer + 2])))
  {
    var n := Available(memory, pointer, length);
    SocketIs(memory, pointer, length);
    var socket := Slice(memory, pointer, pointer + length);
    if n >= 4 {
      assert socket[2..4] == [memory[pointer + 2], memory[pointer + 3]];
      assert socket[4..if n < 8 then n else 8] == memory[pointer + 4..pointer + if n < 8 then n else 8];
      WordBytes(memory[pointer + 2], memory[pointer + 3]);
    }
    hide AliasText, Htons, Word, Available;
  }

  lemma SocketIs(memory: seq<Byte>, pointer: nat, length: nat)
    ensures var n, socket := Available(memory, pointer, length), Slice(memory, pointer, pointer + length);
      && |socket| == n && (n > 0 ==> pointer + n <= |memory|)
      && (forall i: nat | i < n :: socket[i] == memory[pointer + i])
  {}

  /** Reading a whole address: its four octets and the swapped port. */
  lemma DecodeWhole(memory: seq<Byte>, pointer: nat, length: nat)
    requires pointer + 8 <= |memory| && length >= 8
    ensures Decode(memory, pointer, length) ==
      Some(AliasText(memory[pointer + 4..pointer + 8], Htons(Word(memory[pointer + 2], memory[pointer + 3]))))
  {
    var socket := Slice(memory, pointer, pointer + length);
    assert forall i: nat | i < 8 :: socket[i] == memory[pointer + i];
    assert Slice(socket, 4, 8) == memory[pointer + 4..pointer + 8];
  }

  /** Two bytes and their number. */
  lemma WordBytes(low: Byte, high: Byte)
    ensures Htons(Word(low, high)) == Word(high, low)
    ensures AsBinary(Word(low, high), 0) == low && AsBinary(Word(low, high), 1) == high
  {}

  lemma PortByBytes(port: nat)
    requires port < 65536
    ensures Word(AsBinary(port, 0), AsBinary(port, 1)) == port
  {}

  /** The eight bytes accept stores. */
  lemma StoredFields(memory: seq<Byte>, pointer: nat, stored: nat, octets: seq<Byte>, port: nat)
    requires |octets| == 4 && pointer + 8 <= |memory| && stored >= 8
    ensures var after := Encoded(memory, pointer, stored, AliasText(octets, port));
      && after[pointer..pointer + 4] == [2, 0, AsBinary(port, 0), AsBinary(port, 1)]
      && after[pointer + 4..pointer + 8] == octets
  {
    FieldsOfText(octets, port);
    hide AliasText, OctetOf, PortOf, Htons, Word;
  }

  /**
   What accept writes, bind reads: the same four octets and the port with its bytes
   swapped, as accept omits the swap.
   */
  lemma AcceptThenBind(memory: seq<Byte>, pointer: nat, stored: nat, length: nat, octets: seq<Byte>, port: nat)
    requires |octets| == 4 && port < 65536
    requires pointer + 8 <= |memory| && stored >= 8 && length >= 8
    ensures Decode(Encoded(memory, pointer, stored, AliasText(octets, port)), pointer, length)
      == Some(AliasText(octets, Htons(port)))
  {
    hide AliasText, Encoded, Htons, Word, AsBinary, Decode, Field, PortOf, OctetOf;
    var after := Encoded(memory, pointer, stored, AliasText(octets, port));
    StoredFields(memory, pointer, stored, octets, port);
    DecodeWhole(after, pointer, length);
    PortByBytes(port);
    assert after[pointer + 2] == after[pointer..pointer + 4][2] && after[pointer + 3] == after[pointer..pointer + 4][3];
  }

  /** So the text survives exactly when both bytes of the port agree. */
  lemma TextSurvivesIff(octets: seq<Byte>, port: nat)
    requires |octets| == 4 && port < 65536
    ensures AliasText(octets, Htons(port)) == AliasText(octets, port) <==> port % 256 == port / 256
  {
    hide AliasText, Htons;
    HtonsInvolution(port);
    TextInjective(octets, Htons(port), octets, port);
  }

  /**
   The other way: storing what was read keeps the octets, swaps the two port bytes,
   and puts the address family in front.
   */
  lemma BindThenAccept(memory: seq<Byte>, pointer: nat, length: nat, stored: nat)
    requires pointer + 8 <= |memory| && length >= 8 && stored >= 8
    ensures var read := Decode(memory, pointer, length);
      && read.Some?
      && var after := Encoded(memory, pointer, stored, read.value);
      && after[pointer..pointer + 4] == [2, 0, memory[pointer + 3], memory[pointer + 2]]
      && after[pointer + 4..pointer + 8] == memory[pointer + 4..pointer + 8]
  {
    DecodeWhole(memory, pointer, length);
    var low, high := memory[pointer + 2], memory[pointer + 3];
    WordBytes(low, high);
    WordBytes(high, low);
    StoredFields(memory, pointer, stored, memory[pointer + 4..pointer + 8], Htons(Word(low, high)));
  }

  /** A stored length of 8 to 255 touches the eight bytes of the address only; a shorter one fewer. */
  lemma OutsideUnchanged(memory: seq<Byte>, pointer: nat, stored: nat, alias: string, k: nat)
    requires k < |memory|
    ensures k < pointer || k >= pointer + 8 || k >= pointer + stored ==>
      Encoded(memory, pointer, stored, alias)[k] == memory[k]
    ensures pointer <= k < pointer + 8 && k < pointer + stored ==>
      Encoded(memory, pointer, stored, alias)[k] == Field(alias, k - pointer)
  {}

  /** A read fails exactly when it is cut inside the port. */
  lemma DecodeFailsIff(memory: seq<Byte>, pointer: nat, length: nat)
    ensures Decode(memory, pointer, length).None?
      <==> pointer + 3 <= |memory| && length >= 3 && (pointer + 3 == |memory| || length == 3)
  {}
}
