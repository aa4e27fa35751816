/**
 Credential slots in flash: written by the provisioning script, read back by the
 script and by the firmware. The checksum is a parameter: both sides use the
 same CRC-32 from their libraries.
 */
module FlashCreds {

  import opened Common

  type word = w: int | 0 <= w < 0x1_0000_0000
  type Checksum = seq<byte> -> word

  const BLOCK_SIZE: nat := 0x1000
  const CONTROL_SIZE: nat := 16
  const MAX_SIZE: nat := BLOCK_SIZE - CONTROL_SIZE
  const SLOTS: nat := 16
  const BLANK: word := 0xFFFF_FFFF
  const FORMAT_PEM: byte := 1

  // ---------------------------------------------------------------- little-endian words

  function Pack(w: word): (s: seq<byte>)
    ensures |s| == 4
  {
    var a := w / 256;
    var b := a / 256;
    [w % 256, a % 256, b % 256, b / 256]
  }

  function Join(low: byte, high: nat): nat {
    low as int + 256 * high
  }

  function Unpack(s: seq<byte>): word
    requires |s| == 4
  {
    Join(s[0], Join(s[1], Join(s[2], s[3])))
  }

  lemma Joined(low: byte, high: nat)
    ensures Join(low, high) % 256 == low && Join(low, high) / 256 == high
  {
  }

  lemma PackUnpack(w: word)
    ensures Unpack(Pack(w)) == w
  {
    var a := w / 256;
    var b := a / 256;
    assert w == 256 * a + w % 256 && a == 256 * b + a % 256 && b == 256 * (b / 256) + b % 256;
  }

  lemma UnpackPack(s: seq<byte>)
    requires |s| == 4
    ensures Pack(Unpack(s)) == s
  {
    Joined(s[0], Join(s[1], Join(s[2], s[3])));
    Joined(s[1], Join(s[2], s[3]));
    Joined(s[2], s[3]);
    hide Join;
  }

  // ---------------------------------------------------------------- the writer

  /** A credential to provision. */
  datatype Cred = Cred(id: byte, format: byte, strength: byte, version: byte, data: seq<byte>)

  function Descr(c: Cred): word {
    Unpack([c.id, c.format, c.strength, c.version])
  }

  /** The file `_prepare_credential_bin` writes, once the size is accepted; a PEM text gets a final zero. */
  function Image(crc: Checksum, c: Cred): seq<byte>
    requires |c.data| <= MAX_SIZE
  {
    Pack(Descr(c)) + Pack(|c.data|) + Pack(crc(c.data)) + Pack(BLANK) + c.data
    + if c.format == FORMAT_PEM then [0] else []
  }

  /** The two size checks, of `_prepare_credential_bin` and of `write_slot`: the final zero has to fit too. */
  predicate Accepted(c: Cred) {
    |c.data| + (if c.format == FORMAT_PEM then 1 else 0) <= MAX_SIZE
  }

  // ---------------------------------------------------------------- the readers

  datatype Status = Valid | Unallocated | SizeBlank | SizeInvalid | CrcMismatch | Revoked

  function Field(block: seq<byte>, i: nat): word
    requires i < 4 && |block| == BLOCK_SIZE
  {
    Unpack(block[4 * i..4 * i + 4])
  }

  function Contents(block: seq<byte>): seq<byte>
    requires |block| == BLOCK_SIZE && Field(block, 1) <= MAX_SIZE
  {
    block[CONTROL_SIZE..CONTROL_SIZE + Field(block, 1)]
  }

  /** `check_cred`. */
  function CheckCred(crc: Checksum, block: seq<byte>): Status
    requires |block| == BLOCK_SIZE
  {
    var size := Field(block, 1);
    if Field(block, 0) == BLANK then Unallocated
    else if size == 0 then SizeBlank
    else if size > MAX_SIZE then SizeInvalid
    else if Field(block, 3) != BLANK then Revoked
    else if crc(Contents(block)) != Field(block, 2) then CrcMismatch
    else Valid
  }

  /** What `parse_sector_bin` makes of a block: an identifier or format outside its enumerations raises an error. */
  datatype Parsed = Found(cred: Cred) | Unusable | Raises

  predicate KnownId(id: byte) {
    0x10 <= id <= 0x15 || 0x20 <= id <= 0x27
  }

  predicate KnownFormat(format: byte) {
    format <= 2
  }

  function ParseBlock(crc: Checksum, block: seq<byte>): Parsed
    requires |block| == BLOCK_SIZE
  {
    var size := Field(block, 1);
    if Field(block, 0) == BLANK then Unusable
    else if Field(block, 3) != BLANK then Unusable
    else if size > MAX_SIZE || size == 0 then Unusable
    else if Field(block, 2) != crc(Contents(block)) then Unusable
    else
      var descr := Pack(Field(block, 0));
      if KnownFormat(descr[1]) && KnownId(descr[0])
      then Found(Cred(descr[0], descr[1], descr[2], descr[3], Contents(block)))
      else Raises
  }

  /** The credential in a block, as the firmware's header structure lays it out. */
  function CredIn(block: seq<byte>): Cred
    requires |block| == BLOCK_SIZE && Field(block, 1) <= MAX_SIZE
  {
    Cred(block[0], block[1], block[2], block[3], Contents(block))
  }

  /** On every block the two readers agree about validity, and about the credential they see. */
  lemma ReadersAgree(crc: Checksum, block: seq<byte>)
    requires |block| == BLOCK_SIZE
    ensures CheckCred(crc, block) == Valid <==> !ParseBlock(crc, block).Unusable?
    ensures CheckCred(crc, block) == Valid ==>
      ParseBlock(crc, block) ==
        if KnownFormat(block[1]) && KnownId(block[0]) then Found(CredIn(block)) else Raises
  {
    UnpackPack(block[0..4]);
  }

  /** Which blocks the firmware takes: described, of a possible size, not revoked, and unchanged since the checksum. */
  lemma ValidExactly(crc: Checksum, block: seq<byte>)
    requires |block| == BLOCK_SIZE
    ensures CheckCred(crc, block) == Valid <==>
      && block[..4] != [255, 255, 255, 255]
      && 0 < Field(block, 1) <= MAX_SIZE
      && crc(block[16..16 + Field(block, 1)]) == Field(block, 2)
      && block[12..16] == [255, 255, 255, 255]
  {
    BlankIs(block[..4]);
    BlankIs(block[12..16]);
    assert block[0..4] == block[..4];
  }

  lemma BlankIs(s: seq<byte>)
    requires |s| == 4
    ensures Unpack(s) == BLANK <==> s == [255, 255, 255, 255]
  {
    UnpackPack(s);
    UnpackPack([255, 255, 255, 255]);
    assert Unpack([255, 255, 255, 255]) == BLANK;
    hide Unpack, Pack;
  }

  // ---------------------------------------------------------------- round trip

  /** A block with a prepared credential in it: whatever lies behind, both readers find the same credential. */
  lemma WrittenIsRead(crc: Checksum, c: Cred, block: seq<byte>)
    requires |block| == BLOCK_SIZE && Accepted(c) && Image(crc, c) <= block
    ensures CheckCred(crc, block) == (if Descr(c) == BLANK then Unallocated else if c.data == [] then SizeBlank else Valid)
    ensures Field(block, 1) <= MAX_SIZE && CredIn(block) == c
  {
    var image := Image(crc, c);
    assert |image| >= CONTROL_SIZE + |c.data| && image[CONTROL_SIZE..CONTROL_SIZE + |c.data|] == c.data;
    FieldsOf(crc, c, block);
    assert block[CONTROL_SIZE..CONTROL_SIZE + |c.data|] == c.data;
    assert block[..4] == Pack(Descr(c));
    UnpackPack([c.id, c.format, c.strength, c.version]);
  }

  lemma FieldsOf(crc: Checksum, c: Cred, block: seq<byte>)
    requires |block| == BLOCK_SIZE && Accepted(c) && Image(crc, c) <= block
    ensures block[..4] == Pack(Descr(c))
    ensures Field(block, 0) == Descr(c) && Field(block, 1) == |c.data|
    ensures Field(block, 2) == crc(c.data) && Field(block, 3) == BLANK
  {
    var image := Image(crc, c);
    assert block[0..4] == image[0..4] == Pack(Descr(c));
    assert block[4..8] == image[4..8] == Pack(|c.data|);
    assert block[8..12] == image[8..12] == Pack(crc(c.data));
    assert block[12..16] == image[12..16] == Pack(BLANK);
    hide Pack, Unpack;
    PackUnpack(Descr(c));
    PackUnpack(|c.data|);
    PackUnpack(crc(c.data));
    PackUnpack(BLANK);
  }

  // ---------------------------------------------------------------- the sector

  function Block(sector: seq<byte>, slot: nat): (block: seq<byte>)
    requires |sector| == SLOTS * BLOCK_SIZE && slot < SLOTS
    ensures |block| == BLOCK_SIZE
  {
    sector[slot * BLOCK_SIZE..slot * BLOCK_SIZE + BLOCK_SIZE]
  }

  /** The slot holds a valid credential with this identifier. */
  predicate Holds(crc: Checksum, sector: seq<byte>, slot: nat, id: byte)
    requires |sector| == SLOTS * BLOCK_SIZE && slot < SLOTS
  {
    CheckCred(crc, Block(sector, slot)) == Valid && Block(sector, slot)[0] == id
  }

  /** `flash_cred_get`, the slot number standing for the address of the data; `SLOTS` for -ENOENT. */
  method CredGet(crc: Checksum, sector: array<byte>, id: byte) returns (slot: nat, len: nat)
    requires sector.Length == SLOTS * BLOCK_SIZE
    ensures slot <= SLOTS && forall k :: 0 <= k < slot ==> !Holds(crc, sector[..], k, id)
    ensures slot < SLOTS ==> Holds(crc, sector[..], slot, id) && len == Field(Block(sector[..], slot), 1) <= MAX_SIZE
    ensures slot == SLOTS ==> len == 0
  {
    slot := 0;
    len := id;
    while slot < SLOTS
      invariant slot <= SLOTS && len == id
      invariant forall k :: 0 <= k < slot ==> !Holds(crc, sector[..], k, id)
    {
      var block := sector[slot * BLOCK_SIZE..slot * BLOCK_SIZE + BLOCK_SIZE];
      assert block == Block(sector[..], slot);
      if CheckCred(crc, block) == Valid && len == block[0] {
        len := Field(block, 1);
        return;
      }
      slot := slot + 1;
    }
    len := 0;
  }

  /** The highest number of `n` bits. */
  function Ones(n: nat): nat {
    if n == 0 then 0 else 2 * Ones(n - 1) + 1
  }

  /** The bits that are set in both numbers, among the lowest `n`. */
  function Both(a: nat, b: nat, n: nat): (r: nat)
    ensures r <= Ones(n)
  {
    if n == 0 then 0 else 2 * Both(a / 2, b / 2, n - 1) + if a % 2 == 1 && b % 2 == 1 then 1 else 0
  }

  /** Programming a byte of flash memory only clears bits. */
  function Programmed(old_: byte, new_: byte): byte {
    assert Ones(8) == 255 by { EightOnes(); }
    Both(old_, new_, 8)
  }

  lemma EightOnes()
    ensures Ones(8) == 255
  {
    assert Ones(4) == 15;
    assert Ones(6) == 63;
  }

  lemma {:induction false} OnesBoth(b: nat, n: nat)
    requires b <= Ones(n)
    ensures Both(Ones(n), b, n) == b
  {
    if n > 0 { OnesBoth(b / 2, n - 1); }
  }

  /** On an erased byte the new one is what remains. */
  lemma ErasedProgrammed(new_: byte)
    ensures Programmed(255, new_) == new_
  {
    EightOnes();
    OnesBoth(new_, 8);
  }

  predicate Erased(sector: seq<byte>, from: nat, n: nat) {
    forall k :: from <= k < from + n && k < |sector| ==> sector[k] == 255
  }

  /** `write_slot`: false stands for the exceptions. A file written where the slot is erased can be read back. */
  method WriteSlot(sector: array<byte>, slot: nat, file: seq<byte>) returns (ok: bool)
    requires sector.Length == SLOTS * BLOCK_SIZE
    modifies sector
    ensures ok <==> slot < SLOTS && |file| <= BLOCK_SIZE
    ensures !ok ==> sector[..] == old(sector[..])
    ensures ok ==>
      && (forall k :: 0 <= k < |file| ==>
            sector[slot * BLOCK_SIZE + k] == Programmed(old(sector[slot * BLOCK_SIZE + k]), file[k]))
      && (forall k :: 0 <= k < slot * BLOCK_SIZE || slot * BLOCK_SIZE + |file| <= k < sector.Length ==>
            sector[k] == old(sector[k]))
    ensures ok && Erased(old(sector[..]), slot * BLOCK_SIZE, |file|) ==>
      sector[..] == old(sector[..])[..slot * BLOCK_SIZE] + file + old(sector[..])[slot * BLOCK_SIZE + |file|..]
  {
    if slot >= SLOTS || |file| > BLOCK_SIZE { return false; }
    hide Programmed;
    var at := slot * BLOCK_SIZE;
    var i := 0;
    while i < |file|
      invariant 0 <= i <= |file|
      invariant forall k :: 0 <= k < i ==> sector[at + k] == Programmed(old(sector[at + k]), file[k])
      invariant forall k :: 0 <= k < at || at + i <= k < sector.Length ==> sector[k] == old(sector[k])
    {
      sector[at + i] := Programmed(sector[at + i], file[i]);
      i := i + 1;
    }
    ok := true;
    if Erased(old(sector[..]), at, |file|) {
      forall k | 0 <= k < |file|
        ensures sector[at + k] == file[k]
      {
        assert old(sector[..])[at + k] == 255;
        ErasedProgrammed(file[k]);
      }
      assert sector[..] == old(sector[..])[..at] + file + old(sector[..])[at + |file|..];
    }
  }

  // ---------------------------------------------------------------- provisioning

  const BEGIN: seq<byte> := [45, 45, 45, 45, 45, 66, 69, 71, 73, 78]

  /** `get_format`. */
  function FormatOf(data: seq<byte>): byte {
    if BEGIN <= data then FORMAT_PEM else if [0x30] <= data then 2 else 0
  }

  /** An entry of the configuration file. */
  datatype Source = Source(id: byte, data: seq<byte>)

  function CredOf(s: Source): Cred {
    Cred(s.id, FormatOf(s.data), 0, 0, s.data)
  }

  /** How many credentials get written: those before the first that is refused, as far as there are slots. */
  function Written(sources: seq<Source>): nat {
    if sources == [] then 0
    else
      var n := Written(sources[..|sources| - 1]);
      if n == |sources| - 1 && n < SLOTS && Accepted(CredOf(sources[n])) then n + 1 else n
  }

  lemma {:induction false} WrittenBound(sources: seq<Source>)
    ensures Written(sources) <= |sources| && Written(sources) <= SLOTS
    ensures forall i :: 0 <= i < Written(sources) ==> Accepted(CredOf(sources[i]))
  {
    if sources != [] {
      WrittenBound(sources[..|sources| - 1]);
    }
  }

  lemma WrittenNext(sources: seq<Source>, n: nat)
    requires n < |sources| && n < SLOTS && Written(sources[..n]) == n && Accepted(CredOf(sources[n]))
    ensures Written(sources[..n + 1]) == n + 1
  {
    assert sources[..n + 1][..n] == sources[..n];
  }

  lemma {:induction false} WrittenStops(sources: seq<Source>, n: nat)
    requires n <= |sources| && Written(sources[..n]) == n
    requires n == |sources| || n == SLOTS || !Accepted(CredOf(sources[n]))
    ensures Written(sources) == n
    decreases |sources|
  {
    var m := |sources|;
    if n == m {
      assert sources[..n] == sources;
    } else {
      assert sources[..m - 1][..n] == sources[..n];
      WrittenStops(sources[..m - 1], n);
    }
  }

  /** The first `n` slots hold these credentials, the others are erased. */
  predicate Provisioned(crc: Checksum, sector: seq<byte>, sources: seq<Source>, n: nat)
    requires |sector| == SLOTS * BLOCK_SIZE && n <= SLOTS && n <= |sources|
  {
    && (forall i :: 0 <= i < n ==> Accepted(CredOf(sources[i])) && Image(crc, CredOf(sources[i])) <= Block(sector, i))
    && (forall k :: n * BLOCK_SIZE <= k < |sector| ==> sector[k] == 255)
  }

  lemma NextSlot(crc: Checksum, before: seq<byte>, after: seq<byte>, sources: seq<Source>, n: nat)
    requires |before| == SLOTS * BLOCK_SIZE && n < SLOTS && n < |sources|
    requires Provisioned(crc, before, sources, n) && Accepted(CredOf(sources[n]))
    requires var file := Image(crc, CredOf(sources[n]));
      |file| <= BLOCK_SIZE && after == before[..n * BLOCK_SIZE] + file + before[n * BLOCK_SIZE + |file|..]
    ensures |after| == |before| && Provisioned(crc, after, sources, n + 1)
  {
    var file := Image(crc, CredOf(sources[n]));
    assert |after| == |before|;
    hide Image, Accepted;
    forall i | 0 <= i < n
      ensures Block(after, i) == Block(before, i)
    {
      var a, b := Block(after, i), Block(before, i);
      assert forall k :: 0 <= k < BLOCK_SIZE ==> a[k] == b[k];
    }
    assert after[n * BLOCK_SIZE..n * BLOCK_SIZE + |file|] == file;
    assert Block(after, n)[..|file|] == file;
  }

  /** The main program of the script; `n`: how many credentials it writes before it ends or fails. */
  method Provision(crc: Checksum, sources: seq<Source>, sector: array<byte>) returns (n: nat)
    requires sector.Length == SLOTS * BLOCK_SIZE
    modifies sector
    ensures n == Written(sources) && n <= SLOTS && n <= |sources|
    ensures Provisioned(crc, sector[..], sources, n)
  {
    hide Image, Provisioned, Erased, Programmed, Written;
    Erase(sector);
    n := 0;
    NothingWritten(crc, sector[..], sources);
    while n < |sources|
      invariant n <= |sources| && n <= SLOTS && Written(sources[..n]) == n
      invariant Provisioned(crc, sector[..], sources, n)
    {
      var c := CredOf(sources[n]);
      if n == SLOTS || |c.data| > MAX_SIZE {
        WrittenStops(sources, n);
        return;
      }
      var image := Image(crc, c);
      ImageFits(crc, c);
      ghost var before := sector[..];
      RestErased(crc, before, sources, n, |image|);
      var ok := WriteSlot(sector, n, image);
      if !ok {
        WrittenStops(sources, n);
        return;
      }
      NextSlot(crc, before, sector[..], sources, n);
      WrittenNext(sources, n);
      n := n + 1;
    }
    assert sources[..n] == sources;
  }

  lemma NothingWritten(crc: Checksum, sector: seq<byte>, sources: seq<Source>)
    requires |sector| == SLOTS * BLOCK_SIZE && forall k :: 0 <= k < |sector| ==> sector[k] == 255
    ensures Provisioned(crc, sector, sources, 0) && Written(sources[..0]) == 0
  {
  }

  lemma ImageFits(crc: Checksum, c: Cred)
    requires |c.data| <= MAX_SIZE
    ensures |Image(crc, c)| <= BLOCK_SIZE <==> Accepted(c)
  {
  }

  lemma RestErased(crc: Checksum, sector: seq<byte>, sources: seq<Source>, n: nat, len: nat)
    requires |sector| == SLOTS * BLOCK_SIZE && n <= SLOTS && n <= |sources| && Provisioned(crc, sector, sources, n)
    ensures Erased(sector, n * BLOCK_SIZE, len)
  {
  }

  method Erase(sector: array<byte>)
    modifies sector
    ensures forall k :: 0 <= k < sector.Length ==> sector[k] == 255
  {
    var i := 0;
    while i < sector.Length
      invariant 0 <= i <= sector.Length && forall k :: 0 <= k < i ==> sector[k] == 255
    {
      sector[i] := 255;
      i := i + 1;
    }
  }

  /** The data of the first usable source with this identifier. */
  function Lookup(sources: seq<Source>, id: byte): Option<seq<byte>> {
    if sources == [] then None
    else if sources[0].id == id && sources[0].data != [] then Some(sources[0].data)
    else Lookup(sources[1..], id)
  }

  lemma {:induction false} LookupIs(sources: seq<Source>, id: byte, k: nat)
    requires k <= |sources| && forall i :: 0 <= i < k ==> sources[i].id != id || sources[i].data == []
    requires k < |sources| ==> sources[k].id == id && sources[k].data != []
    ensures Lookup(sources, id) == if k < |sources| then Some(sources[k].data) else None
    decreases k
  {
    if k > 0 {
      LookupIs(sources[1..], id, k - 1);
    }
  }

  lemma ErasedHoldsNothing(crc: Checksum, sector: seq<byte>, slot: nat, id: byte)
    requires |sector| == SLOTS * BLOCK_SIZE && slot < SLOTS
    requires forall k :: slot * BLOCK_SIZE <= k < |sector| ==> sector[k] == 255
    ensures !Holds(crc, sector, slot, id)
  {
    assert Block(sector, slot)[0..4] == [255, 255, 255, 255];
  }

  lemma SlotHolds(crc: Checksum, sector: seq<byte>, sources: seq<Source>, n: nat, slot: nat, id: byte)
    requires |sector| == SLOTS * BLOCK_SIZE && n <= SLOTS && n <= |sources| && slot < SLOTS
    requires Provisioned(crc, sector, sources, n) && forall s :: s in sources ==> KnownId(s.id)
    ensures Holds(crc, sector, slot, id) <==> slot < n && sources[slot].id == id && sources[slot].data != []
    ensures slot < n && Holds(crc, sector, slot, id) ==>
      Field(Block(sector, slot), 1) <= MAX_SIZE && Contents(Block(sector, slot)) == sources[slot].data
  {
    if slot < n {
      var c := CredOf(sources[slot]);
      assert sources[slot] in sources && Descr(c) != BLANK;
      WrittenIsRead(crc, c, Block(sector, slot));
    } else {
      ErasedHoldsNothing(crc, sector, slot, id);
    }
  }

  /** The bytes of a provisioned slot: identifier, the format by how the data begins, the data, a zero behind a PEM text. */
  lemma SlotLayout(crc: Checksum, sector: seq<byte>, sources: seq<Source>, n: nat, slot: nat)
    requires |sector| == SLOTS * BLOCK_SIZE && slot < n <= SLOTS && n <= |sources| && Provisioned(crc, sector, sources, n)
    ensures var block, data := Block(sector, slot), sources[slot].data;
      && block[0] == sources[slot].id
      && block[1] == (if BEGIN <= data then 1 else if data != [] && data[0] == 0x30 then 2 else 0)
      && block[2] == 0 && block[3] == 0
      && 16 + |data| <= BLOCK_SIZE && block[16..16 + |data|] == data
      && (BEGIN <= data ==> 16 + |data| < BLOCK_SIZE && block[16 + |data|] == 0)
  {
    var c, block := CredOf(sources[slot]), Block(sector, slot);
    assert Accepted(c) && Image(crc, c) <= block;
    FieldsOf(crc, c, block);
    UnpackPack([c.id, c.format, c.strength, c.version]);
    assert block[..4] == [c.id, c.format, c.strength, c.version];
    var image := Image(crc, c);
    hide Pack, Unpack, Provisioned, Descr;
    assert image[16..16 + |c.data|] == c.data;
    if c.format == FORMAT_PEM {
      assert |image| == 16 + |c.data| + 1 && image[16 + |c.data|] == 0;
    }
  }

  /** By index: written are the credentials up to the first that is refused, or as many as there are slots. */
  lemma {:induction false} WrittenIs(sources: seq<Source>, n: nat)
    requires n <= |sources| && n <= SLOTS && forall i :: 0 <= i < n ==> Accepted(CredOf(sources[i]))
    requires n == |sources| || n == SLOTS || !Accepted(CredOf(sources[n]))
    ensures Written(sources) == n
  {
    hide Accepted;
    WrittenAll(sources, n);
    WrittenStops(sources, n);
  }

  lemma {:induction false} WrittenAll(sources: seq<Source>, n: nat)
    requires n <= |sources| && n <= SLOTS && forall i :: 0 <= i < n ==> Accepted(CredOf(sources[i]))
    ensures Written(sources[..n]) == n
    decreases n
  {
    if n > 0 {
      WrittenAll(sources, n - 1);
      assert sources[..n][..n - 1] == sources[..n - 1];
    }
  }

  lemma FirstIsLookup(crc: Checksum, sector: seq<byte>, sources: seq<Source>, n: nat, slot: nat, id: byte)
    requires |sector| == SLOTS * BLOCK_SIZE && n <= SLOTS && n <= |sources| && slot <= SLOTS
    requires Provisioned(crc, sector, sources, n) && forall s :: s in sources ==> KnownId(s.id)
    requires forall k :: 0 <= k < slot ==> !Holds(crc, sector, k, id)
    requires slot < SLOTS ==> Holds(crc, sector, slot, id)
    ensures Lookup(sources[..n], id) == if slot < SLOTS then Some(Contents(Block(sector, slot))) else None
  {
    hide Provisioned, Holds, Lookup, Contents, Block;
    forall k | 0 <= k < slot && k < n
      ensures sources[k].id != id || sources[k].data == []
    {
      SlotHolds(crc, sector, sources, n, k, id);
    }
    if slot < SLOTS {
      SlotHolds(crc, sector, sources, n, slot, id);
    }
    LookupIs(sources[..n], id, if slot < SLOTS then slot else n);
  }

  lemma ContentsAt(sector: seq<byte>, slot: nat, len: nat)
    requires |sector| == SLOTS * BLOCK_SIZE && slot < SLOTS
    requires Field(Block(sector, slot), 1) == len <= MAX_SIZE
    ensures var at := slot * BLOCK_SIZE + CONTROL_SIZE;
      at + len <= |sector| && sector[at..at + len] == Contents(Block(sector, slot))
  {
    hide Field;
  }

  /**
   Provisioning, then a lookup by the firmware: it finds the data of the first
   non-empty source with the identifier, among those the script managed to write.
   */
  method Deploy(crc: Checksum, sources: seq<Source>, id: byte) returns (r: Option<seq<byte>>)
    requires forall s :: s in sources ==> KnownId(s.id)
    ensures Written(sources) <= |sources|
    ensures r == Lookup(sources[..Written(sources)], id)
  {
    hide Provisioned, Lookup, Written, KnownId, CheckCred;
    var sector := new byte[SLOTS * BLOCK_SIZE];
    var n := Provision(crc, sources, sector);
    var slot, len := CredGet(crc, sector, id);
    FirstIsLookup(crc, sector[..], sources, n, slot, id);
    r := None;
    if slot < SLOTS {
      ContentsAt(sector[..], slot, len);
      var at := slot * BLOCK_SIZE + CONTROL_SIZE;
      r := Some(sector[at..at + len]);
    }
  }
}
