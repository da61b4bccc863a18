/** The 8 KiB boot-selection partition: two sectors, each with a sequence number, a state and a checksum of the
    sequence. The bootloader follows the valid record with the highest sequence. The checksum is a parameter. */
module BootSelection {
  import opened Octets
  import opened Wrappers

  const SECTOR: nat := 4096
  const ERASED: Word := 0xFFFFFFFF
  const LIMIT: nat := 0xFFFFFFFE

  // ----- the bootloader's rule -----

  datatype Record = Record(sequence: Word, state: Word, sum: Word)

  function RecordIn(sector: seq<Byte>): Record
    requires 32 <= |sector|
  {
    Record(Le32(sector, 0), Le32(sector, 24), Le32(sector, 28))
  }

  /** A record counts unless it is erased, marked invalid or aborted, or fails its checksum. */
  predicate Counts(sector: seq<Byte>, crc: seq<Byte> -> Word)
    requires 32 <= |sector|
  {
    var r := RecordIn(sector);
    r.sequence != ERASED && r.state != 3 && r.state != 4 && crc(sector[..4]) == r.sum
  }

  /** The index of the record that decides, if any does; of two with the same sequence the later one. */
  function Deciding(first: seq<Byte>, second: seq<Byte>, crc: seq<Byte> -> Word): Option<nat>
    requires 32 <= |first| && 32 <= |second|
  {
    if Counts(first, crc) && Counts(second, crc) then
      Some(if RecordIn(first).sequence > RecordIn(second).sequence then 0 else 1)
    else if Counts(first, crc) then Some(0)
    else if Counts(second, crc) then Some(1)
    else None
  }

  datatype Boot = Factory | OtaSlot(slot: nat)

  function Booted(first: seq<Byte>, second: seq<Byte>, crc: seq<Byte> -> Word): Boot
    requires 32 <= |first| && 32 <= |second|
  {
    match Deciding(first, second, crc)
    case None => Factory
    case Some(i) =>
      var sequence := RecordIn(if i == 0 then first else second).sequence;
      OtaSlot(if sequence == 0 then 0 else (sequence - 1) % 2)
  }

  // ----- the next selection -----

  predicate KnownState(state: Word) { state == 0 || state == 1 || state == 2 || state == ERASED }

  predicate Unambiguous(sector: seq<Byte>, crc: seq<Byte> -> Word)
    requires 32 <= |sector|
  {
    Counts(sector, crc) ==> 0 < RecordIn(sector).sequence && KnownState(RecordIn(sector).state)
  }

  predicate Erased(data: seq<Byte>) { forall k :: 0 <= k < |data| ==> data[k] == 255 }

  datatype Next = Next(index: nat, sequence: Word, sector: seq<Byte>)

  function NewSector(previous: seq<Byte>, sequence: Word, crc: seq<Byte> -> Word): seq<Byte>
    requires |previous| == SECTOR
  {
    Bytes32(sequence) + seq(20, _ => 255) + Bytes32(0) + Bytes32(crc(Bytes32(sequence))) + previous[32..]
  }

  /** Refused unless the stock image is confirmed and unambiguous; otherwise the sector that does not decide gets the
      next sequence. */
  function NextSelection(data: seq<Byte>, crc: seq<Byte> -> Word): Option<Next>
    requires |data| == 2 * SECTOR
  {
    var first, second := data[..SECTOR], data[SECTOR..];
    if !Unambiguous(first, crc) || !Unambiguous(second, crc) then None
    else
      match Deciding(first, second, crc)
      case None => if Erased(data) then Some(Next(0, 2, NewSector(first, 2, crc))) else None
      case Some(i) =>
        var current := RecordIn(if i == 0 then first else second);
        if Counts(first, crc) && Counts(second, crc) && RecordIn(first).sequence == RecordIn(second).sequence
           && RecordIn(first).state != RecordIn(second).state then None
        else if current.sequence % 2 == 0 || !(current.state == 2 || current.state == ERASED) then None
        else if LIMIT <= current.sequence + 1 then None
        else Some(Next(1 - i, current.sequence + 1,
                       NewSector(if i == 0 then second else first, current.sequence + 1, crc)))
  }

  /** The sector at offset 0 or 4096 counts, read field by field. */
  predicate CountsAt(data: seq<Byte>, at: nat, crc: seq<Byte> -> Word)
    requires at + 32 <= |data|
  {
    && Le32(data, at) != 0xFFFFFFFF && Le32(data, at + 24) !in {3, 4}
    && crc(data[at..at + 4]) == Le32(data, at + 28)
  }

  lemma CountsHere(data: seq<Byte>, crc: seq<Byte> -> Word)
    requires |data| == 2 * SECTOR
    ensures CountsAt(data, 0, crc) <==> Counts(data[..SECTOR], crc)
    ensures CountsAt(data, 4096, crc) <==> Counts(data[SECTOR..], crc)
    ensures RecordIn(data[..SECTOR]) == Record(Le32(data, 0), Le32(data, 24), Le32(data, 28))
    ensures RecordIn(data[SECTOR..]) == Record(Le32(data, 4096), Le32(data, 4120), Le32(data, 4124))
  {
    var first, second := data[..SECTOR], data[SECTOR..];
    assert forall k :: 0 <= k < SECTOR ==> first[k] == data[k] && second[k] == data[4096 + k];
    assert first[..4] == data[0..4];
    assert second[..4] == data[4096..4100];
  }

  /** An erased selection starts with sequence 2 in the first sector. */
  lemma ErasedIsAccepted(data: seq<Byte>, crc: seq<Byte> -> Word)
    requires |data| == 2 * SECTOR && forall k :: 0 <= k < |data| ==> data[k] == 255
    ensures NextSelection(data, crc) == Some(Next(0, 2, NewSector(data[..SECTOR], 2, crc)))
  {
    var first, second := data[..SECTOR], data[SECTOR..];
    assert forall k :: 0 <= k < SECTOR ==> first[k] == 255 && second[k] == 255;
  }

  /** A selection is accepted exactly when it is erased, or its counting records are unambiguous and the one with the
      highest sequence is the stock image, confirmed, with room for one more; then the other sector gets that one. */
  lemma AcceptedSelections(data: seq<Byte>, crc: seq<Byte> -> Word)
    requires |data| == 2 * SECTOR
    ensures var here, there := CountsAt(data, 0, crc), CountsAt(data, 4096, crc);
            var sequence, other := Le32(data, 0), Le32(data, 4096);
            var state, otherState := Le32(data, 24), Le32(data, 4120);
            var late := there && (here ==> sequence <= other);
            var top, kept := if late then other else sequence, if late then otherState else state;
            var next := NextSelection(data, crc);
            && (!here && !there ==>
                  && (next.Some? <==> forall k :: 0 <= k < |data| ==> data[k] == 255)
                  && (next.Some? ==> next.value.index == 0 && next.value.sequence == 2))
            && (here || there ==>
                  && (next.Some? <==>
                        && (here ==> 1 <= sequence && state in {0, 1, 2, 0xFFFFFFFF})
                        && (there ==> 1 <= other && otherState in {0, 1, 2, 0xFFFFFFFF})
                        && (here && there && sequence == other ==> state == otherState)
                        && top % 2 == 1 && kept in {2, 0xFFFFFFFF} && top < 0xFFFFFFFD)
                  && (next.Some? ==> next.value.index == (if late then 0 else 1) && next.value.sequence == top + 1))
    ensures var next := NextSelection(data, crc);
            next.Some? ==>
              var kept := if next.value.index == 0 then data[..4096] else data[4096..];
              next.value.sector == NewSector(kept, next.value.sequence, crc)
  {
    CountsHere(data, crc);
    hide RecordIn, Counts, Le32;
  }

  /** The written sector, byte by byte: sequence, ones, state new, checksum of the sequence, and what was there. */
  lemma NewSectorBytes(previous: seq<Byte>, sequence: Word, crc: seq<Byte> -> Word)
    requires |previous| == SECTOR
    ensures var s := NewSector(previous, sequence, crc);
            && |s| == 4096 && Le32(s, 0) == sequence && Le32(s, 24) == 0 && Le32(s, 28) == crc(s[..4])
            && (forall k :: 4 <= k < 24 ==> s[k] == 255) && s[32..] == previous[32..]
  {
    var s := NewSector(previous, sequence, crc);
    assert s[0..4] == Bytes32(sequence) && s[..4] == Bytes32(sequence);
    assert s[24..28] == Bytes32(0);
    assert s[28..32] == Bytes32(crc(Bytes32(sequence)));
    Word32(sequence, s, 0);
    Word32(0, s, 24);
    Word32(crc(Bytes32(sequence)), s, 28);
  }

  function Replaced(data: seq<Byte>, index: nat, sector: seq<Byte>): seq<Byte>
    requires |data| == 2 * SECTOR && index < 2 && |sector| == SECTOR
  {
    if index == 0 then sector + data[SECTOR..] else data[..SECTOR] + sector
  }

  lemma NewSectorCounts(previous: seq<Byte>, sequence: Word, crc: seq<Byte> -> Word)
    requires |previous| == SECTOR && sequence != ERASED
    ensures var s := NewSector(previous, sequence, crc);
            |s| == SECTOR && Counts(s, crc) && RecordIn(s).sequence == sequence && RecordIn(s).state == 0
  {
    var s := NewSector(previous, sequence, crc);
    assert s[0..4] == Bytes32(sequence) && s[..4] == Bytes32(sequence);
    assert s[24..28] == Bytes32(0);
    assert s[28..32] == Bytes32(crc(Bytes32(sequence)));
    Word32(sequence, s, 0);
    Word32(0, s, 24);
    Word32(crc(Bytes32(sequence)), s, 28);
  }

  /** Writing the sector switches the device from the stock image to ota_1. */
  lemma SwitchesToNewApp(data: seq<Byte>, crc: seq<Byte> -> Word)
    requires |data| == 2 * SECTOR && NextSelection(data, crc).Some?
    ensures var next := NextSelection(data, crc).value;
            && next.index < 2 && |next.sector| == SECTOR
            && Booted(data[..SECTOR], data[SECTOR..], crc) in {Factory, OtaSlot(0)}
            && var after := Replaced(data, next.index, next.sector);
            && Booted(after[..SECTOR], after[SECTOR..], crc) == OtaSlot(1)
            && RecordIn(next.sector).state == 0
  {
    hide RecordIn, Counts, NewSector;
    var next := NextSelection(data, crc).value;
    NewSectorCounts(if next.index == 0 then data[..SECTOR] else data[SECTOR..], next.sequence, crc);
    var after := Replaced(data, next.index, next.sector);
    assert after[..SECTOR] == if next.index == 0 then next.sector else data[..SECTOR];
    assert after[SECTOR..] == if next.index == 0 then data[SECTOR..] else next.sector;
  }

  /** A write cut short leaves the device where it was, whatever bytes reached the sector, as long as the record there
      fails its check. */
  lemma TornWriteKeepsChoice(data: seq<Byte>, torn: seq<Byte>, crc: seq<Byte> -> Word)
    requires |data| == 2 * SECTOR && NextSelection(data, crc).Some?
    requires |torn| == SECTOR && !Counts(torn, crc)
    ensures var after := Replaced(data, NextSelection(data, crc).value.index, torn);
            Booted(after[..SECTOR], after[SECTOR..], crc) == Booted(data[..SECTOR], data[SECTOR..], crc)
  {
    var next := NextSelection(data, crc).value;
    var after := Replaced(data, next.index, torn);
    assert after[..SECTOR] == if next.index == 0 then torn else data[..SECTOR];
    assert after[SECTOR..] == if next.index == 0 then data[SECTOR..] else torn;
  }

  // ----- the two implementations -----

  datatype Valid = Valid(sequence: Word, state: Word, index: nat)

  /** The scan both tools make: every record that counts, refusing one whose sequence or state is unknown. */
  method ScanRecords(data: seq<Byte>, crc: seq<Byte> -> Word) returns (ok: bool, valid: seq<Valid>)
    requires |data| == 2 * SECTOR
    ensures ok <==> Unambiguous(data[..SECTOR], crc) && Unambiguous(data[SECTOR..], crc)
    ensures ok ==> valid == ValidUpTo(data[..SECTOR], data[SECTOR..], crc, 2)
  {
    hide Le32;
    ghost var first, second := data[..SECTOR], data[SECTOR..];
    valid := [];
    for i := 0 to 2
      invariant i >= 1 ==> Unambiguous(first, crc)
      invariant i >= 2 ==> Unambiguous(second, crc)
      invariant valid == ValidUpTo(first, second, crc, i)
    {
      var sector := data[i * SECTOR..(i + 1) * SECTOR];
      assert sector == if i == 0 then first else second;
      var r := RecordIn(sector);
      if r.sequence != ERASED && r.state !in {3, 4} && crc(sector[..4]) == r.sum {
        if !(r.sequence > 0 && r.state in {0, 1, 2, ERASED}) {
          return false, [];
        }
        valid := valid + [Valid(r.sequence, r.state, i)];
      }
    }
    return true, valid;
  }

  /** The browser's selection: sorts the valid records and patches a copy of the other sector. */
  method SelectBoot(data: seq<Byte>, crc: seq<Byte> -> Word) returns (result: Option<Next>)
    requires |data| == 2 * SECTOR
    ensures result == NextSelection(data, crc)
  {
    hide RecordIn, Counts, NewSector;
    var ok, valid := ScanRecords(data, crc);
    if !ok {
      return None;
    }
    if valid == [] && !(forall k :: 0 <= k < |data| ==> data[k] == 255) {
      return None;
    }
    if |valid| == 2 && valid[0].sequence == valid[1].sequence && valid[0].state != valid[1].state {
      return None;
    }
    if |valid| == 2 && valid[0].sequence <= valid[1].sequence {
      valid := [valid[1], valid[0]];
    }
    var sequence, index := 2, 0;
    if valid != [] {
      var current := valid[0];
      if (current.sequence - 1) % 2 != 0 || current.state !in {2, ERASED} {
        return None;
      }
      sequence, index := current.sequence + 1, 1 - current.index;
    }
    if sequence >= LIMIT {
      return None;
    }
    var bytes := Patch(data[index * SECTOR..(index + 1) * SECTOR], sequence, crc);
    assert data[index * SECTOR..(index + 1) * SECTOR] == if index == 0 then data[..SECTOR] else data[SECTOR..];
    return Some(Next(index, sequence, bytes));
  }

  ghost function ValidUpTo(first: seq<Byte>, second: seq<Byte>, crc: seq<Byte> -> Word, n: nat): seq<Valid>
    requires 32 <= |first| && 32 <= |second|
  {
    (if 1 <= n && Counts(first, crc) then [Valid(RecordIn(first).sequence, RecordIn(first).state, 0)] else [])
    + (if 2 <= n && Counts(second, crc) then [Valid(RecordIn(second).sequence, RecordIn(second).state, 1)] else [])
  }

  /** Fills the record with ones and writes its three words. */
  method Patch(previous: seq<Byte>, sequence: Word, crc: seq<Byte> -> Word) returns (sector: seq<Byte>)
    requires |previous| == SECTOR
    ensures sector == NewSector(previous, sequence, crc)
  {
    var bytes := new Byte[SECTOR](k requires 0 <= k < SECTOR => previous[k]);
    for k := 0 to 32
      invariant forall j :: 0 <= j < k ==> bytes[j] == 255
      invariant forall j :: k <= j < SECTOR ==> bytes[j] == previous[j]
    {
      bytes[k] := 255;
    }
    PutWord(bytes, 0, sequence);
    assert bytes[..4] == bytes[0..4];
    PutWord(bytes, 24, 0);
    assert forall j :: 0 <= j < 4 ==> bytes[..4][j] == Bytes32(sequence)[j];
    assert bytes[..4] == Bytes32(sequence);
    PutWord(bytes, 28, crc(bytes[..4]));
    sector := bytes[..];
    Words(bytes, sector);
    Patched(sector, previous, sequence, crc);
  }

  lemma Words(bytes: array<Byte>, sector: seq<Byte>)
    requires 32 <= bytes.Length && sector == bytes[..]
    ensures forall j :: 0 <= j < 4 ==> sector[j] == bytes[j]
    ensures forall j :: 24 <= j < 28 ==> bytes[24..28][j - 24] == sector[j]
    ensures forall j :: 28 <= j < 32 ==> bytes[28..32][j - 28] == sector[j]
  {
  }

  lemma Patched(sector: seq<Byte>, previous: seq<Byte>, sequence: Word, crc: seq<Byte> -> Word)
    requires |sector| == |previous| == SECTOR
    requires forall j :: 0 <= j < 4 ==> sector[j] == Bytes32(sequence)[j]
    requires forall j :: 4 <= j < 24 ==> sector[j] == 255
    requires forall j :: 24 <= j < 28 ==> sector[j] == Bytes32(0)[j - 24]
    requires forall j :: 28 <= j < 32 ==> sector[j] == Bytes32(crc(Bytes32(sequence)))[j - 28]
    requires forall j :: 32 <= j < SECTOR ==> sector[j] == previous[j]
    ensures sector == NewSector(previous, sequence, crc)
  {
    var s := NewSector(previous, sequence, crc);
    forall j | 0 <= j < SECTOR
      ensures sector[j] == s[j]
    {
    }
  }

  method PutWord(bytes: array<Byte>, at: nat, w: Word)
    requires at + 4 <= bytes.Length
    modifies bytes
    ensures bytes[at..at + 4] == Bytes32(w)
    ensures forall k :: 0 <= k < bytes.Length && !(at <= k < at + 4) ==> bytes[k] == old(bytes[k])
  {
    bytes[at], bytes[at + 1], bytes[at + 2], bytes[at + 3] := w % 256, w / 256 % 256, w / 65536 % 256, w / 16777216;
  }

  /** The offline tool's selection: keeps the greatest valid record and refuses the same inputs. */
  method SelectRecord(data: seq<Byte>, crc: seq<Byte> -> Word) returns (ok: bool, current: Option<Valid>)
    requires |data| == 2 * SECTOR
    ensures ok && current.None? ==>
              Deciding(data[..SECTOR], data[SECTOR..], crc).None? && Erased(data)
              && Unambiguous(data[..SECTOR], crc) && Unambiguous(data[SECTOR..], crc)
    ensures ok && current.Some? ==>
              && Unambiguous(data[..SECTOR], crc) && Unambiguous(data[SECTOR..], crc)
              && Deciding(data[..SECTOR], data[SECTOR..], crc) == Some(current.value.index)
              && current.value.index < 2
              && var r := RecordIn(if current.value.index == 0 then data[..SECTOR] else data[SECTOR..]);
              r.sequence == current.value.sequence && r.state == current.value.state
              && r.sequence % 2 == 1 && (r.state == 2 || r.state == ERASED)
    ensures NextSelection(data, crc).Some? ==> ok
    ensures ok && current.Some? && current.value.sequence + 1 < LIMIT ==> NextSelection(data, crc).Some?
  {
    hide RecordIn, Counts, NewSector;
    var scanned, valid := ScanRecords(data, crc);
    if !scanned {
      return false, None;
    }
    if valid == [] {
      if exists k :: 0 <= k < |data| && data[k] != 255 {
        return false, None;
      }
      return true, None;
    }
    if |valid| == 2 && valid[0].sequence == valid[1].sequence && valid[0].state != valid[1].state {
      return false, None;
    }
    var best := if |valid| == 2 && valid[0].sequence <= valid[1].sequence then valid[1] else valid[0];
    if (best.sequence - 1) % 2 != 0 || best.state !in {2, ERASED} {
      return false, None;
    }
    return true, Some(best);
  }

  method NextSelectionOffline(data: seq<Byte>, crc: seq<Byte> -> Word) returns (result: Option<Next>)
    requires |data| == 2 * SECTOR
    ensures result == NextSelection(data, crc)
  {
    var ok, current := SelectRecord(data, crc);
    if !ok {
      return None;
    }
    var sequence: nat := if current.None? then 2 else current.value.sequence + 1;
    if sequence >= LIMIT {
      return None;
    }
    var target := if current.None? then 0 else 1 - current.value.index;
    var sector := Patch(data[target * SECTOR..(target + 1) * SECTOR], sequence, crc);
    assert data[target * SECTOR..(target + 1) * SECTOR] == if target == 0 then data[..SECTOR] else data[SECTOR..];
    return Some(Next(target, sequence, sector));
  }
}
