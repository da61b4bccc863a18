/** The flash partition table as the browser and the offline audit read it: 32-byte little-endian entries closed by a
    digest of everything before it. The digest is a parameter. */
module PartitionTable {
  import opened Octets
  import opened Wrappers

  const ENTRY: nat := 32
  const TABLE_BYTES: nat := 0xC00
  const SECTOR: nat := 4096
  const APP_ALIGNMENT: nat := 65536
  const LABEL: nat := 16

  datatype Partition = Partition(name: seq<Byte>, kind: Byte, subtype: Byte, offset: Word, size: Word, flags: Word)

  /** The label up to its first zero byte. */
  function NameIn(raw: seq<Byte>): seq<Byte> {
    if raw == [] || raw[0] == 0 then [] else [raw[0]] + NameIn(raw[1..])
  }

  function ReadEntry(entry: seq<Byte>): Partition
    requires |entry| == ENTRY
  {
    Partition(NameIn(entry[12..28]), entry[2], entry[3], Le32(entry, 4), Le32(entry, 8), Le32(entry, 28))
  }

  // ----- what a table means -----

  predicate NameOk(name: seq<Byte>) {
    1 <= |name| <= LABEL && forall k :: 0 <= k < |name| ==> 0x20 <= name[k] <= 0x7E
  }

  predicate PlacedOk(p: Partition, address: nat, capacity: nat) {
    && 0 < p.size && p.offset % SECTOR == 0 && p.size % SECTOR == 0
    && address + SECTOR <= p.offset && p.offset + p.size <= capacity
    && (p.kind == 0 ==> p.offset % APP_ALIGNMENT == 0)
  }

  predicate Overlap(p: Partition, q: Partition) {
    p.offset < q.offset + q.size && q.offset < p.offset + p.size
  }

  predicate Clashes(p: Partition, found: seq<Partition>) {
    exists k :: 0 <= k < |found| && (found[k].name == p.name || Overlap(p, found[k]))
  }

  /** Aligned, inside the flash, uniquely named and pairwise disjoint. */
  ghost predicate LawfulTable(table: seq<Partition>, address: nat, capacity: nat) {
    && (forall k :: 0 <= k < |table| ==> NameOk(table[k].name) && PlacedOk(table[k], address, capacity))
    && (forall i, k :: 0 <= i < k < |table| ==> table[i].name != table[k].name)
    && (forall i, k :: 0 <= i < k < |table| ==>
          table[i].offset + table[i].size <= table[k].offset || table[k].offset + table[k].size <= table[i].offset)
  }

  predicate Closing(sector: seq<Byte>, cursor: nat, md5: seq<Byte> -> seq<Byte>)
    requires cursor + ENTRY <= |sector|
  {
    && (forall k :: cursor + 2 <= k < cursor + 16 ==> sector[k] == 255)
    && md5(sector[..cursor]) == sector[cursor + 16..cursor + 32]
  }

  /** Reads on from `cursor` with the entries found so far. */
  function ParseFrom(sector: seq<Byte>, cursor: nat, found: seq<Partition>, address: nat, capacity: nat,
                     md5: seq<Byte> -> seq<Byte>): Option<seq<Partition>>
    decreases TABLE_BYTES - cursor
  {
    if TABLE_BYTES <= cursor || |sector| < cursor + ENTRY then None
    else
      var entry := sector[cursor..cursor + ENTRY];
      if Le16(entry, 0) == 0xEBEB then
        if found != [] && Closing(sector, cursor, md5) then Some(found) else None
      else if Le16(entry, 0) != 0x50AA then None
      else
        var p := ReadEntry(entry);
        if NameOk(p.name) && PlacedOk(p, address, capacity) && !Clashes(p, found)
        then ParseFrom(sector, cursor + ENTRY, found + [p], address, capacity, md5)
        else None
  }

  lemma OneMoreIsLawful(found: seq<Partition>, p: Partition, address: nat, capacity: nat)
    requires LawfulTable(found, address, capacity)
    requires NameOk(p.name) && PlacedOk(p, address, capacity) && !Clashes(p, found)
    ensures LawfulTable(found + [p], address, capacity)
  {
    hide NameOk, PlacedOk;
  }

  lemma {:induction false} ParsedIsLawful(sector: seq<Byte>, cursor: nat, found: seq<Partition>, address: nat,
                                          capacity: nat, md5: seq<Byte> -> seq<Byte>)
    requires LawfulTable(found, address, capacity) && cursor == ENTRY * |found|
    ensures var table := ParseFrom(sector, cursor, found, address, capacity, md5);
            table.Some? ==>
              && table.value != [] && ENTRY * |table.value| < TABLE_BYTES
              && LawfulTable(table.value, address, capacity)
    decreases TABLE_BYTES - cursor
  {
    hide LawfulTable, NameOk, PlacedOk, Clashes, ReadEntry, Le16, Closing;
    if cursor < TABLE_BYTES && cursor + ENTRY <= |sector| {
      var p := ReadEntry(sector[cursor..cursor + ENTRY]);
      if NameOk(p.name) && PlacedOk(p, address, capacity) && !Clashes(p, found) {
        OneMoreIsLawful(found, p, address, capacity);
        ParsedIsLawful(sector, cursor + ENTRY, found + [p], address, capacity, md5);
      }
    }
  }

  // ----- writing a table -----

  function Padded(name: seq<Byte>): seq<Byte>
    requires |name| <= LABEL
  {
    name + seq(LABEL - |name|, _ => 0)
  }

  function EntryBytes(p: Partition): (entry: seq<Byte>)
    requires |p.name| <= LABEL
    ensures |entry| == ENTRY
  {
    [0xAA, 0x50, p.kind, p.subtype] + Bytes32(p.offset) + Bytes32(p.size) + Padded(p.name) + Bytes32(p.flags)
  }

  function Entries(table: seq<Partition>): (bytes: seq<Byte>)
    requires forall k :: 0 <= k < |table| ==> NameOk(table[k].name)
    ensures |bytes| == ENTRY * |table|
  {
    if table == [] then []
    else
      assert NameOk(table[|table| - 1].name);
      Entries(table[..|table| - 1]) + EntryBytes(table[|table| - 1])
  }

  function Serialized(table: seq<Partition>, md5: seq<Byte> -> seq<Byte>): seq<Byte>
    requires forall k :: 0 <= k < |table| ==> NameOk(table[k].name)
  {
    Entries(table) + [0xEB, 0xEB] + seq(14, _ => 255) + md5(Entries(table))
  }

  lemma {:induction false} NameBack(name: seq<Byte>, zeros: nat)
    requires forall k :: 0 <= k < |name| ==> name[k] != 0
    ensures NameIn(name + seq(zeros, _ => 0)) == name
  {
    if name != [] {
      assert (name + seq(zeros, _ => 0))[1..] == name[1..] + seq(zeros, _ => 0);
      NameBack(name[1..], zeros);
    }
  }

  lemma Middle(a: seq<Byte>, b: seq<Byte>, c: seq<Byte>)
    ensures (a + b + c)[|a|..|a| + |b|] == b
  {
    var all := a + b + c;
    assert forall k :: 0 <= k < |b| ==> all[|a|..|a| + |b|][k] == all[|a| + k] == b[k];
  }

  lemma EntryReadsBack(p: Partition)
    requires NameOk(p.name)
    ensures ReadEntry(EntryBytes(p)) == p && Le16(EntryBytes(p), 0) == 0x50AA
  {
    var entry := EntryBytes(p);
    var head, name := [0xAA, 0x50, p.kind, p.subtype], Padded(p.name);
    var offset, size, flags := Bytes32(p.offset), Bytes32(p.size), Bytes32(p.flags);
    Middle(head, offset, size + name + flags);
    Middle(head + offset, size, name + flags);
    Middle(head + offset + size, name, flags);
    Middle(head + offset + size + name, flags, []);
    assert entry == head + offset + (size + name + flags);
    assert entry == head + offset + size + (name + flags);
    assert entry == head + offset + size + name + flags + [];
    Word32(p.offset, entry, 4);
    Word32(p.size, entry, 8);
    Word32(p.flags, entry, 28);
    NameBack(p.name, LABEL - |p.name|);
  }

  lemma {:induction false} EntryAt(table: seq<Partition>, i: nat)
    requires i < |table| && forall k :: 0 <= k < |table| ==> NameOk(table[k].name)
    ensures Entries(table)[ENTRY * i..ENTRY * i + ENTRY] == EntryBytes(table[i])
    decreases |table|
  {
    var n := |table| - 1;
    if i < n {
      EntryAt(table[..n], i);
      assert Entries(table)[..ENTRY * n] == Entries(table[..n]);
      assert Entries(table)[ENTRY * i..ENTRY * i + ENTRY] == Entries(table)[..ENTRY * n][ENTRY * i..ENTRY * i + ENTRY];
    } else {
      assert Entries(table)[ENTRY * n..] == EntryBytes(table[n]);
    }
  }

  lemma EntryInSector(table: seq<Partition>, i: nat, rest: seq<Byte>, md5: seq<Byte> -> seq<Byte>)
    requires i < |table| && forall k :: 0 <= k < |table| ==> NameOk(table[k].name)
    ensures var sector := Serialized(table, md5) + rest;
            && ENTRY * i + ENTRY <= |sector|
            && sector[ENTRY * i..ENTRY * i + ENTRY] == EntryBytes(table[i])
  {
    var sector := Serialized(table, md5) + rest;
    EntryAt(table, i);
    assert sector[..ENTRY * |table|] == Entries(table);
    assert sector[ENTRY * i..ENTRY * i + ENTRY] == sector[..ENTRY * |table|][ENTRY * i..ENTRY * i + ENTRY];
  }

  lemma ClosingShape(body: seq<Byte>, rest: seq<Byte>, md5: seq<Byte> -> seq<Byte>)
    requires |md5(body)| == 16
    ensures var sector := body + [0xEB, 0xEB] + seq(14, _ => 255) + md5(body) + rest;
            && |body| + ENTRY <= |sector|
            && Closing(sector, |body|, md5) && Le16(sector[|body|..|body| + ENTRY], 0) == 0xEBEB
  {
    var sector := body + [0xEB, 0xEB] + seq(14, _ => 255) + md5(body) + rest;
    assert sector[..|body|] == body;
    assert sector[|body| + 16..|body| + 32] == md5(body);
    assert sector[|body|] == 0xEB && sector[|body| + 1] == 0xEB;
  }

  lemma ClosingEntry(table: seq<Partition>, rest: seq<Byte>, md5: seq<Byte> -> seq<Byte>)
    requires forall k :: 0 <= k < |table| ==> NameOk(table[k].name)
    requires |md5(Entries(table))| == 16
    ensures var sector := Serialized(table, md5) + rest;
            && ENTRY * |table| + ENTRY <= |sector| && Closing(sector, ENTRY * |table|, md5)
            && Le16(sector[ENTRY * |table|..ENTRY * |table| + ENTRY], 0) == 0xEBEB
  {
    hide Closing, Le16;
    ClosingShape(Entries(table), rest, md5);
  }

  lemma TableIsNamed(table: seq<Partition>, address: nat, capacity: nat)
    requires LawfulTable(table, address, capacity)
    ensures forall k :: 0 <= k < |table| ==> NameOk(table[k].name)
  {
  }

  lemma NextIsLawful(table: seq<Partition>, i: nat, address: nat, capacity: nat)
    requires LawfulTable(table, address, capacity) && i < |table|
    ensures NameOk(table[i].name) && PlacedOk(table[i], address, capacity) && !Clashes(table[i], table[..i])
  {
  }

  /** A lawful table that fits, written out with its digest, reads back as itself whatever follows it. */
  lemma {:induction false} TableReadsBack(table: seq<Partition>, i: nat, rest: seq<Byte>, address: nat, capacity: nat,
                                          md5: seq<Byte> -> seq<Byte>)
    requires LawfulTable(table, address, capacity) && table != [] && ENTRY * |table| < TABLE_BYTES
    requires |md5(Entries(table))| == 16 && i <= |table|
    ensures ParseFrom(Serialized(table, md5) + rest, ENTRY * i, table[..i], address, capacity, md5) == Some(table)
    decreases |table| - i
  {
    hide Closing, EntryBytes, ReadEntry, Le16, LawfulTable, Clashes, PlacedOk, Serialized;
    TableIsNamed(table, address, capacity);
    if i == |table| {
      assert table[..i] == table;
      ClosingEntry(table, rest, md5);
    } else {
      NextIsLawful(table, i, address, capacity);
      EntryInSector(table, i, rest, md5);
      EntryReadsBack(table[i]);
      assert table[..i] + [table[i]] == table[..i + 1];
      TableReadsBack(table, i + 1, rest, address, capacity, md5);
    }
  }

  /** Whatever is accepted, written out again, is accepted again as the same table. */
  lemma AcceptedReadsBack(sector: seq<Byte>, rest: seq<Byte>, address: nat, capacity: nat, md5: seq<Byte> -> seq<Byte>)
    requires forall s :: |md5(s)| == 16
    requires ParseFrom(sector, 0, [], address, capacity, md5).Some?
    ensures var table := ParseFrom(sector, 0, [], address, capacity, md5).value;
            && LawfulTable(table, address, capacity)
            && ParseFrom(Serialized(table, md5) + rest, 0, [], address, capacity, md5) == Some(table)
  {
    ParsedIsLawful(sector, 0, [], address, capacity, md5);
    var table := ParseFrom(sector, 0, [], address, capacity, md5).value;
    TableReadsBack(table, 0, rest, address, capacity, md5);
    assert table[..0] == [];
  }

  // ----- the accepted tables, byte by byte -----

  /** Entry `k` of the sector: its mark, then kind, subtype, offset, size, label and flags. A label shorter than sixteen
      bytes ends in a zero byte. */
  ghost predicate EntryShows(sector: seq<Byte>, k: nat, p: Partition) {
    var at := 32 * k;
    && at + 32 <= |sector| && 1 <= |p.name| <= 16
    && sector[at] == 0xAA && sector[at + 1] == 0x50
    && p.kind == sector[at + 2] && p.subtype == sector[at + 3]
    && p.offset == Le32(sector, at + 4) && p.size == Le32(sector, at + 8) && p.flags == Le32(sector, at + 28)
    && (forall i :: 0 <= i < |p.name| ==> p.name[i] == sector[at + 12 + i] && 0x20 <= p.name[i] <= 0x7E)
    && (|p.name| < 16 ==> sector[at + 12 + |p.name|] == 0)
  }

  /** The entry after the last carries the digest of everything before it. */
  ghost predicate EndsAt(sector: seq<Byte>, n: nat, md5: seq<Byte> -> seq<Byte>) {
    var at := 32 * n;
    && at + 32 <= |sector| && sector[at] == sector[at + 1] == 0xEB
    && (forall i :: at + 2 <= i < at + 16 ==> sector[i] == 0xFF)
    && sector[at + 16..at + 32] == md5(sector[..at])
  }

  ghost predicate Placed(p: Partition, address: nat, capacity: nat) {
    && 0 < p.size && p.size % 4096 == 0 && p.offset % 4096 == 0 && (p.kind == 0 ==> p.offset % 65536 == 0)
    && address + 4096 <= p.offset && p.offset + p.size <= capacity
  }

  ghost predicate Distinct(p: Partition, q: Partition) {
    p.name != q.name && (p.offset + p.size <= q.offset || q.offset + q.size <= p.offset)
  }

  /** The sector holds this table. */
  ghost predicate Holds(sector: seq<Byte>, table: seq<Partition>, address: nat, capacity: nat,
                        md5: seq<Byte> -> seq<Byte>) {
    && 1 <= |table| < 96 && EndsAt(sector, |table|, md5)
    && (forall k :: 0 <= k < |table| ==> EntryShows(sector, k, table[k]) && Placed(table[k], address, capacity))
    && (forall i, k :: 0 <= i < k < |table| ==> Distinct(table[i], table[k]))
  }

  lemma {:induction false} NameEndsAtZero(raw: seq<Byte>, name: seq<Byte>)
    requires |name| <= |raw| && forall i :: 0 <= i < |name| ==> name[i] != 0
    ensures NameIn(raw) == name <==>
            (forall i :: 0 <= i < |name| ==> name[i] == raw[i]) && (|name| < |raw| ==> raw[|name|] == 0)
  {
    if name != [] && raw[0] == name[0] {
      NameEndsAtZero(raw[1..], name[1..]);
      assert name == [name[0]] + name[1..];
      assert forall i :: 1 <= i < |name| ==> name[i] == name[1..][i - 1] && raw[i] == raw[1..][i - 1];
      assert forall i :: 0 <= i < |name| - 1 ==> name[1..][i] == name[i + 1] && raw[1..][i] == raw[i + 1];
    }
  }

  lemma {:induction false} NameFits(raw: seq<Byte>)
    ensures |NameIn(raw)| <= |raw|
  {
    if raw != [] {
      NameFits(raw[1..]);
    }
  }

  lemma EntryIs(sector: seq<Byte>, k: nat, p: Partition)
    requires 32 * k + 32 <= |sector|
    ensures var entry := sector[32 * k..32 * k + 32];
            EntryShows(sector, k, p) <==> Le16(entry, 0) == 0x50AA && ReadEntry(entry) == p && NameOk(p.name)
  {
    var at := 32 * k;
    var entry := sector[at..at + 32];
    assert forall i :: 0 <= i < 32 ==> entry[i] == sector[at + i];
    var raw := entry[12..28];
    assert forall i :: 0 <= i < 16 ==> raw[i] == sector[at + 12 + i];
    if |p.name| <= 16 && forall i :: 0 <= i < |p.name| ==> p.name[i] != 0 {
      NameEndsAtZero(raw, p.name);
    }
    NameFits(raw);
  }

  lemma EndIs(sector: seq<Byte>, n: nat, md5: seq<Byte> -> seq<Byte>)
    requires 32 * n + 32 <= |sector|
    ensures EndsAt(sector, n, md5) <==> Le16(sector[32 * n..32 * n + 32], 0) == 0xEBEB && Closing(sector, 32 * n, md5)
  {
    var at := 32 * n;
    var entry := sector[at..at + 32];
    assert entry[0] == sector[at] && entry[1] == sector[at + 1];
  }

  lemma LawIsThis(table: seq<Partition>, address: nat, capacity: nat)
    ensures LawfulTable(table, address, capacity) <==>
            && (forall k :: 0 <= k < |table| ==> NameOk(table[k].name) && Placed(table[k], address, capacity))
            && (forall i, k :: 0 <= i < k < |table| ==> Distinct(table[i], table[k]))
  {
    hide NameOk;
  }

  lemma {:induction false} ParsedHolds(sector: seq<Byte>, found: seq<Partition>, address: nat, capacity: nat,
                                       md5: seq<Byte> -> seq<Byte>)
    requires LawfulTable(found, address, capacity)
    requires forall k :: 0 <= k < |found| ==> EntryShows(sector, k, found[k])
    ensures var table := ParseFrom(sector, 32 * |found|, found, address, capacity, md5);
            table.Some? ==> Holds(sector, table.value, address, capacity, md5)
    decreases 96 - |found|
  {
    hide EntryShows, EndsAt, LawfulTable, Placed, Distinct, NameOk, PlacedOk, Clashes, ReadEntry, Le16, Closing;
    var cursor := 32 * |found|;
    if cursor < 3072 && cursor + 32 <= |sector| {
      var p := ReadEntry(sector[cursor..cursor + 32]);
      EntryIs(sector, |found|, p);
      EndIs(sector, |found|, md5);
      if Le16(sector[cursor..cursor + 32], 0) == 0x50AA && NameOk(p.name) && PlacedOk(p, address, capacity)
         && !Clashes(p, found) {
        OneMoreIsLawful(found, p, address, capacity);
        ParsedHolds(sector, found + [p], address, capacity, md5);
      }
      LawIsThis(found, address, capacity);
    }
  }

  lemma {:induction false} HeldIsParsed(sector: seq<Byte>, table: seq<Partition>, i: nat, address: nat, capacity: nat,
                                        md5: seq<Byte> -> seq<Byte>)
    requires Holds(sector, table, address, capacity, md5) && LawfulTable(table, address, capacity) && i <= |table|
    ensures ParseFrom(sector, 32 * i, table[..i], address, capacity, md5) == Some(table)
    decreases |table| - i
  {
    hide EntryShows, EndsAt, LawfulTable, Placed, Distinct, NameOk, PlacedOk, Clashes, ReadEntry, Le16, Closing;
    if i == |table| {
      assert table[..i] == table;
      assert 32 * i + 32 <= |sector| by { EndFits(sector, i, md5); }
      EndIs(sector, i, md5);
    } else {
      EntryFits(sector, i, table[i]);
      EntryIs(sector, i, table[i]);
      NextIsLawful(table, i, address, capacity);
      assert table[..i] + [table[i]] == table[..i + 1];
      HeldIsParsed(sector, table, i + 1, address, capacity, md5);
    }
  }

  lemma EndFits(sector: seq<Byte>, n: nat, md5: seq<Byte> -> seq<Byte>)
    requires EndsAt(sector, n, md5)
    ensures 32 * n + 32 <= |sector|
  {
  }

  lemma EntryFits(sector: seq<Byte>, k: nat, p: Partition)
    requires EntryShows(sector, k, p)
    ensures 32 * k + 32 <= |sector| && NameOk(p.name)
  {
  }

  /** A sector is read as a table exactly when it holds that table. */
  lemma AcceptedTables(sector: seq<Byte>, table: seq<Partition>, address: nat, capacity: nat,
                       md5: seq<Byte> -> seq<Byte>)
    ensures ParseFrom(sector, 0, [], address, capacity, md5) == Some(table) <==>
            Holds(sector, table, address, capacity, md5)
  {
    hide EntryShows, EndsAt, LawfulTable, Placed, Distinct, NameOk, ParseFrom;
    NoEntriesAreLawful(address, capacity);
    ParsedHolds(sector, [], address, capacity, md5);
    if Holds(sector, table, address, capacity, md5) {
      forall k | 0 <= k < |table| ensures NameOk(table[k].name) {
        EntryFits(sector, k, table[k]);
      }
      LawIsThis(table, address, capacity);
      HeldIsParsed(sector, table, 0, address, capacity, md5);
      assert table[..0] == [];
    }
  }

  // ----- the two readers -----

  method ScanName(raw: seq<Byte>) returns (name: seq<Byte>)
    ensures name == NameIn(raw)
  {
    var end := 0;
    assert raw[0..] == raw;
    while end < |raw| && raw[end] != 0
      invariant 0 <= end <= |raw|
      invariant NameIn(raw) == raw[..end] + NameIn(raw[end..])
    {
      ghost var ahead := raw[end..];
      assert ahead[0] == raw[end] && ahead[1..] == raw[end + 1..];
      assert NameIn(ahead) == [raw[end]] + NameIn(raw[end + 1..]);
      assert raw[..end + 1] == raw[..end] + [raw[end]];
      assert raw[..end] + ([raw[end]] + NameIn(raw[end + 1..])) == raw[..end + 1] + NameIn(raw[end + 1..]);
      end := end + 1;
    }
    name := raw[..end];
    assert name + [] == name;
  }

  /** The closing entry looks the same from inside the entry and from inside the sector. */
  lemma EntryWindow(sector: seq<Byte>, cursor: nat)
    requires cursor + ENTRY <= |sector|
    ensures var entry := sector[cursor..cursor + ENTRY];
            && entry[16..] == sector[cursor + 16..cursor + 32]
            && (entry[..2] == [0xEB, 0xEB] <==> Le16(entry, 0) == 0xEBEB)
            && ((forall k :: 2 <= k < 16 ==> entry[k] == 255) <==>
                 (forall k :: cursor + 2 <= k < cursor + 16 ==> sector[k] == 255))
            && sector[..cursor] + entry == sector[..cursor + ENTRY]
  {
    var entry := sector[cursor..cursor + ENTRY];
    assert forall k :: 0 <= k < ENTRY ==> entry[k] == sector[cursor + k];
    assert forall k :: cursor <= k < cursor + ENTRY ==> sector[k] == entry[k - cursor];
  }

  lemma NoEntriesAreLawful(address: nat, capacity: nat)
    ensures LawfulTable([], address, capacity)
  {
  }

  predicate Closes(entry: seq<Byte>, digested: seq<Byte>, md5: seq<Byte> -> seq<Byte>)
    requires |entry| == ENTRY
  {
    (forall k :: 2 <= k < 16 ==> entry[k] == 255) && md5(digested) == entry[16..]
  }

  lemma ParseEnds(sector: seq<Byte>, cursor: nat, found: seq<Partition>, address: nat, capacity: nat,
                  md5: seq<Byte> -> seq<Byte>)
    requires TABLE_BYTES <= cursor || |sector| < cursor + ENTRY
    ensures ParseFrom(sector, cursor, found, address, capacity, md5) == None
  {
  }

  /** One entry on, seen from inside the entry. */
  lemma ParseStep(sector: seq<Byte>, cursor: nat, found: seq<Partition>, address: nat, capacity: nat,
                  md5: seq<Byte> -> seq<Byte>)
    requires cursor < TABLE_BYTES && cursor + ENTRY <= |sector|
    ensures var entry := sector[cursor..cursor + ENTRY];
            var parsed := ParseFrom(sector, cursor, found, address, capacity, md5);
            if Le16(entry, 0) == 0xEBEB then
              parsed == if found != [] && Closes(entry, sector[..cursor], md5) then Some(found) else None
            else if Le16(entry, 0) != 0x50AA then parsed == None
            else
              var p := ReadEntry(entry);
              parsed == if NameOk(p.name) && PlacedOk(p, address, capacity) && !Clashes(p, found)
                        then ParseFrom(sector, cursor + ENTRY, found + [p], address, capacity, md5)
                        else None
  {
    hide NameOk, PlacedOk, Clashes, ReadEntry, Le16;
    EntryWindow(sector, cursor);
  }

  /** The browser's reader, which is handed the sector. */
  method ParseTable(bytes: seq<Byte>, address: nat, capacity: nat, md5: seq<Byte> -> seq<Byte>)
    returns (table: Option<seq<Partition>>)
    ensures table == ParseFrom(bytes, 0, [], address, capacity, md5)
    ensures table.Some? ==> LawfulTable(table.value, address, capacity)
  {
    hide ParseFrom, LawfulTable, NameOk;
    ParsedIsLawful(bytes, 0, [], address, capacity, md5) by { NoEntriesAreLawful(address, capacity); }
    var entries: seq<Partition> := [];
    var cursor := 0;
    while cursor < TABLE_BYTES
      invariant ParseFrom(bytes, 0, [], address, capacity, md5)
             == ParseFrom(bytes, cursor, entries, address, capacity, md5)
    {
      if |bytes| < cursor + ENTRY {
        ParseEnds(bytes, cursor, entries, address, capacity, md5);
        return None;
      }
      ParseStep(bytes, cursor, entries, address, capacity, md5);
      var entry := bytes[cursor..cursor + ENTRY];
      if Le16(entry, 0) == 0xEBEB {
        if entries == [] || !(forall k :: 2 <= k < 16 ==> entry[k] == 255) || md5(bytes[..cursor]) != entry[16..] {
          return None;
        }
        return Some(entries);
      }
      if Le16(entry, 0) != 0x50AA {
        return None;
      }
      var name := ScanName(entry[12..28]);
      var p := Partition(name, entry[2], entry[3], Le32(entry, 4), Le32(entry, 8), Le32(entry, 28));
      if !NameOk(name) {
        return None;
      }
      if p.size == 0 || p.offset % SECTOR != 0 || p.size % SECTOR != 0 || p.offset < address + SECTOR ||
         capacity < p.offset + p.size || (p.kind == 0 && p.offset % APP_ALIGNMENT != 0) {
        return None;
      }
      if exists k :: 0 <= k < |entries| && (entries[k].name == name || Overlap(p, entries[k])) {
        return None;
      }
      entries := entries + [p];
      cursor := cursor + ENTRY;
    }
    ParseEnds(bytes, cursor, entries, address, capacity, md5);
    return None;
  }

  /** The offline reader, which finds the sector in the whole flash image and digests the entries it has kept. */
  method AuditTable(data: seq<Byte>, address: nat, flashSize: nat, md5: seq<Byte> -> seq<Byte>)
    returns (table: Option<seq<Partition>>)
    ensures table == ParseFrom(SectorAt(data, address), 0, [], address, flashSize, md5)
    ensures address + 4096 <= |data| ==>
              table == ParseFrom(data[address..address + 4096], 0, [], address, flashSize, md5)
    ensures address < |data| < address + 4096 ==> table == ParseFrom(data[address..], 0, [], address, flashSize, md5)
    ensures |data| <= address ==> table == None
    ensures table.Some? ==> LawfulTable(table.value, address, flashSize)
  {
    hide ParseFrom, LawfulTable, NameOk;
    var sector := SectorAt(data, address);
    ParsedIsLawful(sector, 0, [], address, flashSize, md5) by { NoEntriesAreLawful(address, flashSize); }
    var partitions: seq<Partition> := [];
    var entries: seq<Byte> := [];
    var cursor := 0;
    while cursor < TABLE_BYTES && cursor < |sector|
      invariant cursor <= |sector| ==> entries == sector[..cursor]
      invariant ParseFrom(sector, 0, [], address, flashSize, md5)
             == ParseFrom(sector, cursor, partitions, address, flashSize, md5)
    {
      if |sector| < cursor + ENTRY {
        ParseEnds(sector, cursor, partitions, address, flashSize, md5);
        return None;
      }
      ParseStep(sector, cursor, partitions, address, flashSize, md5);
      EntryWindow(sector, cursor);
      var entry := sector[cursor..cursor + ENTRY];
      if entry[..2] == [0xEB, 0xEB] {
        if !(forall k :: 2 <= k < 16 ==> entry[k] == 255) || md5(entries) != entry[16..] {
          return None;
        }
        if partitions == [] {
          return None;
        }
        return Some(partitions);
      }
      if Le16(entry, 0) != 0x50AA {
        return None;
      }
      var name := ScanName(entry[12..28]);
      var kind, offset, size := entry[2], Le32(entry, 4), Le32(entry, 8);
      if !NameOk(name) {
        return None;
      }
      if size == 0 || offset % SECTOR != 0 || size % SECTOR != 0 || offset < address + SECTOR ||
         flashSize < offset + size {
        return None;
      }
      if kind == 0 && offset % APP_ALIGNMENT != 0 {
        return None;
      }
      var p := Partition(name, kind, entry[3], offset, size, Le32(entry, 28));
      if exists k :: 0 <= k < |partitions| && Overlap(p, partitions[k]) {
        return None;
      }
      if exists k :: 0 <= k < |partitions| && name == partitions[k].name {
        return None;
      }
      partitions := partitions + [p];
      entries := entries + entry;
      cursor := cursor + ENTRY;
    }
    ParseEnds(sector, cursor, partitions, address, flashSize, md5);
    return None;
  }

  function SectorAt(data: seq<Byte>, address: nat): seq<Byte> {
    if |data| <= address then []
    else if |data| < address + SECTOR then data[address..]
    else data[address..address + SECTOR]
  }
}
