/** Installing an application over USB and returning to the original software, on the whole 32 MiB flash. A write can
    be cut off at any byte; the content hash is a parameter assumed injective. */
module FlashRecovery {
  import opened Octets
  import opened Wrappers
  import BootSelection

  type Image = s: seq<Byte> | |s| == FLASH_BYTES witness seq(FLASH_BYTES, _ => 0)
  type Hash = int

  const FLASH_BYTES: nat := 33554432
  const BLOCK: nat := 65536
  const SECTOR: nat := 4096
  const NVS: nat := 241664
  const NVS_SIZE: nat := 860160
  const OTADATA: nat := 1101824
  const OTADATA_SIZE: nat := 8192
  const BOOT: nat := 8192
  const TABLE: nat := 32768
  const SLOT: nat := 14680064
  const SLOT_SIZE: nat := 4128768

  ghost predicate Injective(sha: seq<Byte> -> Hash) { forall a, b :: sha(a) == sha(b) ==> a == b }

  // ----- images and regions -----

  predicate Within(at: nat, offset: nat, size: nat) { offset <= at < offset + size }

  function Overwritten(flash: Image, offset: nat, bytes: seq<Byte>): Image
    requires offset + |bytes| <= FLASH_BYTES
  {
    flash[..offset] + bytes + flash[offset + |bytes|..]
  }

  /** Nothing outside the range differs. */
  ghost predicate SameOutside(a: Image, b: Image, offset: nat, size: nat) {
    forall at :: 0 <= at < FLASH_BYTES && !Within(at, offset, size) ==> a[at] == b[at]
  }

  /** The bytes an installation, the running application and a recovery may change. */
  predicate Restorable(at: nat, appSize: nat) {
    Within(at, NVS, NVS_SIZE) || Within(at, SLOT, appSize) || Within(at, OTADATA, OTADATA_SIZE)
  }

  /** The flash is the original one but for the bytes that are put back. */
  ghost predicate OnlyRestorableChanged(flash: Image, original: Image, appSize: nat) {
    forall at :: 0 <= at < FLASH_BYTES && flash[at] != original[at] ==> Restorable(at, appSize)
  }

  lemma RegionWriteStaysRestorable(before: Image, after: Image, original: Image, appSize: nat, offset: nat, size: nat)
    requires OnlyRestorableChanged(before, original, appSize) && SameOutside(after, before, offset, size)
    requires forall at :: Within(at, offset, size) ==> Restorable(at, appSize)
    ensures OnlyRestorableChanged(after, original, appSize)
  {
  }

  // ----- the connected device -----

  class Device {
    var flash: Image
    const faultFree: bool
    ghost var history: seq<Image>

    constructor (flash: Image, faultFree: bool)
      ensures this.flash == flash && this.faultFree == faultFree && history == [flash]
    {
      this.flash, this.faultFree := flash, faultFree;
      history := [flash];
    }

    /** A write touches only its own range. When it is cut off that range may hold anything, and a write that is
        reported as done may still have gone wrong there: only reading it back tells. */
    method Write(offset: nat, bytes: seq<Byte>) returns (ok: bool)
      requires offset + |bytes| <= FLASH_BYTES
      modifies this
      ensures old(history) <= history
      ensures forall k :: |old(history)| <= k < |history| ==> SameOutside(history[k], old(flash), offset, |bytes|)
      ensures SameOutside(flash, old(flash), offset, |bytes|)
      ensures faultFree ==> ok && flash == Overwritten(old(flash), offset, bytes)
    {
      var before := flash;
      var partial: seq<Byte> := *;
      if |partial| != |bytes| {
        partial := bytes;
      }
      flash := Overwritten(before, offset, partial);
      history := history + [flash];
      ok := *;
      if faultFree {
        ok := true;
        flash := Overwritten(before, offset, bytes);
        history := history + [flash];
      }
    }

    method Read(offset: nat, size: nat) returns (bytes: Option<seq<Byte>>)
      requires offset + size <= FLASH_BYTES
      ensures bytes.Some? ==> bytes.value == flash[offset..offset + size]
      ensures faultFree ==> bytes.Some?
    {
      var broken: bool := *;
      if broken && !faultFree {
        return None;
      }
      return Some(flash[offset..offset + size]);
    }

    /** Reads a range block by block into a streaming hash. */
    method HashRange(offset: nat, size: nat, sha: seq<Byte> -> Hash) returns (digest: Option<Hash>)
      requires offset + size <= FLASH_BYTES
      ensures digest.Some? ==> digest.value == sha(flash[offset..offset + size])
      ensures faultFree ==> digest.Some?
    {
      var seen: seq<Byte> := [];
      var at := 0;
      while at < size
        invariant 0 <= at <= size && seen == flash[offset..offset + at]
      {
        var count := if BLOCK <= size - at then BLOCK else size - at;
        var bytes := Read(offset + at, count);
        if bytes.None? {
          return None;
        }
        assert flash[offset..offset + at + count]
            == flash[offset..offset + at] + flash[offset + at..offset + at + count];
        seen := seen + bytes.value;
        at := at + count;
      }
      return Some(sha(seen));
    }
  }

  /** A range that reads back with the digest of some bytes holds those bytes. */
  lemma ReadBack(before: Image, after: Image, offset: nat, bytes: seq<Byte>, sha: seq<Byte> -> Hash)
    requires Injective(sha) && offset + |bytes| <= FLASH_BYTES && SameOutside(after, before, offset, |bytes|)
    requires sha(after[offset..offset + |bytes|]) == sha(bytes)
    ensures after[offset..offset + |bytes|] == bytes && after == Overwritten(before, offset, bytes)
  {
    var there, expected := after[offset..offset + |bytes|], Overwritten(before, offset, bytes);
    assert there == bytes;
    forall at | 0 <= at < FLASH_BYTES
      ensures after[at] == expected[at]
    {
      if Within(at, offset, |bytes|) {
        assert after[at] == there[at - offset];
      }
    }
  }

  /** What is written reads back. */
  lemma WrittenReads(before: Image, offset: nat, bytes: seq<Byte>)
    requires offset + |bytes| <= FLASH_BYTES
    ensures Overwritten(before, offset, bytes)[offset..offset + |bytes|] == bytes
  {
    var after := Overwritten(before, offset, bytes);
    assert forall k :: 0 <= k < |bytes| ==> after[offset..offset + |bytes|][k] == after[offset + k] == bytes[k];
  }

  // ----- the recovery plan -----

  datatype Region = Region(offset: nat, bytes: seq<Byte>, digest: Hash)
  datatype Plan = Plan(backup: Hash, original: Image, writes: seq<Region>)

  /** What the browser session remembers of a plan it prepared. */
  datatype Prepared = Prepared(backup: Hash, appSize: nat)

  predicate AppSizeOk(appSize: nat) { 0 < appSize <= SLOT_SIZE && appSize % SECTOR == 0 }

  function Slice(image: Image, offset: nat, size: nat): seq<Byte>
    requires offset + size <= FLASH_BYTES
  {
    image[offset..offset + size]
  }

  /** Settings first, then the application area, the boot selection last. */
  function Expected(original: Image, appSize: nat, sha: seq<Byte> -> Hash): seq<Region>
    requires appSize <= SLOT_SIZE
  {
    [Region(NVS, Slice(original, NVS, NVS_SIZE), sha(Slice(original, NVS, NVS_SIZE))),
     Region(SLOT, Slice(original, SLOT, appSize), sha(Slice(original, SLOT, appSize))),
     Region(OTADATA, Slice(original, OTADATA, OTADATA_SIZE), sha(Slice(original, OTADATA, OTADATA_SIZE)))]
  }

  predicate PlanSound(plan: Plan, prepared: Prepared, sha: seq<Byte> -> Hash) {
    && plan.backup == prepared.backup == sha(plan.original)
    && AppSizeOk(prepared.appSize)
    && plan.writes == Expected(plan.original, prepared.appSize, sha)
  }

  /** A plan is sound when it holds the original and puts back its settings, its application area and its boot
      selection, in that order, each with its own digest. */
  lemma SoundPlans(plan: Plan, prepared: Prepared, sha: seq<Byte> -> Hash)
    ensures PlanSound(plan, prepared, sha) <==>
            && plan.backup == prepared.backup && sha(plan.original) == prepared.backup
            && 0 < prepared.appSize <= 4128768 && prepared.appSize % 4096 == 0
            && var settings := plan.original[241664..1101824];
            var application := plan.original[14680064..14680064 + prepared.appSize];
            var selection := plan.original[1101824..1110016];
            plan.writes == [Region(241664, settings, sha(settings)),
                            Region(14680064, application, sha(application)),
                            Region(1101824, selection, sha(selection))]
  {
  }

  /** What the audit found in the owner's backup files. */
  datatype Audit = Audit(
    backup: Hash, filesMatch: bool, readsMatch: bool, layoutMatches: bool, slotErased: bool, modelConfirmed: bool)
  {
    /** Two equal files from two independent reads, taken before the first installation. */
    predicate Original() { filesMatch && readsMatch && layoutMatches && slotErased }
  }

  /** A plan is made only from the verified original backup, for what was installed with that same backup. */
  method PrepareRecovery(backup: Image, report: Audit, installedWith: Hash, installedOffset: nat, installedSize: nat,
                         sha: seq<Byte> -> Hash)
    returns (plan: Option<(Plan, Prepared)>)
    ensures plan.Some? <==>
              && report.filesMatch && report.readsMatch && report.layoutMatches && report.slotErased
              && installedWith == report.backup == sha(backup)
              && installedOffset == 14680064 && 0 < installedSize <= 4128768 && installedSize % 4096 == 0
    ensures plan.Some? ==> plan.value.0.original == backup && plan.value.1.appSize == installedSize
                           && PlanSound(plan.value.0, plan.value.1, sha)
  {
    if !report.filesMatch || !report.readsMatch {
      return None;
    }
    if !report.layoutMatches || !report.slotErased || installedWith != report.backup {
      return None;
    }
    if installedOffset != SLOT || !(0 < installedSize <= SLOT_SIZE && installedSize % SECTOR == 0) {
      return None;
    }
    if sha(backup) != report.backup {
      return None;
    }
    var regions := [(NVS, NVS_SIZE), (SLOT, installedSize), (OTADATA, OTADATA_SIZE)];
    var writes: seq<Region> := [];
    for i := 0 to |regions|
      invariant writes == Expected(backup, installedSize, sha)[..i]
    {
      var bytes := backup[regions[i].0..regions[i].0 + regions[i].1];
      writes := writes + [Region(regions[i].0, bytes, sha(bytes))];
    }
    assert Expected(backup, installedSize, sha)[..3] == Expected(backup, installedSize, sha);
    return Some((Plan(report.backup, backup, writes), Prepared(report.backup, installedSize)));
  }

  /** A plan that passes is the one that was prepared, whatever has been done to the object since. */
  method CheckPlan(plan: Plan, prepared: Prepared, original: Image, sha: seq<Byte> -> Hash) returns (ok: bool)
    requires Injective(sha) && AppSizeOk(prepared.appSize) && prepared.backup == sha(original)
    ensures ok <==> PlanSound(plan, prepared, sha)
    ensures ok ==> plan.original == original
  {
    if plan.backup != prepared.backup || sha(plan.original) != prepared.backup {
      return false;
    }
    assert plan.original == original;
    if |plan.writes| != 3 {
      return false;
    }
    var offsets, sizes := [NVS, SLOT, OTADATA], [NVS_SIZE, prepared.appSize, OTADATA_SIZE];
    for i := 0 to 3
      invariant forall k :: 0 <= k < i ==> plan.writes[k] == Expected(original, prepared.appSize, sha)[k]
    {
      var item := plan.writes[i];
      if item.offset != offsets[i] || |item.bytes| != sizes[i] {
        return false;
      }
      if sha(item.bytes) != item.digest || sha(plan.original[item.offset..item.offset + sizes[i]]) != item.digest {
        return false;
      }
      assert item == Expected(original, prepared.appSize, sha)[i];
    }
    assert plan.writes == Expected(original, prepared.appSize, sha);
    return true;
  }

  // ----- checking and recovering -----

  /** Accepts exactly the flashes that differ from the original only where the plan writes. */
  method ValidateRecovery(device: Device, plan: Plan, prepared: Prepared, sha: seq<Byte> -> Hash)
    returns (accepted: bool, current: Hash, changed: nat)
    requires PlanSound(plan, prepared, sha)
    ensures accepted ==> OnlyRestorableChanged(device.flash, plan.original, prepared.appSize)
    ensures accepted ==> current == sha(device.flash)
    ensures accepted ==> (changed == 0 <==> device.flash == plan.original)
    ensures device.faultFree ==> (accepted <==> OnlyRestorableChanged(device.flash, plan.original, prepared.appSize))
  {
    hide Expected, PlanSound;
    changed := 0;
    current := 0;
    var seen: seq<Byte> := [];
    var at := 0;
    NoDifference(device.flash, plan.original, prepared.appSize);
    while at < FLASH_BYTES
      invariant 0 <= at <= FLASH_BYTES && at % BLOCK == 0
      invariant seen == device.flash[0..at]
      invariant OnlyChanged(device.flash[0..at], plan.original, 0, prepared.appSize)
      invariant changed == 0 <==> device.flash[0..at] == plan.original[0..at]
    {
      hide OnlyChanged;
      var chunk := device.Read(at, BLOCK);
      if chunk.None? {
        return false, current, changed;
      }
      var bytes := chunk.value;
      JoinSlices(device.flash, 0, at, at + BLOCK);
      JoinSlices(plan.original, 0, at, at + BLOCK);
      seen := seen + bytes;
      var allowed, differing := CompareRegions(bytes, at, plan, prepared, sha);
      JoinChanged(device.flash, plan.original, at, prepared.appSize);
      if !allowed {
        return false, current, changed;
      }
      assert device.flash[0..at + BLOCK] == plan.original[0..at + BLOCK] <==>
             device.flash[0..at] == plan.original[0..at] && bytes == plan.original[at..at + BLOCK];
      changed := changed + differing;
      at := at + BLOCK;
    }
    assert device.flash[0..at] == device.flash && plan.original[0..at] == plan.original;
    return true, sha(seen), changed;
  }

  /** A stretch of flash read at `at` differs from the original only where it can be put back. */
  ghost predicate OnlyChanged(bytes: seq<Byte>, original: Image, at: nat, appSize: nat)
    requires at + |bytes| <= FLASH_BYTES
  {
    forall k :: 0 <= k < |bytes| && bytes[k] != original[at + k] ==> Restorable(at + k, appSize)
  }

  lemma NoDifference(flash: Image, original: Image, appSize: nat)
    ensures OnlyChanged(flash[0..0], original, 0, appSize) && flash[0..0] == original[0..0] == []
  {
  }

  /** One block: whether it differs only in the plan's regions, and in how many bytes. */
  method CompareRegions(bytes: seq<Byte>, at: nat, plan: Plan, prepared: Prepared, sha: seq<Byte> -> Hash)
    returns (allowed: bool, differing: nat)
    requires PlanSound(plan, prepared, sha) && at + |bytes| <= FLASH_BYTES
    ensures allowed <==> OnlyChanged(bytes, plan.original, at, prepared.appSize)
    ensures allowed ==> (differing == 0 <==> bytes == plan.original[at..at + |bytes|])
  {
    hide PlanSound;
    ghost var expected := plan.original[at..at + |bytes|];
    differing := 0;
    for i := 0 to |bytes|
      invariant forall k :: 0 <= k < i && bytes[k] != plan.original[at + k] ==> Restorable(at + k, prepared.appSize)
      invariant differing == 0 <==> forall k :: 0 <= k < i ==> bytes[k] == expected[k]
    {
      assert expected[i] == plan.original[at + i];
      if bytes[i] != plan.original[at + i] {
        RegionsAreRestorable(plan, prepared, sha, at + i);
        if !(exists r :: 0 <= r < |plan.writes| &&
                         plan.writes[r].offset <= at + i < plan.writes[r].offset + |plan.writes[r].bytes|) {
          return false, differing;
        }
        differing := differing + 1;
      }
    }
    return true, differing;
  }

  lemma JoinChanged(flash: Image, original: Image, at: nat, appSize: nat)
    requires at + BLOCK <= FLASH_BYTES && OnlyChanged(flash[0..at], original, 0, appSize)
    ensures OnlyChanged(flash[at..at + BLOCK], original, at, appSize) <==>
              OnlyChanged(flash[0..at + BLOCK], original, 0, appSize)
    ensures !OnlyChanged(flash[at..at + BLOCK], original, at, appSize) ==>
              !OnlyRestorableChanged(flash, original, appSize)
  {
    var block, grown := flash[at..at + BLOCK], flash[0..at + BLOCK];
    if OnlyChanged(block, original, at, appSize) {
      forall k | 0 <= k < at + BLOCK && grown[k] != original[0 + k] ensures Restorable(0 + k, appSize) {
        if k < at {
          assert flash[0..at][k] == grown[k];
        } else {
          assert block[k - at] == grown[k];
        }
      }
    } else {
      var k :| 0 <= k < BLOCK && block[k] != original[at + k] && !Restorable(at + k, appSize);
      assert grown[at + k] == block[k] == flash[at + k];
    }
  }

  lemma RegionsAreRestorable(plan: Plan, prepared: Prepared, sha: seq<Byte> -> Hash, at: nat)
    requires PlanSound(plan, prepared, sha)
    ensures Restorable(at, prepared.appSize) <==>
            exists r :: && 0 <= r < |plan.writes|
                        && plan.writes[r].offset <= at < plan.writes[r].offset + |plan.writes[r].bytes|
  {
    var w := plan.writes;
    assert w[0].offset == NVS && |w[0].bytes| == NVS_SIZE;
    assert w[1].offset == SLOT && |w[1].bytes| == prepared.appSize;
    assert w[2].offset == OTADATA && |w[2].bytes| == OTADATA_SIZE;
  }

  datatype Result = Refused | Interrupted | Completed

  /** Nothing is written unless the whole flash was just compared; what a started recovery leaves differs from the
      original only where it can still be put back; and a completed one leaves every byte as it was. */
  method ExecuteRecovery(device: Device, plan: Plan, prepared: Prepared, original: Image, review: Hash, consent: bool,
                         sha: seq<Byte> -> Hash) returns (result: Result)
    requires Injective(sha) && AppSizeOk(prepared.appSize) && prepared.backup == sha(original)
    modifies device
    ensures result.Refused? ==> device.flash == old(device.flash) && device.history == old(device.history)
    ensures (|| !consent || !PlanSound(plan, prepared, sha) || review != sha(old(device.flash))
             || !OnlyRestorableChanged(old(device.flash), original, prepared.appSize)) ==> result.Refused?
    ensures result.Completed? ==> device.flash == original
    ensures old(device.flash) == original ==> device.history == old(device.history)
    ensures old(device.history) <= device.history
    ensures forall k :: |old(device.history)| <= k < |device.history| ==>
              OnlyRestorableChanged(device.history[k], original, prepared.appSize)
    ensures OnlyRestorableChanged(old(device.flash), original, prepared.appSize) ==>
              OnlyRestorableChanged(device.flash, original, prepared.appSize)
    ensures (&& device.faultFree && consent && PlanSound(plan, prepared, sha) && review == sha(old(device.flash))
             && OnlyRestorableChanged(old(device.flash), original, prepared.appSize)) ==> result.Completed?
  {
    if !consent {
      return Refused;
    }
    var sound := CheckPlan(plan, prepared, original, sha);
    if !sound {
      return Refused;
    }
    var accepted, current, changed := ValidateRecovery(device, plan, prepared, sha);
    if !accepted || current != review {
      return Refused;
    }
    if changed != 0 {
      var restored := RestoreRegions(device, plan, prepared, sha);
      if !restored {
        return Interrupted;
      }
    }
    accepted, current, changed := ValidateRecovery(device, plan, prepared, sha);
    if !accepted || current != plan.backup {
      return Interrupted;
    }
    return Completed;
  }

  method RestoreRegions(device: Device, plan: Plan, prepared: Prepared, sha: seq<Byte> -> Hash) returns (ok: bool)
    requires Injective(sha) && PlanSound(plan, prepared, sha)
    requires OnlyRestorableChanged(device.flash, plan.original, prepared.appSize)
    modifies device
    ensures old(device.history) <= device.history
    ensures forall k :: |old(device.history)| <= k < |device.history| ==>
              OnlyRestorableChanged(device.history[k], plan.original, prepared.appSize)
    ensures OnlyRestorableChanged(device.flash, plan.original, prepared.appSize)
    ensures ok ==> device.flash == plan.original
    ensures device.faultFree ==> ok
  {
    for i := 0 to 3
      invariant old(device.history) <= device.history
      invariant forall k :: |old(device.history)| <= k < |device.history| ==>
                  OnlyRestorableChanged(device.history[k], plan.original, prepared.appSize)
      invariant OnlyRestorableChanged(device.flash, plan.original, prepared.appSize)
      invariant Restored(device.flash, plan, i)
    {
      hide Expected;
      var item := plan.writes[i];
      ghost var before, recorded := device.flash, device.history;
      RegionSlices(plan, prepared, sha, i);
      var written := device.Write(item.offset, item.bytes);
      forall k | |recorded| <= k < |device.history|
        ensures OnlyRestorableChanged(device.history[k], plan.original, prepared.appSize)
      {
        RegionWriteStaysRestorable(before, device.history[k], plan.original, prepared.appSize, item.offset,
                                   |item.bytes|);
      }
      RegionWriteStaysRestorable(before, device.flash, plan.original, prepared.appSize, item.offset, |item.bytes|);
      if !written {
        return false;
      }
      WrittenReads(before, item.offset, item.bytes);
      var digest := device.HashRange(item.offset, |item.bytes|, sha);
      if digest.None? || digest.value != item.digest {
        return false;
      }
      ReadBack(before, device.flash, item.offset, item.bytes, sha);
      RestoredStep(before, device.flash, plan, prepared, sha, i);
    }
    AllRestored(device.flash, plan, prepared, sha);
    return true;
  }

  /** The first `n` regions hold their original bytes again. */
  ghost predicate Restored(flash: Image, plan: Plan, n: nat) {
    && n <= |plan.writes|
    && forall r, at :: 0 <= r < n && 0 <= at < FLASH_BYTES
                       && Within(at, plan.writes[r].offset, |plan.writes[r].bytes|) ==>
         flash[at] == plan.original[at]
  }

  lemma RegionSlices(plan: Plan, prepared: Prepared, sha: seq<Byte> -> Hash, i: nat)
    requires PlanSound(plan, prepared, sha) && i < 3
    ensures |plan.writes| == 3
    ensures var item := plan.writes[i];
            && item.offset + |item.bytes| <= FLASH_BYTES
            && item.bytes == plan.original[item.offset..item.offset + |item.bytes|] && item.digest == sha(item.bytes)
            && forall at :: Within(at, item.offset, |item.bytes|) ==> Restorable(at, prepared.appSize)
  {
  }

  lemma RestoredStep(before: Image, after: Image, plan: Plan, prepared: Prepared, sha: seq<Byte> -> Hash, i: nat)
    requires PlanSound(plan, prepared, sha) && i < 3 && |plan.writes| == 3
    requires Restored(before, plan, i)
    requires plan.writes[i].offset + |plan.writes[i].bytes| <= FLASH_BYTES
    requires after == Overwritten(before, plan.writes[i].offset, plan.writes[i].bytes)
    ensures Restored(after, plan, i + 1)
  {
    RegionSlices(plan, prepared, sha, i);
    var item := plan.writes[i];
    forall r, at | 0 <= r < i + 1 && 0 <= at < FLASH_BYTES && Within(at, plan.writes[r].offset, |plan.writes[r].bytes|)
      ensures after[at] == plan.original[at]
    {
      if Within(at, item.offset, |item.bytes|) {
        assert after[at] == item.bytes[at - item.offset];
      } else {
        assert after[at] == before[at];
      }
    }
  }

  lemma AllRestored(flash: Image, plan: Plan, prepared: Prepared, sha: seq<Byte> -> Hash)
    requires PlanSound(plan, prepared, sha) && Restored(flash, plan, 3)
    requires OnlyRestorableChanged(flash, plan.original, prepared.appSize)
    ensures flash == plan.original
  {
    forall at | 0 <= at < FLASH_BYTES
      ensures flash[at] == plan.original[at]
    {
      RegionsAreRestorable(plan, prepared, sha, at);
    }
  }

  // ----- installing -----

  /** The application, padded to whole sectors, and one boot-selection sector. */
  datatype Install = Install(backup: Hash, app: seq<Byte>, appDigest: Hash, index: nat, sector: seq<Byte>,
                             sectorDigest: Hash) {
    predicate Shaped() { |app| <= SLOT_SIZE && index < 2 && |sector| == SECTOR }
    function Offset(): nat { OTADATA + index * SECTOR }
    /** Where the flash may differ from the original when this is installed again. */
    predicate MayDiffer(at: nat) {
      Within(at, SLOT, |app|) || Within(at, NVS, NVS_SIZE) || Within(at, Offset(), SECTOR)
    }
    predicate Intact(sha: seq<Byte> -> Hash) { sha(app) == appDigest && sha(sector) == sectorDigest }
  }

  ghost predicate AppInPlace(flash: Image, app: seq<Byte>)
    requires |app| <= SLOT_SIZE
  {
    flash[SLOT..SLOT + |app|] == app
  }

  ghost predicate SelectionUntouched(a: Image, b: Image) {
    a[OTADATA..OTADATA + OTADATA_SIZE] == b[OTADATA..OTADATA + OTADATA_SIZE]
  }

  /** The application is written and read back before the boot selection is touched at all. */
  method ExecuteWrites(device: Device, install: Install, sha: seq<Byte> -> Hash) returns (result: Result)
    requires Injective(sha) && install.Shaped()
    modifies device
    ensures result.Refused? <==> sha(install.app) != install.appDigest || sha(install.sector) != install.sectorDigest
    ensures result.Refused? ==> device.flash == old(device.flash) && device.history == old(device.history)
    ensures result.Completed? ==>
              && device.flash[14680064..14680064 + |install.app|] == install.app
              && var at := 1101824 + 4096 * install.index; device.flash[at..at + 4096] == install.sector
    ensures old(device.history) <= device.history
    ensures forall k :: |old(device.history)| <= k < |device.history| ==>
              InstallState(device.history[k], old(device.flash), install)
    ensures InstallState(device.flash, old(device.flash), install)
    ensures device.faultFree && install.Intact(sha) ==> result.Completed?
  {
    if sha(install.app) != install.appDigest || sha(install.sector) != install.sectorDigest {
      return Refused;
    }
    var written := device.Write(SLOT, install.app);
    if !written {
      return Interrupted;
    }
    WrittenReads(old(device.flash), SLOT, install.app);
    var digest := device.HashRange(SLOT, |install.app|, sha);
    if digest.None? || digest.value != install.appDigest {
      return Interrupted;
    }
    ReadBack(old(device.flash), device.flash, SLOT, install.app, sha);
    ghost var between := device.flash;
    ghost var recorded := device.history;
    written := device.Write(install.Offset(), install.sector);
    forall k | |recorded| <= k < |device.history|
      ensures InstallState(device.history[k], old(device.flash), install)
    {
      SelectionState(between, device.history[k], old(device.flash), install);
    }
    SelectionState(between, device.flash, old(device.flash), install);
    if !written {
      return Interrupted;
    }
    WrittenReads(between, install.Offset(), install.sector);
    digest := device.HashRange(install.Offset(), SECTOR, sha);
    if digest.None? || digest.value != install.sectorDigest {
      return Interrupted;
    }
    ReadBack(between, device.flash, install.Offset(), install.sector, sha);
    return Completed;
  }

  /** Every state an installation passes through: only its two areas changed, and the boot selection changed only
      over the complete application. */
  ghost predicate InstallState(flash: Image, start: Image, install: Install)
    requires install.Shaped()
  {
    && (forall at :: 0 <= at < FLASH_BYTES && !Within(at, SLOT, |install.app|)
                     && !Within(at, install.Offset(), SECTOR) ==>
          flash[at] == start[at])
    && (SelectionUntouched(flash, start) || AppInPlace(flash, install.app))
  }

  lemma SelectionState(between: Image, flash: Image, start: Image, install: Install)
    requires install.Shaped() && InstallState(between, start, install) && AppInPlace(between, install.app)
    requires SameOutside(flash, between, install.Offset(), SECTOR)
    ensures InstallState(flash, start, install) && AppInPlace(flash, install.app)
  {
    assert flash[SLOT..SLOT + |install.app|] == between[SLOT..SLOT + |install.app|];
  }

  /** A first installation is refused unless the flash is exactly the backup. */
  method InstallFirst(device: Device, install: Install, original: Image, approved: bool, sha: seq<Byte> -> Hash)
    returns (result: Result)
    requires Injective(sha) && install.Shaped() && install.backup == sha(original)
    modifies device
    ensures result.Refused? ==> device.flash == old(device.flash) && device.history == old(device.history)
    ensures !result.Refused? ==>
              && approved && old(device.flash) == original
              && sha(install.app) == install.appDigest && sha(install.sector) == install.sectorDigest
    ensures result.Completed? ==> Installed(device.flash, install)
    ensures old(device.history) <= device.history
    ensures forall k :: |old(device.history)| <= k < |device.history| ==>
              InstallState(device.history[k], old(device.flash), install)
    ensures InstallState(device.flash, old(device.flash), install)
    ensures device.faultFree && approved && install.Intact(sha) && old(device.flash) == original ==> result.Completed?
  {
    if !approved {
      return Refused;
    }
    assert device.flash[0..FLASH_BYTES] == device.flash;
    var digest := device.HashRange(0, FLASH_BYTES, sha);
    if digest.None? || digest.value != install.backup {
      return Refused;
    }
    result := ExecuteWrites(device, install, sha);
  }

  /** The application and its boot selection are there. */
  ghost predicate Installed(flash: Image, install: Install)
    requires install.Shaped()
  {
    AppInPlace(flash, install.app) && flash[install.Offset()..install.Offset() + SECTOR] == install.sector
  }

  ghost predicate Reinstallable(flash: Image, original: Image, install: Install, previousDigest: Hash,
                                sha: seq<Byte> -> Hash)
    requires install.Shaped()
  {
    && (forall at :: 0 <= at < FLASH_BYTES && flash[at] != original[at] ==> install.MayDiffer(at))
    && (flash == original || sha(flash[SLOT..SLOT + |install.app|]) in {previousDigest, install.appDigest})
  }

  function PaddedTo(app: seq<Byte>, size: nat): (r: seq<Byte>)
    requires |app| <= size
    ensures |r| == size && r[..|app|] == app && forall k :: |app| <= k < size ==> r[k] == 255
  {
    app + seq(size - |app|, _ => 255)
  }

  /** A reinstallation covers both applications, the one that may be there and the new one, and its recovery plan puts
      back all of that area. */
  method PrepareReinstall(original: Image, report: Audit, install: Install, previous: Install, compatible: bool,
                          sha: seq<Byte> -> Hash)
    returns (result: Option<(Install, Hash, Plan, Prepared)>)
    requires Injective(sha) && install.Shaped() && previous.Shaped()
    requires |install.app| % SECTOR == 0 && |previous.app| % SECTOR == 0 && 0 < |install.app|
    ensures result.Some? <==>
              compatible && report.Original() && install.backup == previous.backup == report.backup == sha(original)
    ensures result.Some? ==>
              var (covering, previousDigest, plan, known) := result.value;
              && covering.Shaped() && covering.appDigest == sha(covering.app)
              && |install.app| <= |covering.app| && |previous.app| <= |covering.app|
              && covering == install.(app := PaddedTo(install.app, |covering.app|),
                                      appDigest := sha(PaddedTo(install.app, |covering.app|)))
              && previousDigest == sha(PaddedTo(previous.app, |covering.app|))
              && PlanSound(plan, known, sha) && plan.original == original && known.appSize == |covering.app|
  {
    if !compatible || install.backup != previous.backup {
      return None;
    }
    var size := if |install.app| <= |previous.app| then |previous.app| else |install.app|;
    var bytes := PaddedTo(install.app, size);
    var covering := install.(app := bytes, appDigest := sha(bytes));
    var recovery := PrepareRecovery(original, report, install.backup, SLOT, size, sha);
    if recovery.None? {
      return None;
    }
    return Some((covering, sha(PaddedTo(previous.app, size)), recovery.value.0, recovery.value.1));
  }

  /** Where the previous installation completed on the original flash and its application then only changed its
      settings, the reinstallation is accepted, and everything it may change is in its own recovery plan. */
  lemma CompletedInstallIsReinstallable(flash: Image, original: Image, covering: Install, previous: Install,
                                        sha: seq<Byte> -> Hash)
    requires covering.Shaped() && previous.Shaped() && |previous.app| <= |covering.app| &&
             covering.index == previous.index
    requires forall at :: SLOT <= at < SLOT + SLOT_SIZE ==> original[at] == 255
    requires forall at :: 0 <= at < FLASH_BYTES && flash[at] != original[at] ==>
               Within(at, SLOT, |previous.app|) || Within(at, NVS, NVS_SIZE) || Within(at, previous.Offset(), SECTOR)
    requires AppInPlace(flash, previous.app)
    ensures Reinstallable(flash, original, covering, sha(PaddedTo(previous.app, |covering.app|)), sha)
    ensures OnlyRestorableChanged(flash, original, |covering.app|)
  {
    var padded := PaddedTo(previous.app, |covering.app|);
    var there := flash[SLOT..SLOT + |covering.app|];
    forall k | 0 <= k < |covering.app| ensures there[k] == padded[k] {
      if k < |previous.app| {
        assert there[k] == flash[SLOT..SLOT + |previous.app|][k];
      } else {
        assert there[k] == flash[SLOT + k] == original[SLOT + k];
      }
    }
    assert there == padded;
  }

  /** What a reinstallation accepts instead: the original but for the settings, the application area and the one
      selection sector, with a known application in that area. */
  method InspectPrepared(device: Device, install: Install, original: Image, previousDigest: Hash,
                         sha: seq<Byte> -> Hash)
    returns (accepted: bool)
    requires Injective(sha) && install.Shaped() && install.backup == sha(original)
    ensures accepted ==> Reinstallable(device.flash, original, install, previousDigest, sha)
    ensures device.faultFree ==> (accepted <==> Reinstallable(device.flash, original, install, previousDigest, sha))
  {
    hide Reinstallable, OnlyReinstalled, Clamp;
    NoBlocks(device.flash, original, install);
    var whole: seq<Byte>, image: seq<Byte> := [], [];
    var at := 0;
    while at < FLASH_BYTES
      invariant 0 <= at <= FLASH_BYTES && at % BLOCK == 0
      invariant whole == device.flash[..at]
      invariant Clamp(0, install) <= Clamp(at, install) <= FLASH_BYTES
      invariant image == device.flash[Clamp(0, install)..Clamp(at, install)]
      invariant OnlyReinstalled(device.flash[..at], original, 0, install)
    {
      var chunk := device.Read(at, BLOCK);
      if chunk.None? {
        return false;
      }
      var bytes := chunk.value;
      NextBlock(device.flash, at, install);
      whole := whole + bytes;
      var lo, hi := Clamp(at, install), Clamp(at + BLOCK, install);
      if lo < hi {
        image := image + bytes[lo - at..hi - at];
      }
      var same := CompareBlock(bytes, original, at, install);
      JoinBlocks(device.flash, original, at, install);
      if !same {
        SomeOther(device.flash, original, at, install, previousDigest, sha);
        return false;
      }
      at := at + BLOCK;
    }
    assert device.flash[..at] == device.flash;
    AllBlocks(install);
    Recognized(device.flash, original, install, previousDigest, sha);
    if sha(whole) != install.backup {
      var hash := sha(image);
      if hash != previousDigest && hash != install.appDigest {
        return false;
      }
    }
    return true;
  }

  /** Where an installation was prepared before, a recognized flash is accepted as well. */
  method InstallAgain(device: Device, install: Install, original: Image, previousDigest: Hash, approved: bool,
                      sha: seq<Byte> -> Hash)
    returns (result: Result)
    requires Injective(sha) && install.Shaped() && install.backup == sha(original)
    modifies device
    ensures result.Refused? ==> device.flash == old(device.flash) && device.history == old(device.history)
    ensures !result.Refused? ==>
              && approved && sha(install.app) == install.appDigest && sha(install.sector) == install.sectorDigest
              && Reinstallable(old(device.flash), original, install, previousDigest, sha)
    ensures result.Completed? ==> Installed(device.flash, install)
    ensures old(device.history) <= device.history
    ensures forall k :: |old(device.history)| <= k < |device.history| ==>
              InstallState(device.history[k], old(device.flash), install)
    ensures InstallState(device.flash, old(device.flash), install)
    ensures (&& device.faultFree && approved && install.Intact(sha)
             && Reinstallable(old(device.flash), original, install, previousDigest, sha)) ==> result.Completed?
  {
    hide Reinstallable;
    if !approved {
      return Refused;
    }
    var accepted := InspectPrepared(device, install, original, previousDigest, sha);
    if !accepted {
      return Refused;
    }
    result := ExecuteWrites(device, install, sha);
  }

  /** A stretch of flash read at `at` differs from the original only where a reinstallation may differ. */
  ghost predicate OnlyReinstalled(bytes: seq<Byte>, original: Image, at: nat, install: Install)
    requires at + |bytes| <= FLASH_BYTES
  {
    forall k :: 0 <= k < |bytes| && bytes[k] != original[at + k] ==> install.MayDiffer(at + k)
  }

  method CompareBlock(bytes: seq<Byte>, original: Image, at: nat, install: Install) returns (same: bool)
    requires at + |bytes| <= FLASH_BYTES
    ensures same <==> OnlyReinstalled(bytes, original, at, install)
  {
    for i := 0 to |bytes|
      invariant OnlyReinstalled(bytes[..i], original, at, install)
    {
      var address := at + i;
      if bytes[i] != original[address] {
        if !(Within(address, SLOT, |install.app|) || Within(address, NVS, NVS_SIZE)
             || Within(address, install.Offset(), SECTOR)) {
          return false;
        }
      }
    }
    assert bytes[..|bytes|] == bytes;
    return true;
  }

  lemma NoBlocks(flash: Image, original: Image, install: Install)
    requires install.Shaped()
    ensures OnlyReinstalled(flash[..0], original, 0, install) && Clamp(0, install) <= FLASH_BYTES &&
            flash[Clamp(0, install)..Clamp(0, install)] == []
  {
  }

  lemma AllBlocks(install: Install)
    requires install.Shaped()
    ensures Clamp(0, install) == SLOT && Clamp(FLASH_BYTES, install) == SLOT + |install.app|
  {
  }

  lemma NextBlock(flash: Image, at: nat, install: Install)
    requires install.Shaped() && at + BLOCK <= FLASH_BYTES
    ensures flash[0..at] + flash[at..at + BLOCK] == flash[0..at + BLOCK]
    ensures var lo, hi, bytes := Clamp(at, install), Clamp(at + BLOCK, install), flash[at..at + BLOCK];
            && Clamp(0, install) <= lo <= hi <= FLASH_BYTES
            && (lo < hi ==> at <= lo && hi <= at + BLOCK)
            && (lo < hi ==> flash[Clamp(0, install)..lo] + bytes[lo - at..hi - at] == flash[Clamp(0, install)..hi])
  {
    JoinSlices(flash, 0, at, at + BLOCK);
    var first, lo, hi := Clamp(0, install), Clamp(at, install), Clamp(at + BLOCK, install);
    if lo < hi {
      SubSlice(flash, at, lo, hi);
      JoinSlices(flash, first, lo, hi);
    }
  }

  lemma SubSlice(flash: Image, at: nat, lo: nat, hi: nat)
    requires at <= lo <= hi <= at + BLOCK <= FLASH_BYTES
    ensures flash[at..at + BLOCK][lo - at..hi - at] == flash[lo..hi]
  {
    var block, part := flash[at..at + BLOCK], flash[lo..hi];
    assert forall k :: 0 <= k < hi - lo ==>
             block[lo - at..hi - at][k] == block[lo - at + k] == flash[lo + k] == part[k];
  }

  lemma JoinSlices(flash: Image, a: nat, b: nat, c: nat)
    requires a <= b <= c <= FLASH_BYTES
    ensures flash[a..b] + flash[b..c] == flash[a..c]
  {
    var joined := flash[a..b] + flash[b..c];
    assert forall k :: 0 <= k < b - a ==> joined[k] == flash[a + k] == flash[a..c][k];
    assert forall k :: b - a <= k < c - a ==> joined[k] == flash[b..c][k - (b - a)] == flash[a + k] == flash[a..c][k];
  }

  lemma JoinBlocks(flash: Image, original: Image, at: nat, install: Install)
    requires at + BLOCK <= FLASH_BYTES && OnlyReinstalled(flash[..at], original, 0, install)
    ensures OnlyReinstalled(flash[at..at + BLOCK], original, at, install) ==>
              OnlyReinstalled(flash[..at + BLOCK], original, 0, install)
  {
    if OnlyReinstalled(flash[at..at + BLOCK], original, at, install) {
      forall k | 0 <= k < at + BLOCK && flash[k] != original[k] ensures install.MayDiffer(k) {
        if k < at {
          assert flash[..at][k] != original[0 + k];
        } else {
          assert flash[at..at + BLOCK][k - at] != original[at + (k - at)];
        }
      }
    }
  }

  lemma SomeOther(flash: Image, original: Image, at: nat, install: Install, previousDigest: Hash,
                  sha: seq<Byte> -> Hash)
    requires install.Shaped() && at + BLOCK <= FLASH_BYTES &&
             !OnlyReinstalled(flash[at..at + BLOCK], original, at, install)
    ensures !Reinstallable(flash, original, install, previousDigest, sha)
  {
  }

  lemma Recognized(flash: Image, original: Image, install: Install, previousDigest: Hash, sha: seq<Byte> -> Hash)
    requires install.Shaped() && OnlyReinstalled(flash, original, 0, install)
    ensures Reinstallable(flash, original, install, previousDigest, sha) <==>
              flash == original || sha(flash[SLOT..SLOT + |install.app|]) in {previousDigest, install.appDigest}
  {
    forall at | 0 <= at < FLASH_BYTES && flash[at] != original[at] ensures install.MayDiffer(at) {
      assert flash[at] != original[0 + at];
    }
  }

  /** How far into the application area a position is. */
  function Clamp(at: nat, install: Install): nat
    requires install.Shaped()
  {
    if at < SLOT then SLOT else if SLOT + |install.app| < at then SLOT + |install.app| else at
  }

  // ----- what an installation can do to the boot -----

  function BootOf(flash: Image, crc: seq<Byte> -> Word): BootSelection.Boot {
    BootSelection.Booted(flash[OTADATA..OTADATA + SECTOR], flash[OTADATA + SECTOR..OTADATA + OTADATA_SIZE], crc)
  }

  /** Interrupted anywhere, a first installation boots the new application only when all of it is there. */
  lemma FirstInstallNeverBootsPartialApp(flash: Image, original: Image, install: Install, crc: seq<Byte> -> Word)
    requires install.Shaped() && InstallState(flash, original, install)
    requires BootSelection.NextSelection(original[OTADATA..OTADATA + OTADATA_SIZE], crc).Some?
    ensures BootOf(flash, crc) == BootSelection.OtaSlot(1) ==> AppInPlace(flash, install.app)
  {
    BootSelection.SwitchesToNewApp(original[OTADATA..OTADATA + OTADATA_SIZE], crc);
    Halves(original);
    Halves(flash);
  }

  /** With the selection that the plan was made with in place, the next boot is the new application. */
  lemma CompletedInstallBoots(flash: Image, original: Image, install: Install, crc: seq<Byte> -> Word)
    requires install.Shaped() && InstallState(flash, original, install) && PlannedSelection(install, original, crc)
    requires flash[install.Offset()..install.Offset() + SECTOR] == install.sector
    ensures BootOf(flash, crc) == BootSelection.OtaSlot(1)
  {
    hide InstallState;
    BootSelection.SwitchesToNewApp(original[OTADATA..OTADATA + OTADATA_SIZE], crc);
    SelectionReplaced(flash, original, install);
    Halves(flash);
  }

  lemma SelectionReplaced(flash: Image, original: Image, install: Install)
    requires install.Shaped() && InstallState(flash, original, install)
    requires flash[install.Offset()..install.Offset() + SECTOR] == install.sector
    ensures BootSelection.Replaced(original[OTADATA..OTADATA + OTADATA_SIZE], install.index, install.sector)
         == flash[OTADATA..OTADATA + OTADATA_SIZE]
  {
    Halves(original);
    Halves(flash);
    var kept := if install.index == 0 then OTADATA + SECTOR else OTADATA;
    SameRange(flash, original, kept, kept + SECTOR);
  }

  /** The selection area is its two sectors. */
  lemma Halves(flash: Image)
    ensures var data := flash[OTADATA..OTADATA + OTADATA_SIZE];
            && data[..SECTOR] == flash[OTADATA..OTADATA + SECTOR]
            && data[SECTOR..] == flash[OTADATA + SECTOR..OTADATA + OTADATA_SIZE]
            && data == data[..SECTOR] + data[SECTOR..]
  {
    var data, first := flash[OTADATA..OTADATA + OTADATA_SIZE], flash[OTADATA..OTADATA + SECTOR];
    var second := flash[OTADATA + SECTOR..OTADATA + OTADATA_SIZE];
    JoinSlices(flash, OTADATA, OTADATA + SECTOR, OTADATA + OTADATA_SIZE);
    assert data == first + second;
  }

  lemma SameRange(flash: Image, original: Image, from: nat, to: nat)
    requires from <= to <= FLASH_BYTES
    requires forall at :: from <= at < to ==> flash[at] == original[at]
    ensures flash[from..to] == original[from..to]
  {
    var here, there := flash[from..to], original[from..to];
    assert forall k :: 0 <= k < to - from ==> here[k] == flash[from + k] == original[from + k] == there[k];
  }

  ghost predicate PlannedSelection(install: Install, original: Image, crc: seq<Byte> -> Word) {
    var next := BootSelection.NextSelection(original[OTADATA..OTADATA + OTADATA_SIZE], crc);
    next.Some? && next.value.index == install.index && next.value.sector == install.sector
  }

  function WholeSectors(size: nat): (r: nat)
    ensures size <= r < size + SECTOR && r % SECTOR == 0
    ensures size <= SLOT_SIZE ==> r <= SLOT_SIZE
  {
    (size + SECTOR - 1) / SECTOR * SECTOR
  }

  lemma SelectionShape(data: seq<Byte>, crc: seq<Byte> -> Word)
    requires |data| == OTADATA_SIZE && BootSelection.NextSelection(data, crc).Some?
    ensures var next := BootSelection.NextSelection(data, crc).value; next.index < 2 && |next.sector| == SECTOR
  {
    BootSelection.SwitchesToNewApp(data, crc);
  }

  /** What a verified release says about the software it is for; its own bounds were checked with its signature. */
  datatype Release = Release(compatible: bool, app: Hash, size: nat, bootloader: Hash, table: Hash) {
    predicate Verified() { 24 <= size <= SLOT_SIZE }
  }

  /** A digested application for this processor, at a revision that includes the board's. */
  predicate ForThisBoard(app: seq<Byte>) {
    && 24 <= |app| && app[0] == 0xE9 && Le16(app, 12) == 18 && app[23] == 1
    && Le16(app, 15) <= 103 && (Le16(app, 17) == 0 || 103 <= Le16(app, 17))
  }

  /** The plan for an application: padded with ones to whole sectors, and the next boot selection of the backup. The
      image's own segments and checksums are a fact here. */
  method MakePlan(original: Image, report: Audit, release: Release, app: seq<Byte>, segmentsOk: bool,
                  crc: seq<Byte> -> Word, sha: seq<Byte> -> Hash)
    returns (plan: Option<Install>)
    requires release.Verified()
    ensures plan.Some? <==>
              && release.compatible && report.modelConfirmed
              && report.layoutMatches && report.readsMatch && report.slotErased
              && sha(app) == release.app && |app| == release.size && segmentsOk
              && 24 <= |app| && app[0] == 0xE9 && Le16(app, 12) == 18 && app[23] == 1
              && Le16(app, 15) <= 103 && (Le16(app, 17) == 0 || 103 <= Le16(app, 17))
              && sha(original[8192..32768]) == release.bootloader && sha(original[32768..36864]) == release.table
              && BootSelection.NextSelection(original[1101824..1110016], crc).Some?
    ensures plan.Some? ==>
              && plan.value.backup == report.backup
              && sha(plan.value.app) == plan.value.appDigest && sha(plan.value.sector) == plan.value.sectorDigest
              && |app| <= |plan.value.app| < |app| + 4096 && |plan.value.app| % 4096 == 0
              && plan.value.app[..|app|] == app
              && (forall k :: |app| <= k < |plan.value.app| ==> plan.value.app[k] == 255)
              && var next := BootSelection.NextSelection(original[1101824..1110016], crc).value;
              plan.value.index == next.index && plan.value.sector == next.sector
    ensures plan.Some? ==>
              plan.value.Shaped() && AppSizeOk(|plan.value.app|) && PlannedSelection(plan.value, original, crc)
  {
    hide BootSelection.NextSelection, WholeSectors, PaddedTo;
    if !release.compatible || !report.modelConfirmed {
      return None;
    }
    if !report.layoutMatches || !report.readsMatch || !report.slotErased {
      return None;
    }
    if sha(app) != release.app || |app| != release.size || !segmentsOk || !ForThisBoard(app) {
      return None;
    }
    if sha(original[BOOT..TABLE]) != release.bootloader || sha(original[TABLE..TABLE + SECTOR]) != release.table {
      return None;
    }
    var data := original[OTADATA..OTADATA + OTADATA_SIZE];
    var selection := BootSelection.SelectBoot(data, crc);
    if selection.None? {
      return None;
    }
    SelectionShape(data, crc);
    var bytes := PaddedTo(app, WholeSectors(|app|));
    var next := selection.value;
    return Some(Install(report.backup, bytes, sha(bytes), next.index, next.sector, sha(next.sector)));
  }

  lemma InstallStaysRestorable(flash: Image, start: Image, original: Image, install: Install, appSize: nat)
    requires install.Shaped() && |install.app| <= appSize && InstallState(flash, start, install)
    requires OnlyRestorableChanged(start, original, appSize)
    ensures OnlyRestorableChanged(flash, original, appSize)
  {
  }

  // ----- everything together -----

  /** What the running application does on its own: it rewrites its settings, and the bootloader the boot selection. */
  method RunApplication(device: Device, settings: seq<Byte>, selection: seq<Byte>)
    requires |settings| == NVS_SIZE && |selection| == OTADATA_SIZE
    modifies device
    ensures device.flash == Overwritten(Overwritten(old(device.flash), NVS, settings), OTADATA, selection)
    ensures device.history == old(device.history) + [device.flash]
    ensures ApplicationRan(old(device.flash), device.flash)
  {
    device.flash := Overwritten(Overwritten(device.flash, NVS, settings), OTADATA, selection);
    device.history := device.history + [device.flash];
  }

  /** One thing that can happen to the flash, seen at any moment while it happens: an installation from a flash the
      installer accepts, cut off anywhere; the application running; a recovery attempt, cut off anywhere. */
  ghost predicate Disturbance(before: Image, after: Image, original: Image, appSize: nat) {
    || (exists install: Install :: install.Shaped() && |install.app| <= appSize
                                   && Startable(before, original, install) && InstallState(after, before, install))
    || ApplicationRan(before, after)
    || (OnlyRestorableChanged(before, original, appSize) && OnlyRestorableChanged(after, before, appSize))
  }

  ghost predicate Startable(flash: Image, original: Image, install: Install) {
    forall at :: 0 <= at < FLASH_BYTES && flash[at] != original[at] ==> install.MayDiffer(at)
  }

  ghost predicate ApplicationRan(before: Image, after: Image) {
    forall at :: 0 <= at < FLASH_BYTES && before[at] != after[at] ==>
      Within(at, NVS, NVS_SIZE) || Within(at, OTADATA, OTADATA_SIZE)
  }

  /** A history of the flash: it starts as the original, and one disturbance follows another. */
  ghost predicate Chain(images: seq<Image>, appSize: nat) {
    && images != []
    && forall i :: 0 <= i < |images| - 1 ==> Disturbance(images[i], images[i + 1], images[0], appSize)
  }

  lemma DisturbanceStaysRestorable(before: Image, after: Image, original: Image, appSize: nat)
    requires OnlyRestorableChanged(before, original, appSize) && Disturbance(before, after, original, appSize)
    ensures OnlyRestorableChanged(after, original, appSize)
  {
    if install: Install :| install.Shaped() && |install.app| <= appSize && InstallState(after, before, install) {
      InstallStaysRestorable(after, before, original, install, appSize);
    }
  }

  /** Whatever is done to it, the flash can always be recovered. */
  lemma {:induction false} ChainStaysRestorable(images: seq<Image>, appSize: nat)
    requires Chain(images, appSize)
    ensures OnlyRestorableChanged(images[|images| - 1], images[0], appSize)
  {
    hide Disturbance, OnlyRestorableChanged;
    var last := |images| - 1;
    if last == 0 {
      Unchanged(images[0], appSize);
    } else {
      var earlier := images[..last];
      assert forall i :: 0 <= i < last ==> earlier[i] == images[i];
      ChainStaysRestorable(earlier, appSize);
      DisturbanceStaysRestorable(images[last - 1], images[last], images[0], appSize);
    }
  }

  lemma Unchanged(flash: Image, appSize: nat)
    ensures OnlyRestorableChanged(flash, flash, appSize)
  {
  }

  /** After any history of installations, reinstallations, application runs and recovery attempts, each cut off
      anywhere, one undisturbed recovery leaves the flash byte for byte the original. */
  method InstallThenRecover(ghost images: seq<Image>, original: Image, device: Device, appSize: nat,
                            sha: seq<Byte> -> Hash)
    requires Injective(sha) && AppSizeOk(appSize)
    requires Chain(images, appSize) && original == images[0] && device.flash == images[|images| - 1] && device.faultFree
    modifies device
    ensures device.flash == original
  {
    ChainStaysRestorable(images, appSize);
    var report := Audit(sha(original), true, true, true, true, true);
    var prepared := PrepareRecovery(original, report, sha(original), SLOT, appSize, sha);
    var (plan, known) := prepared.value;
    var result := ExecuteRecovery(device, plan, known, original, sha(device.flash), true, sha);
  }

  lemma InstallationDisturbs(after: Image, before: Image, original: Image, install: Install, appSize: nat)
    requires install.Shaped() && |install.app| <= appSize
    requires Startable(before, original, install) && InstallState(after, before, install)
    ensures Disturbance(before, after, original, appSize)
  {
  }

  lemma RecoveryDisturbs(after: Image, before: Image, original: Image, appSize: nat)
    requires OnlyRestorableChanged(before, original, appSize) && OnlyRestorableChanged(after, original, appSize)
    ensures Disturbance(before, after, original, appSize)
  {
    assert OnlyRestorableChanged(after, before, appSize);
  }

  datatype Attempt =
    | FirstInstall(install: Install, approved: bool)
    | Reinstall(install: Install, previousDigest: Hash, approved: bool)
    | Recovery(plan: Plan, known: Prepared, review: Hash, consent: bool)
    | ApplicationRun(settings: seq<Byte>, selection: seq<Byte>)

  /** What an attempt is for, once it is completed. */
  ghost predicate Achieved(attempt: Attempt, before: Image, after: Image, original: Image) {
    match attempt
    case FirstInstall(install, approved) => install.Shaped() && Installed(after, install)
    case Reinstall(install, previousDigest, approved) => install.Shaped() && Installed(after, install)
    case Recovery(plan, known, review, consent) => after == original
    case ApplicationRun(settings, selection) =>
      && |settings| == NVS_SIZE && |selection| == OTADATA_SIZE
      && after == Overwritten(Overwritten(before, NVS, settings), OTADATA, selection)
  }

  /** Whatever is attempted, every state the flash passes through is one disturbance away from where it was. */
  method Disturb(device: Device, attempt: Attempt, original: Image, appSize: nat, sha: seq<Byte> -> Hash)
    returns (result: Result)
    requires Injective(sha) && AppSizeOk(appSize)
    requires attempt.FirstInstall? || attempt.Reinstall? ==>
               attempt.install.Shaped() && |attempt.install.app| <= appSize && attempt.install.backup == sha(original)
    requires attempt.Recovery? ==> attempt.known == Prepared(sha(original), appSize)
    requires attempt.ApplicationRun? ==> |attempt.settings| == NVS_SIZE && |attempt.selection| == OTADATA_SIZE
    modifies device
    ensures old(device.history) <= device.history
    ensures forall k :: |old(device.history)| <= k < |device.history| ==>
              Disturbance(old(device.flash), device.history[k], original, appSize)
    ensures Disturbance(old(device.flash), device.flash, original, appSize)
    ensures result.Completed? ==> Achieved(attempt, old(device.flash), device.flash, original)
    ensures result.Refused? ==> device.flash == old(device.flash)
    ensures device.faultFree ==> !result.Interrupted?
    ensures device.faultFree && attempt.Reinstall? ==>
              (result.Completed? <==>
                 && attempt.approved && attempt.install.Intact(sha)
                 && Reinstallable(old(device.flash), original, attempt.install, attempt.previousDigest, sha))
    ensures attempt.ApplicationRun? ==> result.Completed?
  {
    hide Disturbance, InstallState, OnlyRestorableChanged, Reinstallable, PlanSound;
    ghost var start, before := device.flash, device.history;
    match attempt
    case FirstInstall(install, approved) =>
      result := InstallFirst(device, install, original, approved, sha);
      if result.Refused? {
        NothingDisturbs(start, original, appSize);
      } else {
        OriginalStarts(original, install);
        Disturbed(device, start, before, original, install, appSize);
      }
    case Reinstall(install, previousDigest, approved) =>
      result := InstallAgain(device, install, original, previousDigest, approved, sha);
      if result.Refused? {
        NothingDisturbs(start, original, appSize);
      } else {
        RecognizedStarts(start, original, install, previousDigest, sha);
        Disturbed(device, start, before, original, install, appSize);
      }
    case Recovery(plan, known, review, consent) =>
      result := ExecuteRecovery(device, plan, known, original, review, consent, sha);
      if result.Refused? {
        NothingDisturbs(start, original, appSize);
      } else {
        forall k | |before| <= k < |device.history| ensures Disturbance(start, device.history[k], original, appSize) {
          RecoveryDisturbs(device.history[k], start, original, appSize);
        }
        RecoveryDisturbs(device.flash, start, original, appSize);
      }
    case ApplicationRun(settings, selection) =>
      RunApplication(device, settings, selection);
      RunningDisturbs(device.flash, start, original, appSize);
      result := Completed;
  }

  lemma OriginalStarts(original: Image, install: Install)
    ensures Startable(original, original, install)
  {
  }

  lemma RecognizedStarts(flash: Image, original: Image, install: Install, previousDigest: Hash, sha: seq<Byte> -> Hash)
    requires install.Shaped() && Reinstallable(flash, original, install, previousDigest, sha)
    ensures Startable(flash, original, install)
  {
  }

  lemma NothingDisturbs(flash: Image, original: Image, appSize: nat)
    ensures Disturbance(flash, flash, original, appSize)
  {
  }

  lemma RunningDisturbs(after: Image, before: Image, original: Image, appSize: nat)
    requires ApplicationRan(before, after)
    ensures Disturbance(before, after, original, appSize)
  {
  }

  lemma Disturbed(device: Device, start: Image, before: seq<Image>, original: Image, install: Install, appSize: nat)
    requires install.Shaped() && |install.app| <= appSize && Startable(start, original, install)
    requires forall k :: |before| <= k < |device.history| ==> InstallState(device.history[k], start, install)
    requires InstallState(device.flash, start, install)
    ensures forall k :: |before| <= k < |device.history| ==> Disturbance(start, device.history[k], original, appSize)
    ensures Disturbance(start, device.flash, original, appSize)
  {
    hide Disturbance, InstallState;
    forall k | |before| <= k < |device.history| ensures Disturbance(start, device.history[k], original, appSize) {
      InstallationDisturbs(device.history[k], start, original, install, appSize);
    }
    InstallationDisturbs(device.flash, start, original, install, appSize);
  }
}
