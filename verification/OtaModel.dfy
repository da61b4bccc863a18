/** The device's half of the firmware-update protocol as values: the A/B board, the durable journal, and the
    invariant that ties both to the dashboard's rows at every moment of every run. */
module OtaModel {
  import opened Wrappers
  import opened Deployment

  const PROGRESS_STEP: nat := 262144

  // ----- the board -----

  datatype Slot = Ota0 | Ota1 {
    function Other(): Slot { if Ota0? then Ota1 else Ota0 }
  }

  datatype Pair<T> = Pair(zero: T, one: T) {
    function At(s: Slot): T { if s.Ota0? then zero else one }
    function With(s: Slot, v: T): Pair<T> { if s.Ota0? then this.(zero := v) else this.(one := v) }
  }

  datatype ImageState = New | PendingVerify | Valid | Invalid | Aborted | Undefined

  /** `boot` is the slot the boot-selection record names; `images` holds content hashes. */
  datatype Board = Board(running: Slot, boot: Slot, images: Pair<Hash>, states: Pair<ImageState>) {
    predicate Settled(s: Slot) { states.At(s).Valid? || states.At(s).Undefined? }
  }

  /** A restart: a new image gets one trial boot, an image that is refused, cut short or declares itself unfit before it
      is confirmed falls back, and a confirmed image keeps booting. */
  function PowerOn(b: Board, imageRejected: bool): Board {
    var s := b.boot;
    match b.states.At(s)
    case New =>
      if imageRejected
      then b.(running := s.Other(), boot := s.Other(), states := b.states.With(s, Invalid))
      else b.(running := s, states := b.states.With(s, PendingVerify))
    case PendingVerify =>
      b.(running := s.Other(), boot := s.Other(),
         states := b.states.With(s, if imageRejected then Invalid else Aborted))
    case Valid => b.(running := s)
    case Undefined => b.(running := s)
    case _ => b.(running := s.Other(), boot := s.Other())
  }

  /** The running image passes its startup checks; updates are only handled after this. */
  function ConfirmBoot(b: Board): Board {
    if b.states.At(b.running).PendingVerify? then b.(states := b.states.With(b.running, Valid)) else b
  }

  // ----- the journal -----

  datatype Journal = Journal(
    schema: nat, job: JobId, release: ReleaseId, previous: Hash, target: Hash, slot: Slot,
    size: nat, targetSequence: nat, state: JobState, sequence: nat, bytes: nat,
    committed: bool, pending: Option<Report>)

  predicate Terminal(state: JobState) { state.Confirmed? || state.RolledBack? || state.Failed? }

  function ReportFor(j: Journal, error: ErrorCode): Report {
    Report(j.release, j.sequence, j.state, j.bytes, if j.state.Confirmed? then j.target else j.previous, true, error)
  }

  /** The next entry of the journal: one report further, kept verbatim until it is answered. */
  function Next(j: Journal, state: JobState, bytes: nat, error: ErrorCode): Journal {
    var next := j.(state := state, sequence := j.sequence + 1, bytes := bytes);
    next.(pending := Some(ReportFor(next, error)))
  }

  /** What a device reports about a reboot it authorized: what runs decides, and a rollback is only claimed for a
      selection that was durably recorded and a slot the bootloader gave up on. */
  function ResumeOutcome(j: Journal, b: Board, recovering: bool): Journal {
    if b.images.At(b.running) == j.target then Next(j, Confirmed, j.size, NoError)
    else if !recovering && !j.committed then Next(j, Failed, j.size, ApprovalUnavailable)
    else if j.committed && (b.states.At(j.slot).Aborted? || b.states.At(j.slot).Invalid?) then
      Next(j, RolledBack, j.size, BootFailed)
    else Next(j, Failed, j.size, Storage)
  }

  /** The board settles what became of an authorized reboot: the target runs, or a recorded selection is undone. */
  predicate Decided(j: Journal, b: Board) {
    j.state.Rebooting? && (b.images.At(b.running) == j.target || (j.committed && b.boot == b.running))
  }

  function Shown(j: Journal, b: Board): JobState {
    if b.images.At(b.running) == j.target then Confirmed else RolledBack
  }

  /** The one end of an update that the device cannot report: it was to reboot, nothing says that it selected anything,
      and the bootloader's record of the slot is that of some abandoned image. */
  predicate Stuck(j: Journal, b: Board) {
    && j.state.Rebooting? && j.pending.None? && !j.committed
    && b.boot == b.running == j.slot.Other() && b.images.At(b.running) == j.previous != j.target
    && (b.states.At(j.slot).Aborted? || b.states.At(j.slot).Invalid?)
  }

  /** The slot that does not run still carries the mark of an image that was given up. */
  predicate LeftAbandoned(b: Board) {
    b.states.At(b.running.Other()).Aborted? || b.states.At(b.running.Other()).Invalid?
  }

  /** What ends there once nothing fails any more: the server has taken the rebooting report, or would take it. */
  ghost predicate HeadedForStuck(s: Server, j: Journal, b: Board) {
    && Stuck(j.(pending := None), b)
    && j.job in s.jobs && (s.jobs[j.job].state.Rebooting? || Authorized(s, s.jobs[j.job]))
  }

  /** The first report of a tick that starts with nothing pending, where the journal alone decides it. */
  function Planned(j: Journal, interrupted: bool, recovering: bool, b: Board): Option<Journal> {
    if Terminal(j.state) then None
    else if j.state.Rebooting? && (interrupted || b.images.At(b.running) == j.target)
    then Some(ResumeOutcome(j, b, recovering))
    else if interrupted then Some(Next(j, Failed, j.bytes, Network))
    else if j.state.Queued? then Some(Next(j, Downloading, 0, NoError))
    else None
  }

  /** What that first report says. An acknowledged outcome needs none. After a reboot the running image decides, a
      rollback is only claimed for a recorded selection that the bootloader gave up, and a process that selected nothing
      itself says that it was not approved; what a restart cut short failed at the bytes acknowledged by then. */
  lemma FirstReports(j: Journal, interrupted: bool, recovering: bool, b: Board)
    ensures var planned := Planned(j, interrupted, recovering, b);
            var runs := b.images.At(b.running) == j.target;
            var rebooting := j.state.Rebooting? && (interrupted || runs);
            var gone := b.states.At(j.slot) in {Aborted, Invalid};
            var mine := !recovering && !j.committed;
            && (planned.Some? <==> && j.state !in {Confirmed, RolledBack, Failed}
                                   && (j.state.Queued? || interrupted || (j.state.Rebooting? && runs)))
            && (planned.Some? ==>
                  var state := if rebooting then
                                 if runs then Confirmed else if !mine && j.committed && gone then RolledBack else Failed
                               else if interrupted then Failed else Downloading;
                  var error := if rebooting then
                                 if runs then NoError else if mine then ApprovalUnavailable
                                 else if state == RolledBack then BootFailed else Storage
                               else if interrupted then Network else NoError;
                  var bytes := if rebooting then j.size else if interrupted then j.bytes else 0;
                  var app := if rebooting && runs then j.target else j.previous;
                  var r := Report(j.release, j.sequence + 1, state, bytes, app, true, error);
                  planned.value == j.(state := state, sequence := j.sequence + 1, bytes := bytes, pending := Some(r)))
  {
  }

  /** The same update, at whatever point it is. */
  predicate SameUpdate(a: Journal, b: Journal) {
    a == b.(state := a.state, sequence := a.sequence, bytes := a.bytes, pending := a.pending)
  }

  /** The signed policy, as the device itself rechecks it. */
  predicate PolicyAccepted(release: Release, running: Hash, floor: nat, now: Instant) {
    && release.purpose.Ota? && floor < release.sequence && running in release.predecessors
    && release.size <= MAX_APP_SIZE && now < release.expires
  }

  /** The bounds a stored journal is checked against before it is used. */
  predicate ValidJournal(j: Journal) {
    && (j.schema == 1 || j.schema == 2)
    && j.sequence <= MAX_REPORTS
    && MIN_APP_SIZE <= j.size <= 4194304
    && j.bytes <= j.size
    && 1 <= j.targetSequence
    && !(j.committed && (j.state.Queued? || j.state.Downloading? || j.state.Verifying?))
    && (j.pending.Some? ==> j.pending.value == ReportFor(j, j.pending.value.error))
    && !j.state.Cancelled?
  }

  /** What the check of a stored journal lets through. */
  lemma CheckedJournals(j: Journal)
    ensures ValidJournal(j) <==>
            && j.schema in {1, 2} && j.sequence <= 128 && 24 <= j.size <= 4194304 && j.bytes <= j.size
            && 1 <= j.targetSequence
            && j.state in {Queued, Downloading, Verifying, Rebooting, Confirmed, RolledBack, Failed}
            && (j.committed ==> j.state !in {Queued, Downloading, Verifying})
            && (j.pending.Some? ==>
                  var r := j.pending.value;
                  && r.release == j.release && r.sequence == j.sequence && r.state == j.state && r.bytes == j.bytes
                  && r.bootConfirmed && r.app == if j.state == Confirmed then j.target else j.previous)
  {
  }

  // ----- the joint invariant -----

  datatype Global = Global(server: Server, board: Board, journal: Option<Journal>, sequence: nat)

  /** What the server believes, as far as the report rules can see it. */
  function AsJob(j: Journal): Job {
    Job(j.release, j.previous, 0, 0, j.state, j.sequence, j.bytes, None, NoError, [])
  }

  /** This device reports progress in 256 KiB steps, which bounds how many reports it can make: 20. */
  predicate Paced(state: JobState, sequence: nat, bytes: nat, size: nat) {
    match state
    case Queued => sequence == 0 && bytes == 0
    case Downloading =>
      && 1 <= sequence && bytes <= size
      && (if bytes < size then (sequence - 1) * PROGRESS_STEP <= bytes else (sequence - 2) * PROGRESS_STEP < size)
    case Verifying => 1 <= sequence <= 18 && bytes == size
    case Rebooting => 1 <= sequence <= 19 && bytes == size
    case Confirmed => 1 <= sequence <= 20 && bytes == size
    case RolledBack => 1 <= sequence <= 20 && bytes == size
    case Failed => 1 <= sequence <= 20 && bytes <= size
    case Cancelled => sequence == 0 && bytes == 0
  }

  ghost predicate JournalShape(j: Journal) {
    && (j.schema == 2 || (j.schema == 1 && !j.committed))
    && !j.state.Cancelled?
    && Paced(j.state, j.sequence, j.bytes, j.size)
    && (j.pending.Some? ==>
          && 1 <= j.sequence
          && j.pending.value == ReportFor(j, j.pending.value.error)
          && !j.pending.value.error.OwnerCancelled?)
    && (j.committed ==> (j.state.Rebooting? && j.pending.None?) || j.state.Confirmed? || j.state.RolledBack?)
  }

  /** With nothing pending both sides agree, or the job was cancelled before the device claimed it. With a report
      pending the server has taken exactly that report, or would take it next, or cancelled before the claim. */
  ghost predicate Agreement(j: Journal, job: Job) {
    match j.pending
    case None =>
      || (job.state == j.state && job.sequence == j.sequence && job.bytes == j.bytes)
      || (job.state.Cancelled? && j.state.Queued?)
    case Some(r) =>
      || Repeats(job, r)
      || Conforms(job, j.size, j.target, r)
      || (job.state.Cancelled? && r.sequence == 1 && r.bytes == 0 && (r.state.Downloading? || r.state.Failed?))
  }

  ghost predicate RunsPrevious(b: Board, j: Journal) {
    && b.running == b.boot == j.slot.Other()
    && b.images.At(j.slot.Other()) == j.previous
    && b.Settled(j.slot.Other())
  }

  ghost predicate Selected(b: Board, j: Journal) {
    && b.running == j.slot.Other() && b.boot == j.slot
    && b.images.At(j.slot.Other()) == j.previous && b.images.At(j.slot) == j.target
    && b.Settled(j.slot.Other()) && b.states.At(j.slot).New?
  }

  ghost predicate RunsTarget(b: Board, j: Journal, trial: bool) {
    && b.running == b.boot == j.slot
    && b.images.At(j.slot.Other()) == j.previous && b.images.At(j.slot) == j.target
    && b.Settled(j.slot.Other())
    && (if trial then b.states.At(j.slot).PendingVerify? else b.states.At(j.slot).Valid?)
  }

  ghost predicate FellBack(b: Board, j: Journal) {
    RunsPrevious(b, j) && (b.states.At(j.slot).Aborted? || b.states.At(j.slot).Invalid?)
  }

  /** What the journal says happened is what the hardware shows. */
  ghost predicate BoardFits(b: Board, j: Journal) {
    match j.state
    case Confirmed => RunsTarget(b, j, false)
    case RolledBack => j.committed && FellBack(b, j)
    case Rebooting =>
      if j.pending.Some? then RunsPrevious(b, j)
      else
        || (RunsPrevious(b, j) && (j.committed ==> FellBack(b, j)))
        || Selected(b, j) || RunsTarget(b, j, true) || RunsTarget(b, j, false)
    case _ => RunsPrevious(b, j)
  }

  /** The job the journal names is on record, with the release it was approved for. */
  ghost predicate Named(s: Server, j: Journal) {
    && j.job in s.jobs
    && var job := s.jobs[j.job];
    && job.release == j.release && job.previous == j.previous
    && j.release in s.catalog
    && var release := s.catalog[j.release];
    && release.app == j.target && release.size == j.size && release.sequence == j.targetSequence
    && j.target != j.previous
    && Paced(job.state, job.sequence, job.bytes, j.size)
  }

  ghost predicate Linked(s: Server, j: Journal) { Named(s, j) && Agreement(j, s.jobs[j.job]) }

  /** Jobs the device is not working on: never past the queue, and never confirmed above the device's own record. */
  ghost predicate Unclaimed(s: Server, journal: Option<Journal>, sequence: nat) {
    forall id <- s.jobs | !(journal.Some? && journal.value.job == id) ::
      && (Active(s.jobs[id].state) ==> s.jobs[id].state.Queued?)
      && (s.jobs[id].state.Confirmed? ==>
            s.jobs[id].release in s.catalog && s.catalog[s.jobs[id].release].sequence <= sequence)
  }

  /** The recorded image is the running one, except that a rebooting job's target may already run. */
  ghost predicate ImageRecorded(g: Global) {
    && g.server.firmware.Some?
    && (|| g.server.firmware.value.app == g.board.images.At(g.board.running)
        || (&& g.journal.Some?
            && var j := g.journal.value;
            && j.job in g.server.jobs && g.server.jobs[j.job].state.Rebooting?
            && g.board.running == j.slot && g.board.images.At(j.slot) == j.target
            && g.server.firmware.value.app == j.previous))
  }

  ghost predicate JointSound(g: Global) {
    && ServerSound(g.server)
    && ImageRecorded(g)
    && g.sequence <= ConfirmedSequence(g.server)
    && Unclaimed(g.server, g.journal, g.sequence)
    && !g.board.states.At(g.board.running.Other()).PendingVerify?
    && match g.journal
       case None => g.board.running == g.board.boot && g.board.Settled(g.board.running)
       case Some(j) =>
         && JournalShape(j) && Linked(g.server, j) && BoardFits(g.board, j)
         && g.sequence <= j.targetSequence
  }

  // ----- what the invariant says -----

  /** The stored journal always passes its own check. */
  lemma JournalAlwaysValid(g: Global)
    requires JointSound(g) && g.journal.Some?
    ensures ValidJournal(g.journal.value)
    ensures g.journal.value.sequence <= 20
  {
  }

  /** The dashboard's record of the running image is true, or a rebooting job's release is already running. */
  lemma RecordedImageIsTrue(g: Global)
    requires JointSound(g)
    ensures g.server.firmware.Some?
    ensures || g.server.firmware.value.app == g.board.images.At(g.board.running)
            || exists id :: && id in g.server.jobs && g.server.jobs[id].state.Rebooting?
                            && g.server.catalog[g.server.jobs[id].release].app == g.board.images.At(g.board.running)
  {
    if g.server.firmware.value.app != g.board.images.At(g.board.running) {
      assert g.journal.value.job in g.server.jobs;
    }
  }

  /** Of the pending report's fate: taken, next, or overtaken by a cancellation; nothing else makes the server refuse
      it than lost authorization or that cancellation. */
  lemma PendingReportIsAcceptable(g: Global)
    requires JointSound(g) && g.journal.Some? && g.journal.value.pending.Some?
    ensures var j := g.journal.value;
            var verdict := Judge(g.server, j.job, j.pending.value);
            || verdict.Accepted? || verdict.Repeated? || verdict.Unauthorized?
            || (verdict.Nonconforming? && g.server.jobs[j.job].state.Cancelled?)
  {
    var j := g.journal.value;
    if !Repeats(g.server.jobs[j.job], j.pending.value) && !g.server.jobs[j.job].state.Cancelled? {
      assert Conforms(g.server.jobs[j.job], j.size, j.target, j.pending.value);
      if j.state.Confirmed? {
        ConfirmationNeverDecreases(g.server, j.job, j.pending.value);
      }
    }
  }

  /** While no job is active the record is exact. */
  lemma IdleRecordIsExact(g: Global)
    requires JointSound(g)
    ensures ServerSound(g.server) && g.server.firmware.Some?
    ensures (forall id <- g.server.jobs :: !Active(g.server.jobs[id].state)) ==>
              g.server.firmware.value.app == g.board.images.At(g.board.running)
  {
  }

  /** A pending report is about a claimed job, and taking it leaves the job claimed. */
  lemma PendingReportShape(g: Global)
    requires JointSound(g) && g.journal.Some? && g.journal.value.pending.Some?
    ensures var j := g.journal.value;
            var after := Reported(g.server, j.job, j.pending.value).jobs;
            && ServerSound(g.server) && j.job in g.server.jobs && j.job in after
            && (forall i <- g.server.jobs :: g.server.jobs[i].release in g.server.catalog)
            && !j.state.Queued? && 1 <= j.sequence
            && j.pending.value == ReportFor(j, j.pending.value.error)
            && (Repeats(after[j.job], j.pending.value) ==> after[j.job].state == j.state)
  {
  }

  lemma TakenReport(s: Server, id: JobId, r: Report)
    requires (forall i <- s.jobs :: s.jobs[i].release in s.catalog) && id in s.jobs
    ensures var after := Reported(s, id, r).jobs;
            && id in after
            && (Judge(s, id, r).Accepted? || Judge(s, id, r).Repeated? ==> Repeats(after[id], r))
            && (Judge(s, id, r).Unauthorized? || Judge(s, id, r).Nonconforming? ==> Reported(s, id, r) == s)
            && (Judge(s, id, r).Unauthorized? ==> NeedsAuthorization(r.state))
            && !Judge(s, id, r).Missing?
  {
  }

  // ----- what keeps it -----

  lemma PowerOnKeeps(g: Global, imageRejected: bool)
    requires JointSound(g)
    ensures JointSound(g.(board := PowerOn(g.board, imageRejected)))
  {
  }

  lemma ConfirmBootKeeps(g: Global)
    requires JointSound(g)
    ensures JointSound(g.(board := ConfirmBoot(g.board)))
  {
  }

  predicate SameOrWithdrawn(a: Job, b: Job) {
    || b == a
    || (&& a.state.Queued? && b.state.Cancelled?
        && b.release == a.release && b.previous == a.previous
        && b.sequence == a.sequence && b.bytes == a.bytes && b.last == a.last)
  }

  /** Everything owners, operators and the clock can do between two of the device's requests. */
  ghost predicate Outside(s: Server, s': Server) {
    && s'.catalog == s.catalog
    && s.firmware.Some? && s'.firmware.Some?
    && s'.firmware.value.app == s.firmware.value.app
    && s.firmware.value.sequence <= s'.firmware.value.sequence
    && s.jobs.Keys <= s'.jobs.Keys
    && (forall id <- s.jobs :: SameOrWithdrawn(s.jobs[id], s'.jobs[id]))
    && (forall id <- s'.jobs | id !in s.jobs :: s'.jobs[id].state.Queued? || s'.jobs[id].state.Cancelled?)
  }

  lemma OutsideComposes(a: Server, b: Server, c: Server)
    requires Outside(a, b) && Outside(b, c)
    ensures Outside(a, c)
  {
  }

  lemma SettlingIsOutside(s: Server)
    requires s.firmware.Some?
    ensures Outside(s, Settled(s))
    ensures forall id <- s.jobs :: Outside(s, ExpiredQueued(s, id))
  {
  }

  lemma OutsideKeeps(g: Global, s': Server)
    requires JointSound(g) && ServerSound(s') && Outside(g.server, s')
    ensures JointSound(g.(server := s')) && Step(g, g.(server := s'))
  {
  }

  lemma ReportingKeeps(g: Global)
    requires JointSound(g) && g.journal.Some? && g.journal.value.pending.Some?
    ensures var next := g.(server := Reported(g.server, g.journal.value.job, g.journal.value.pending.value));
            JointSound(next) && Step(g, next)
  {
    var j := g.journal.value;
    ReportKeepsSound(g.server, j.job, j.pending.value);
    PendingReportIsAcceptable(g);
  }

  /** A report that follows the protocol's edges from the agreed state may be written down, provided the board
      shows what it says. */
  lemma BuildingKeeps(g: Global, state: JobState, bytes: nat, error: ErrorCode)
    requires JointSound(g) && g.journal.Some? && g.journal.value.pending.None?
    requires var j := g.journal.value; var next := Next(j, state, bytes, error);
             && Conforms(AsJob(j), j.size, j.target, next.pending.value)
             && JournalShape(next) && BoardFits(g.board, next)
    ensures JointSound(g.(journal := Some(Next(g.journal.value, state, bytes, error))))
  {
  }

  /** The way forward: the claim, and the two reports between download and restart. */
  lemma MayGoOn(j: Journal, b: Board, state: JobState)
    requires JournalShape(j) && RunsPrevious(b, j) && j.pending.None? && !j.committed && j.size <= MAX_APP_SIZE
    requires || (j.state.Queued? && state.Downloading?)
             || (j.state.Downloading? && j.bytes == j.size && state.Verifying?)
             || (j.state.Verifying? && state.Rebooting?)
    ensures var next := Next(j, state, if state.Downloading? then 0 else j.size, NoError);
            && Conforms(AsJob(j), j.size, j.target, next.pending.value)
            && JournalShape(next) && BoardFits(b, next)
  {
  }

  /** An update that has not selected anything may always be given up. */
  lemma MayFail(j: Journal, b: Board, bytes: nat, error: ErrorCode)
    requires JournalShape(j) && RunsPrevious(b, j) && j.pending.None? && !j.committed && j.size <= MAX_APP_SIZE
    requires Active(j.state) && (bytes == j.bytes || (bytes == j.size && (j.state.Verifying? || j.state.Rebooting?)))
    requires !error.NoError? && !error.OwnerCancelled?
    requires j.state.Rebooting? ==>
               error.Storage? || error.ImageRejected? || error.ApprovalUnavailable? || error.LocalCancelled?
    ensures var next := Next(j, Failed, bytes, error);
            && Conforms(AsJob(j), j.size, j.target, next.pending.value)
            && JournalShape(next) && BoardFits(b, next)
  {
  }

  // ----- single writes -----

  /** A rejected report is resolved by adopting the server's answer to a status query: the job is where the journal
      was or one report behind, it is still running, and nothing is pending afterwards. */
  lemma AdoptingKeeps(g: Global, snapshot: Job)
    requires JointSound(g) && g.journal.Some? && g.journal.value.pending.Some?
    requires g.journal.value.job in g.server.jobs
    requires SameOrWithdrawn(snapshot, g.server.jobs[g.journal.value.job])
    requires Agreement(g.journal.value, snapshot)
    requires Paced(snapshot.state, snapshot.sequence, snapshot.bytes, g.journal.value.size)
    requires NeedsAuthorization(g.journal.value.state) && !snapshot.state.Cancelled?
    ensures var j := g.journal.value;
            && (snapshot.sequence == j.sequence || snapshot.sequence + 1 == j.sequence)
            && Active(snapshot.state)
            && JointSound(g.(journal := Some(Adopted(j, snapshot))))
            && RunsPrevious(g.board, Adopted(j, snapshot))
            && !Adopted(j, snapshot).committed
            && (|| snapshot.state == j.state
                || Conforms(AsJob(Adopted(j, snapshot)), j.size, j.target, j.pending.value))
  {
    var j := g.journal.value;
    assert Repeats(snapshot, j.pending.value) ==> Repeats(g.server.jobs[j.job], j.pending.value);
  }

  /** An earlier report of this device that needed authorization, and whose request may outlive its call. */
  ghost predicate AskedBefore(j: Journal, late: Report) {
    && NeedsAuthorization(late.state) && late.release == j.release && late.app == j.previous
    && Paced(late.state, late.sequence, late.bytes, j.size) && late.sequence <= j.sequence
  }

  /** The server holds an earlier report of the device, which the device gave up: it has written down another one at the
      same number, or is about to. Everything but the agreement of the two still holds. */
  ghost predicate Overtaken(g: Global, late: Report) {
    && ServerSound(g.server) && ImageRecorded(g)
    && g.sequence <= ConfirmedSequence(g.server) && Unclaimed(g.server, g.journal, g.sequence)
    && !g.board.states.At(g.board.running.Other()).PendingVerify?
    && g.journal.Some?
    && var j := g.journal.value;
    && JournalShape(j) && BoardFits(g.board, j) && RunsPrevious(g.board, j) && !j.committed
    && g.sequence <= j.targetSequence && Named(g.server, j) && NeedsAuthorization(late.state)
    && var job := g.server.jobs[j.job];
    && job.state == late.state && job.sequence == late.sequence && job.last == Some(late)
    && match j.pending
       case None => Active(j.state) && job.sequence == j.sequence + 1
       case Some(r) => r != late && job.sequence == r.sequence
  }

  /** What may happen before the two are brought together again: anything outside, a restart at any moment, a flash
      write, either report reaching the server again, and the device writing down its next report. */
  ghost predicate LateStep(a: Global, b: Global, late: Report) {
    && a.journal.Some?
    && var j := a.journal.value;
    || (Outside(a.server, b.server) && ServerSound(b.server) && b == a.(server := b.server))
    || b == a.(board := PowerOn(a.board, true)) || b == a.(board := PowerOn(a.board, false))
    || b == a.(board := ConfirmBoot(a.board))
    || b == a.(board := Written(a.board, j.slot, b.board.images.At(j.slot)))
    || (JobsSound(a.server) && b == a.(server := Reported(a.server, j.job, late)))
    || (j.pending.Some? && JobsSound(a.server) && b == a.(server := Reported(a.server, j.job, j.pending.value)))
    || (&& j.pending.None? && b.journal.Some? && b == a.(journal := b.journal)
        && var next := b.journal.value;
        && next.pending.Some? && next.pending.value != late
        && next == Next(j, next.state, next.bytes, next.pending.value.error)
        && JournalShape(next) && BoardFits(b.board, next))
  }

  lemma LateOutsideKeeps(g: Global, s: Server, late: Report)
    requires Overtaken(g, late) && Outside(g.server, s) && ServerSound(s)
    ensures Overtaken(g.(server := s), late)
  {
  }

  /** Neither report has any effect now. */
  lemma LateAgain(g: Global, late: Report)
    requires Overtaken(g, late)
    ensures var j := g.journal.value;
            && Reported(g.server, j.job, late) == g.server
            && (j.pending.Some? ==> Reported(g.server, j.job, j.pending.value) == g.server)
  {
  }

  lemma LateBoardKeeps(g: Global, content: Hash, late: Report)
    requires Overtaken(g, late)
    ensures PowerOn(g.board, true) == PowerOn(g.board, false) == ConfirmBoot(g.board) == g.board
    ensures Overtaken(g.(board := Written(g.board, g.journal.value.slot, content)), late)
  {
  }

  lemma LateStepKeeps(a: Global, b: Global, late: Report)
    requires Overtaken(a, late) && LateStep(a, b, late)
    ensures Overtaken(b, late)
  {
    hide JointSound, JobsSound, ServerSound, Outside, Reported, Judge, PowerOn, Conforms;
    LateAgain(a, late);
    LateBoardKeeps(a, b.board.images.At(a.journal.value.slot), late);
    if Outside(a.server, b.server) && ServerSound(b.server) {
      LateOutsideKeeps(a, b.server, late);
    }
  }

  /** Refused without effect, whenever it is sent, and resolved by adopting the answer to the status query. */
  lemma OvertakenIsResolved(g: Global, late: Report)
    requires Overtaken(g, late) && g.journal.value.pending.Some?
    ensures var j := g.journal.value; var job := g.server.jobs[j.job];
            && Judge(g.server, j.job, j.pending.value).Nonconforming?
            && Reported(g.server, j.job, j.pending.value) == g.server
            && !Agreement(j, job) && job.sequence == j.sequence && Active(job.state)
            && JointSound(g.(journal := Some(Adopted(j, job))))
            && (Stuck(Adopted(j, job), g.board) <==> late.state.Rebooting? && LeftAbandoned(g.board))
  {
  }

  /** From the moment the late report is taken, through any number of such events, every state is resolved by one
      refused report and one answered status query. */
  lemma {:induction false} LateRunIsResolved(run: seq<Global>, late: Report, k: nat)
    requires k < |run| && Overtaken(run[0], late)
    requires forall i :: 0 <= i < |run| - 1 ==> LateStep(run[i], run[i + 1], late)
    ensures Overtaken(run[k], late)
    ensures run[k].journal.value.pending.Some? ==>
              var j := run[k].journal.value; var s := run[k].server;
              && Judge(s, j.job, j.pending.value).Nonconforming?
              && JointSound(run[k].(journal := Some(Adopted(j, s.jobs[j.job]))))
  {
    hide LateStep, JointSound;
    if 0 < k {
      LateRunIsResolved(run, late, k - 1);
      LateStepKeeps(run[k - 1], run[k], late);
    }
    if run[k].journal.value.pending.Some? {
      OvertakenIsResolved(run[k], late);
    }
  }

  /** A request that the server takes after the device has given it up, and written down another report at the same
      number. The two sides then disagree, the pending report is refused without effect, and adopting the answer to the
      status query brings them together again: the query's two give-up returns stay dead. */
  lemma LateReportIsResolved(g: Global, late: Report)
    requires JointSound(g) && g.journal.Some? && g.journal.value.pending.Some?
    requires AskedBefore(g.journal.value, late) && late != g.journal.value.pending.value
    requires Judge(g.server, g.journal.value.job, late).Accepted?
    ensures Overtaken(g.(server := Reported(g.server, g.journal.value.job, late)), late)
    ensures var j := g.journal.value; var s := Reported(g.server, j.job, late);
            && Judge(s, j.job, j.pending.value).Nonconforming? && Reported(s, j.job, j.pending.value) == s
            && j.job in s.jobs && !Agreement(j, s.jobs[j.job])
            && s.jobs[j.job].sequence == j.sequence && Active(s.jobs[j.job].state)
            && JointSound(g.(server := s, journal := Some(Adopted(j, s.jobs[j.job]))))
  {
    var j := g.journal.value;
    ReportKeepsSound(g.server, j.job, late);
    OvertakenIsResolved(g.(server := Reported(g.server, j.job, late)), late);
  }

  /** The same when the late report is taken before the device writes down its next one. */
  lemma LateReportIsMet(g: Global, late: Report)
    requires JointSound(g) && g.journal.Some? && g.journal.value.pending.None? && Active(g.journal.value.state)
    requires var j := g.journal.value;
             && NeedsAuthorization(late.state) && Paced(late.state, late.sequence, late.bytes, j.size)
             && Judge(g.server, j.job, late).Accepted?
    ensures Overtaken(g.(server := Reported(g.server, g.journal.value.job, late)), late)
  {
    var j := g.journal.value;
    ReportKeepsSound(g.server, j.job, late);
  }

  /** A late report of an older number, of a finished job or of a cancelled one changes nothing. */
  lemma LateReportOtherwise(s: Server, id: JobId, late: Report)
    requires ServerSound(s) && id in s.jobs
    requires late.sequence <= s.jobs[id].sequence || !Active(s.jobs[id].state)
    ensures Reported(s, id, late) == s
  {
  }

  /** A cancellation is only ever met by the report that would claim the job, or decline it. */
  lemma CancelledBeforeClaim(j: Journal, job: Job)
    requires Agreement(j, job) && j.pending.Some? && job.state.Cancelled? && 1 <= j.sequence
    requires Paced(job.state, job.sequence, job.bytes, j.size)
    requires j.pending.value == ReportFor(j, j.pending.value.error)
    ensures j.bytes == 0 && (j.state.Downloading? || j.state.Failed?)
  {
  }

  lemma CancellationStands(earlier: Job, later: Job)
    requires SameOrWithdrawn(earlier, later) && earlier.state.Cancelled?
    ensures later.state.Cancelled?
  {
  }

  function Adopted(j: Journal, job: Job): Journal {
    j.(state := job.state, sequence := job.sequence, bytes := job.bytes, pending := None)
  }

  lemma ClearingCancelledKeeps(g: Global)
    requires JointSound(g) && g.journal.Some?
    requires g.journal.value.job in g.server.jobs && g.server.jobs[g.journal.value.job].state.Cancelled?
    ensures JointSound(g.(journal := None))
  {
  }

  /** A job offered while queued starts from the image that runs now, and the device may claim it even if it is
      cancelled at that very moment. */
  lemma ClaimingKeeps(g: Global, id: JobId, offered: Job, schema: nat)
    requires JointSound(g) && g.journal.None? && id in g.server.jobs && SameOrWithdrawn(offered, g.server.jobs[id])
    requires offered.state.Queued? && offered.previous == g.board.images.At(g.board.running)
    requires offered.release in g.server.catalog && g.sequence < g.server.catalog[offered.release].sequence
    requires schema == 1 || schema == 2
    ensures JointSound(g.(journal := Some(Claimed(id, offered, g.server.catalog[offered.release], g.board, schema))))
    ensures RunsPrevious(g.board, Claimed(id, offered, g.server.catalog[offered.release], g.board, schema))
  {
    assert JobSound(g.server.jobs[id], g.server.catalog[offered.release]);
    assert g.server.catalog[offered.release].Lawful();
  }

  function Claimed(id: JobId, offered: Job, release: Release, b: Board, schema: nat): Journal {
    Journal(schema, id, offered.release, b.images.At(b.running), release.app, b.running.Other(), release.size,
            release.sequence, Queued, 0, 0, false, None)
  }

  /** An older journal never recorded a selection, and none is invented for it. */
  lemma MigratingKeeps(g: Global)
    requires JointSound(g) && g.journal.Some? && !g.journal.value.committed
    ensures JointSound(g.(journal := Some(g.journal.value.(schema := 2))))
  {
  }

  lemma AnsweredKeeps(g: Global)
    requires JointSound(g) && g.journal.Some? && g.journal.value.pending.Some?
    requires g.journal.value.job in g.server.jobs
    requires Repeats(g.server.jobs[g.journal.value.job], g.journal.value.pending.value)
    ensures JointSound(g.(journal := Some(g.journal.value.(pending := None))))
  {
  }

  /** Finishing a confirmed update is two durable writes; after the first alone, repeating it changes nothing. */
  lemma AdvancingKeeps(g: Global)
    requires JointSound(g) && g.journal.Some? && g.journal.value.pending.None? && g.journal.value.state.Confirmed?
    ensures g.sequence <= g.journal.value.targetSequence
    ensures JointSound(g.(sequence := g.journal.value.targetSequence))
  {
  }

  lemma FinishingKeeps(g: Global)
    requires JointSound(g) && g.journal.Some? && g.journal.value.pending.None? && Terminal(g.journal.value.state)
    requires g.journal.value.state.Confirmed? ==> g.sequence == g.journal.value.targetSequence
    ensures JointSound(g.(journal := None))
  {
  }

  /** Only the slot the journal names is written, and only while the previous image is selected. */
  lemma WritingKeeps(g: Global, content: Hash)
    requires JointSound(g) && g.journal.Some? && RunsPrevious(g.board, g.journal.value)
    ensures JointSound(g.(board := Written(g.board, g.journal.value.slot, content)))
    ensures RunsPrevious(Written(g.board, g.journal.value.slot, content), g.journal.value)
  {
  }

  function Written(b: Board, slot: Slot, content: Hash): Board { b.(images := b.images.With(slot, content)) }

  function Switch(b: Board, slot: Slot): Board { b.(boot := slot, states := b.states.With(slot, New)) }

  lemma SelectingKeeps(g: Global)
    requires JointSound(g) && g.journal.Some? && RunsPrevious(g.board, g.journal.value)
    requires g.journal.value.state.Rebooting? && g.journal.value.pending.None? && !g.journal.value.committed
    requires g.board.images.At(g.journal.value.slot) == g.journal.value.target
    ensures Selected(Switch(g.board, g.journal.value.slot), g.journal.value)
    ensures JointSound(g.(board := Switch(g.board, g.journal.value.slot)))
  {
  }

  lemma CommittingKeeps(g: Global)
    requires JointSound(g) && g.journal.Some? && Selected(g.board, g.journal.value) && g.journal.value.schema == 2
    ensures JointSound(g.(journal := Some(g.journal.value.(committed := true))))
  {
  }

  // ----- what the device can conclude -----

  /** A rebooting journal, seen by a process that runs a confirmed image. */
  lemma RebootOutcome(g: Global)
    requires JointSound(g) && g.journal.Some? && g.journal.value.state.Rebooting? && g.journal.value.pending.None?
    requires !g.board.states.At(g.board.running).PendingVerify?
    ensures var j := g.journal.value;
            && j.sequence < 20
            && (g.board.images.At(g.board.running) == j.target ==> RunsTarget(g.board, j, false))
            && (g.board.boot == g.board.running != j.slot ==>
                  && RunsPrevious(g.board, j)
                  && (j.committed ==> FellBack(g.board, j)))
  {
  }

  /** What a process that found a rebooting journal can conclude once the board has settled on an image: everything but
      the one stuck state. */
  lemma UnlessStuck(g: Global)
    requires JointSound(g) && g.journal.Some? && g.journal.value.state.Rebooting? && g.journal.value.pending.None?
    requires g.board.boot == g.board.running && !g.board.states.At(g.board.running).PendingVerify?
    ensures var j := g.journal.value;
            var state, running := g.board.states.At(j.slot), g.board.images.At(g.board.running);
            || running == j.target
            || (&& running == j.previous && g.board.running == j.slot.Other() && !state.PendingVerify?
                && (j.committed ==> state.Aborted? || state.Invalid?)
                && (Stuck(j, g.board) <==> !j.committed && (state.Aborted? || state.Invalid?)))
  {
  }

  /** With nothing pending the stuck state is all that leads to the stuck state. */
  lemma StuckWhenAnswered(g: Global)
    requires JointSound(g) && g.journal.Some? && g.journal.value.pending.None?
    ensures HeadedForStuck(g.server, g.journal.value, g.board) <==> Stuck(g.journal.value, g.board)
  {
  }

  /** With the rebooting report still unanswered, an abandoned slot and the server decide. */
  lemma StuckWhenUnanswered(g: Global)
    requires JointSound(g) && g.journal.Some? && g.journal.value.pending.Some? && g.journal.value.state.Rebooting?
    ensures var j := g.journal.value;
            && j.job in g.server.jobs
            && (HeadedForStuck(g.server, j, g.board) <==>
                  && LeftAbandoned(g.board)
                  && (g.server.jobs[j.job].state.Rebooting? || Authorized(g.server, g.server.jobs[j.job])))
  {
  }

  ghost predicate Taken(s: Server, id: JobId, r: Report) {
    && (forall i <- s.jobs :: s.jobs[i].release in s.catalog)
    && (Judge(s, id, r).Accepted? || Judge(s, id, r).Repeated?)
  }

  /** What an answered report leads to, taken or refused and then adopted from the server. */
  lemma AnswerDecides(g: Global, snapshot: Job)
    requires JointSound(g) && g.journal.Some? && g.journal.value.pending.Some?
    requires g.journal.value.job in g.server.jobs
    ensures var j := g.journal.value;
            Taken(g.server, j.job, j.pending.value) ==>
              (HeadedForStuck(g.server, j, g.board) <==> Stuck(j.(pending := None), g.board))
    ensures var j := g.journal.value;
            !Taken(g.server, j.job, j.pending.value) && SameOrWithdrawn(g.server.jobs[j.job], snapshot) ==>
              (HeadedForStuck(g.server, j, g.board) <==> Stuck(Adopted(j, snapshot), g.board))
  {
    PendingReportIsAcceptable(g);
  }

  /** The stuck state is consistent with everything else: an acknowledged reboot, met by a power loss before anything is
      selected, in a slot that an earlier update left abandoned. */
  lemma StuckIsSound(g: Global, left: ImageState)
    requires JointSound(g) && g.journal.Some? && RunsPrevious(g.board, g.journal.value)
    requires g.journal.value.state.Rebooting? && g.journal.value.pending.None? && !g.journal.value.committed
    requires left.Aborted? || left.Invalid?
    ensures var stuck := g.(board := g.board.(states := g.board.states.With(g.journal.value.slot, left)));
            JointSound(stuck) && Stuck(g.journal.value, stuck.board)
  {
  }

  /** The running image is always one of the two the journal names, and the claim is still the one on record. */
  lemma RunningIsKnown(g: Global)
    requires JointSound(g) && g.journal.Some?
    ensures var j := g.journal.value; var running := g.board.images.At(g.board.running);
            && (running == j.previous || running == j.target)
            && (j.state.Queued? || j.state.Downloading? || j.state.Verifying? ==>
                  RunsPrevious(g.board, j) && !j.committed)
            && Paced(j.state, j.sequence, j.bytes, j.size)
            && j.job in g.server.jobs
  {
  }

  /** With nothing pending the server's rebooting state is the journal's. */
  lemma RebootingIsShared(g: Global)
    requires JointSound(g) && g.journal.Some? && g.journal.value.state.Rebooting? && g.journal.value.pending.None?
    ensures g.journal.value.job in g.server.jobs && g.server.jobs[g.journal.value.job].state.Rebooting?
  {
  }

  lemma AgreedSnapshot(g: Global)
    requires JointSound(g) && g.journal.Some?
    ensures var j := g.journal.value;
            && j.job in g.server.jobs && Agreement(j, g.server.jobs[j.job])
            && var job := g.server.jobs[j.job]; Paced(job.state, job.sequence, job.bytes, j.size)
  {
  }

  /** An offered job that is still queued starts from the polling image. */
  lemma OfferStartsFromConfirmed(s: Server, id: JobId, app: Hash)
    requires ServerSound(s) && id in s.jobs && Active(s.jobs[id].state)
    requires s.firmware.Some?
    requires s.firmware.value.app == app ||
             exists other :: && other in s.jobs && s.jobs[other].state.Rebooting?
                             && s.catalog[s.jobs[other].release].app == app
    ensures s.jobs[id].state.Queued? ==> s.jobs[id].previous == app
    ensures s.jobs[id].release in s.catalog
  {
  }

  lemma JournalIsShaped(g: Global)
    requires JointSound(g) && g.journal.Some?
    ensures JournalShape(g.journal.value) && BoardFits(g.board, g.journal.value)
    ensures MIN_APP_SIZE <= g.journal.value.size <= MAX_APP_SIZE
    ensures g.journal.value.sequence <= 20
  {
  }

  // ----- an authorized job -----

  /** The device may act and the job's approval holds right now. */
  ghost predicate Standing(s: Server, id: JobId) {
    && s.permitted && s.credential
    && id in s.jobs && !s.jobs[id].state.Cancelled? && s.jobs[id].release in s.catalog
    && Authorized(s, s.jobs[id])
  }

  /** The server would let this job go on at this moment. */
  ghost predicate AuthorizedAt(g: Global, id: JobId) {
    && g.server.permitted && g.server.credential
    && id in g.server.jobs && Active(g.server.jobs[id].state) && Authorized(g.server, g.server.jobs[id])
  }

  ghost predicate AuthorizedSince(run: seq<Global>, since: nat, id: JobId) {
    exists k :: since <= k < |run| && AuthorizedAt(run[k], id)
  }

  lemma AuthorizedStays(before: seq<Global>, after: seq<Global>, since: nat, id: JobId)
    requires before <= after && AuthorizedSince(before, since, id)
    ensures AuthorizedSince(after, since, id)
  {
    var k :| since <= k < |before| && AuthorizedAt(before[k], id);
    assert after[k] == before[k];
  }

  lemma AuthorizedEarlier(run: seq<Global>, since: nat, later: nat, id: JobId)
    requires since <= later && AuthorizedSince(run, later, id)
    ensures AuthorizedSince(run, since, id)
  {
  }

  lemma AuthorizedNow(run: seq<Global>, since: nat, id: JobId)
    requires since < |run| && var g := run[|run| - 1];
               && g.server.permitted && g.server.credential
               && id in g.server.jobs && Active(g.server.jobs[id].state) && Authorized(g.server, g.server.jobs[id])
    ensures AuthorizedSince(run, since, id)
  {
    assert AuthorizedAt(run[|run| - 1], id);
  }

  /** A running, authorized job that a poll from this image finds. */
  ghost predicate Offered(s: Server, id: JobId, app: Hash) {
    Standing(s, id) && Active(s.jobs[id].state) && s.firmware.Some? && s.firmware.value.app == app
  }

  /** Reports leave the approval as it is, and an authorized job's pending report is always taken. */
  lemma StandingIsTaken(g: Global)
    requires JointSound(g) && g.journal.Some? && g.journal.value.pending.Some? &&
             Standing(g.server, g.journal.value.job)
    ensures var j := g.journal.value;
            && (forall i <- g.server.jobs :: g.server.jobs[i].release in g.server.catalog)
            && (Judge(g.server, j.job, j.pending.value).Accepted? || Judge(g.server, j.job, j.pending.value).Repeated?)
            && Standing(Reported(g.server, j.job, j.pending.value), j.job)
  {
    PendingReportIsAcceptable(g);
  }

  lemma StandingDoesNotExpire(s: Server, id: JobId)
    requires Standing(s, id)
    ensures ExpiredQueued(s, id) == s
  {
  }

  /** The journal's own job is found by the device's poll as long as the previous image runs. */
  lemma JournalJobIsOffered(g: Global)
    requires JointSound(g) && g.journal.Some? && g.journal.value.pending.None? &&
             Standing(g.server, g.journal.value.job)
    requires Active(g.journal.value.state) && RunsPrevious(g.board, g.journal.value)
    ensures Offered(g.server, g.journal.value.job, g.board.images.At(g.board.running))
    ensures g.server.jobs[g.journal.value.job].state == g.journal.value.state
  {
  }

  /** The journal names its release's image, size and sequence. */
  lemma JournalJobIsKnown(g: Global)
    requires JointSound(g) && g.journal.Some?
    ensures var j := g.journal.value;
            && j.job in g.server.jobs && g.server.jobs[j.job].release == j.release && j.release in g.server.catalog
            && var release := g.server.catalog[j.release];
            && release.app == j.target && release.size == j.size && release.sequence == j.targetSequence
  {
  }

  lemma QueuedJobIsOffered(g: Global, id: JobId)
    requires JointSound(g) && g.journal.None? && Standing(g.server, id) && g.server.jobs[id].state.Queued?
    ensures Offered(g.server, id, g.board.images.At(g.board.running))
  {
  }

  lemma OfferIsUnique(s: Server, id: JobId, app: Hash, other: JobId)
    requires ServerSound(s) && Offered(s, id, app) && other in s.jobs && Active(s.jobs[other].state)
    ensures other == id
  {
  }

  /** An owner may ask for this release now: nothing else is running, and it is an upgrade from what is confirmed. */
  ghost predicate Requestable(s: Server, release: ReleaseId, key: int) {
    && s.permitted && s.credential && s.compatible && s.firmware.Some?
    && (forall id <- s.jobs :: !Active(s.jobs[id].state) && s.jobs[id].key != key)
    && release in s.catalog && Eligible(s, release, s.firmware.value)
  }

  ghost function Requested(s: Server, id: JobId, release: ReleaseId, key: int): Server
    requires release in s.catalog && s.firmware.Some?
  {
    s.(jobs := s.jobs[id := NewJob(s, release, key, s.firmware.value)])
  }

  // ----- runs -----

  ghost predicate SelectAllowed(g: Global) {
    && g.journal.Some?
    && var j := g.journal.value;
    && j.state.Rebooting? && j.pending.None? && !j.committed
    && j.job in g.server.jobs && g.server.jobs[j.job].state.Rebooting?
    && RunsPrevious(g.board, j)
    && g.board.images.At(j.slot) == j.target
  }

  /** One atomic event: something outside, a report reaching the server, one durable write, one flash write, the boot
      selection, a restart, or the confirmation of a boot. */
  ghost predicate Step(a: Global, b: Global) {
    || (Outside(a.server, b.server) && b == a.(server := b.server))
    || (&& a.journal.Some? && a.journal.value.pending.Some? && JobsSound(a.server)
        && b == a.(server := Reported(a.server, a.journal.value.job, a.journal.value.pending.value)))
    || b == a.(journal := b.journal)
    || (b == a.(sequence := b.sequence) && a.sequence <= b.sequence)
    || (&& a.journal.Some? && RunsPrevious(a.board, a.journal.value)
        && b == a.(board := Written(a.board, a.journal.value.slot, b.board.images.At(a.journal.value.slot))))
    || (SelectAllowed(a) && b == a.(board := Switch(a.board, a.journal.value.slot)))
    || b == a.(board := PowerOn(a.board, true)) || b == a.(board := PowerOn(a.board, false))
    || b == a.(board := ConfirmBoot(a.board))
  }

  /** A run: every state satisfies the joint invariant and every two neighbours are one event apart. */
  ghost predicate Run(run: seq<Global>) {
    && (forall i :: 0 <= i < |run| ==> JointSound(run[i]))
    && (forall i :: 0 <= i < |run| - 1 ==> Step(run[i], run[i + 1]))
  }

  lemma RunGrows(run: seq<Global>, next: Global)
    requires Run(run) && JointSound(next)
    requires run != [] ==> Step(run[|run| - 1], next)
    ensures Run(run + [next])
  {
    hide JointSound, Step;
  }

  lemma {:induction false} RunKeepsCatalog(run: seq<Global>, i: nat, k: nat)
    requires Run(run) && i <= k < |run|
    ensures run[k].server.catalog == run[i].server.catalog
  {
    hide JointSound, Step;
    if i < k {
      RunKeepsCatalog(run, i, k - 1);
      StepKeepsCatalog(run[k - 1], run[k]);
    }
  }

  lemma StepKeepsCatalog(a: Global, b: Global)
    requires Step(a, b)
    ensures b.server.catalog == a.server.catalog
  {
  }

  lemma SoundAt(run: seq<Global>, k: nat)
    requires Run(run) && k < |run|
    ensures JointSound(run[k])
  {
  }

  lemma PowerOnIsStep(g: Global, imageRejected: bool)
    ensures Step(g, g.(board := PowerOn(g.board, imageRejected)))
  {
  }

  lemma RunPrefix(run: seq<Global>, n: nat)
    requires Run(run) && n <= |run|
    ensures Run(run[..n])
  {
    hide JointSound, Step;
  }

  /** Only the device's own pending report can end a job. */
  lemma OnlyReportsEnd(a: Global, b: Global, id: JobId)
    requires JobsSound(a.server) && Step(a, b) && id in a.server.jobs && id in b.server.jobs
    requires !Terminal(a.server.jobs[id].state) && Terminal(b.server.jobs[id].state)
    ensures a.journal.Some? && a.journal.value.job == id && a.journal.value.pending.Some?
    ensures Judge(a.server, id, a.journal.value.pending.value).Accepted?
    ensures b == a.(server := Reported(a.server, id, a.journal.value.pending.value))
  {
  }

  /** Outcomes are recorded only when they are true of the hardware: a confirmed job's image is the one running and
      kept, a rolled-back job was durably selected, failed to start and left the previous image running, and a failed
      job leaves the previous image running and selected. */
  lemma OutcomesAreTrue(a: Global, b: Global, id: JobId)
    requires JointSound(a) && JointSound(b) && Step(a, b)
    requires id in a.server.jobs && id in b.server.jobs && b.server.jobs[id].release in b.server.catalog
    requires !Terminal(a.server.jobs[id].state)
    ensures var job := b.server.jobs[id]; var running := b.board.running; var other := running.Other();
            && (job.state.Confirmed? ==>
                  && b.board.images.At(running) == b.server.catalog[job.release].app
                  && b.board.boot == running && b.board.states.At(running).Valid?)
            && (job.state.RolledBack? ==>
                  && a.journal.Some? && a.journal.value.job == id && a.journal.value.committed
                  && (b.board.states.At(other).Aborted? || b.board.states.At(other).Invalid?)
                  && b.board.images.At(running) == job.previous && b.board.boot == running)
            && (job.state.Failed? ==> b.board.images.At(running) == job.previous && b.board.boot == running)
  {
    hide Step;
    if Terminal(b.server.jobs[id].state) {
      OnlyReportsEnd(a, b, id);
    }
  }

  /** The boot selection leaves the running image only with both sides in the rebooting state, nothing pending, and
      the verified target in the other slot. */
  lemma SelectionIsAuthorized(a: Global, b: Global)
    requires JointSound(a) && Step(a, b)
    requires a.board.boot == a.board.running && b.board.boot != b.board.running
    ensures SelectAllowed(a) && b.board.boot == a.journal.value.slot
    ensures a.server.catalog[a.server.jobs[a.journal.value.job].release].app == a.board.images.At(b.board.boot)
  {
  }

  lemma StepIsForward(a: Global, b: Global)
    requires JointSound(a) && JointSound(b) && Step(a, b)
    ensures a.sequence <= b.sequence && ConfirmedSequence(a.server) <= ConfirmedSequence(b.server)
    ensures forall id <- a.server.jobs | !Active(a.server.jobs[id].state) ::
              id in b.server.jobs && b.server.jobs[id] == a.server.jobs[id]
  {
    if a.journal.Some? && a.journal.value.pending.Some? {
      ReportKeepsSound(a.server, a.journal.value.job, a.journal.value.pending.value);
    }
  }

  /** Over a whole run confirmed sequences never decrease, on the server or on the device, and a finished job's record
      never changes again. */
  lemma {:induction false} RunIsForward(run: seq<Global>, i: nat, k: nat)
    requires Run(run) && i <= k < |run|
    ensures run[i].sequence <= run[k].sequence
    ensures ConfirmedSequence(run[i].server) <= ConfirmedSequence(run[k].server)
    ensures forall id <- run[i].server.jobs | !Active(run[i].server.jobs[id].state) ::
              id in run[k].server.jobs && run[k].server.jobs[id] == run[i].server.jobs[id]
  {
    hide JointSound, Step;
    if i < k {
      RunIsForward(run, i, k - 1);
      StepIsForward(run[k - 1], run[k]);
    }
  }

  lemma StepKeepsJob(a: Global, b: Global, id: JobId)
    requires Step(a, b) && id in a.server.jobs
    ensures b.server.catalog == a.server.catalog && id in b.server.jobs
    ensures b.server.jobs[id].release == a.server.jobs[id].release &&
            b.server.jobs[id].previous == a.server.jobs[id].previous
  {
  }

  /** What was approved is what every later state of the run is about. */
  lemma {:induction false} RunKeepsJob(run: seq<Global>, i: nat, k: nat, id: JobId)
    requires Run(run) && i <= k < |run| && id in run[i].server.jobs
    ensures run[k].server.catalog == run[i].server.catalog && id in run[k].server.jobs
    ensures run[k].server.jobs[id].release == run[i].server.jobs[id].release
    ensures run[k].server.jobs[id].previous == run[i].server.jobs[id].previous
  {
    hide JointSound, Step;
    if i < k {
      RunKeepsJob(run, i, k - 1, id);
      StepKeepsJob(run[k - 1], run[k], id);
    }
  }
}
