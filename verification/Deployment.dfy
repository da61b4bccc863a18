/** The dashboard's half of the firmware-update protocol: one device's deployment rows, the rules a
    report must satisfy, and what every operation keeps.

    A request runs under the device row lock inside one transaction, so each operation is one atomic
    step; a refusal rolls everything back. */
module Deployment {
  import opened Wrappers

  type Hash = int
  type ReleaseId = int
  type JobId = int
  type Instant = int

  const MIN_APP_SIZE: nat := 24
  const MAX_APP_SIZE: nat := 4128768
  const REPORT_STEP: nat := 65536
  const MAX_REPORTS: nat := 128
  const APPROVAL_DAYS: nat := 7
  const DAY: nat := 86400
  const OBSERVATION_WINDOW: nat := 600
  const LISTED: nat := 10

  datatype Purpose = InitialInstall | Ota | LocalRecovery

  /** The signed facts of a release that the lifecycle depends on. */
  datatype Release = Release(
    purpose: Purpose, sequence: nat, app: Hash, size: nat, predecessors: set<Hash>, version: int, expires: Instant)
  {
    predicate Lawful() {
      && 1 <= sequence
      && MIN_APP_SIZE <= size <= MAX_APP_SIZE
      && app !in predecessors
    }
  }

  datatype JobState =
    | Queued | Downloading | Verifying | Rebooting
    | Confirmed | RolledBack | Failed | Cancelled

  datatype ErrorCode =
    | NoError | Network | HashMismatch | ImageRejected | Storage
    | ApprovalUnavailable | BootFailed | LocalCancelled | OwnerCancelled

  predicate Active(state: JobState) {
    state.Queued? || state.Downloading? || state.Verifying? || state.Rebooting?
  }

  datatype Report = Report(
    release: ReleaseId, sequence: nat, state: JobState, bytes: nat,
    app: Hash, bootConfirmed: bool, error: ErrorCode)

  datatype Entry = QueuedByOwner | CancelledByServer | CancelledByOwner | ByDevice(report: Report)
  datatype Event = Event(sequence: nat, entry: Entry)

  datatype Job = Job(
    release: ReleaseId, previous: Hash, key: int, expires: Instant,
    state: JobState, sequence: nat, bytes: nat, last: Option<Report>, error: ErrorCode,
    events: seq<Event>)

  datatype Firmware = Firmware(release: ReleaseId, app: Hash, sequence: nat)
  datatype Observation = Observation(app: Hash, version: int, at: Instant)

  /** Every row that belongs to one device, and the facts about the outside that the operations read:
      `catalog` holds every release that is ever imported, `available` those whose signature, trust and artifact check
      out right now. */
  datatype Server = Server(
    catalog: map<ReleaseId, Release>, available: set<ReleaseId>,
    permitted: bool, credential: bool, compatible: bool, version: int, now: Instant,
    firmware: Option<Firmware>, observation: Option<Observation>, jobs: map<JobId, Job>)

  predicate Verified(s: Server, release: ReleaseId, purpose: Purpose) {
    release in s.available && release in s.catalog && s.catalog[release].purpose == purpose
  }

  // ----- reports -----

  predicate NeedsAuthorization(state: JobState) { state.Downloading? || state.Rebooting? }

  predicate Authorized(s: Server, job: Job) {
    Verified(s, job.release, Ota) && s.now < job.expires && s.compatible
  }

  predicate WellFormed(r: Report) { 1 <= r.sequence <= MAX_REPORTS && !r.error.OwnerCancelled? }

  predicate Repeats(job: Job, r: Report) { r.sequence == job.sequence && job.last == Some(r) }

  /** The protocol's edges, one case each: which report may follow which job state, and with what bytes,
      running image and reason. */
  predicate Conforms(job: Job, size: nat, target: Hash, r: Report) {
    && r.release == job.release
    && r.sequence == job.sequence + 1
    && match (job.state, r.state)
       case (Queued, Downloading) => r.bytes == 0 == job.bytes && r.app == job.previous && r.error.NoError?
       case (Queued, Failed) => r.bytes == 0 == job.bytes && r.app == job.previous && !r.error.NoError?
       case (Downloading, Downloading) =>
         && job.bytes < r.bytes <= size
         && (r.bytes == size || REPORT_STEP <= r.bytes - job.bytes)
         && r.app == job.previous && r.error.NoError?
       case (Downloading, Verifying) =>
         job.bytes <= r.bytes == size && r.app == job.previous && r.error.NoError?
       case (Downloading, Failed) =>
         job.bytes <= r.bytes <= size && r.app == job.previous && !r.error.NoError?
       case (Verifying, Rebooting) =>
         job.bytes <= r.bytes == size && r.app == job.previous && r.error.NoError?
       case (Verifying, Failed) =>
         job.bytes <= r.bytes <= size && r.app == job.previous && !r.error.NoError?
       case (Rebooting, Confirmed) =>
         job.bytes <= r.bytes == size && r.app == target && r.error.NoError? && r.bootConfirmed
       case (Rebooting, RolledBack) =>
         job.bytes <= r.bytes == size && r.app == job.previous && !r.error.NoError? && r.bootConfirmed
       case (Rebooting, Failed) =>
         && job.bytes <= r.bytes <= size && r.app == job.previous && r.bootConfirmed
         && (r.error.Storage? || r.error.ImageRejected? || r.error.ApprovalUnavailable? || r.error.LocalCancelled?)
       case _ => false
  }

  datatype Verdict = Accepted | Repeated | Unauthorized | Nonconforming | Missing

  function Judge(s: Server, id: JobId, r: Report): Verdict
    requires forall i <- s.jobs :: s.jobs[i].release in s.catalog
  {
    if !WellFormed(r) then Nonconforming
    else if id !in s.jobs then Missing
    else
      var job := s.jobs[id];
      var release := s.catalog[job.release];
      if Repeats(job, r) && r.release == job.release then
        if NeedsAuthorization(r.state) && !Authorized(s, job) then Unauthorized else Repeated
      else if !Conforms(job, release.size, release.app, r) then Nonconforming
      else if NeedsAuthorization(r.state) && !Authorized(s, job) then Unauthorized
      else if r.state.Confirmed? && (s.firmware.None? || release.sequence <= s.firmware.value.sequence)
      then Nonconforming
      else Accepted
  }

  function Advanced(job: Job, r: Report): Job {
    job.(state := r.state, sequence := r.sequence, bytes := r.bytes, last := Some(r), error := r.error,
         events := job.events + [Event(r.sequence, ByDevice(r))])
  }

  function Reported(s: Server, id: JobId, r: Report): Server
    requires forall i <- s.jobs :: s.jobs[i].release in s.catalog
  {
    if Judge(s, id, r).Accepted? then
      var job := s.jobs[id];
      var release := s.catalog[job.release];
      s.(jobs := s.jobs[id := Advanced(job, r)],
         firmware := if r.state.Confirmed? then Some(Firmware(job.release, release.app, release.sequence))
                     else s.firmware)
    else s
  }

  /** What the release, the clock and the hardware report must say for a job to go on. */
  predicate Approved(s: Server, release: ReleaseId, expires: Instant) {
    && release in s.available && release in s.catalog && s.catalog[release].purpose.Ota?
    && s.now < expires && s.compatible
  }

  /** The table above, one rule for each thing a report says. */
  lemma ConformingReports(job: Job, size: nat, target: Hash, r: Report)
    ensures Conforms(job, size, target, r) <==>
            && r.release == job.release && r.sequence == job.sequence + 1
            && (match job.state
                case Queued => r.state in {Downloading, Failed} && job.bytes == r.bytes == 0
                case Downloading => r.state in {Downloading, Verifying, Failed}
                case Verifying => r.state in {Rebooting, Failed}
                case Rebooting => r.state in {Confirmed, RolledBack, Failed}
                case _ => false)
            && job.bytes <= r.bytes <= size
            && (r.state in {Verifying, Rebooting, Confirmed, RolledBack} ==> r.bytes == size)
            && (job.state.Downloading? && r.state.Downloading? && r.bytes < size ==> job.bytes + 65536 <= r.bytes)
            && (job.state.Downloading? && r.state.Downloading? ==> job.bytes < r.bytes)
            && r.app == (if r.state.Confirmed? then target else job.previous)
            && (r.error != NoError <==> r.state in {Failed, RolledBack})
            && (job.state.Rebooting? ==> r.bootConfirmed)
            && (job.state.Rebooting? && r.state.Failed? ==>
                  r.error in {Storage, ImageRejected, ApprovalUnavailable, LocalCancelled})
  {
  }

  /** Which verdict a report gets. A repeated authorization is only confirmed while it still holds. */
  lemma Verdicts(s: Server, id: JobId, r: Report)
    requires forall i <- s.jobs :: s.jobs[i].release in s.catalog
    ensures var bounded := 1 <= r.sequence <= 128 && r.error != OwnerCancelled;
            var asks := r.state in {Downloading, Rebooting};
            && (!bounded ==> Judge(s, id, r).Nonconforming?)
            && (bounded && id !in s.jobs ==> Judge(s, id, r).Missing?)
            && (bounded && id in s.jobs ==>
                  var job := s.jobs[id];
                  var release := s.catalog[job.release];
                  var again := r.release == job.release && r.sequence == job.sequence && job.last == Some(r);
                  var next := Conforms(job, release.size, release.app, r);
                  var mayGoOn := Approved(s, job.release, job.expires);
                  var upwards := s.firmware.Some? && s.firmware.value.sequence < release.sequence;
                  && (Judge(s, id, r).Repeated? <==> again && (asks ==> mayGoOn))
                  && (Judge(s, id, r).Unauthorized? <==> (again || next) && asks && !mayGoOn)
                  && (Judge(s, id, r).Accepted? <==>
                        !again && next && (asks ==> mayGoOn) && (r.state.Confirmed? ==> upwards))
                  && (Judge(s, id, r).Nonconforming? <==> !again && (!next || (r.state.Confirmed? && !upwards))))
  {
  }

  // ----- approval expiry, requests, cancellation, recovery -----

  predicate Lapsed(s: Server, job: Job) {
    job.state.Queued? && (job.expires <= s.now || !s.permitted || !Verified(s, job.release, Ota))
  }

  function Expired(job: Job): Job {
    job.(state := Cancelled, error := ApprovalUnavailable,
         events := job.events + [Event(job.sequence + 1, CancelledByServer)])
  }

  function ExpiredQueued(s: Server, id: JobId): Server
    requires id in s.jobs
  {
    if Lapsed(s, s.jobs[id]) then s.(jobs := s.jobs[id := Expired(s.jobs[id])]) else s
  }

  /** Every lapsed approval closed. */
  function Settled(s: Server): (r: Server)
    ensures r.jobs.Keys == s.jobs.Keys
  {
    s.(jobs := map id | id in s.jobs :: if Lapsed(s, s.jobs[id]) then Expired(s.jobs[id]) else s.jobs[id])
  }

  ghost function ActiveJobs(s: Server): set<JobId> { set id | id in s.jobs && Active(s.jobs[id].state) }

  predicate Eligible(s: Server, release: ReleaseId, current: Firmware) {
    && Verified(s, release, Ota)
    && 1 <= current.sequence < s.catalog[release].sequence
    && current.app in s.catalog[release].predecessors
  }

  function Min(a: int, b: int): int { if a <= b then a else b }

  function NewJob(s: Server, release: ReleaseId, key: int, current: Firmware): Job
    requires release in s.catalog
  {
    Job(release, current.app, key, Min(s.catalog[release].expires, s.now + APPROVAL_DAYS * DAY),
        Queued, 0, 0, None, NoError, [Event(0, QueuedByOwner)])
  }

  // ----- what the rows always satisfy -----

  function Chunks(bytes: nat): nat { (bytes + REPORT_STEP - 1) / REPORT_STEP }

  /** How many more reports a job can ever accept. */
  function Remaining(job: Job, size: nat): nat {
    match job.state
    case Queued => 1 + Chunks(size) + 3
    case Downloading => (if job.bytes <= size then Chunks(size - job.bytes) else 0) + 3
    case Verifying => 2
    case Rebooting => 1
    case _ => 0
  }

  /** A job's state, accepted report count and bytes, recomputed from its event log alone. */
  datatype Summary = Summary(state: JobState, sequence: nat, bytes: nat)

  function Replay(events: seq<Event>): Summary {
    if events == [] then Summary(Queued, 0, 0)
    else
      var before := Replay(events[..|events| - 1]);
      match events[|events| - 1].entry
      case QueuedByOwner => Summary(Queued, 0, 0)
      case CancelledByServer => before.(state := Cancelled)
      case CancelledByOwner => before.(state := Cancelled)
      case ByDevice(r) => Summary(r.state, r.sequence, r.bytes)
  }

  ghost predicate JobSound(job: Job, release: Release) {
    && release.purpose.Ota? && job.previous in release.predecessors
    && Replay(job.events) == Summary(job.state, job.sequence, job.bytes)
    && |job.events| == job.sequence + (if job.state.Cancelled? then 2 else 1)
    && (forall i :: 0 <= i < |job.events| ==> job.events[i].sequence == i)
    && job.sequence + Remaining(job, release.size) <= 1 + Chunks(release.size) + 3
    && (job.state.Queued? || job.state.Cancelled? <==> job.sequence == 0)
    && (job.sequence == 0 ==> job.bytes == 0 && job.last.None?)
    && (job.sequence > 0 ==>
          && job.last.Some?
          && job.last.value.sequence == job.sequence && job.last.value.state == job.state
          && job.last.value.bytes == job.bytes && job.last.value.release == job.release)
    && job.bytes <= release.size
    && (job.state.Verifying? || job.state.Rebooting? || job.state.Confirmed? || job.state.RolledBack? ==>
          job.bytes == release.size)
  }

  ghost predicate JobsSound(s: Server) {
    forall id <- s.jobs :: s.jobs[id].release in s.catalog && JobSound(s.jobs[id], s.catalog[s.jobs[id].release])
  }

  ghost predicate OneActive(s: Server) {
    forall i, j :: i in s.jobs && j in s.jobs && Active(s.jobs[i].state) && Active(s.jobs[j].state) ==> i == j
  }

  /** Every running approval starts from the confirmed image and ends above the confirmed sequence. */
  ghost predicate ActiveUpgrades(s: Server) {
    forall id <- s.jobs :: Active(s.jobs[id].state) ==>
      && s.firmware.Some?
      && s.jobs[id].release in s.catalog
      && s.firmware.value.sequence < s.catalog[s.jobs[id].release].sequence
      && s.jobs[id].previous == s.firmware.value.app
  }

  /** The recorded sequence is never below that of an update the device has confirmed. */
  ghost predicate ConfirmationsRecorded(s: Server) {
    forall id <- s.jobs :: s.jobs[id].state.Confirmed? ==>
      && s.firmware.Some? && s.jobs[id].release in s.catalog
      && s.catalog[s.jobs[id].release].sequence <= s.firmware.value.sequence
  }

  ghost predicate ServerSound(s: Server) {
    && (forall r <- s.catalog :: s.catalog[r].Lawful())
    && JobsSound(s) && OneActive(s) && ActiveUpgrades(s) && ConfirmationsRecorded(s)
    && (s.firmware.Some? ==> 1 <= s.firmware.value.sequence)
    && (forall i, j :: i in s.jobs && j in s.jobs && s.jobs[i].key == s.jobs[j].key ==> i == j)
  }

  function ConfirmedSequence(s: Server): nat { if s.firmware.Some? then s.firmware.value.sequence else 0 }

  // ----- each operation keeps the rows sound -----

  lemma ChunksStep(size: nat, before: nat, after: nat)
    requires before < after <= size
    requires after == size || REPORT_STEP <= after - before
    ensures Chunks(size - after) < Chunks(size - before)
  {
  }

  lemma ReplayAppend(events: seq<Event>, event: Event)
    ensures Replay(events + [event]) ==
            (var before := Replay(events);
             match event.entry
             case QueuedByOwner => Summary(Queued, 0, 0)
             case CancelledByServer => before.(state := Cancelled)
             case CancelledByOwner => before.(state := Cancelled)
             case ByDevice(r) => Summary(r.state, r.sequence, r.bytes))
  {
    assert (events + [event])[..|events + [event]| - 1] == events;
  }

  /** An accepted report uses up part of the job's finite allowance and keeps its log replayable. */
  lemma AdvanceKeepsJobSound(job: Job, release: Release, r: Report)
    requires JobSound(job, release) && Conforms(job, release.size, release.app, r)
    ensures JobSound(Advanced(job, r), release)
    ensures Remaining(Advanced(job, r), release.size) < Remaining(job, release.size)
  {
    ReplayAppend(job.events, Event(r.sequence, ByDevice(r)));
    if job.state.Downloading? && r.state.Downloading? {
      ChunksStep(release.size, job.bytes, r.bytes);
    }
  }

  /** No job ever accepts more than 67 reports, so the bound of 128 in the report format never bites. */
  lemma ReportsBounded(job: Job, release: Release)
    requires release.Lawful() && JobSound(job, release)
    ensures job.sequence <= 67 < MAX_REPORTS
    ensures job.sequence + Remaining(job, release.size) <= 67
  {
  }

  /** The guard against a decreasing confirmed sequence is dead: a conforming confirmation always passes it. */
  lemma ConfirmationNeverDecreases(s: Server, id: JobId, r: Report)
    requires ServerSound(s) && id in s.jobs && r.state.Confirmed? && WellFormed(r)
    requires var job := s.jobs[id]; Conforms(job, s.catalog[job.release].size, s.catalog[job.release].app, r)
    ensures Judge(s, id, r).Accepted? || Judge(s, id, r).Repeated?
    ensures ConfirmedSequence(s) < s.catalog[s.jobs[id].release].sequence
  {
    assert Active(s.jobs[id].state);
  }

  lemma ReportKeepsSound(s: Server, id: JobId, r: Report)
    requires ServerSound(s)
    ensures ServerSound(Reported(s, id, r))
    ensures ConfirmedSequence(s) <= ConfirmedSequence(Reported(s, id, r))
    ensures Judge(s, id, r).Accepted? && r.state.Confirmed? ==>
              ConfirmedSequence(s) < ConfirmedSequence(Reported(s, id, r))
  {
    if Judge(s, id, r).Accepted? {
      var release := s.catalog[s.jobs[id].release];
      AdvanceKeepsJobSound(s.jobs[id], release, r);
      var s' := Reported(s, id, r);
      assert forall i <- s.jobs :: Active(s'.jobs[i].state) ==> Active(s.jobs[i].state);
    }
  }

  lemma ExpireKeepsJobSound(job: Job, release: Release)
    requires JobSound(job, release) && job.state.Queued?
    ensures JobSound(Expired(job), release)
  {
    ReplayAppend(job.events, Event(job.sequence + 1, CancelledByServer));
  }

  /** A job that is cancelled leaves everything else in order. */
  lemma ClosingKeepsSound(s: Server, id: JobId, closed: Job)
    requires ServerSound(s) && id in s.jobs && closed.state.Cancelled?
    requires closed.release == s.jobs[id].release && closed.key == s.jobs[id].key
    requires JobSound(closed, s.catalog[closed.release])
    ensures ServerSound(s.(jobs := s.jobs[id := closed]))
  {
    hide JobSound;
    var s' := s.(jobs := s.jobs[id := closed]);
    assert forall i <- s.jobs :: Active(s'.jobs[i].state) ==> Active(s.jobs[i].state);
  }

  lemma ExpireKeepsSound(s: Server, id: JobId)
    requires ServerSound(s) && id in s.jobs
    ensures ServerSound(ExpiredQueued(s, id))
  {
    if Lapsed(s, s.jobs[id]) {
      ExpireKeepsJobSound(s.jobs[id], s.catalog[s.jobs[id].release]);
      ClosingKeepsSound(s, id, Expired(s.jobs[id]));
    }
  }

  function WithdrawnByOwner(job: Job): Job {
    job.(state := Cancelled, error := OwnerCancelled, events := job.events + [Event(1, CancelledByOwner)])
  }

  /** Closing what has lapsed, row by row. */
  lemma SettledRows(s: Server)
    ensures forall id <- s.jobs ::
              var job := s.jobs[id];
              Settled(s).jobs[id] == if && job.state.Queued?
                                        && (|| job.expires <= s.now || !s.permitted || job.release !in s.available
                                            || job.release !in s.catalog || !s.catalog[job.release].purpose.Ota?)
                                     then job.(state := Cancelled, error := ApprovalUnavailable,
                                               events := job.events + [Event(job.sequence + 1, CancelledByServer)])
                                     else job
  {
  }

  /** At most one job can be pending, so closing every lapsed approval closes at most that one. */
  lemma SettledIsOneExpiry(s: Server)
    requires ServerSound(s)
    ensures forall id <- s.jobs | Active(s.jobs[id].state) :: Settled(s) == ExpiredQueued(s, id)
    ensures (forall id <- s.jobs :: !Active(s.jobs[id].state)) ==> Settled(s) == s
  {
    hide JobsSound, ActiveUpgrades, ConfirmationsRecorded;
    forall id <- s.jobs | Active(s.jobs[id].state)
      ensures Settled(s) == ExpiredQueued(s, id)
    {
      assert forall other <- s.jobs | other != id :: !Lapsed(s, s.jobs[other]);
      assert Settled(s).jobs == ExpiredQueued(s, id).jobs;
    }
    if forall id <- s.jobs :: !Active(s.jobs[id].state) {
      assert forall id <- s.jobs :: Settled(s).jobs[id] == s.jobs[id];
      assert Settled(s).jobs == s.jobs;
    }
  }

  lemma OnlyActiveLeft(s: Server, id: JobId)
    requires ServerSound(s) && id in s.jobs && Active(s.jobs[id].state)
    ensures id in ExpiredQueued(s, id).jobs
    ensures forall other <- ExpiredQueued(s, id).jobs | Active(ExpiredQueued(s, id).jobs[other].state) :: other == id
  {
    hide JobsSound, ActiveUpgrades, ConfirmationsRecorded;
  }

  lemma CancelKeepsSound(s: Server, id: JobId)
    requires ServerSound(s) && id in s.jobs && s.jobs[id].state.Queued?
    ensures ServerSound(s.(jobs := s.jobs[id := WithdrawnByOwner(s.jobs[id])]))
  {
    ReplayAppend(s.jobs[id].events, Event(1, CancelledByOwner));
    ClosingKeepsSound(s, id, WithdrawnByOwner(s.jobs[id]));
  }

  lemma RequestKeepsSound(s: Server, newId: JobId, release: ReleaseId, key: int)
    requires ServerSound(s) && newId !in s.jobs && ActiveJobs(s) == {} && s.firmware.Some?
    requires Eligible(s, release, s.firmware.value)
    requires forall id <- s.jobs :: s.jobs[id].key != key
    ensures ServerSound(s.(jobs := s.jobs[newId := NewJob(s, release, key, s.firmware.value)]))
  {
    var job := NewJob(s, release, key, s.firmware.value);
    ReplayAppend([], Event(0, QueuedByOwner));
    assert job.events == [] + [Event(0, QueuedByOwner)];
    assert JobSound(job, s.catalog[release]);
    assert forall id <- s.jobs :: Active(s.jobs[id].state) ==> id in ActiveJobs(s);
  }

  /** The rules in the order the platform checks them accept exactly the protocol's edges. */
  method CheckReport(job: Job, size: nat, target: Hash, r: Report) returns (ok: bool)
    requires r.release == job.release
    ensures ok <==> Conforms(job, size, target, r)
  {
    if r.sequence != job.sequence + 1 || r.state !in Successors(job.state) || !(job.bytes <= r.bytes <= size) {
      return false;
    }
    if job.state.Queued? && r.state.Failed? && r.bytes != 0 {
      return false;
    }
    if r.state.Downloading? &&
       ((job.state.Queued? && r.bytes != 0) ||
        (job.state.Downloading? &&
         (r.bytes <= job.bytes || (r.bytes != size && r.bytes - job.bytes < REPORT_STEP)))) {
      return false;
    }
    if r.state in {Verifying, Rebooting, Confirmed, RolledBack} && r.bytes != size {
      return false;
    }
    var expected := if r.state.Confirmed? then target else job.previous;
    if r.app != expected || (r.state in {Confirmed, RolledBack} && !r.bootConfirmed) {
      return false;
    }
    if (r.state in {Failed, RolledBack}) != !r.error.NoError? {
      return false;
    }
    if job.state.Rebooting? && r.state.Failed? &&
       (!r.bootConfirmed || r.error !in {Storage, ImageRejected, ApprovalUnavailable, LocalCancelled}) {
      return false;
    }
    return true;
  }

  /** A job as it is first written: queued from the running image, approved for seven days at most and never past the
      policy's own expiry. */
  predicate IsNew(job: Job, release: ReleaseId, key: int, app: Hash, until: Instant, now: Instant) {
    && job.release == release && job.previous == app && job.key == key
    && job.state.Queued? && job.sequence == 0 && job.bytes == 0 && job.last.None? && job.error.NoError?
    && job.events == [Event(0, QueuedByOwner)]
    && job.expires <= until && job.expires <= now + 604800
    && (job.expires == until || job.expires == now + 604800)
  }

  lemma NewJobIsNew(s: Server, release: ReleaseId, key: int, current: Firmware)
    requires release in s.catalog
    ensures IsNew(NewJob(s, release, key, current), release, key, current.app, s.catalog[release].expires, s.now)
  {
  }

  /** Closing what has lapsed changes neither which release is eligible nor what its job would be. */
  lemma QueueingFacts(s: Server, release: ReleaseId, key: int)
    requires release in s.catalog && s.firmware.Some?
    ensures var current := s.firmware.value; var policy := s.catalog[release];
            && NewJob(Settled(s), release, key, current) == NewJob(s, release, key, current)
            && (Eligible(Settled(s), release, current) <==> Eligible(s, release, current))
            && (Eligible(s, release, current) <==>
                  && release in s.available && policy.purpose.Ota?
                  && 1 <= current.sequence < policy.sequence && current.app in policy.predecessors)
            && IsNew(NewJob(s, release, key, current), release, key, current.app, policy.expires, s.now)
  {
    NewJobIsNew(s, release, key, s.firmware.value);
  }

  /** Nothing stands in the way of a request when every job has ended or its approval has run out. */
  lemma NothingLeftActive(s: Server)
    requires forall id <- s.jobs ::
               || s.jobs[id].state in {Confirmed, RolledBack, Failed, Cancelled}
               || (s.jobs[id].state.Queued? && s.jobs[id].expires <= s.now)
    ensures forall id <- s.jobs :: !Active(Settled(s).jobs[id].state)
  {
  }

  // ----- the service -----

  datatype Poll = Refused | Idle | Offer(id: JobId, job: Job, envelope: bool)

  /** The rows of one device. Methods update them in the order the platform does. */
  class DeploymentService {
    const catalog: map<ReleaseId, Release>
    var available: set<ReleaseId>
    var permitted: bool
    var credential: bool
    var compatible: bool
    var version: int
    var now: Instant
    var firmware: Option<Firmware>
    var observation: Option<Observation>
    var jobs: map<JobId, Job>

    function State(): Server
      reads this
    {
      Server(catalog, available, permitted, credential, compatible, version, now, firmware, observation, jobs)
    }

    constructor (s: Server)
      ensures State() == s
    {
      catalog := s.catalog;
      available, permitted, credential := s.available, s.permitted, s.credential;
      compatible, version, now := s.compatible, s.version, s.now;
      firmware, observation, jobs := s.firmware, s.observation, s.jobs;
    }

    /** The rows as they were at some moment. */
    method Restore(s: Server)
      requires s.catalog == catalog
      modifies this
      ensures State() == s
    {
      available, permitted, credential := s.available, s.permitted, s.credential;
      compatible, version, now := s.compatible, s.version, s.now;
      firmware, observation, jobs := s.firmware, s.observation, s.jobs;
    }

    method ReportUpdate(id: JobId, r: Report) returns (verdict: Verdict)
      requires forall i <- jobs :: jobs[i].release in catalog
      modifies this`jobs, this`firmware
      ensures verdict == Judge(old(State()), id, r)
      ensures State() == Reported(old(State()), id, r)
      ensures (verdict.Accepted? || verdict.Repeated?) && (r.state.Downloading? || r.state.Rebooting?) ==>
                && id in old(jobs) && r.release in available && r.release in catalog
                && catalog[r.release].purpose.Ota? && compatible && now < old(jobs)[id].expires
      ensures verdict.Repeated? ==> id in old(jobs) && old(jobs)[id].last == Some(r)
      ensures !verdict.Accepted? ==> jobs == old(jobs) && firmware == old(firmware)
      ensures verdict.Accepted? ==>
                && id in old(jobs)
                && var job := old(jobs)[id];
                && jobs == old(jobs)[id := job.(state := r.state, sequence := r.sequence, bytes := r.bytes,
                                                last := Some(r), error := r.error,
                                                events := job.events + [Event(r.sequence, ByDevice(r))])]
                && firmware == if !r.state.Confirmed? then old(firmware)
                               else Some(Firmware(r.release, r.app, catalog[r.release].sequence))
    {
      Verdicts(State(), id, r);
      hide Authorized, WellFormed;
      if !(1 <= r.sequence <= MAX_REPORTS) || r.error.OwnerCancelled? {
        return Nonconforming;
      }
      if id !in jobs {
        return Missing;
      }
      var job := jobs[id];
      var release := catalog[job.release];
      if r.release != job.release {
        return Nonconforming;
      }
      if r.sequence == job.sequence && job.last == Some(r) {
        if r.state.Downloading? || r.state.Rebooting? {
          if !Verified(State(), job.release, Ota) || job.expires <= now || !compatible {
            return Unauthorized;
          }
        }
        return Repeated;
      }
      var conforms := CheckReport(job, release.size, release.app, r);
      if !conforms {
        return Nonconforming;
      }
      if r.state.Downloading? || r.state.Rebooting? {
        if !Verified(State(), job.release, Ota) || job.expires <= now || !compatible {
          return Unauthorized;
        }
      }
      var saved := jobs;
      jobs := jobs[id := job.(state := r.state, sequence := r.sequence, bytes := r.bytes, last := Some(r),
                              error := r.error, events := job.events + [Event(r.sequence, ByDevice(r))])];
      if r.state.Confirmed? {
        if firmware.None? || release.sequence <= firmware.value.sequence {
          jobs := saved;
          return Nonconforming;
        }
        firmware := Some(Firmware(job.release, release.app, release.sequence));
      }
      return Accepted;
    }

    method ExpireQueued(id: JobId)
      requires ServerSound(State()) && id in jobs
      modifies this`jobs
      ensures State() == ExpiredQueued(old(State()), id) && ServerSound(State())
      ensures var job := old(jobs)[id];
              jobs == if && job.state.Queued?
                         && (|| job.expires <= now || !permitted || job.release !in available
                             || job.release !in catalog || !catalog[job.release].purpose.Ota?)
                      then old(jobs)[id := job.(state := Cancelled, error := ApprovalUnavailable,
                                                events := job.events + [Event(job.sequence + 1, CancelledByServer)])]
                      else old(jobs)
    {
      hide ServerSound;
      ExpireKeepsSound(State(), id);
      var job := jobs[id];
      if !job.state.Queued? {
        return;
      }
      var invalid := job.expires <= now || !permitted;
      if !invalid {
        invalid := !Verified(State(), job.release, Ota);
      }
      if invalid {
        jobs := jobs[id := job.(state := Cancelled, error := ApprovalUnavailable,
                                events := job.events + [Event(job.sequence + 1, CancelledByServer)])];
      }
    }

    /** A repeated key finds its own job again; otherwise a job is queued exactly when the device may be
        updated, nothing else is pending once lapsed approvals are gone, and the release is an upgrade from
        the confirmed image. */
    method RequestUpdate(release: ReleaseId, key: int, newId: JobId) returns (answer: Option<JobId>)
      requires ServerSound(State()) && newId !in jobs
      modifies this`jobs
      ensures ServerSound(State())
      ensures answer.None? ==> State() == old(State())
      ensures answer.Some? ==> permitted && credential
      ensures forall id <- old(jobs) | old(jobs)[id].key == key ::
                if permitted && credential && old(jobs)[id].release == release
                then answer == Some(id) && State() == ExpiredQueued(old(State()), id)
                else answer.None?
      ensures (forall id <- old(jobs) :: old(jobs)[id].key != key) ==>
                && (answer.Some? <==>
                      && permitted && credential && compatible && firmware.Some?
                      && (forall id <- old(jobs) :: !Active(Settled(old(State())).jobs[id].state))
                      && release in catalog && Eligible(old(State()), release, firmware.value))
                && (answer.Some? ==>
                      && answer == Some(newId)
                      && State() == Settled(old(State())).(
                           jobs := Settled(old(State())).jobs[
                                     newId := NewJob(old(State()), release, key, firmware.value)]))
      ensures answer == Some(newId) && newId in jobs ==>
                && release in catalog && release in available && catalog[release].purpose.Ota?
                && compatible && firmware.Some? && firmware.value.sequence < catalog[release].sequence
                && firmware.value.app in catalog[release].predecessors
                && IsNew(jobs[newId], release, key, firmware.value.app, catalog[release].expires, now)
                && forall id <- jobs | id != newId :: jobs[id].state !in {Queued, Downloading, Verifying, Rebooting}
      ensures (&& permitted && credential && compatible && firmware.Some? && release in catalog && release in available
               && catalog[release].purpose.Ota? && 1 <= firmware.value.sequence < catalog[release].sequence
               && firmware.value.app in catalog[release].predecessors
               && forall id <- old(jobs) ::
                    && old(jobs)[id].key != key
                    && (|| old(jobs)[id].state in {Confirmed, RolledBack, Failed, Cancelled}
                        || (old(jobs)[id].state.Queued? && old(jobs)[id].expires <= now))) ==>
                answer == Some(newId) && newId in jobs
    {
      hide JobsSound, OneActive, ActiveUpgrades, ConfirmationsRecorded, Settled, Eligible, NewJob, IsNew;
      if !permitted || !credential {
        return None;
      }
      if exists id :: id in jobs && jobs[id].key == key {
        var previous :| previous in jobs && jobs[previous].key == key;
        if jobs[previous].release != release {
          return None;
        }
        ExpireQueued(previous);
        return Some(previous);
      }
      answer := QueueNew(release, key, newId);
    }

    /** A key that no job has yet. */
    method QueueNew(release: ReleaseId, key: int, newId: JobId) returns (answer: Option<JobId>)
      requires ServerSound(State()) && newId !in jobs && forall id <- jobs :: jobs[id].key != key
      modifies this`jobs
      ensures ServerSound(State())
      ensures answer.None? ==> State() == old(State())
      ensures answer.Some? <==>
                && compatible && firmware.Some?
                && (forall id <- old(jobs) :: !Active(Settled(old(State())).jobs[id].state))
                && release in catalog && Eligible(old(State()), release, firmware.value)
      ensures answer.Some? ==>
                && answer == Some(newId)
                && State() == Settled(old(State())).(
                     jobs := Settled(old(State())).jobs[
                               newId := NewJob(old(State()), release, key, firmware.value)])
      ensures answer.Some? ==>
                && newId in jobs && release in available && catalog[release].purpose.Ota?
                && 1 <= firmware.value.sequence < catalog[release].sequence
                && firmware.value.app in catalog[release].predecessors
                && IsNew(jobs[newId], release, key, firmware.value.app, catalog[release].expires, now)
                && forall id <- jobs | id != newId :: jobs[id].state !in {Queued, Downloading, Verifying, Rebooting}
      ensures (&& compatible && firmware.Some? && release in catalog && release in available
               && catalog[release].purpose.Ota? && 1 <= firmware.value.sequence < catalog[release].sequence
               && firmware.value.app in catalog[release].predecessors
               && forall id <- old(jobs) ::
                    || old(jobs)[id].state in {Confirmed, RolledBack, Failed, Cancelled}
                    || (old(jobs)[id].state.Queued? && old(jobs)[id].expires <= now)) ==>
                answer == Some(newId)
    {
      hide ServerSound, ExpiredQueued, Eligible, NewJob, IsNew, Settled;
      if release in catalog && firmware.Some? {
        QueueingFacts(State(), release, key);
      }
      if forall id <- jobs ::
           || jobs[id].state in {Confirmed, RolledBack, Failed, Cancelled}
           || (jobs[id].state.Queued? && jobs[id].expires <= now) {
        NothingLeftActive(State());
      }
      var saved := jobs;
      var busy := ExpireActive();
      if busy || firmware.None? || !compatible || release !in catalog ||
         !Eligible(State(), release, firmware.value) {
        jobs := saved;
        return None;
      }
      assert forall id :: id !in ActiveJobs(State());
      RequestKeepsSound(State(), newId, release, key);
      jobs := jobs[newId := NewJob(State(), release, key, firmware.value)];
      return Some(newId);
    }

    /** Closes the pending job if its approval lapsed; says whether one is still running. */
    method ExpireActive() returns (busy: bool)
      requires ServerSound(State())
      modifies this`jobs
      ensures State() == Settled(old(State())) && ServerSound(State())
      ensures busy <==> exists id :: id in jobs && Active(jobs[id].state)
      ensures jobs.Keys == old(jobs).Keys
      ensures forall id <- jobs ::
                var job := old(jobs)[id];
                jobs[id] == if && job.state.Queued?
                               && (|| job.expires <= now || !permitted || job.release !in available
                                   || job.release !in catalog || !catalog[job.release].purpose.Ota?)
                            then job.(state := Cancelled, error := ApprovalUnavailable,
                                      events := job.events + [Event(job.sequence + 1, CancelledByServer)])
                            else job
    {
      SettledRows(State());
      hide ServerSound, Settled, ExpiredQueued;
      SettledIsOneExpiry(State());
      if exists id :: id in jobs && Active(jobs[id].state) {
        var active :| active in jobs && Active(jobs[active].state);
        OnlyActiveLeft(State(), active);
        ExpireQueued(active);
        return Active(jobs[active].state);
      }
      return false;
    }

    /** Only a job the device has not claimed can be withdrawn. */
    method CancelUpdate(id: JobId) returns (done: bool)
      requires ServerSound(State()) && id in jobs
      modifies this`jobs
      ensures ServerSound(State())
      ensures done <==> old(jobs)[id].state.Queued? || old(jobs)[id].state.Cancelled?
      ensures var job := old(jobs)[id];
              jobs == if !job.state.Queued? then old(jobs)
                      else old(jobs)[id := job.(state := Cancelled, error := OwnerCancelled,
                                                events := job.events + [Event(1, CancelledByOwner)])]
      ensures State() == if old(jobs)[id].state.Queued?
                         then old(State()).(jobs := old(jobs)[id := WithdrawnByOwner(old(jobs)[id])])
                         else old(State())
    {
      if jobs[id].state.Cancelled? {
        return true;
      }
      if !jobs[id].state.Queued? {
        return false;
      }
      CancelKeepsSound(State(), id);
      jobs := jobs[id := jobs[id].(state := Cancelled, error := OwnerCancelled,
                                   events := jobs[id].events + [Event(1, CancelledByOwner)])];
      return true;
    }

    /** The envelope is handed out only for a running, authorized job, and only to the image the job starts
        from or, while it is rebooting, the image it leads to. */
    method PollUpdate(app: Hash) returns (reply: Poll)
      requires ServerSound(State())
      modifies this`jobs
      ensures ServerSound(State())
      ensures reply.Refused? <==>
                (firmware.None? ||
                 (&& firmware.value.app != app
                  && forall id <- old(jobs) :: old(jobs)[id].state.Rebooting? ==>
                       catalog[old(jobs)[id].release].app != app))
      ensures reply.Refused? || reply.Idle? ==> State() == old(State())
      ensures reply.Idle? ==> forall id <- jobs :: !Active(jobs[id].state)
      ensures reply.Offer? ==>
                && reply.id in old(jobs) && Active(old(jobs)[reply.id].state)
                && State() == ExpiredQueued(old(State()), reply.id)
                && reply.job == jobs[reply.id]
                && (reply.envelope <==> Active(reply.job.state) && Authorized(State(), reply.job))
      ensures reply.Offer? ==>
                (reply.envelope <==>
                   && reply.job.state in {Queued, Downloading, Verifying, Rebooting}
                   && reply.job.release in available && reply.job.release in catalog
                   && catalog[reply.job.release].purpose.Ota? && now < reply.job.expires && compatible)
      ensures reply.Idle? ==> forall id <- jobs :: jobs[id].state !in {Queued, Downloading, Verifying, Rebooting}
    {
      hide JobSound, ActiveUpgrades, ConfirmationsRecorded;
      if exists id :: id in jobs && Active(jobs[id].state) {
        var active :| active in jobs && Active(jobs[active].state);
        var resumed := jobs[active].state.Rebooting? && app == catalog[jobs[active].release].app;
        if firmware.None? || (firmware.value.app != app && !resumed) {
          return Refused;
        }
        ExpireQueued(active);
        var job := jobs[active];
        return Offer(active, job, Active(job.state) && Authorized(State(), job));
      }
      if firmware.None? || firmware.value.app != app {
        return Refused;
      }
      return Idle;
    }

    /** A confirmed image is recorded once; a different one afterwards is refused. `listed` is what the query
        returns. */
    method ConfirmInitial(app: Hash, listed: seq<ReleaseId>) returns (done: bool)
      requires ServerSound(State())
      requires firmware.None? ==> forall id <- jobs :: !Active(jobs[id].state)
      requires forall i :: 0 <= i < |listed| ==> listed[i] in catalog && catalog[listed[i]].app == app
      modifies this`firmware
      ensures ServerSound(State())
      ensures old(firmware).Some? ==> firmware == old(firmware) && (done <==> firmware.value.app == app)
      ensures old(firmware).None? ==>
                var found := FirstInstalling(old(State()), listed, app);
                && (done <==> compatible && found.Some?)
                && firmware == if done then Some(Firmware(found.value, app, catalog[found.value].sequence)) else None
      ensures old(firmware).None? && done ==>
                && compatible && firmware.Some?
                && var id := firmware.value.release;
                && id in listed && id in available && id in catalog && catalog[id].purpose.InitialInstall?
                && catalog[id].app == app == firmware.value.app && catalog[id].version == version
                && firmware.value.sequence == catalog[id].sequence
      ensures old(firmware).None? && !done && compatible ==>
                forall i :: 0 <= i < |listed| ==>
                  listed[i] !in available || !catalog[listed[i]].purpose.InitialInstall?
                  || catalog[listed[i]].version != version
    {
      if firmware.Some? {
        return firmware.value.app == app;
      }
      if !compatible {
        return false;
      }
      for i := 0 to |listed|
        invariant firmware.None? && State() == old(State())
        invariant FirstInstalling(State(), listed, app) == FirstInstalling(State(), listed[i..], app)
        invariant forall k :: 0 <= k < i ==>
                    listed[k] !in available || !catalog[listed[k]].purpose.InitialInstall?
                    || catalog[listed[k]].version != version
      {
        assert listed[i..][1..] == listed[i + 1..];
        if !Verified(State(), listed[i], InitialInstall) || catalog[listed[i]].version != version {
          continue;
        }
        firmware := Some(Firmware(listed[i], app, catalog[listed[i]].sequence));
        return true;
      }
      return false;
    }

    /** Owner-approved correction after a local reflash: only to a fresh observation of an exactly matching
        signed image, only while no job is active, and only upwards. */
    method ReconcileLocalRecovery(release: ReleaseId, observed: Hash) returns (done: bool)
      requires ServerSound(State())
      modifies this`firmware
      ensures ServerSound(State())
      ensures ConfirmedSequence(old(State())) <= ConfirmedSequence(State())
      ensures done ==> Correctable(old(State()), release, observed)
      ensures Correctable(old(State()), release, observed) ==>
                (done <==> AlreadyRecorded(old(State()), release, observed) ||
                           ConfirmedSequence(old(State())) < catalog[release].sequence)
      ensures done <==>
                && permitted && credential && compatible
                && (forall id <- jobs :: jobs[id].state in {Confirmed, RolledBack, Failed, Cancelled})
                && observation.Some? && observation.value.app == observed && observation.value.version == version
                && now <= observation.value.at + 600
                && release in available && release in catalog && catalog[release].purpose.LocalRecovery?
                && catalog[release].app == observed && catalog[release].version == version
                && old(firmware).Some?
                && (|| (old(firmware).value.app == observed && old(firmware).value.release == release)
                    || old(firmware).value.sequence < catalog[release].sequence)
      ensures firmware == if !done || (old(firmware).value.app == observed && old(firmware).value.release == release)
                          then old(firmware)
                          else Some(Firmware(release, observed, catalog[release].sequence))
      ensures State() == if done && !AlreadyRecorded(old(State()), release, observed)
                         then old(State()).(firmware := Some(Firmware(release, observed, catalog[release].sequence)))
                         else old(State())
    {
      if !permitted || !credential || !compatible {
        return false;
      }
      if exists id :: id in jobs && Active(jobs[id].state) {
        return false;
      }
      if observation.None? || observation.value.at < now - OBSERVATION_WINDOW
         || observation.value.app != observed || observation.value.version != version {
        return false;
      }
      if release !in catalog || !Verified(State(), release, LocalRecovery) {
        return false;
      }
      if catalog[release].app != observed || catalog[release].version != observation.value.version {
        return false;
      }
      if firmware.None? {
        return false;
      }
      if firmware.value.app == observed && firmware.value.release == release {
        return true;
      }
      if catalog[release].sequence <= firmware.value.sequence {
        return false;
      }
      firmware := Some(Firmware(release, observed, catalog[release].sequence));
      return true;
    }
  }

  /** No update is running, the device has just shown this very image, and a signed recovery release describes it. */
  ghost predicate Correctable(s: Server, release: ReleaseId, observed: Hash) {
    && s.permitted && s.credential && s.compatible && s.firmware.Some?
    && (forall id <- s.jobs :: !Active(s.jobs[id].state))
    && s.observation.Some? && s.observation.value.app == observed && s.observation.value.version == s.version
    && s.now - OBSERVATION_WINDOW <= s.observation.value.at
    && Verified(s, release, LocalRecovery)
    && s.catalog[release].app == observed && s.catalog[release].version == s.version
  }

  predicate AlreadyRecorded(s: Server, release: ReleaseId, observed: Hash) {
    s.firmware.Some? && s.firmware.value.app == observed && s.firmware.value.release == release
  }

  predicate Installs(s: Server, id: ReleaseId, app: Hash) {
    Verified(s, id, InitialInstall) && s.catalog[id].app == app && s.catalog[id].version == s.version
  }

  function FirstInstalling(s: Server, listed: seq<ReleaseId>, app: Hash): (found: Option<ReleaseId>)
    ensures found.Some? ==> Installs(s, found.value, app)
  {
    if listed == [] then None
    else if Installs(s, listed[0], app) then Some(listed[0])
    else FirstInstalling(s, listed[1..], app)
  }

  /** The query for initial installations of an image: those not withdrawn, highest sequence first, at most ten. */
  ghost predicate NewestTen(s: Server, listed: seq<ReleaseId>, app: Hash, withdrawn: set<ReleaseId>) {
    && |listed| <= LISTED
    && (forall i :: 0 <= i < |listed| ==> Matches(s, listed[i], app, withdrawn))
    && (forall i, k :: 0 <= i < k < |listed| ==> s.catalog[listed[k]].sequence <= s.catalog[listed[i]].sequence)
    && (forall id :: Matches(s, id, app, withdrawn) && id !in listed ==>
          && |listed| == LISTED
          && forall i :: 0 <= i < |listed| ==> s.catalog[id].sequence <= s.catalog[listed[i]].sequence)
  }

  predicate Matches(s: Server, id: ReleaseId, app: Hash, withdrawn: set<ReleaseId>) {
    id in s.catalog && id !in withdrawn && s.catalog[id].purpose.InitialInstall? && s.catalog[id].app == app
  }

  lemma {:induction false} FirstInstallingIs(s: Server, listed: seq<ReleaseId>, app: Hash)
    ensures var found := FirstInstalling(s, listed, app);
            && (found.Some? <==> exists i :: 0 <= i < |listed| && Installs(s, listed[i], app))
            && (found.Some? ==>
                  exists i :: && 0 <= i < |listed| && listed[i] == found.value && Installs(s, listed[i], app)
                              && forall k :: 0 <= k < i ==> !Installs(s, listed[k], app))
  {
    if listed != [] && !Installs(s, listed[0], app) {
      var rest := listed[1..];
      FirstInstallingIs(s, rest, app);
      assert forall i :: 1 <= i < |listed| ==> listed[i] == rest[i - 1];
      if FirstInstalling(s, rest, app).Some? {
        var i :| && 0 <= i < |rest| && rest[i] == FirstInstalling(s, rest, app).value && Installs(s, rest[i], app)
                 && forall k :: 0 <= k < i ==> !Installs(s, rest[k], app);
        assert listed[i + 1] == rest[i];
        assert forall k :: 0 <= k < i + 1 ==> listed[k] == if k == 0 then listed[0] else rest[k - 1];
      }
    }
  }

  /** The image is confirmed with the newest release that installs it. None is found, though one exists, only when ten
      newer or equally new ones of the same image are listed and none of them installs it. */
  lemma NewestInstalls(s: Server, listed: seq<ReleaseId>, app: Hash, withdrawn: set<ReleaseId>, id: ReleaseId)
    requires NewestTen(s, listed, app, withdrawn) && s.available !! withdrawn && Installs(s, id, app)
    ensures var found := FirstInstalling(s, listed, app);
            if found.Some? then
              Installs(s, found.value, app) && s.catalog[id].sequence <= s.catalog[found.value].sequence
            else
              && id !in listed && |listed| == LISTED
              && forall i :: 0 <= i < |listed| ==>
                   !Installs(s, listed[i], app) && s.catalog[id].sequence <= s.catalog[listed[i]].sequence
  {
    FirstInstallingIs(s, listed, app);
    assert Matches(s, id, app, withdrawn);
  }

  function Successors(state: JobState): set<JobState> {
    match state
    case Queued => {Downloading, Failed}
    case Downloading => {Downloading, Verifying, Failed}
    case Verifying => {Rebooting, Failed}
    case Rebooting => {Confirmed, RolledBack, Failed}
    case _ => {}
  }
}
