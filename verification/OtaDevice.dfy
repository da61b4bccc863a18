/** The device's update client and its hardware port, talking to the deployment service over a lossy network.

    `history` records every global state the run passes through: one entry per durable write, flash write, boot
    selection and server-side step. Power may fail at any entry. */
module OtaDevice {
  import opened Wrappers
  import opened Deployment
  import opened OtaModel

  datatype Recovery = Unknown | PreviousSelected | TargetFailed
  datatype Selection = Uncertain | Kept | Switched

  /** What the driver does when it is told to change the boot selection: it changes it, says that it failed, or claims
      success without having changed anything. */
  datatype Driver = Changed | SaysFailed | SaysDone

  /** What can go wrong: in a download, and with what a tick needs to know before it acts. */
  datatype Trouble =
    | Nothing | CalledOff | Unsuitable | Lost | Malformed | Late | Ended | Oversized | WriteFailed | Mismatch | Cut
    | Rejected | Unreadable | NoContext | Unprovisioned | Untrusted | NoSlot

  /** One look at what may have gone wrong, and what had. */
  datatype Look = Look(possible: set<Trouble>, met: Trouble)

  /** Why a tick gives an update up, and how much was recorded by then. */
  datatype Why = NotApproved | NotDownloaded | NotVerified | NotSelected
  datatype Refusal = Refusal(at: nat, why: Why)

  /** What somebody else does: an approval that lapsed is closed, an owner withdraws, asks for an update or has the
      record corrected, or the facts change. */
  datatype Action =
    | Lapses(id: JobId)
    | Withdraws(id: JobId)
    | Requests(id: JobId, release: ReleaseId, key: int)
    | Corrects(release: ReleaseId)
    | Changes(available: set<ReleaseId>, permitted: bool, credential: bool, compatible: bool, version: int,
              observation: Option<Observation>, now: Instant)

  /** What the action leaves, when this image runs. Time never goes back. */
  ghost predicate Did(action: Action, running: Hash, s: Server, s': Server) {
    match action
    case Lapses(id) => s' == if id in s.jobs then ExpiredQueued(s, id) else s
    case Withdraws(id) =>
      s' == if id in s.jobs && s.jobs[id].state.Queued?
            then s.(jobs := s.jobs[id := s.jobs[id].(state := Cancelled, error := OwnerCancelled,
                                                     events := s.jobs[id].events + [Event(1, CancelledByOwner)])])
            else s
    case Requests(id, release, key) =>
      Requestable(s, release, key) && id !in s.jobs ==> s' == Requested(s, id, release, key)
    case Corrects(release) =>
      s' == if && Correctable(s, release, running) && ConfirmedSequence(s) < s.catalog[release].sequence
               && !AlreadyRecorded(s, release, running)
            then s.(firmware := Some(Firmware(release, running, s.catalog[release].sequence)))
            else s
    case Changes(available, permitted, credential, compatible, version, observation, now) =>
      s' == s.(available := available, permitted := permitted, credential := credential, compatible := compatible,
               version := version, observation := observation, now := if s.now <= now then now else s.now)
  }

  method Expire(service: DeploymentService, id: JobId)
    requires ServerSound(service.State()) && service.firmware.Some?
    modifies service
    ensures ServerSound(service.State()) && Outside(old(service.State()), service.State())
    ensures Did(Lapses(id), 0, old(service.State()), service.State())
  {
    SettlingIsOutside(service.State());
    if id in service.jobs {
      service.ExpireQueued(id);
    }
  }

  method Cancel(service: DeploymentService, id: JobId)
    requires ServerSound(service.State()) && service.firmware.Some?
    modifies service
    ensures ServerSound(service.State()) && Outside(old(service.State()), service.State())
    ensures Did(Withdraws(id), 0, old(service.State()), service.State())
  {
    if id in service.jobs {
      var done := service.CancelUpdate(id);
    }
  }

  method Request(service: DeploymentService, id: JobId, release: ReleaseId, key: int)
    requires ServerSound(service.State()) && service.firmware.Some?
    modifies service
    ensures ServerSound(service.State()) && Outside(old(service.State()), service.State())
    ensures Did(Requests(id, release, key), 0, old(service.State()), service.State())
  {
    hide ServerSound, Outside, Settled, ExpiredQueued, Eligible, NewJob;
    ghost var before := service.State();
    SettlingIsOutside(before);
    OutsideItself(before);
    if id !in service.jobs {
      NothingToSettle(before);
      var answer := service.RequestUpdate(release, key, id);
      if exists other :: other in before.jobs && before.jobs[other].key == key {
        var other :| other in before.jobs && before.jobs[other].key == key;
      } else if answer.Some? {
        AddingIsOutside(before, Settled(before), id, release, key);
      }
    }
  }

  lemma OutsideItself(s: Server)
    requires s.firmware.Some?
    ensures Outside(s, s)
  {
  }

  lemma AddingIsOutside(s: Server, settled: Server, id: JobId, release: ReleaseId, key: int)
    requires Outside(s, settled) && id !in s.jobs && release in s.catalog
    ensures Outside(s, settled.(jobs := settled.jobs[id := NewJob(s, release, key, s.firmware.value)]))
  {
  }

  lemma NothingToSettle(s: Server)
    requires ServerSound(s)
    ensures (forall id <- s.jobs :: !Active(s.jobs[id].state)) ==> Settled(s) == s
  {
    SettledIsOneExpiry(s);
  }

  method Recover(service: DeploymentService, release: ReleaseId, running: Hash)
    requires ServerSound(service.State()) && service.firmware.Some?
    requires (forall id <- service.jobs :: !Active(service.jobs[id].state)) ==> service.firmware.value.app == running
    modifies service
    ensures ServerSound(service.State()) && Outside(old(service.State()), service.State())
    ensures Did(Corrects(release), running, old(service.State()), service.State())
  {
    var done := service.ReconcileLocalRecovery(release, running);
  }

  /** Releases are published, withdrawn or expire, ownership, hardware reports and observations change, time passes. */
  method Change(service: DeploymentService, facts: Action)
    requires ServerSound(service.State()) && service.firmware.Some? && facts.Changes?
    modifies service
    ensures ServerSound(service.State()) && Outside(old(service.State()), service.State())
    ensures Did(facts, 0, old(service.State()), service.State())
  {
    hide ServerSound, Outside;
    ghost var before := service.State();
    service.available, service.permitted, service.compatible := facts.available, facts.permitted, facts.compatible;
    service.credential, service.version, service.observation := facts.credential, facts.version, facts.observation;
    if service.now <= facts.now {
      service.now := facts.now;
    }
    OnlyFactsChange(before, service.State());
  }

  lemma OnlyFactsChange(s: Server, s': Server)
    requires ServerSound(s) && s.firmware.Some?
    requires s'.catalog == s.catalog && s'.firmware == s.firmware && s'.jobs == s.jobs
    ensures ServerSound(s') && Outside(s, s')
  {
    hide JobSound;
  }

  /** One owner action, operator change or clock step. An observation reports the image that is running. */
  method Act(service: DeploymentService, running: Hash, action: Action)
    requires ServerSound(service.State()) && service.firmware.Some?
    requires (forall id <- service.jobs :: !Active(service.jobs[id].state)) ==> service.firmware.value.app == running
    modifies service
    ensures ServerSound(service.State()) && Outside(old(service.State()), service.State())
    ensures Did(action, running, old(service.State()), service.State())
  {
    hide ServerSound, Outside, ExpiredQueued, Requestable, Requested, Correctable, AlreadyRecorded;
    match action
    case Lapses(id) => Expire(service, id);
    case Withdraws(id) => Cancel(service, id);
    case Requests(id, release, key) => Request(service, id, release, key);
    case Corrects(release) => Recover(service, release, running);
    case Changes(_, _, _, _, _, _, _) => Change(service, action);
  }

  /** What the platform promises about the answer to a poll. */
  ghost predicate PollAnswered(s: Server, app: Hash, reply: Poll, s': Server) {
    && (reply.Refused? ==> s.firmware.None? || s.firmware.value.app != app)
    && (reply.Refused? || reply.Idle? ==> s' == s)
    && (reply.Idle? ==> forall id <- s'.jobs :: !Active(s'.jobs[id].state))
    && (reply.Offer? ==>
          && reply.id in s.jobs && Active(s.jobs[reply.id].state) && s' == ExpiredQueued(s, reply.id)
          && reply.id in s'.jobs && reply.job == s'.jobs[reply.id]
          && (reply.envelope <==> Active(reply.job.state) && Authorized(s', reply.job))
          && s.firmware.Some?
          && (s.firmware.value.app == app ||
              exists id :: && id in s.jobs && s.jobs[id].state.Rebooting? && s.jobs[id].release in s.catalog
                           && s.catalog[s.jobs[id].release].app == app))
  }

  /** An offered job is the one the poll finds. */
  lemma PollFinds(s: Server, id: JobId, app: Hash, reply: Poll, s': Server)
    requires ServerSound(s) && Offered(s, id, app) && PollAnswered(s, app, reply, s')
    ensures reply.Offer? && reply.id == id && reply.envelope && s' == s
  {
    if reply.Offer? {
      OfferIsUnique(s, id, app, reply.id);
      StandingDoesNotExpire(s, id);
    }
  }

  lemma JobsAreNamed(s: Server)
    requires ServerSound(s)
    ensures forall id <- s.jobs :: s.jobs[id].release in s.catalog
  {
  }

  /** A poll does nothing that the outside could not, and what it offers while queued starts from the polling image. */
  lemma PollIsOutside(s: Server, app: Hash, reply: Poll, s': Server)
    requires ServerSound(s) && s.firmware.Some? && PollAnswered(s, app, reply, s')
    ensures Outside(s, s')
    ensures reply.Offer? ==>
              reply.job.release in s'.catalog && (reply.job.state.Queued? ==> reply.job.previous == app)
  {
    hide ServerSound, Authorized, Settled;
    SettlingIsOutside(s);
    OutsideItself(s);
    if reply.Offer? {
      OfferStartsFromConfirmed(s, reply.id, app);
    }
  }

  lemma AnswerStands(s: Server, s': Server, id: JobId, r: Report)
    requires Outside(s, s') && id in s.jobs && !r.state.Queued?
    ensures id in s'.jobs && (s.jobs[id].state.Cancelled? ==> s'.jobs[id].state.Cancelled?)
    ensures Repeats(s.jobs[id], r) && s.jobs[id].state == r.state ==> Repeats(s'.jobs[id], r)
  {
  }

  /** The server let the device in at some moment since `from`. */
  ghost predicate LetIn(history: seq<Global>, from: nat) {
    exists k :: from <= k < |history| && history[k].server.permitted && history[k].server.credential
  }

  /** At some moment since `from` the server let the device in, and the job was as shown, its approval not lapsed. */
  ghost predicate ShownSince(history: seq<Global>, from: nat, id: JobId, job: Job) {
    exists k ::
      && from <= k < |history| && history[k].server.permitted && history[k].server.credential
      && id in history[k].server.jobs && history[k].server.jobs[id] == job
      && !(job.state.Queued? && job.expires <= history[k].server.now)
  }

  lemma OutsideIsGradual(a: Server, b: Server, c: Server, id: JobId)
    requires Outside(a, b) && Outside(b, c) && id in a.jobs
    ensures Outside(a, c) && id in b.jobs && id in c.jobs
    ensures SameOrWithdrawn(a.jobs[id], b.jobs[id]) && SameOrWithdrawn(b.jobs[id], c.jobs[id])
  {
  }

  lemma ShownStays(before: seq<Global>, after: seq<Global>, from: nat, later: nat, id: JobId, job: Job)
    requires before <= after && from <= later && ShownSince(before, later, id, job)
    ensures ShownSince(after, from, id, job)
  {
    var k :|
      && later <= k < |before| && before[k].server.permitted && before[k].server.credential
      && id in before[k].server.jobs && before[k].server.jobs[id] == job
      && !(job.state.Queued? && job.expires <= before[k].server.now);
    assert after[k] == before[k];
  }

  class NativePort {
    const service: DeploymentService
    const calm: bool  // nothing fails, nothing is lost, nobody else acts and no time passes
    const builds: Hash -> nat  // the release sequence compiled into an image, 0 for a development build
    var board: Board
    var stored: Option<Journal>
    var sequence: nat  // the stored floor, 0 when nothing is stored
    var build: nat  // the running image's own sequence
    var clock: Instant
    var failure: ErrorCode
    var restarting: bool
    var history: seq<Global>
    ghost var since: nat  // where in the history the last poll began
    ghost var replies: seq<int>  // every status of a report or a status query, -1 for none
    ghost var trouble: Trouble  // what went wrong last
    ghost var looks: seq<Look>  // every look taken
    ghost var refused: Option<Refusal>  // what this tick gives its update up for

    function World(): Global
      reads this`board, this`stored, this`sequence, service
    {
      Global(service.State(), board, stored, sequence)
    }

    ghost predicate Sound()
      reads this`board, this`stored, this`sequence, this`failure, this`history, this`since, service
    {
      && JointSound(World()) && Run(history) && history != [] && history[|history| - 1] == World()
      && since <= |history|
      && (failure.Network? || failure.LocalCancelled? || failure.ImageRejected? || failure.Storage?
          || failure.HashMismatch? || failure.ApprovalUnavailable?)
    }

    constructor (service: DeploymentService, board: Board, stored: Option<Journal>, sequence: nat, calm: bool,
                 builds: Hash -> nat, clock: Instant)
      requires JointSound(Global(service.State(), board, stored, sequence))
      ensures Sound() && this.service == service && this.calm == calm && !restarting
      ensures this.board == board && this.stored == stored && this.sequence == sequence
      ensures this.builds == builds && build == builds(board.images.At(board.running)) && this.clock == clock
      ensures |history| == 1
    {
      hide JointSound;
      this.service, this.board, this.stored, this.sequence, this.calm := service, board, stored, sequence, calm;
      this.builds, build, this.clock := builds, builds(board.images.At(board.running)), clock;
      failure, restarting, since, trouble, looks, refused, replies := Network, false, 0, Nothing, [], None, [];
      history := [Global(service.State(), board, stored, sequence)];
    }

    /** The job may go on, and nothing will stand in its way. */
    ghost predicate Smooth(id: JobId)
      reads service
    {
      calm && Standing(service.State(), id)
    }

    /** The job of this journal may go on, and the device itself accepts its policy. */
    ghost predicate Clear(j: Journal)
      reads this`sequence, this`build, this`clock, service
    {
      && Smooth(j.job) && j.release in service.catalog
      && PolicyAccepted(service.catalog[j.release], j.previous, Floor(), clock)
    }

    /** The sequence an update has to exceed. */
    function Floor(): nat
      reads this`sequence, this`build
    {
      if sequence < build then build else sequence
    }

    /** A queued job that the device may take on. */
    ghost predicate Claimable(id: JobId)
      reads this`sequence, this`build, this`clock, this`board, service
    {
      && Smooth(id) && service.jobs[id].state.Queued? && 0 < build
      && PolicyAccepted(service.catalog[service.jobs[id].release], board.images.At(board.running), Floor(), clock)
    }

    /** The server has held the job active and authorized, and said so, since the last poll began. */
    ghost predicate Granted(id: JobId)
      reads this`history, this`since
    {
      AuthorizedSince(history, since, id)
    }

    /** Requests get through and are let in; whether the job is still authorized is another matter. */
    ghost predicate Connected()
      reads service
    {
      calm && service.permitted && service.credential
    }

    /** The stored update ends in the stuck state. */
    ghost predicate Doomed()
      reads this`board, this`stored, service
    {
      stored.Some? && HeadedForStuck(service.State(), stored.value, board)
    }

    /** Whether a request, a reply or a piece of hardware fails right now. */
    method Mishap() returns (happens: bool)
      ensures calm ==> !happens
    {
      happens := *;
      if calm {
        happens := false;
      }
    }

    /** Which of these troubles, if any, is met next. */
    method Meet(possible: set<Trouble>) returns (met: Trouble)
      modifies this`trouble, this`looks
      ensures met == trouble && (met == Nothing || met in possible)
      ensures looks == old(looks) + [Look(possible, met)]
      ensures calm ==> met == Nothing
    {
      met := *;
      if calm || met !in possible {
        met := Nothing;
      }
      trouble, looks := met, looks + [Look(possible, met)];
    }

    /** Nothing was met since `from`. */
    ghost predicate Untroubled(from: nat)
      reads this`looks
    {
      forall k :: from <= k < |looks| ==> looks[k].met == Nothing
    }

    /** The device's clock. */
    method Time()
      modifies this`clock
      ensures old(clock) <= clock
      ensures calm ==> clock == old(clock)
    {
      var now: Instant := *;
      if !calm && clock <= now {
        clock := now;
      }
    }

    method Record()
      requires Run(history) && history != []
      requires JointSound(World()) && Step(history[|history| - 1], World())
      modifies this`history
      ensures Run(history) && history == old(history) + [World()]
    {
      RunGrows(history, World());
      history := history + [World()];
    }

    // ----- what the invariant says about the stored journal -----

    lemma Shaped()
      requires Sound() && stored.Some?
      ensures ValidJournal(stored.value) && JournalShape(stored.value) && BoardFits(board, stored.value)
      ensures MIN_APP_SIZE <= stored.value.size <= MAX_APP_SIZE && stored.value.sequence <= 20
    {
      JournalAlwaysValid(World());
      JournalIsShaped(World());
    }

    lemma Known()
      requires Sound() && stored.Some?
      ensures var j := stored.value; var running := board.images.At(board.running);
              && (running == j.previous || running == j.target)
              && (j.state.Queued? || j.state.Downloading? || j.state.Verifying? ==>
                    RunsPrevious(board, j) && !j.committed)
              && Paced(j.state, j.sequence, j.bytes, j.size)
              && j.job in service.jobs && service.jobs[j.job].release == j.release && j.release in service.catalog
              && var release := service.catalog[j.release];
              && release.app == j.target && release.size == j.size && release.sequence == j.targetSequence
    {
      RunningIsKnown(World());
      JournalJobIsKnown(World());
    }

    /** A rebooting journal, seen by a process that runs a confirmed image. */
    lemma Rebooted()
      requires Sound() && stored.Some? && stored.value.state.Rebooting? && stored.value.pending.None?
      requires !board.states.At(board.running).PendingVerify?
      ensures var j := stored.value;
              var state, running := board.states.At(j.slot), board.images.At(board.running);
              && j.sequence < 20
              && j.job in service.jobs && service.jobs[j.job].state.Rebooting?
              && (running == j.target ==> RunsTarget(board, j, false))
              && (board.boot == board.running != j.slot ==>
                    RunsPrevious(board, j) && (j.committed ==> FellBack(board, j)))
              && (board.boot == board.running && running != j.target ==>
                    && board.running == j.slot.Other() && running == j.previous && !state.PendingVerify?
                    && (j.committed ==> state.Aborted? || state.Invalid?)
                    && (Stuck(j, board) <==> !j.committed && (state.Aborted? || state.Invalid?)))
    {
      RebootOutcome(World());
      RebootingIsShared(World());
      if board.boot == board.running {
        UnlessStuck(World());
      }
    }

    lemma DoomedWhenAnswered()
      requires Sound() && (stored.Some? ==> stored.value.pending.None?)
      ensures Doomed() <==> stored.Some? && Stuck(stored.value, board)
      ensures stored.Some? && Terminal(stored.value.state) ==> !Doomed()
    {
      if stored.Some? {
        StuckWhenAnswered(World());
      }
    }

    lemma JobIsOffered()
      requires Sound() && stored.Some? && stored.value.pending.None? && Standing(service.State(), stored.value.job)
      requires Active(stored.value.state) && RunsPrevious(board, stored.value)
      ensures Offered(service.State(), stored.value.job, board.images.At(board.running))
      ensures service.jobs[stored.value.job].state == stored.value.state
    {
      JournalJobIsOffered(World());
    }

    lemma ClaimableIsOffered()
      requires Sound() && stored.None?
      ensures forall id :: Claimable(id) ==> Offered(service.State(), id, board.images.At(board.running))
    {
      forall id | Claimable(id) ensures Offered(service.State(), id, board.images.At(board.running)) {
        QueuedJobIsOffered(World(), id);
      }
    }

    lemma LastIsStored()
      requires Sound()
      ensures history != [] && history[|history| - 1].journal == stored
    {
    }

    lemma FailureHasReason()
      requires Sound()
      ensures !failure.NoError? && !failure.OwnerCancelled? && !failure.BootFailed?
    {
    }

    // ----- the outside world between two requests -----

    method OutsideStep(action: Action)
      requires Sound()
      modifies this`history, service
      ensures Sound() && Outside(old(service.State()), service.State())
      ensures history == old(history) + [World()]
      ensures Did(action, board.images.At(board.running), old(service.State()), service.State())
    {
      hide JointSound, ServerSound, Run, Step, Did;
      ghost var before := World();
      IdleRecordIsExact(before);
      Act(service, board.images.At(board.running), action);
      OutsideKeeps(before, service.State());
      Record();
    }

    method Interfere()
      requires Sound()
      modifies this`history, service
      ensures Sound() && Outside(old(service.State()), service.State())
      ensures old(history) <= history
      ensures calm ==> service.State() == old(service.State())
    {
      hide JointSound, Run;
      IdleRecordIsExact(World());
      var steps: nat := *;
      if calm {
        steps := 0;
      }
      while steps > 0
        invariant Sound() && Outside(old(service.State()), service.State())
        invariant old(history) <= history
        invariant calm ==> steps == 0 && service.State() == old(service.State())
      {
        ghost var middle := service.State();
        var action: Action := *;
        OutsideStep(action);
        OutsideComposes(old(service.State()), middle, service.State());
        steps := steps - 1;
      }
    }

    // ----- requests: any may be lost on the way there or on the way back -----

    /** Sends the stored report. A refusal means lost authorization, or a job cancelled before it was claimed. */
    method PostReport(id: JobId, r: Report) returns (status: int, ghost verdict: Option<Verdict>)
      requires Sound() && stored.Some? && stored.value.job == id && stored.value.pending == Some(r)
      modifies this`history, this`replies, service
      ensures Sound() && old(history) <= history && replies == old(replies) + [status]
      ensures id in service.jobs
      ensures status == 200 || status == 409 ==> verdict.Some?
      ensures match verdict
              case Some(_) => LetIn(history, |old(history)|)
              case None => Outside(old(service.State()), service.State())
      ensures status == 200 ==> Repeats(service.jobs[id], r)
      ensures status == 409 ==>
                && verdict.Some?
                && (service.jobs[id].state.Cancelled? || (verdict.value.Unauthorized? && NeedsAuthorization(r.state)))
      ensures old(Smooth(id)) ==> status == 200 && Smooth(id)
      ensures old(Connected()) ==> Connected() && (status == 200 || status == 409)
      ensures old(Connected()) ==> (status == 200 <==> Taken(old(service.State()), id, r))
      ensures old(Connected()) && status == 409 ==> service.State() == old(service.State())
    {
      hide JointSound, ServerSound, JobsSound, Run, Authorized, Taken, Reported, Judge, Outside, Repeats;
      hide NeedsAuthorization;
      verdict := None;
      Interfere();
      PendingReportShape(World());
      var lost := Mishap();
      status := -1;
      if !lost && (!service.permitted || !service.credential) {
        status := 401;
      } else if !lost {
        var answer := ServeReport(id, r);
        verdict := Some(answer);
        ghost var answered, served := service.State(), history;
        Interfere();
        AnswerStands(answered, service.State(), id, r);
        assert history[|served| - 1] == served[|served| - 1];
        var replyLost := Mishap();
        status := if replyLost then -1 else if answer.Accepted? || answer.Repeated? then 200 else 409;
      }
      replies := replies + [status];
    }

    /** The report as the server takes it. */
    method ServeReport(id: JobId, r: Report) returns (verdict: Verdict)
      requires Sound() && stored.Some? && stored.value.job == id && stored.value.pending == Some(r)
      modifies this`history, service
      ensures Sound() && old(history) < history && history[|history| - 1] == World()
      ensures id in service.jobs && !r.state.Queued?
      ensures verdict.Accepted? || verdict.Repeated? ==>
                Repeats(service.jobs[id], r) && service.jobs[id].state == r.state
      ensures !verdict.Accepted? && !verdict.Repeated? ==>
                service.jobs[id].state.Cancelled? || (verdict.Unauthorized? && NeedsAuthorization(r.state))
      ensures verdict.Accepted? || verdict.Repeated? <==> Taken(old(service.State()), id, r)
      ensures !verdict.Accepted? && !verdict.Repeated? ==> service.State() == old(service.State())
      ensures old(Smooth(id)) ==> (verdict.Accepted? || verdict.Repeated?) && Smooth(id)
      ensures service.permitted == old(service.permitted) && service.credential == old(service.credential)
    {
      hide JointSound, ServerSound, Run, Step, Standing, Judge, Reported;
      PendingReportShape(World());
      if Smooth(id) {
        StandingIsTaken(World());
      }
      TakenReport(service.State(), id, r);
      ReportingKeeps(World());
      PendingReportIsAcceptable(World());
      ghost var before := World();
      verdict := service.ReportUpdate(id, r);
      assert World() == before.(server := Reported(before.server, id, r));
      Record();
    }

    method CloseLapsed(id: JobId)
      requires Sound() && id in service.jobs
      modifies this`history, service
      ensures Sound() && old(history) < history && history[|history| - 1] == World()
      ensures Outside(old(service.State()), service.State()) && id in service.jobs
      ensures !(service.jobs[id].state.Queued? && service.jobs[id].expires <= service.now)
      ensures service.permitted == old(service.permitted) && service.credential == old(service.credential)
    {
      hide JointSound, ServerSound, Run, Step, Outside, ExpiredQueued;
      IdleRecordIsExact(World());
      SettlingIsOutside(service.State());
      ghost var before := World();
      service.ExpireQueued(id);
      OutsideKeeps(before, service.State());
      assert World() == before.(server := service.State());
      Record();
    }

    /** The job as the server shows it. */
    method ServeStatus(id: JobId) returns (snapshot: Job)
      requires Sound() && stored.Some? && stored.value.job == id && id in service.jobs
      requires service.permitted && service.credential
      modifies this`history, service
      ensures Sound() && old(history) <= history && Outside(old(service.State()), service.State())
      ensures id in service.jobs && snapshot == service.jobs[id] && ShownSince(history, |old(history)|, id, snapshot)
      ensures Agreement(stored.value, snapshot)
      ensures Paced(snapshot.state, snapshot.sequence, snapshot.bytes, stored.value.size)
      ensures service.permitted == old(service.permitted) && service.credential == old(service.credential)
    {
      hide JointSound, ServerSound, Run, Outside, Agreement, Paced;
      CloseLapsed(id);
      AgreedSnapshot(World());
      snapshot := service.jobs[id];
      assert history[|history| - 1].server.jobs[id] == snapshot;
    }

    /** What the dashboard answers about the job: the job as it was after lapsed approvals were closed. */
    method PostStatus(id: JobId, release: ReleaseId) returns (status: int, snapshot: Option<Job>)
      requires Sound() && stored.Some? && stored.value.job == id
      modifies this`history, this`replies, service
      ensures Sound() && old(history) <= history && replies == old(replies) + [status]
      ensures Outside(old(service.State()), service.State())
      ensures status == 200 ==> snapshot.Some? && snapshot.value.release == release
      ensures status == 200 ==> snapshot.Some? && ShownSince(history, |old(history)|, id, snapshot.value)
      ensures status == 200 ==>
                && snapshot.Some? && id in old(service.jobs) && id in service.jobs
                && SameOrWithdrawn(old(service.jobs)[id], snapshot.value)
                && SameOrWithdrawn(snapshot.value, service.jobs[id])
                && Agreement(stored.value, snapshot.value)
                && Paced(snapshot.value.state, snapshot.value.sequence, snapshot.value.bytes, stored.value.size)
      ensures old(Connected()) && stored.value.release == release ==> status == 200 && Connected()
    {
      hide JointSound, ServerSound, Agreement, Paced, Run, ShownSince, Outside, SameOrWithdrawn;
      RunningIsKnown(World());
      ghost var before := service.State();
      Interfere();
      JournalJobIsKnown(World());
      var lost := Mishap();
      status, snapshot := -1, None;
      if !lost && (!service.permitted || !service.credential) {
        status := 401;
      } else if !lost && service.jobs[id].release != release {
        status := 409;
      } else if !lost {
        ghost var asked, met := |history|, service.State();
        var shown := ServeStatus(id);
        OutsideIsGradual(before, met, service.State(), id);
        snapshot := Some(shown);
        ghost var served, middle := history, service.State();
        Interfere();
        OutsideIsGradual(before, middle, service.State(), id);
        ShownStays(served, history, |old(history)|, asked, id, shown);
        var replyLost := Mishap();
        status := if replyLost then -1 else 200;
      }
      replies := replies + [status];
    }

    /** The poll as the server serves it. */
    method ServePoll(app: Hash) returns (reply: Poll)
      requires Sound()
      modifies this`history, service
      ensures Sound() && old(history) <= history
      ensures reply.Offer? ==>
                && reply.id in service.jobs && reply.job == service.jobs[reply.id]
                && reply.job.release in service.catalog
                && (reply.job.state.Queued? ==> reply.job.previous == app)
      ensures reply.Offer? && reply.envelope && old(service.permitted && service.credential) ==>
                AuthorizedSince(history, |old(history)|, reply.id)
      ensures forall id :: calm && old(Offered(service.State(), id, app)) ==>
                reply.Offer? && reply.id == id && reply.envelope && service.State() == old(service.State())
    {
      hide JointSound, ServerSound, Run, Step, Offered, AuthorizedSince, Outside;
      IdleRecordIsExact(World());
      ghost var before := World();
      reply := service.PollUpdate(app);
      assert PollAnswered(before.server, app, reply, service.State()) by {
        hide ExpiredQueued, Authorized;
        JobsAreNamed(before.server);
      }
      hide PollAnswered, ExpiredQueued, Settled, Authorized;
      forall id | Offered(before.server, id, app)
        ensures reply.Offer? && reply.id == id && reply.envelope && service.State() == before.server
      {
        PollFinds(before.server, id, app, reply, service.State());
      }
      PollIsOutside(before.server, app, reply, service.State());
      OutsideKeeps(before, service.State());
      assert World() == before.(server := service.State());
      Record();
      if reply.Offer? && reply.envelope && service.permitted && service.credential {
        AuthorizedNow(history, |old(history)|, reply.id);
      }
    }

    /** A poll with the running image. */
    method PostPoll(app: Hash) returns (status: int, reply: Poll)
      requires Sound()
      modifies this`history, this`since, service
      ensures Sound() && old(history) <= history && since == |old(history)|
      ensures status == 200 && reply.Offer? ==>
                && reply.id in service.jobs && SameOrWithdrawn(reply.job, service.jobs[reply.id])
                && reply.job.release in service.catalog
                && (reply.job.state.Queued? ==> reply.job.previous == app)
      ensures status == 200 && reply.Offer? && reply.envelope ==> AuthorizedSince(history, |old(history)|, reply.id)
      ensures forall id :: calm && old(Offered(service.State(), id, app)) ==>
                && status == 200 && reply.Offer? && reply.id == id && reply.envelope
                && service.State() == old(service.State())
    {
      hide JointSound, Run, Authorized;
      since := |history|;
      Interfere();
      var lost := Mishap();
      if lost || !service.permitted || !service.credential {
        return -1, Refused;
      }
      reply := ServePoll(app);
      ghost var polled := history;
      Interfere();
      if reply.Offer? && reply.envelope {
        AuthorizedStays(polled, history, |old(history)|, reply.id);
      }
      var replyLost := Mishap();
      status := if replyLost then -1 else if reply.Refused? then 409 else 200;
    }

    /** A release's signed policy, verified here and now. */
    method Vet(release: Release) returns (ok: bool)
      modifies this`clock, this`trouble, this`looks
      ensures old(clock) <= clock && looks == old(looks) + [Look({Untrusted}, trouble)]
      ensures ok <==> trouble == Nothing && PolicyAccepted(release, board.images.At(board.running), Floor(), clock)
      ensures calm ==> clock == old(clock) && trouble == Nothing
    {
      var met := Meet({Untrusted});
      Time();
      ok := met == Nothing && PolicyAccepted(release, board.images.At(board.running), Floor(), clock);
    }

    // ----- durable storage -----

    /** A commit that reports failure may or may not have reached the flash. */
    method Save(value: Option<Journal>) returns (ok: bool)
      requires Sound() && JointSound(World().(journal := value))
      modifies this`history, this`stored
      ensures Sound() && old(history) <= history
      ensures stored == value || (!ok && stored == old(stored))
      ensures ok ==> |history| == |old(history)| + 1 && history[|old(history)|].journal == value
      ensures calm ==> ok
    {
      hide JointSound;
      var reached: bool := *;
      var refused := Mishap();
      ok := !refused;
      if ok || reached {
        assert Global(service.State(), board, value, sequence) == World().(journal := value);
        stored := value;
        Record();
      }
    }

    method AdvanceSequence(target: nat) returns (ok: bool)
      requires Sound() && sequence <= target && JointSound(World().(sequence := target))
      modifies this`history, this`sequence
      ensures Sound() && old(history) <= history
      ensures sequence == target || (!ok && sequence == old(sequence))
      ensures calm ==> ok
    {
      hide JointSound;
      if target < sequence {
        assert false;
      }
      var reached: bool := *;
      var refused := Mishap();
      ok := !refused;
      if ok || reached {
        assert Global(service.State(), board, stored, target) == World().(sequence := target);
        sequence := target;
        Record();
      }
    }

    // ----- slots -----

    /** Reads the slot back and compares its content hash. */
    method VerifyTarget(slot: Slot, expected: Hash) returns (ok: bool)
      modifies this`refused
      ensures ok ==> slot != board.running && board.images.At(slot) == expected
      ensures calm && slot == board.running.Other() && board.images.At(slot) == expected ==> ok
      ensures refused == if ok then old(refused) else Some(Refusal(|history|, NotVerified))
    {
      var unreadable := Mishap();
      ok := slot == board.running.Other() && !unreadable && board.images.At(slot) == expected;
      if !ok {
        refused := Some(Refusal(|history|, NotVerified));
      }
    }

    method SetBoot(slot: Slot)
      requires Sound() && stored.Some? && SelectAllowed(World()) && slot == stored.value.slot
      modifies this`history, this`board
      ensures Sound() && old(history) <= history
      ensures board == Switch(old(board), slot) && Selected(board, stored.value)
    {
      hide JointSound, Run;
      SelectingKeeps(World());
      assert Global(service.State(), Switch(board, slot), stored, sequence) == World().(board := Switch(board, slot));
      board := Switch(board, slot);
      Record();
    }

    /** Writes the boot selection unless the approval has expired or the owner cancels at the device, and reads back
        what came of it. */
    method SelectNow(slot: Slot, expires: Instant, cancelled: bool, driver: Driver) returns (selection: Selection)
      requires Sound() && stored.Some? && SelectAllowed(World()) && slot == stored.value.slot
      modifies this`history, this`board, this`failure
      ensures Sound() && old(history) <= history
      ensures expires <= clock ==> selection == Kept && failure == ApprovalUnavailable && board == old(board)
      ensures clock < expires && cancelled ==> selection == Kept && failure == LocalCancelled && board == old(board)
      ensures clock < expires && !cancelled ==>
                match driver
                case Changed => selection == Switched && Selected(board, stored.value)
                case SaysFailed => selection == Kept && failure == ImageRejected && board == old(board)
                case SaysDone => selection == Uncertain && board == old(board)
    {
      hide JointSound, Run;
      failure := ImageRejected;
      if expires <= clock || cancelled {
        failure := if expires <= clock then ApprovalUnavailable else LocalCancelled;
        return if board.boot == board.running then Kept else Uncertain;
      }
      if driver == Changed {
        SetBoot(slot);
      }
      if board.boot == slot {
        return Switched;
      }
      if driver == SaysFailed && board.boot == board.running {
        return Kept;
      }
      return Uncertain;
    }

    /** Callers must hold a durable, acknowledged, freshly approved and verified reboot. */
    method Select(slot: Slot, expires: Instant) returns (selection: Selection)
      requires Sound() && stored.Some?
      requires var j := stored.value;
               && slot == j.slot && j.state.Rebooting? && j.pending.None? && !j.committed
               && j.job in service.jobs && service.jobs[j.job].state.Rebooting?
               && Granted(j.job)
               && board.images.At(slot) == j.target
               && RunsPrevious(board, j)
      modifies this`history, this`board, this`failure, this`clock, this`trouble, this`looks, this`refused
      ensures old(looks) <= looks
      ensures Sound() && old(history) <= history
      ensures selection.Switched? ==> Selected(board, stored.value)
      ensures selection.Kept? ==>
                && board == old(board)
                && (failure.ImageRejected? || failure.ApprovalUnavailable? || failure.LocalCancelled?)
      ensures board != old(board) ==> selection.Switched? && clock < expires
      ensures board != old(board) ==> looks == old(looks) + [Look({CalledOff}, Nothing)]
      ensures expires <= clock ==> selection.Kept? && failure.ApprovalUnavailable?
      ensures selection.Kept? && failure.ApprovalUnavailable? ==> expires <= clock
      ensures calm && old(clock) < expires ==> selection.Switched?
      ensures calm ==> clock == old(clock)
      ensures refused == if selection.Kept? then Some(Refusal(|history|, NotSelected)) else old(refused)
    {
      hide JointSound, Run, AuthorizedSince;
      Time();
      var met := Meet({CalledOff});
      var missed := Mishap();
      var driver: Driver := *;
      if !missed {
        driver := Changed;
      }
      selection := SelectNow(slot, expires, met == CalledOff, driver);
      if selection.Kept? {
        refused := Some(Refusal(|history|, NotSelected));
      }
    }

    /** What the bootloader's records say about the slot after a restart. */
    method Recover(slot: Slot) returns (outcome: Recovery)
      ensures !outcome.Unknown? ==> slot != board.running == board.boot
      ensures outcome.TargetFailed? ==> board.states.At(slot).Aborted? || board.states.At(slot).Invalid?
      ensures outcome.PreviousSelected? ==> board.states.At(slot) in {New, Undefined, Valid}
      ensures calm && slot != board.running == board.boot && !board.states.At(slot).PendingVerify? ==> !outcome.Unknown?
    {
      var unreadable := Mishap();
      if slot == board.running || board.boot != board.running || unreadable {
        return Unknown;
      }
      match board.states.At(slot)
      case Aborted => return TargetFailed;
      case Invalid => return TargetFailed;
      case New => return PreviousSelected;
      case Undefined => return PreviousSelected;
      case Valid => return PreviousSelected;
      case PendingVerify => return Unknown;
    }

    /** One flash write into the slot the journal names. */
    method Write(slot: Slot, content: Hash)
      requires Sound() && stored.Some? && stored.value.slot == slot && RunsPrevious(board, stored.value)
      modifies this`history, this`board
      ensures Sound() && |history| == |old(history)| + 1 && old(history) <= history
      ensures board == Written(old(board), slot, content) && RunsPrevious(board, stored.value)
    {
      hide JointSound;
      WritingKeeps(World(), content);
      assert Global(service.State(), Written(board, slot, content), stored, sequence)
          == World().(board := Written(board, slot, content));
      board := Written(board, slot, content);
      Record();
    }

    /** The next piece of the image from the network, and what the slot then holds. Whether the whole of what was
        received is what was approved shows with the last piece. */
    method Chunk(left: nat, target: Hash) returns (count: nat, content: Hash, genuine: bool)
      requires 0 < left
      modifies this`trouble
      ensures trouble == if count == 0 then Ended
                         else if left < count then Oversized
                         else if count == left && !genuine then Mismatch
                         else Nothing
      ensures calm ==> 0 < count <= left && genuine && (count == left ==> content == target)
    {
      count, content, genuine := *, *, *;
      if calm {
        genuine := true;
        if !(0 < count < left) {
          count, content := left, target;
        }
      }
      trouble := if count == 0 then Ended
                 else if left < count then Oversized
                 else if count == left && !genuine then Mismatch
                 else Nothing;
    }

    /** One piece is received and written. */
    method Piece(slot: Slot, target: Hash, left: nat) returns (ok: bool, count: nat, genuine: bool)
      requires Sound() && stored.Some? && stored.value.slot == slot && RunsPrevious(board, stored.value)
      requires failure.Network? && 0 < left
      modifies this`history, this`board, this`failure, this`trouble, this`looks
      ensures Sound() && old(history) <= history && RunsPrevious(board, stored.value)
      ensures board == old(board).(images := board.images) && old(looks) <= looks
      ensures ok ==> looks == old(looks) + [Look({CalledOff, Late}, Nothing), Look({WriteFailed}, Nothing)]
      ensures ok ==> |history| == |old(history)| + 1
      ensures ok ==> && 0 < count <= left && failure.Network?
                     && trouble == if count == left && !genuine then Mismatch else Nothing
      ensures !ok ==>
                match trouble
                case CalledOff => failure.LocalCancelled?
                case Late => failure.Network?
                case Ended => failure.Network?
                case Oversized => failure.Storage?
                case WriteFailed => failure.Storage?
                case _ => false
      ensures calm ==> ok && genuine && (count == left ==> board.images.At(slot) == target)
    {
      hide JointSound, Run;
      ok, count, genuine := false, 0, false;
      var met := Meet({CalledOff, Late});
      if met != Nothing {
        if met == CalledOff {
          failure := LocalCancelled;
        }
        return;
      }
      var content;
      count, content, genuine := Chunk(left, target);
      if count == 0 {
        return;
      }
      if left < count {
        failure := Storage;
        return;
      }
      ghost var after := trouble;
      Write(slot, content);
      met := Meet({WriteFailed});
      if met != Nothing {
        failure := Storage;
        return;
      }
      trouble := after;
      ok := true;
    }

    /** One piece is written, reported if it is due, and the stream goes on. */
    method Stream(engine: OtaClient, slot: Slot, target: Hash, total: nat)
      returns (more: bool, written: nat, genuine: bool)
      requires engine.port == this && engine.Idle() && !engine.interrupted && failure.Network?
      requires var j := engine.journal.value; j.state.Downloading? && j.slot == slot && j.bytes <= total < j.size
      modifies this, engine, service
      ensures build == old(build) && refused == old(refused)
      ensures Sound() && old(history) <= history && old(replies) <= replies
      ensures board.boot == old(board.boot) && engine.recovering == old(engine.recovering)
      ensures total <= written
      ensures old(looks) <= looks && (more ==> Untroubled(|old(looks)|) && |looks| == |old(looks)| + 2)
      ensures more ==>
                && engine.Idle() && !engine.interrupted && engine.journal.value.state.Downloading?
                && SameUpdate(engine.journal.value, old(engine.journal).value)
                && total < written <= engine.journal.value.size && engine.journal.value.bytes <= written
                && (written == engine.journal.value.size ==> engine.journal.value.bytes == written)
                && failure.Network?
                && trouble == if written == engine.journal.value.size && !genuine then Mismatch else Nothing
      ensures !more && !engine.stopped ==>
                && engine.Ready() && engine.journal.Some? && engine.journal.value.state.Downloading?
                && SameUpdate(engine.journal.value, old(engine.journal).value)
      ensures !more && !engine.stopped ==>
                match trouble
                case Nothing => failure.Network? && !Acknowledged(engine)
                case Mismatch => failure.Network? && !Acknowledged(engine)
                case CalledOff => failure.LocalCancelled?
                case Late => failure.Network?
                case Ended => failure.Network?
                case Oversized => failure.Storage?
                case WriteFailed => failure.Storage?
                case _ => false
      ensures old(engine.Going()) ==>
                && more && engine.Going() && genuine
                && (written == old(engine.journal).value.size ==> board.images.At(slot) == target)
    {
      hide JointSound, Run, OtaClient.Going, NativePort.Sound, NativePort.World;
      if engine.Going() {
        engine.GoingIsCalm();
      }
      Known();
      var ok, count;
      ok, count, genuine := Piece(slot, target, engine.journal.value.size - total);
      more, written := false, total;
      if !ok {
        return;
      }
      written := total + count;
      more := engine.Progress(written);
    }

    /** The report of the progress was acknowledged. */
    ghost predicate Acknowledged(engine: OtaClient)
      reads engine
    {
      engine.journal.Some? && engine.journal.value.pending.None? && !engine.interrupted
    }

    /** The request is answered with an image for this board. */
    method Fetch(slot: Slot) returns (ok: bool)
      requires failure.Network?
      modifies this`failure, this`trouble, this`looks
      ensures old(looks) <= looks
      ensures ok ==>
                && slot == board.running.Other()
                && looks == old(looks) + [Look({CalledOff}, Nothing), Look({Unsuitable}, Nothing),
                                          Look({Lost}, Nothing), Look({Malformed, CalledOff}, Nothing)]
      ensures slot == board.running.Other() ==> (ok <==> trouble == Nothing)
      ensures match trouble
              case Nothing => if ok then failure.Network? else failure.ImageRejected?
              case CalledOff => failure.LocalCancelled?
              case Unsuitable => failure.ImageRejected?
              case Lost => failure.Network?
              case Malformed => failure.ImageRejected?
              case _ => false
      ensures calm && slot == board.running.Other() ==> ok
    {
      var met := Meet({CalledOff});
      if met != Nothing {
        failure := LocalCancelled;
        return false;
      }
      met := Meet({Unsuitable});
      if slot != board.running.Other() || met != Nothing {
        failure := ImageRejected;
        return false;
      }
      met := Meet({Lost});
      if met != Nothing {
        return false;
      }
      met := Meet({Malformed, CalledOff});
      if met != Nothing {
        failure := if met == CalledOff then LocalCancelled else ImageRejected;
        return false;
      }
      return true;
    }

    /** The slot is erased once the request is answered. */
    method OpenSlot(slot: Slot) returns (ok: bool)
      requires Sound() && stored.Some? && stored.value.slot == slot && RunsPrevious(board, stored.value)
      modifies this`history, this`board, this`failure, this`trouble, this`looks
      ensures Sound() && old(history) <= history && RunsPrevious(board, stored.value)
      ensures board == old(board).(images := board.images) && old(looks) <= looks
      ensures ok ==> looks == old(looks) + [Look({CalledOff}, Nothing), Look({Unsuitable}, Nothing),
                                            Look({Lost}, Nothing), Look({Malformed, CalledOff}, Nothing)]
      ensures |history| == |old(history)| + if ok then 1 else 0
      ensures ok <==> trouble == Nothing
      ensures match trouble
              case Nothing => failure.Network?
              case CalledOff => failure.LocalCancelled?
              case Unsuitable => failure.ImageRejected?
              case Lost => failure.Network?
              case Malformed => failure.ImageRejected?
              case _ => false
      ensures calm ==> ok
    {
      hide JointSound, Run, NativePort.World;
      failure := Network;
      ok := Fetch(slot);
      if ok {
        var erased: Hash := *;
        Write(slot, erased);
      }
    }

    /** The received bytes hash to the approved value, nothing follows them, and the written image is well formed. */
    method CloseSlot(genuine: bool) returns (ok: bool)
      requires Sound() && failure.Network? && (trouble == Mismatch <==> !genuine) && (genuine ==> trouble == Nothing)
      modifies this`failure, this`trouble, this`looks
      ensures Sound() && old(looks) <= looks
      ensures ok ==> looks == old(looks) + [Look({Cut, Rejected}, Nothing)]
      ensures ok <==> trouble == Nothing
      ensures match trouble
              case Nothing => genuine
              case Mismatch => failure.HashMismatch? && !genuine
              case Cut => failure.Network? && genuine
              case Rejected => failure.ImageRejected? && genuine
              case _ => false
      ensures calm && genuine ==> ok
    {
      hide JointSound;
      if !genuine {
        failure := HashMismatch;
        return false;
      }
      var met := Meet({Cut, Rejected});
      if met == Cut {
        return false;
      }
      if met == Rejected {
        failure := ImageRejected;
      }
      return met == Nothing;
    }

    /** Streams the image into the inactive slot, reporting progress as it is written. Success means that nothing went
        wrong, the whole image was written and its progress acknowledged; the slot's content is only trusted once it is
        read back. Failure has the reason of what went wrong. */
    method Download(engine: OtaClient, slot: Slot, size: nat, target: Hash) returns (success: bool)
      requires engine.port == this && engine.Idle() && !engine.interrupted
      requires var j := engine.journal.value;
               j.state.Downloading? && j.bytes == 0 && j.slot == slot && 0 < j.size == size
      modifies this, engine, service
      ensures build == old(build)
      ensures old(looks) <= looks
      ensures Sound() && old(history) <= history && old(replies) <= replies
      ensures board.boot == old(board.boot) && engine.recovering == old(engine.recovering)
      ensures !engine.stopped ==>
                && engine.Ready() && engine.journal.Some?
                && engine.journal.value.state.Downloading?
                && SameUpdate(engine.journal.value, old(engine.journal).value)
      ensures !engine.stopped && success ==>
                engine.journal.value.pending.None? && engine.journal.value.bytes == size && !engine.interrupted
      ensures !engine.stopped && success ==>
                trouble == Nothing && Untroubled(|old(looks)|) && |old(looks)| + 7 <= |looks|
      ensures !engine.stopped && !success ==>
                match trouble
                case Nothing => failure.Network? && !Acknowledged(engine)
                case CalledOff => failure.LocalCancelled?
                case Unsuitable => failure.ImageRejected?
                case Lost => failure.Network?
                case Malformed => failure.ImageRejected?
                case Late => failure.Network?
                case Ended => failure.Network?
                case Oversized => failure.Storage?
                case WriteFailed => failure.Storage?
                case Mismatch => if Acknowledged(engine) then failure.HashMismatch? else failure.Network?
                case Cut => failure.Network?
                case Rejected => failure.ImageRejected?
                case _ => false
      ensures refused == if success then old(refused) else Some(Refusal(|history|, NotDownloaded))
      ensures old(engine.Going()) ==> success && !engine.stopped && engine.Going() && board.images.At(slot) == target
    {
      success := Receive(engine, slot, size, target);
      if !success {
        refused := Some(Refusal(|history|, NotDownloaded));
      }
    }

    method Receive(engine: OtaClient, slot: Slot, size: nat, target: Hash) returns (success: bool)
      requires engine.port == this && engine.Idle() && !engine.interrupted
      requires var j := engine.journal.value;
               j.state.Downloading? && j.bytes == 0 && j.slot == slot && 0 < j.size == size
      modifies this, engine, service
      ensures build == old(build) && refused == old(refused)
      ensures old(looks) <= looks
      ensures Sound() && old(history) <= history && old(replies) <= replies
      ensures board.boot == old(board.boot) && engine.recovering == old(engine.recovering)
      ensures !engine.stopped ==>
                && engine.Ready() && engine.journal.Some?
                && engine.journal.value.state.Downloading?
                && SameUpdate(engine.journal.value, old(engine.journal).value)
      ensures !engine.stopped && success ==>
                engine.journal.value.pending.None? && engine.journal.value.bytes == size && !engine.interrupted
      ensures !engine.stopped && success ==>
                trouble == Nothing && Untroubled(|old(looks)|) && |old(looks)| + 7 <= |looks|
      ensures !engine.stopped && !success ==>
                match trouble
                case Nothing => failure.Network? && !Acknowledged(engine)
                case CalledOff => failure.LocalCancelled?
                case Unsuitable => failure.ImageRejected?
                case Lost => failure.Network?
                case Malformed => failure.ImageRejected?
                case Late => failure.Network?
                case Ended => failure.Network?
                case Oversized => failure.Storage?
                case WriteFailed => failure.Storage?
                case Mismatch => if Acknowledged(engine) then failure.HashMismatch? else failure.Network?
                case Cut => failure.Network?
                case Rejected => failure.ImageRejected?
                case _ => false
      ensures old(engine.Going()) ==> success && !engine.stopped && engine.Going() && board.images.At(slot) == target
    {
      hide JointSound, Run, OtaClient.Going, Next, ReportFor;
      if engine.Going() {
        engine.GoingIsCalm();
      }
      var begun := OpenSlot(slot);
      if !begun {
        return false;
      }
      var total: nat := 0;
      var more, genuine := true, true;
      while total < size
        invariant total <= size && more
        invariant Sound() && old(history) <= history && old(replies) <= replies
        invariant board.boot == old(board.boot) && build == old(build)
        invariant old(looks) <= looks && Untroubled(|old(looks)|)
        invariant |old(looks)| + (if total == 0 then 4 else 6) <= |looks|
        invariant !engine.interrupted && engine.Idle() && engine.recovering == old(engine.recovering)
        invariant engine.journal.value.state.Downloading? && engine.journal.value.bytes <= total
        invariant SameUpdate(engine.journal.value, old(engine.journal).value)
        invariant total == size ==> engine.journal.value.bytes == size
        invariant refused == old(refused) && failure.Network?
        invariant total == size ==> (trouble == Mismatch <==> !genuine) && (genuine ==> trouble == Nothing)
        invariant old(engine.Going()) ==>
                    engine.Going() && genuine && (total == size ==> board.images.At(slot) == target)
        decreases size - total
      {
        more, total, genuine := Stream(engine, slot, target, total);
        if !more {
          return false;
        }
      }
      success := CloseSlot(genuine);
    }

    /** The running image passes its startup checks. */
    method Confirm()
      requires Sound()
      modifies this`history, this`board
      ensures Sound() && history == old(history) + [World()]
      ensures board == ConfirmBoot(old(board))
    {
      hide JointSound;
      ConfirmBootKeeps(World());
      assert Global(service.State(), ConfirmBoot(board), stored, sequence) == World().(board := ConfirmBoot(board));
      board := ConfirmBoot(board);
      Record();
    }

    /** The power comes back, or the processor resets. */
    method PowerCycle(imageRejected: bool)
      requires Sound()
      modifies this`history, this`board, this`build, this`restarting
      ensures Sound() && !restarting && build == builds(board.images.At(board.running))
      ensures World() == old(World()).(board := PowerOn(old(board), imageRejected))
      ensures history == old(history) + [World()]
    {
      hide JointSound;
      PowerOnKeeps(World(), imageRejected);
      PowerOnIsStep(World(), imageRejected);
      board := PowerOn(board, imageRejected);
      assert World() == old(World()).(board := board);
      build, restarting := builds(board.images.At(board.running)), false;
      Record();
    }

    /** What a power failure leaves of a tick: everything up to some recorded state, and nothing after it. */
    method Rewind(k: nat)
      requires Sound() && k < |history|
      modifies this`history, this`board, this`stored, this`sequence, this`since, service
      ensures Sound() && history == old(history)[..k + 1] && World() == old(history)[k]
    {
      hide JointSound;
      ghost var before := history;
      var g := history[k];
      RunKeepsCatalog(history, k, |history| - 1);
      SoundAt(history, k);
      RunPrefix(history, k + 1);
      service.Restore(g.server);
      board, stored, sequence := g.board, g.journal, g.sequence;
      history := history[..k + 1];
      since := 0;
      assert World() == g;
    }

    method Restart()
      requires stored.Some? && stored.value.committed && Selected(board, stored.value)
      modifies this`restarting
      ensures restarting
    {
      restarting := true;
    }
  }

  /** Entry `k` is the next report of the journal before it: failed, with this reason. */
  ghost predicate Told(k: nat, history: seq<Global>, whole: bool, reason: ErrorCode) {
    && 0 < k < |history| && history[k - 1].journal.Some? && history[k].journal.Some?
    && var j, next := history[k - 1].journal.value, history[k].journal.value;
    && next == j.(state := Failed, sequence := j.sequence + 1, bytes := next.bytes, pending := next.pending)
    && next.bytes == (if whole then j.size else j.bytes)
    && next.pending == Some(Report(j.release, j.sequence + 1, Failed, next.bytes, j.previous, true, reason))
  }

  ghost predicate Unanswered(at: nat, history: seq<Global>) {
    0 < at <= |history| && history[at - 1].journal.Some? && history[at - 1].journal.value.pending.Some?
  }

  ghost predicate WasRebooting(at: nat, history: seq<Global>) {
    0 < at <= |history| && history[at - 1].journal.Some? && history[at - 1].journal.value.state.Rebooting?
  }

  lemma FailureIsTold(before: seq<Global>, after: seq<Global>, j: Journal, bytes: nat, error: ErrorCode)
    requires before != [] && before[|before| - 1].journal == Some(j) && before <= after
    requires |before| < |after| && after[|before|].journal == Some(Next(j, Failed, bytes, error))
    ensures bytes == j.bytes ==> Told(|before|, after, false, error)
    ensures bytes == j.size ==> Told(|before|, after, true, error)
    ensures WasRebooting(|before|, after) <==> j.state.Rebooting?
  {
    assert after[|before| - 1] == before[|before| - 1];
  }

  class OtaClient {
    const port: NativePort
    var initialized: bool
    var interrupted: bool
    var recovering: bool
    var stopped: bool
    var journal: Option<Journal>

    constructor (port: NativePort)
      ensures this.port == port && !initialized && !stopped
    {
      this.port := port;
      initialized, interrupted, recovering, stopped := false, false, false, false;
      journal := None;
    }

    /** The process holds the stored journal, and unless it found that journal when it started, it has selected
        nothing yet. */
    ghost predicate Ready()
      reads this, port, port.service
    {
      && port.Sound() && !port.restarting
      && initialized && !stopped && journal == port.stored
      && !port.board.states.At(port.board.running).PendingVerify?
      && (journal.Some? && recovering ==> interrupted)
      && (journal.Some? && !recovering ==> RunsPrevious(port.board, journal.value) && !journal.value.committed)
    }

    /** A new process, which has read nothing yet. */
    method Reset()
      requires port.Sound()
      modifies this
      ensures Rested() && !initialized && !stopped
    {
      hide JointSound, Run;
      initialized, interrupted, recovering, stopped, journal := false, false, false, false, None;
    }

    /** Between ticks an uninterrupted download has not started. */
    ghost predicate Rested()
      reads this, port, port.service
    {
      && port.Sound()
      && (stopped || !initialized || port.restarting
          || (Ready() && (journal.Some? ==> Attended(journal.value))
              && (journal.Some? && journal.value.state.Downloading? && !interrupted ==> journal.value.bytes == 0)))
    }

    /** No update is left lying: a report of it is still to be answered, its outcome is to be filed, or the next tick
        reports what cut it short. */
    ghost predicate Attended(j: Journal)
      reads this`interrupted
    {
      interrupted || j.pending.Some? || Terminal(j.state)
    }

    /** What this tick gave its update up for is the failure it reported, at the acknowledged bytes or the full size. */
    ghost predicate RefusalTold()
      reads this, port
    {
      port.refused.Some? && !stopped ==>
        var at := port.refused.value.at;
        match port.refused.value.why
        case NotApproved => Told(at, port.history, false, ApprovalUnavailable)
        case NotVerified =>
          Told(at, port.history, true, if WasRebooting(at, port.history) then ImageRejected else HashMismatch)
        case NotSelected => Told(at, port.history, true, port.failure)
        case NotDownloaded =>
          || (interrupted && Unanswered(at, port.history))
          || exists k :: at <= k && Told(k, port.history, false, port.failure)
    }

    ghost predicate Idle()
      reads this, port, port.service
    {
      Ready() && journal.Some? && journal.value.pending.None?
    }

    /** The journal's job holds its approval and nothing will stand in its way. */
    ghost predicate Going()
      reads this`journal, port`sequence, port`build, port`clock, port.service
    {
      journal.Some? && port.Clear(journal.value)
    }

    /** The journal's job holds its approval and no message will be lost. */
    ghost predicate Assured()
      reads this`journal, port.service
    {
      journal.Some? && port.Smooth(journal.value.job)
    }

    /** The target is selected, that is on record, and only the restart is left. */
    ghost predicate HandedOver(id: JobId)
      reads this, port, port.service
    {
      && port.restarting && port.stored.Some? && port.stored.value.job == id
      && port.stored.value.state.Rebooting? && port.stored.value.pending.None? && port.stored.value.committed
      && Selected(port.board, port.stored.value) && port.Smooth(id)
    }

    /** The first thing recorded after `before` is this journal entry. */
    ghost predicate Wrote(before: seq<Global>, next: Journal)
      reads port`history
    {
      |before| < |port.history| && port.history[|before|].journal == Some(next)
    }

    /** Nothing is left over, or one acknowledged outcome, or a report that is out of the way. */
    ghost predicate NearlyDone(reported: bool)
      reads this, port, port.service
    {
      && Ready()
      && (journal.None? || (journal.value.pending.None? && interrupted && (Terminal(journal.value.state) || reported)))
    }

    /** A process that found a journal when it started, on a settled board with a working connection. */
    ghost predicate Unfinished()
      reads this, port, port.service
    {
      && !stopped && (initialized ==> interrupted) && 0 < port.build
      && port.Connected() && port.stored.Some? && port.board.boot == port.board.running
    }

    lemma GoingIsCalm()
      requires Going()
      ensures port.calm
    {
    }

    method Persist() returns (ok: bool)
      requires port.Sound() && !stopped && JointSound(port.World().(journal := journal))
      modifies this`stopped, port`history, port`stored
      ensures port.Sound() && old(port.history) <= port.history
      ensures ok ==> !stopped && port.stored == journal
      ensures !ok ==> stopped
      ensures port.stored == journal || port.stored == old(port.stored)
      ensures ok && journal.Some? ==> Wrote(old(port.history), journal.value)
      ensures port.calm ==> ok
    {
      hide JointSound, Run;
      ok := port.Save(journal);
      if !ok {
        stopped := true;
      }
    }

    /** What each reply leads to, the first being number `n`: 200 clears the report, 409 is followed by a status query
        whose answer is adopted, and anything else leaves everything as it was. */
    ghost predicate Heeded(n: nat, from: nat, was: Option<Journal>, cut: bool, ok: bool)
      reads this`journal, this`interrupted, this`stopped, port`replies, port`history
    {
      && n < |port.replies| && was.Some?
      && match port.replies[n]
         case 200 => |port.replies| == n + 1 && (ok || stopped)
         case 409 =>
           && |port.replies| == n + 2
           && if port.replies[n + 1] == 200 then stopped || Mirrors(from, was.value)
              else !stopped && journal == was && interrupted == cut
         case _ => |port.replies| == n + 1 && !stopped && journal == was && interrupted == cut
    }

    /** Settles the pending report: answered, still unanswered, cancelled before the claim, or refused and brought
        back in step with the server. A refusal followed by an answered status query is always resolved. */
    method Flush() returns (ok: bool)
      requires Ready() && journal.Some?
      modifies this, port`history, port`stored, port`replies, port.service
      ensures port.Sound() && old(port.history) <= port.history
      ensures recovering == old(recovering)
      ensures ok ==> Idle() && interrupted == old(interrupted)
                     && journal.value == old(journal).value.(pending := None)
      ensures !ok ==> old(journal).value.pending.Some?
      ensures old(journal).value.pending.None? ==>
                && ok && port.replies == old(port.replies)
                && port.history == old(port.history) && port.service.State() == old(port.service.State())
      ensures old(journal).value.pending.Some? ==>
                && |old(port.replies)| < |port.replies| && old(port.replies) <= port.replies
                && Heeded(|old(port.replies)|, |old(port.history)|, old(journal), old(interrupted), ok)
      ensures !ok && !stopped ==> Ready()
      ensures !ok && !stopped && !NeedsAuthorization(old(journal).value.state) ==>
                journal == old(journal) || journal.None?
      ensures port.calm ==> !stopped
      ensures old(port.Connected()) ==> !stopped && port.Connected() && (journal.None? || journal.value.pending.None?)
      ensures !ok && !stopped ==>
                || (journal == old(journal) && interrupted == old(interrupted))
                || (journal.None? && !interrupted && old(journal).value.bytes == 0)
                || (interrupted && Idle() && Active(journal.value.state)
                    && journal.value == Adopted(old(journal).value, AsJob(journal.value))
                    && (journal.value.state == old(journal).value.state ||
                        Conforms(AsJob(journal.value), journal.value.size, journal.value.target,
                                 old(journal).value.pending.value)))
      ensures old(port.Connected()) ==> (port.Doomed() <==> old(port.Doomed()))
      ensures old(Assured()) ==> ok && Assured()
      ensures old(Going()) ==> ok && Going()
    {
      hide JointSound, Run, Standing, PolicyAccepted, Conforms, Agreement, Paced, HeadedForStuck, Adopted, Mirrors;
      hide Taken, Outside, SameOrWithdrawn, Repeats, LetIn, ShownSince;
      var j := journal.value;
      JournalAlwaysValid(port.World());
      if !ValidJournal(j) {
        assert false;
      }
      if j.pending.None? {
        return true;
      }
      port.Known();
      AnswerDecides(port.World(), port.service.jobs[j.job]);
      var status, verdict := port.PostReport(j.job, j.pending.value);
      if status == 409 {
        ghost var asked := port.history;
        ok := Query();
        if !stopped && port.replies[|port.replies| - 1] == 200 {
          MirrorsEarlier(|old(port.history)|, |asked|, j);
        }
        return;
      }
      if status != 200 {
        return false;
      }
      ok := Acknowledge();
    }

    /** The report is taken. */
    method Acknowledge() returns (ok: bool)
      requires Ready() && journal.Some? && journal.value.pending.Some?
      requires journal.value.job in port.service.jobs
      requires Repeats(port.service.jobs[journal.value.job], journal.value.pending.value)
      modifies this`journal, this`stopped, port`history, port`stored
      ensures port.Sound() && old(port.history) <= port.history
      ensures journal == Some(old(journal).value.(pending := None))
      ensures if ok then Idle() else stopped
      ensures ok ==> (port.Doomed() <==> Stuck(journal.value, port.board))
      ensures port.calm ==> ok
    {
      hide JointSound, Run;
      AnsweredKeeps(port.World());
      journal := Some(journal.value.(pending := None));
      ok := Persist();
      if ok {
        port.DoomedWhenAnswered();
      }
    }

    /** The journal now says what the server showed since `from`, and nothing is pending; or the job turned out to be
        cancelled, and there is no journal. */
    ghost predicate Mirrors(from: nat, was: Journal)
      reads this`journal, this`interrupted, port`history
    {
      exists job ::
        && ShownSince(port.history, from, was.job, job)
        && if job.state.Cancelled? then journal.None? && !interrupted
           else interrupted && journal == Some(was.(state := job.state, sequence := job.sequence, bytes := job.bytes,
                                                    pending := None))
    }

    lemma MirrorsEarlier(from: nat, later: nat, was: Journal)
      requires from <= later && Mirrors(later, was)
      ensures Mirrors(from, was)
    {
      var job :|
        && ShownSince(port.history, later, was.job, job)
        && if job.state.Cancelled? then journal.None? && !interrupted
           else interrupted && journal == Some(was.(state := job.state, sequence := job.sequence, bytes := job.bytes,
                                                    pending := None));
      assert ShownSince(port.history, from, was.job, job);
    }

    /** The report is refused: asks what the server holds, and adopts it. */
    method Query() returns (ok: bool)
      requires Ready() && journal.Some? && journal.value.pending.Some?
      requires journal.value.job in port.service.jobs
      requires port.service.jobs[journal.value.job].state.Cancelled? || NeedsAuthorization(journal.value.state)
      modifies this, port`history, port`stored, port`replies, port.service
      ensures !ok && port.Sound() && old(port.history) <= port.history
      ensures recovering == old(recovering)
      ensures !stopped ==> Ready()
      ensures && |port.replies| == |old(port.replies)| + 1 && old(port.replies) <= port.replies
              && if port.replies[|old(port.replies)|] == 200
                 then stopped || Mirrors(|old(port.history)|, old(journal).value)
                 else !stopped && journal == old(journal) && interrupted == old(interrupted)
      ensures !stopped && !NeedsAuthorization(old(journal).value.state) ==> journal == old(journal) || journal.None?
      ensures port.calm ==> !stopped
      ensures old(port.Connected()) ==> port.replies[|old(port.replies)|] == 200 && port.Connected()
      ensures !stopped ==>
                || (journal == old(journal) && interrupted == old(interrupted))
                || (journal.None? && !interrupted && old(journal).value.bytes == 0)
                || (interrupted && Idle() && Active(journal.value.state)
                    && journal.value == Adopted(old(journal).value, AsJob(journal.value))
                    && (journal.value.state == old(journal).value.state ||
                        Conforms(AsJob(journal.value), journal.value.size, journal.value.target,
                                 old(journal).value.pending.value)))
      ensures old(port.Connected() && !Taken(port.service.State(), journal.value.job, journal.value.pending.value)) ==>
                (port.Doomed() <==> old(port.Doomed()))
    {
      hide JointSound, Run, Conforms, Paced, Agreement, Taken, SameOrWithdrawn, HeadedForStuck;
      ghost var before := port.World();
      var j := journal.value;
      port.Known();
      var answer, remote := port.PostStatus(j.job, j.release);
      if answer != 200 {
        return false;
      }
      ghost var shown := port.history;
      AnswerDecides(before, remote.value);
      if before.server.jobs[j.job].state.Cancelled? {
        CancellationStands(before.server.jobs[j.job], remote.value);
      }
      ok := Reconcile(j, remote.value);
      ShownStays(shown, port.history, |old(port.history)|, |old(port.history)|, j.job, remote.value);
      if !stopped && journal.Some? {
        port.DoomedWhenAnswered();
      }
    }

    /** Adopts the server's answer after a refusal. The source's two give-up returns, for an unexpected sequence and
        for a state that is no longer running, cannot be reached. */
    method Reconcile(j: Journal, remote: Job) returns (ok: bool)
      requires Ready() && journal == Some(j) && j.pending.Some?
      requires j.job in port.service.jobs && SameOrWithdrawn(remote, port.service.jobs[j.job])
      requires Agreement(j, remote) && Paced(remote.state, remote.sequence, remote.bytes, j.size)
      requires remote.state.Cancelled? || NeedsAuthorization(j.state)
      modifies this, port`history, port`stored
      ensures !ok && port.Sound() && old(port.history) <= port.history
      ensures recovering == old(recovering)
      ensures !stopped ==>
                || (Ready() && journal.None? && !interrupted && j.bytes == 0)
                || (interrupted && Idle() && Active(journal.value.state)
                    && journal.value == Adopted(j, AsJob(journal.value))
                    && (journal.value.state == j.state ||
                        Conforms(AsJob(journal.value), j.size, j.target, j.pending.value)))
      ensures !stopped && !NeedsAuthorization(j.state) ==> journal.None?
      ensures journal == if remote.state.Cancelled? then None else Some(Adopted(j, remote))
      ensures port.calm ==> !stopped
    {
      hide JointSound, Run, Paced, Conforms, SameOrWithdrawn;
      ok := false;
      PendingReportShape(port.World());
      if remote.state.Cancelled? {
        CancelledBeforeClaim(j, remote);
      }
      if remote.state.Cancelled? && (j.state.Downloading? || j.state.Failed?) && j.bytes == 0 {
        CancellationStands(remote, port.service.jobs[j.job]);
        Abandon();
        return;
      }
      AdoptingKeeps(port.World(), remote);
      if remote.sequence != j.sequence && remote.sequence + 1 != j.sequence {
        assert false;
      }
      if !Active(remote.state) {
        assert false;
      }
      Adopt(j, remote);
    }

    /** The job was cancelled before it was claimed. */
    method Abandon()
      requires Ready() && journal.Some?
      requires journal.value.job in port.service.jobs && port.service.jobs[journal.value.job].state.Cancelled?
      modifies this`journal, this`interrupted, this`stopped, port`history, port`stored
      ensures port.Sound() && old(port.history) <= port.history
      ensures journal.None? && !interrupted && (!stopped ==> Ready())
      ensures port.calm ==> !stopped
    {
      hide JointSound, Run;
      ClearingCancelledKeeps(port.World());
      journal, interrupted := None, false;
      var saved := Persist();
    }

    method Adopt(j: Journal, remote: Job)
      requires Ready() && journal == Some(j) && JointSound(port.World().(journal := Some(Adopted(j, remote))))
      requires RunsPrevious(port.board, Adopted(j, remote)) && !Adopted(j, remote).committed
      modifies this`journal, this`interrupted, this`stopped, port`history, port`stored
      ensures port.Sound() && old(port.history) <= port.history
      ensures journal == Some(Adopted(j, remote)) && interrupted && (!stopped ==> Idle())
      ensures port.calm ==> !stopped
    {
      hide JointSound, Run;
      journal, interrupted := Some(Adopted(j, remote)), true;
      var saved := Persist();
    }

    /** Writes down the next report and sends it. Every report built anywhere meets all of the server's rules, up to
        authorization. */
    method Report(state: JobState, bytes: nat, error: ErrorCode) returns (ok: bool)
      requires Idle()
      requires var j := journal.value; var next := Next(j, state, bytes, error);
               && Conforms(AsJob(j), j.size, j.target, next.pending.value)
               && JournalShape(next) && BoardFits(port.board, next)
      modifies this, port`history, port`stored, port`replies, port.service
      ensures port.Sound() && old(port.history) <= port.history
      ensures old(port.replies) <= port.replies
      ensures recovering == old(recovering)
      ensures ok ==> Idle() && interrupted == old(interrupted)
                     && journal.value == Next(old(journal).value, state, bytes, error).(pending := None)
      ensures !ok && !stopped ==> Ready()
      ensures !ok && !stopped ==>
                (|| (journal == Some(Next(old(journal).value, state, bytes, error)) && interrupted == old(interrupted))
                 || (journal.None? && bytes == 0)
                 || (interrupted && journal.Some? && Active(journal.value.state)
                     && SameUpdate(journal.value, old(journal).value)
                     && (journal.value.state == state ||
                         Conforms(AsJob(journal.value), journal.value.size, journal.value.target,
                                  Next(old(journal).value, state, bytes, error).pending.value))))
      ensures !stopped ==> Wrote(old(port.history), Next(old(journal).value, state, bytes, error))
      ensures !stopped ==> |old(port.replies)| < |port.replies|
      ensures port.calm ==> !stopped
      ensures old(port.Connected()) && !NeedsAuthorization(state) ==> ok || journal.None?
      ensures old(port.Connected()) ==> !stopped && port.Connected() && (journal.None? || journal.value.pending.None?)
      ensures old(Assured()) ==> ok && Assured()
      ensures old(Going()) ==> ok && Going()
    {
      hide JointSound, Run, Standing, PolicyAccepted, Heeded;
      var j := journal.value;
      JournalAlwaysValid(port.World());
      if !ValidJournal(j) || j.size < bytes || MAX_REPORTS <= j.sequence || j.pending.Some? {
        assert false;
      }
      BuildingKeeps(port.World(), state, bytes, error);
      journal := Some(Next(j, state, bytes, error));
      ok := Persist();
      if ok {
        ok := Flush();
      }
    }

    /** Reports an update that has selected nothing as failed. */
    method GiveUp(bytes: nat, error: ErrorCode)
      requires Idle() && Active(journal.value.state) && !journal.value.committed
      requires RunsPrevious(port.board, journal.value)
      requires var j := journal.value;
               bytes == j.bytes || (bytes == j.size && (j.state.Verifying? || j.state.Rebooting?))
      requires !error.NoError? && !error.OwnerCancelled?
      requires journal.value.state.Rebooting? ==>
                 error.Storage? || error.ImageRejected? || error.ApprovalUnavailable? || error.LocalCancelled?
      modifies this, port`history, port`stored, port`replies, port.service
      ensures Rested() && old(port.history) <= port.history
      ensures old(port.replies) <= port.replies
      ensures !stopped ==> Wrote(old(port.history), Next(old(journal).value, Failed, bytes, error))
      ensures !stopped ==> WasRebooting(|old(port.history)|, port.history) == old(journal).value.state.Rebooting?
      ensures !stopped && bytes == old(journal).value.bytes ==> Told(|old(port.history)|, port.history, false, error)
      ensures !stopped && bytes == old(journal).value.size ==> Told(|old(port.history)|, port.history, true, error)
    {
      hide JointSound, Run, NativePort.Sound, NativePort.World, Conforms, JournalShape, BoardFits, Paced, Told;
      ghost var before, j := port.history, journal.value;
      port.Shaped();
      port.LastIsStored();
      MayFail(j, port.board, bytes, error);
      var ok := Report(Failed, bytes, error);
      if !stopped {
        FailureIsTold(before, port.history, j, bytes, error);
      }
    }

    /** Called after each durable write of the download; false aborts the stream. */
    method Progress(bytes: nat) returns (ok: bool)
      requires Idle() && !interrupted
      requires journal.value.state.Downloading? && journal.value.bytes < bytes <= journal.value.size
      modifies this, port`history, port`stored, port`replies, port.service
      ensures port.Sound() && old(port.history) <= port.history
      ensures old(port.replies) <= port.replies
      ensures recovering == old(recovering)
      ensures ok ==> Idle() && !interrupted
                     && SameUpdate(journal.value, old(journal).value) && journal.value.state.Downloading?
                     && journal.value.bytes <= bytes < journal.value.bytes + PROGRESS_STEP
                     && (bytes == journal.value.size ==> journal.value.bytes == bytes)
      ensures !ok && !stopped ==> Ready() && journal.Some? && journal.value.state.Downloading?
                                  && SameUpdate(journal.value, old(journal).value)
                                  && (journal.value.pending.Some? || interrupted)
      ensures old(Going()) ==> ok && Going()
    {
      hide JointSound, Run, NativePort.Sound, NativePort.World, Standing, PolicyAccepted;
      var j := journal.value;
      port.Known();
      if bytes == j.size || j.bytes + PROGRESS_STEP <= bytes {
        port.Shaped();
        ok := Report(Downloading, bytes, NoError);
      } else {
        ok := true;
      }
    }

    /** The device accepts the policy of this release from the running image, now. */
    ghost predicate Acceptable(id: ReleaseId)
      reads port`sequence, port`build, port`clock, port`board
    {
      && id in port.service.catalog
      && var policy := port.service.catalog[id];
      && policy.purpose.Ota? && port.sequence < policy.sequence && port.build < policy.sequence
      && port.board.images.At(port.board.running) in policy.predecessors
      && policy.size <= 4128768 && port.clock < policy.expires
    }

    /** If the boot selection changed, the server held the stored update authorized since `from`, and the device still
        accepts its policy. */
    ghost predicate Entitled(from: nat, boot: Slot)
      reads port, port.service
    {
      port.board.boot != boot ==>
        && port.stored.Some? && AuthorizedSince(port.history, from, port.stored.value.job)
        && Acceptable(port.stored.value.release)
    }

    lemma AcceptedIsAcceptable(id: ReleaseId)
      requires id in port.service.catalog
      requires PolicyAccepted(port.service.catalog[id], port.board.images.At(port.board.running), port.Floor(),
                              port.clock)
      ensures Acceptable(id)
    {
    }

    /** Rechecks the approval: the same running job, offered again with an envelope that still verifies. */
    method Approved() returns (ok: bool)
      requires Idle()
      modifies port`history, port`since, port`clock, port`trouble, port`looks, port`refused, port.service
      ensures Idle() && old(port.history) <= port.history && old(port.looks) <= port.looks
      ensures ok ==> port.looks == old(port.looks) + [Look({NoContext}, Nothing), Look({Untrusted}, Nothing)]
      ensures port.refused == if ok then old(port.refused) else Some(Refusal(|port.history|, NotApproved))
      ensures ok ==> AuthorizedSince(port.history, |old(port.history)|, journal.value.job)
      ensures ok ==> port.Granted(journal.value.job) && Acceptable(journal.value.release)
      ensures old(Going()) && RunsPrevious(port.board, journal.value) && Active(journal.value.state) ==> ok && Going()
    {
      hide JointSound, Run, NativePort.Sound, NativePort.World, Going, PolicyAccepted;
      ok := Recheck();
      if !ok {
        port.refused := Some(Refusal(|port.history|, NotApproved));
      }
    }

    method Recheck() returns (ok: bool)
      requires Idle()
      modifies port`history, port`since, port`clock, port`trouble, port`looks, port.service
      ensures Idle() && old(port.history) <= port.history && old(port.looks) <= port.looks
      ensures ok ==> port.looks == old(port.looks) + [Look({NoContext}, Nothing), Look({Untrusted}, Nothing)]
      ensures ok ==> AuthorizedSince(port.history, |old(port.history)|, journal.value.job)
      ensures ok ==> port.Granted(journal.value.job) && Acceptable(journal.value.release)
      ensures old(Going()) && RunsPrevious(port.board, journal.value) && Active(journal.value.state) ==> ok && Going()
    {
      hide JointSound, Run, NativePort.Sound, NativePort.World, Standing, Offered, PolicyAccepted;
      hide JournalShape, BoardFits, Paced, AuthorizedSince, Acceptable;
      port.Known();
      var met := port.Meet({NoContext});
      if met != Nothing {
        return false;
      }
      var running := port.board.images.At(port.board.running);
      if port.Smooth(journal.value.job) && RunsPrevious(port.board, journal.value) && Active(journal.value.state) {
        port.JobIsOffered();
      }
      var status, reply := port.PostPoll(running);
      if status != 200 || !reply.Offer? || reply.id != journal.value.job || reply.job.release != journal.value.release {
        return false;
      }
      var release := port.service.catalog[reply.job.release];
      var vetted := port.Vet(release);
      if !reply.envelope || !vetted {
        return false;
      }
      if release.app != journal.value.target || release.size != journal.value.size ||
         release.sequence != journal.value.targetSequence {
        return false;
      }
      AcceptedIsAcceptable(reply.job.release);
      return true;
    }

    // ----- one tick -----

    /** A new process reads the journal; if there is one, a power loss or a reboot cut its update short. */
    method Open() returns (ok: bool)
      requires Rested() && !port.restarting && !stopped
      requires !port.board.states.At(port.board.running).PendingVerify?
      modifies this, port`trouble, port`looks
      ensures if ok then Ready() && Rested() else stopped && Rested()
      ensures port.looks == old(port.looks) + if old(initialized) then []
                                                else [Look({Unreadable}, if ok then Nothing else Unreadable)]
      ensures port.calm ==> ok
      ensures old(initialized) ==> ok && interrupted == old(interrupted) && recovering == old(recovering)
      ensures ok && !old(initialized) ==> (interrupted <==> journal.Some?) && (recovering <==> journal.Some?)
    {
      hide JointSound, Run;
      if !initialized {
        var met := port.Meet({Unreadable});
        if met != Nothing {
          stopped := true;
          return false;
        }
        journal, initialized := port.stored, true;
        interrupted := journal.Some?;
        recovering := interrupted;
      }
      return true;
    }

    /** The journal is open, and the device knows what it runs. */
    method Enter() returns (ok: bool)
      requires Rested() && !port.restarting && !stopped
      requires !port.board.states.At(port.board.running).PendingVerify?
      modifies this, port`trouble, port`looks
      ensures Rested() && !port.restarting
      ensures if ok then Ready() else stopped || Ready()
      ensures port.calm ==> ok
      ensures port.looks == old(port.looks) + if old(initialized) then [Look({NoContext}, port.trouble)]
                                              else if stopped then [Look({Unreadable}, Unreadable)]
                                              else [Look({Unreadable}, Nothing), Look({NoContext}, port.trouble)]
      ensures ok <==> !stopped && port.trouble == Nothing
      ensures old(initialized) ==> !stopped && interrupted == old(interrupted) && recovering == old(recovering)
      ensures ok && !old(initialized) ==> (interrupted <==> journal.Some?) && (recovering <==> journal.Some?)
    {
      hide JointSound, Run;
      ok := Open();
      if ok {
        var met := port.Meet({NoContext});
        ok := met == Nothing;
      }
    }

    method Tick()
      requires Rested() && !port.restarting
      requires !port.board.states.At(port.board.running).PendingVerify?
      modifies this, port, port.service
      ensures port.build == old(port.build)
      ensures Rested() && old(port.history) <= port.history
      ensures old(port.replies) <= port.replies
      ensures old(port.build) == 0 || old(stopped) ==>
                && port.history == old(port.history) && port.World() == old(port.World())
                && port.replies == old(port.replies)
      ensures Entitled(|old(port.history)|, old(port.board.boot))
      ensures !old(stopped) ==> RefusalTold()
      ensures !old(stopped) && 0 < old(port.build) ==>
                var n := |old(port.looks)| + if old(initialized) then 0 else 1;
                if |port.looks| <= n then stopped && port.looks == old(port.looks) + [Look({Unreadable}, Unreadable)]
                else port.looks[n].possible == {NoContext}
                     && (port.looks[n].met != Nothing ==> port.history == old(port.history))
      ensures forall id :: !old(stopped) && old(port.stored).None? && old(port.Claimable(id)) ==> HandedOver(id)
      ensures !old(stopped) && old(&& port.stored.Some? && port.Smooth(port.stored.value.job) && 0 < port.build
                                   && port.stored.value.pending.None? && Decided(port.stored.value, port.board)) ==>
                Idle() && journal.value.state == old(Shown(port.stored.value, port.board)) &&
                journal.value.job == old(port.stored).value.job
      ensures old(Unfinished()) ==>
                && port.board == old(port.board) && port.Connected()
                && (stopped ==> port.stored.Some? && Stuck(port.stored.value, port.board))
                && (!stopped ==> NearlyDone(old(port.stored).value.pending.Some?))
      ensures old(Unfinished() && (initialized ==> recovering)) ==>
                (port.Doomed() <==> old(port.Doomed())) && (!stopped && journal.Some? ==> recovering)
      ensures old(Unfinished() && port.stored.value.pending.None?) ==>
                (stopped <==> old((initialized ==> recovering) && Stuck(port.stored.value, port.board)))
      ensures old(Unfinished() && port.stored.value.schema == 2 && port.stored.value.pending.None?) && !stopped ==>
                var planned := old(Planned(port.stored.value, true, initialized ==> recovering, port.board));
                planned.Some? ==> Wrote(old(port.history), planned.value)
      ensures !old(stopped) && port.calm && old(&& port.stored.Some? && port.stored.value.pending.None?
                                                && 0 < port.build && Terminal(port.stored.value.state)) ==>
                Ready() && journal.None? && port.board == old(port.board) &&
                port.service.State() == old(port.service.State()) &&
                (old(port.stored).value.state.Confirmed? ==> port.sequence == old(port.stored).value.targetSequence)
    {
      hide JointSound, Run, NativePort.Sound, NativePort.World, Standing, PolicyAccepted, Planned;
      hide Told, WasRebooting, Unanswered, Wrote, HandedOver, Acceptable;
      port.refused := None;
      if port.build == 0 || stopped {
        return;
      }
      var entered := Enter();
      if !entered {
        return;
      }
      if journal.None? {
        recovering, interrupted := false, false;
        assert forall id :: old(port.Claimable(id)) ==> port.Claimable(id);
        var claimed := Claim();
        if !claimed {
          return;
        }
      }
      Serve();
    }

    /** The source's two stops, for a journal that fails its check and for a running image the journal does not name,
        cannot be reached. An older journal is brought up to date first. */
    method Check() returns (ok: bool)
      requires Ready() && journal.Some?
      modifies this`journal, this`stopped, port`history, port`stored
      ensures port.Sound() && old(port.history) <= port.history
      ensures if ok then Ready() else stopped
      ensures journal == Some(old(journal).value.(schema := 2))
      ensures old(journal).value.schema == 2 ==> port.history == old(port.history)
      ensures port.stored == journal ==> (port.Doomed() <==> old(port.Doomed()))
      ensures port.calm ==> ok
    {
      hide JointSound, Run, NativePort.Sound, NativePort.World, Standing, PolicyAccepted, NativePort.Doomed;
      hide ValidJournal, BoardFits, Paced;
      port.Shaped();
      port.Known();
      if !ValidJournal(journal.value) {
        assert false;
      }
      ok := true;
      if journal.value.schema == 1 {
        ok := Migrate();
        if !ok {
          return;
        }
      }
      var running := port.board.images.At(port.board.running);
      if running != journal.value.previous && running != journal.value.target {
        assert false;
      }
    }

    lemma NothingDone(from: nat, boot: Slot)
      requires port.board.boot == boot
      ensures Entitled(from, boot) && (port.refused.None? ==> RefusalTold())
    {
    }

    lemma EntitledEarlier(from: nat, later: nat, boot: Slot)
      requires from <= later && Entitled(later, boot)
      ensures Entitled(from, boot)
    {
      if port.board.boot != boot {
        AuthorizedEarlier(port.history, from, later, port.stored.value.job);
      }
    }

    /** Settles what is pending and goes on. */
    method Serve()
      requires Ready() && journal.Some?
      requires journal.value.state.Downloading? && !interrupted ==> journal.value.bytes == 0
      modifies this, port, port.service
      ensures port.build == old(port.build)
      ensures Rested() && old(port.history) <= port.history
      ensures old(port.replies) <= port.replies && old(port.looks) <= port.looks
      ensures old(journal).value.pending.Some? ==> stopped || |old(port.replies)| < |port.replies|
      ensures Entitled(|old(port.history)|, old(port.board.boot))
      ensures old(port.refused).None? ==> RefusalTold()
      ensures var planned := Planned(old(journal).value, old(interrupted), old(recovering), old(port.board));
              !stopped && old(journal).value.schema == 2 && old(journal).value.pending.None? && planned.Some? ==>
                Wrote(old(port.history), planned.value)
      ensures old(&& Going() && !interrupted
                  && (journal.value.state.Queued? || journal.value.state.Downloading?)) ==>
                HandedOver(old(journal).value.job)
      ensures old(Assured() && Decided(journal.value, port.board)) ==>
                Idle() && journal.value.state == old(Shown(journal.value, port.board)) &&
                journal.value.job == old(journal).value.job
      ensures old(port.Connected() && interrupted && port.board.boot == port.board.running) ==>
                && port.board == old(port.board) && port.Connected()
                && (stopped ==> port.stored.Some? && Stuck(port.stored.value, port.board))
                && (!stopped ==> && NearlyDone(old(journal).value.pending.Some?)
                                 && (journal.Some? ==> recovering == old(recovering)))
      ensures old(port.Connected() && interrupted && recovering && port.board.boot == port.board.running) ==>
                (port.Doomed() <==> old(port.Doomed()))
      ensures old(&& port.Connected() && interrupted && port.board.boot == port.board.running
                  && journal.value.pending.None?) ==>
                (stopped <==> old(recovering && Stuck(journal.value, port.board)))
      ensures port.calm && old(journal).value.pending.None? && Terminal(old(journal).value.state) ==>
                Ready() && journal.None? && port.board == old(port.board) &&
                port.service.State() == old(port.service.State()) &&
                (old(journal).value.state.Confirmed? ==> port.sequence == old(journal).value.targetSequence)
    {
      hide JointSound, Run, NativePort.Sound, NativePort.World, Standing, PolicyAccepted, Planned;
      hide ValidJournal, JournalShape, BoardFits, Paced, Conforms, NativePort.Doomed, HeadedForStuck, Adopted;
      hide RunsPrevious, HandedOver, ReportFor, SameUpdate, Mirrors, Acceptable, AuthorizedSince, Told;
      hide WasRebooting, Unanswered, Terminal, Wrote, Heeded, Entitled, RefusalTold;
      var usable := Check();
      if !usable {
        NothingDone(|old(port.history)|, old(port.board.boot));
        return;
      }
      var ok := Flush();
      if !ok || journal.None? {
        NothingDone(|old(port.history)|, old(port.board.boot));
        return;
      }
      port.DoomedWhenAnswered();
      ghost var settled := port.history;
      Proceed();
      EntitledEarlier(|old(port.history)|, |settled|, old(port.board.boot));
      if port.stored.Some? ==> port.stored.value.pending.None? {
        port.DoomedWhenAnswered();
      }
    }

    /** An older journal is rewritten; it never recorded a selection, and none is invented for it. */
    method Migrate() returns (ok: bool)
      requires Ready() && journal.Some? && !journal.value.committed
      modifies this`journal, this`stopped, port`history, port`stored
      ensures port.Sound() && old(port.history) <= port.history
      ensures journal == Some(old(journal).value.(schema := 2))
      ensures if ok then Ready() else stopped
      ensures port.calm ==> ok
      ensures port.stored == journal ==> (port.Doomed() <==> old(port.Doomed()))
      ensures old(Going()) ==> Going()
    {
      hide JointSound, Run, Standing, PolicyAccepted;
      MigratingKeeps(port.World());
      journal := Some(journal.value.(schema := 2));
      ok := Persist();
    }

    /** Takes on an offered job whose policy verifies against the running image. */
    method Claim() returns (ok: bool)
      requires Ready() && journal.None? && !interrupted && !recovering
      modifies this, port`history, port`since, port`stored, port`clock, port`trouble, port`looks, port.service
      ensures port.Sound() && old(port.history) <= port.history && old(port.looks) <= port.looks
      ensures ok ==> port.looks == old(port.looks) + [Look({Unprovisioned}, Nothing), Look({Untrusted}, Nothing),
                                                      Look({NoSlot}, Nothing)]
      ensures !ok ==> stopped || (Ready() && journal.None?)
      ensures ok ==> Idle() && journal.value.state.Queued? && journal.value.schema == 2 && !interrupted && !recovering
      ensures ok ==>
                && (0 < port.sequence || 0 < port.build) && Acceptable(journal.value.release)
                && AuthorizedSince(port.history, |old(port.history)|, journal.value.job)
      ensures forall id :: old(port.Claimable(id)) ==> ok && journal.value.job == id && Going()
    {
      hide JointSound, Run, NativePort.Sound, NativePort.World, Standing, AuthorizedSince, PolicyAccepted;
      var found := Find();
      if found.None? {
        return false;
      }
      ghost var asked := port.history;
      ok := TakeOn(found.value.0, found.value.1);
      AuthorizedStays(asked, port.history, |old(port.history)|, found.value.0);
    }

    /** The job to take on, if one is offered whose policy verifies. */
    method Find() returns (found: Option<(JobId, Job)>)
      requires Ready() && journal.None?
      modifies port`history, port`since, port`clock, port`trouble, port`looks, port.service
      ensures Ready() && old(port.history) <= port.history && old(port.looks) <= port.looks
      ensures found.Some? ==>
                && port.looks == old(port.looks) + [Look({Unprovisioned}, Nothing), Look({Untrusted}, Nothing),
                                                    Look({NoSlot}, Nothing)]
                && (0 < port.sequence || 0 < port.build) && StillOffered(found.value.0, found.value.1)
                && Acceptable(found.value.1.release)
                && AuthorizedSince(port.history, |old(port.history)|, found.value.0)
      ensures forall id :: old(port.Claimable(id)) ==>
                found.Some? && found.value.0 == id && port.Claimable(id) && found.value.1 == port.service.jobs[id]
    {
      hide JointSound, Run, NativePort.Sound, NativePort.World, Standing, PolicyAccepted, AuthorizedSince, Acceptable;
      hide SameOrWithdrawn, StillOffered;
      found := Ask();
      if found.None? {
        return;
      }
      var release := found.value.1.release;
      OfferIsNamed(found.value.0, found.value.1);
      var vetted := port.Vet(port.service.catalog[release]);
      if !vetted {
        return None;
      }
      AcceptedIsAcceptable(release);
      var met := port.Meet({NoSlot});
      if met != Nothing {
        return None;
      }
    }

    /** What the server says about this queued job, or said just before it was withdrawn. */
    ghost predicate StillOffered(id: JobId, job: Job)
      reads port`board, port.service
    {
      && id in port.service.jobs && SameOrWithdrawn(job, port.service.jobs[id]) && job.state.Queued?
      && job.previous == port.board.images.At(port.board.running) && job.release in port.service.catalog
    }

    lemma OfferIsNamed(id: JobId, job: Job)
      requires StillOffered(id, job)
      ensures job.release in port.service.catalog
    {
    }

    /** Asks for a job, once the device has keys and a sequence to judge it by. */
    method Ask() returns (offer: Option<(JobId, Job)>)
      requires Ready() && journal.None?
      modifies port`history, port`since, port`trouble, port`looks, port.service
      ensures Ready() && old(port.history) <= port.history && old(port.looks) <= port.looks
      ensures offer.Some? ==>
                && port.looks == old(port.looks) + [Look({Unprovisioned}, Nothing)]
                && (0 < port.sequence || 0 < port.build) && StillOffered(offer.value.0, offer.value.1)
                && AuthorizedSince(port.history, |old(port.history)|, offer.value.0)
      ensures forall id :: old(port.Claimable(id)) ==>
                offer.Some? && offer.value.0 == id && port.Claimable(id) && offer.value.1 == port.service.jobs[id]
    {
      hide JointSound, Run, NativePort.Sound, NativePort.World, Standing, Offered, PolicyAccepted, AuthorizedSince;
      offer := None;
      var met := port.Meet({Unprovisioned});
      if met != Nothing || port.Floor() == 0 {
        return;
      }
      assert forall id :: old(port.Claimable(id)) ==> port.Claimable(id);
      port.ClaimableIsOffered();
      var status, reply := port.PostPoll(port.board.images.At(port.board.running));
      if status == 200 && reply.Offer? && reply.job.state.Queued? && reply.envelope {
        offer := Some((reply.id, reply.job));
      }
    }

    /** The journal of the job is durable before anything else happens. */
    method TakeOn(id: JobId, job: Job) returns (ok: bool)
      requires Ready() && journal.None? && !interrupted && !recovering
      requires id in port.service.jobs && SameOrWithdrawn(job, port.service.jobs[id]) && job.state.Queued?
      requires job.previous == port.board.images.At(port.board.running) && job.release in port.service.catalog
      requires port.sequence < port.service.catalog[job.release].sequence
      modifies this`journal, this`stopped, port`history, port`stored
      ensures port.Sound() && old(port.history) <= port.history
      ensures journal == Some(Claimed(id, job, port.service.catalog[job.release], port.board, 2))
      ensures if ok then Idle() && RunsPrevious(port.board, journal.value) else stopped
      ensures port.calm ==> ok
    {
      hide JointSound, Run;
      ClaimingKeeps(port.World(), id, job, 2);
      journal := Some(Claimed(id, job, port.service.catalog[job.release], port.board, 2));
      ok := Persist();
    }

    method Proceed()
      requires Idle() && journal.value.schema == 2
      requires journal.value.state.Downloading? && !interrupted ==> journal.value.bytes == 0
      modifies this, port, port.service
      ensures port.build == old(port.build)
      ensures Rested() && old(port.history) <= port.history
      ensures old(port.replies) <= port.replies && old(port.looks) <= port.looks
      ensures Entitled(|old(port.history)|, old(port.board.boot))
      ensures old(port.refused).None? ==> RefusalTold()
      ensures var planned := Planned(old(journal).value, old(interrupted), old(recovering), old(port.board));
              !stopped && planned.Some? ==> Wrote(old(port.history), planned.value)
      ensures old(&& Going() && !interrupted
                  && (journal.value.state.Queued? || journal.value.state.Downloading?)) ==>
                HandedOver(old(journal).value.job)
      ensures old(Assured() && Decided(journal.value, port.board)) ==>
                Idle() && journal.value.state == old(Shown(journal.value, port.board)) &&
                journal.value.job == old(journal).value.job
      ensures old(port.Connected() && interrupted && port.board.boot == port.board.running) ==>
                && port.board == old(port.board) && port.Connected()
                && (stopped ==> port.stored.Some? && Stuck(port.stored.value, port.board))
                && (!stopped ==> NearlyDone(false) && (journal.Some? ==> recovering == old(recovering)))
      ensures old(port.Connected() && interrupted && port.board.boot == port.board.running) ==>
                (stopped <==> old(recovering && Stuck(journal.value, port.board)))
      ensures port.calm && Terminal(old(journal).value.state) ==> !stopped
      ensures !stopped && Terminal(old(journal).value.state) ==>
                Ready() && journal.None? && port.board == old(port.board) &&
                port.service.State() == old(port.service.State()) &&
                (old(journal).value.state.Confirmed? ==> port.sequence == old(journal).value.targetSequence)
    {
      hide JointSound, Run, NativePort.Sound, NativePort.World, Going;
      port.Shaped();
      port.Known();
      if journal.value.state.Rebooting? {
        port.Rebooted();
      }
      var root := journal.value;
      if Terminal(root.state) {
        Finish();
      } else if root.state.Rebooting? && (interrupted || port.board.images.At(port.board.running) == root.target) {
        Resume();
      } else if interrupted {
        var ok := Report(Failed, root.bytes, Network);
      } else {
        Continue();
      }
    }

    /** An acknowledged outcome: the device's own sequence is raised first, then the journal is dropped. */
    method Finish()
      requires Idle() && Terminal(journal.value.state)
      modifies this, port`history, port`stored, port`sequence
      ensures Rested() && old(port.history) <= port.history
      ensures port.calm ==> !stopped
      ensures !stopped ==>
                Ready() && journal.None? && !interrupted && !recovering &&
                port.sequence == if old(journal).value.state.Confirmed? then old(journal).value.targetSequence
                                 else old(port.sequence)
    {
      hide JointSound, Run;
      if journal.value.state.Confirmed? {
        AdvancingKeeps(port.World());
        var advanced := port.AdvanceSequence(journal.value.targetSequence);
        if !advanced {
          stopped := true;
          return;
        }
      }
      FinishingKeeps(port.World());
      journal := None;
      var saved := Persist();
      interrupted, recovering := false, false;
    }

    /** A reboot was authorized earlier: report what the hardware shows, or stop when it shows nothing certain. */
    method Resume()
      requires Idle() && journal.value.state.Rebooting?
      requires interrupted || port.board.images.At(port.board.running) == journal.value.target
      modifies this, port`history, port`stored, port`replies, port.service
      ensures Rested() && old(port.history) <= port.history
      ensures old(port.replies) <= port.replies
      ensures !stopped ==> Wrote(old(port.history), ResumeOutcome(old(journal).value, port.board, old(recovering)))
      ensures port.calm && port.board.boot == port.board.running ==>
                (stopped <==> old(recovering) && Stuck(old(journal).value, port.board))
      ensures port.calm && stopped ==> port.stored == old(port.stored)
      ensures recovering == old(recovering)
      ensures old(port.Connected()) ==> port.Connected()
      ensures !stopped && old(port.Connected()) && old(interrupted) ==> NearlyDone(false)
      ensures old(Assured() && Decided(journal.value, port.board)) ==>
                && Idle() && Assured()
                && journal.value == ResumeOutcome(old(journal).value, port.board, old(recovering)).(pending := None)
    {
      hide JointSound, Run, NativePort.Sound, NativePort.World, Standing, PolicyAccepted;
      port.Shaped();
      port.Known();
      port.Rebooted();
      var root := journal.value;
      var ok: bool;
      if port.board.images.At(port.board.running) == root.target {
        ok := Report(Confirmed, root.size, NoError);
      } else if !recovering && !root.committed {
        ok := Report(Failed, root.size, ApprovalUnavailable);
      } else {
        var outcome := port.Recover(root.slot);
        if outcome.TargetFailed? && root.committed {
          ok := Report(RolledBack, root.size, BootFailed);
        } else if outcome.PreviousSelected? {
          ok := Report(Failed, root.size, Storage);
        } else {
          stopped := true;
        }
      }
    }

    method Continue()
      requires Idle() && journal.value.schema == 2 && !interrupted && Active(journal.value.state)
      requires journal.value.state.Downloading? ==> journal.value.bytes == 0
      modifies this, port, port.service
      ensures port.build == old(port.build)
      ensures Rested() && old(port.history) <= port.history
      ensures old(port.replies) <= port.replies && old(port.looks) <= port.looks
      ensures Entitled(|old(port.history)|, old(port.board.boot))
      ensures old(port.refused).None? ==> RefusalTold()
      ensures !stopped && old(journal).value.state.Queued? ==>
                Wrote(old(port.history), Next(old(journal).value, Downloading, 0, NoError))
      ensures old(Going()) && (old(journal).value.state.Queued? || old(journal).value.state.Downloading?) ==>
                HandedOver(old(journal).value.job)
    {
      hide JointSound, Run, NativePort.Sound, NativePort.World, Going, HandedOver, NativePort.Granted;
      hide Conforms, JournalShape, BoardFits, Paced, RunsPrevious, PolicyAccepted, Acceptable;
      port.Shaped();
      var root := journal.value;
      var state := root.state;
      var ok: bool;
      if state.Queued? {
        MayGoOn(root, port.board, Downloading);
        ok := Report(Downloading, 0, NoError);
        if !ok {
          return;
        }
        state := Downloading;
      }
      var approved := Approved();
      if !approved {
        port.Known();
        GiveUp(root.bytes, ApprovalUnavailable);
        return;
      }
      if state.Downloading? {
        ok := Transfer();
        if !ok {
          return;
        }
      }
      Install(state);
    }

    /** Downloads and reports the image as complete. */
    method Transfer() returns (ok: bool)
      requires Idle() && !interrupted && journal.value.state.Downloading? && journal.value.bytes == 0
      modifies this, port, port.service
      ensures port.build == old(port.build)
      ensures old(port.history) <= port.history
      ensures old(port.replies) <= port.replies && old(port.looks) <= port.looks
      ensures port.board.boot == old(port.board.boot)
      ensures !ok ==> Rested() && (old(port.refused).None? ==> RefusalTold())
      ensures ok ==> port.refused == old(port.refused)
      ensures ok ==> Idle() && !interrupted && journal.value.state.Verifying?
                     && SameUpdate(journal.value, old(journal).value)
      ensures old(Going()) ==> ok && Going() && port.board.images.At(journal.value.slot) == journal.value.target
    {
      hide JointSound, Run, NativePort.Sound, NativePort.World, Going, Next, BoardFits, Heeded;
      port.Shaped();
      var root := journal.value;
      var success := port.Download(this, root.slot, root.size, root.target);
      if stopped {
        return false;
      }
      port.LastIsStored();
      ghost var ended := port.history;
      ok := Flush();
      if !ok {
        interrupted := true;
        assert port.history[|ended| - 1] == ended[|ended| - 1];
        return;
      }
      ok := Conclude(success);
    }

    /** The download's outcome, reported. */
    method Conclude(success: bool) returns (ok: bool)
      requires Idle() && journal.value.state.Downloading?
      requires success ==> !interrupted && journal.value.bytes == journal.value.size
      modifies this, port`history, port`stored, port`replies, port.service
      ensures old(port.history) <= port.history && (!ok ==> Rested()) && (ok ==> success)
      ensures old(port.replies) <= port.replies
      ensures !success && !stopped ==> Told(|old(port.history)|, port.history, false, port.failure)
      ensures var j := old(journal).value;
              !stopped ==> Wrote(old(port.history), if success then Next(j, Verifying, j.size, NoError)
                                                    else Next(j, Failed, j.bytes, port.failure))
      ensures ok ==> && Idle() && !interrupted && journal.value.state.Verifying?
                     && SameUpdate(journal.value, old(journal).value)
      ensures old(Going()) && success ==> ok && Going()
    {
      hide JointSound, Run, NativePort.Sound, NativePort.World, Going, Conforms, JournalShape, BoardFits, Paced;
      port.Shaped();
      port.Known();
      var root := journal.value;
      port.FailureHasReason();
      if !success {
        GiveUp(root.bytes, port.failure);
        return false;
      }
      MayGoOn(root, port.board, Verifying);
      ok := Report(Verifying, root.size, NoError);
    }

    /** Rechecks the approval and the written image. */
    method Verify(state: JobState) returns (ok: bool)
      requires Idle() && !interrupted
      requires journal.value.state.Verifying? || journal.value.state.Rebooting?
      requires state.Rebooting? <==> journal.value.state.Rebooting?
      modifies this, port`history, port`since, port`stored, port`replies, port`clock, port`trouble, port`looks,
               port`refused, port.service
      ensures old(port.history) <= port.history
      ensures old(port.replies) <= port.replies && old(port.looks) <= port.looks
      ensures ok ==> && Idle() && journal == old(journal) && !interrupted && port.refused == old(port.refused)
                     && port.Granted(journal.value.job) && Acceptable(journal.value.release)
                     && AuthorizedSince(port.history, |old(port.history)|, journal.value.job)
                     && port.board.images.At(journal.value.slot) == journal.value.target
      ensures !ok ==> Rested() && (old(port.refused).None? ==> RefusalTold())
      ensures old(Going() && port.board.images.At(journal.value.slot) == journal.value.target) ==> ok && Going()
    {
      hide JointSound, Run, NativePort.Sound, NativePort.World, Going, AuthorizedSince, Told;
      hide Conforms, JournalShape, BoardFits, Paced, PolicyAccepted, Acceptable;
      var root := journal.value;
      port.Known();
      var approved := Approved();
      if !approved {
        GiveUp(root.bytes, ApprovalUnavailable);
        return false;
      }
      if Going() {
        GoingIsCalm();
      }
      ok := port.VerifyTarget(root.slot, root.target);
      if !ok {
        GiveUp(root.size, if state.Rebooting? then ImageRejected else HashMismatch);
      }
    }

    /** Rechecks the approval and the written image, then hands over to the bootloader. */
    method Install(state: JobState)
      requires Idle() && journal.value.schema == 2 && !interrupted
      requires journal.value.state.Verifying? || journal.value.state.Rebooting?
      requires state.Rebooting? <==> journal.value.state.Rebooting?
      modifies this, port, port.service
      ensures port.build == old(port.build)
      ensures Rested() && old(port.history) <= port.history
      ensures old(port.replies) <= port.replies && old(port.looks) <= port.looks
      ensures Entitled(|old(port.history)|, old(port.board.boot))
      ensures old(port.refused).None? ==> RefusalTold()
      ensures old(Going() && port.board.images.At(journal.value.slot) == journal.value.target) ==>
                HandedOver(old(journal).value.job)
    {
      hide JointSound, Run, NativePort.Sound, NativePort.World, Going, HandedOver, AuthorizedSince, Told;
      hide Conforms, JournalShape, BoardFits, Paced, PolicyAccepted, Acceptable;
      var root := journal.value;
      var ok := Verify(state);
      if !ok {
        return;
      }
      if !state.Rebooting? {
        ghost var before := port.history;
        port.Shaped();
        MayGoOn(root, port.board, Rebooting);
        ok := Report(Rebooting, root.size, NoError);
        if !ok {
          return;
        }
        AuthorizedStays(before, port.history, port.since, root.job);
        AuthorizedStays(before, port.history, |old(port.history)|, root.job);
      }
      ghost var asked := port.history;
      Handover();
      AuthorizedStays(asked, port.history, |old(port.history)|, root.job);
    }

    /** The acknowledged authorization is durable before another slot is selected, and the selection is made durable
        before the restart. */
    method Handover()
      requires Idle() && journal.value.schema == 2 && !interrupted && journal.value.state.Rebooting?
      requires port.Granted(journal.value.job) && Acceptable(journal.value.release)
      requires port.board.images.At(journal.value.slot) == journal.value.target
      modifies this, port, port.service
      ensures port.build == old(port.build)
      ensures Rested() && old(port.history) <= port.history
      ensures old(port.replies) <= port.replies && old(port.looks) <= port.looks
      ensures port.board.boot != old(port.board.boot) ==>
                && port.stored.Some? && port.stored.value.job == old(journal).value.job
                && Acceptable(port.stored.value.release)
      ensures old(port.refused).None? ==> RefusalTold()
      ensures old(Going()) ==> HandedOver(old(journal).value.job)
    {
      hide JointSound, Run, Standing;
      JournalIsShaped(port.World());
      RebootingIsShared(port.World());
      JournalJobIsKnown(port.World());
      var root := journal.value;
      var selection := port.Select(root.slot, port.service.catalog[root.release].expires);
      if selection.Uncertain? {
        stopped := true;
        return;
      }
      if selection.Kept? {
        GiveUp(root.size, port.failure);
        return;
      }
      CommittingKeeps(port.World());
      journal := Some(root.(committed := true));
      var saved := Persist();
      if !saved {
        return;
      }
      port.Restart();
    }
  }
}
