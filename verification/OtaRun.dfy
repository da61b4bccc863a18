/** Whole runs of one device: any schedule of ticks, boot confirmations, outside actions and restarts, with power
    failing at any recorded moment of a tick, and what such runs come to when nothing fails any more. */
module OtaRun {
  import opened Wrappers
  import opened Deployment
  import opened OtaModel
  import opened OtaDevice

  /** What happens next: the update task comes round, the running image passes its startup checks, somebody else acts,
      the device restarts, or power fails after the `k`th thing a tick records. A restart
      may find the selected image unfit. */
  datatype Occasion =
    | Ticks
    | Confirms
    | Acts(action: Action)
    | Restarts(unfit: bool)
    | Fails(k: nat, unfit: bool)

  /** What a run shows of the device: every state it has passed through, and what its process has in memory. */
  datatype Moment = Moment(
    history: seq<Global>, calm: bool, build: nat, clock: Instant, restarting: bool,
    initialized: bool, stopped: bool, interrupted: bool, recovering: bool)
  {
    predicate Fresh() { !restarting && !initialized && !stopped }
  }

  function At(client: OtaClient): Moment
    reads client, client.port
  {
    Moment(client.port.history, client.port.calm, client.port.build, client.port.clock, client.port.restarting,
           client.initialized, client.stopped, client.interrupted, client.recovering)
  }

  function Restarted(g: Global, unfit: bool): Global { g.(board := PowerOn(g.board, unfit)) }

  function Now(history: seq<Global>): Global
    requires history != []
  {
    history[|history| - 1]
  }

  /** A device with nothing behind it that will take on this job. */
  ghost predicate WillClaim(m: Moment, id: JobId)
    requires m.history != []
  {
    var g := Now(m.history);
    && m.calm && !m.stopped && !m.restarting && 0 < m.build && g.journal.None?
    && Standing(g.server, id) && g.server.jobs[id].state.Queued?
    && PolicyAccepted(g.server.catalog[g.server.jobs[id].release], g.board.images.At(g.board.running),
                      if g.sequence < m.build then m.build else g.sequence, m.clock)
  }

  /** A process that found an update when it started, on a settled board, with nothing failing. */
  ghost predicate WillSettle(m: Moment)
    requires m.history != []
  {
    var g := Now(m.history);
    && m.calm && !m.stopped && !m.restarting && 0 < m.build && (m.initialized ==> m.interrupted)
    && g.server.permitted && g.server.credential && g.journal.Some?
    && g.board.boot == g.board.running && !g.board.states.At(g.board.running).PendingVerify?
  }

  /** What a tick does, as far as nothing fails: it carries a job it takes on to the selected target; it leaves no
      report unanswered; it drops an acknowledged outcome; it stops exactly in the stuck state; and otherwise the first
      thing it writes down is the report the journal calls for. */
  ghost predicate Ticked(before: Moment, after: Moment) {
    && before.history != [] && before.history <= after.history
    && var g, h := Now(before.history), Now(after.history);
    && (forall id :: WillClaim(before, id) ==>
          && after.restarting && h.journal.Some? && h.journal.value.job == id && h.journal.value.committed
          && Selected(h.board, h.journal.value))
    && (WillSettle(before) ==>
          && h.board == g.board
          && (h.journal.Some? ==> h.journal.value.pending.None?)
          && (after.stopped ==> h.journal.Some? && Stuck(h.journal.value, h.board)))
    && (WillSettle(before) && g.journal.value.pending.None? ==>
          var recovering := before.initialized ==> before.recovering;
          var planned := Planned(g.journal.value, true, recovering, g.board);
          && (after.stopped <==> recovering && Stuck(g.journal.value, g.board))
          && (Terminal(g.journal.value.state) ==> h.journal.None?)
          && (!after.stopped && g.journal.value.schema == 2 && planned.Some? ==>
                |before.history| < |after.history| && after.history[|before.history|].journal == planned))
  }

  /** What the occasion does. A power failure discards whatever the tick had not yet recorded. */
  ghost predicate Took(occasion: Occasion, before: Moment, after: Moment) {
    && before.history != [] && before.history <= after.history
    && var g, h := Now(before.history), Now(after.history);
    match occasion
    case Ticks => Ticked(before, after)
    case Confirms => after == before.(history := before.history + [g.(board := ConfirmBoot(g.board))])
    case Acts(action) =>
      && after == before.(history := before.history + [h]) && h == g.(server := h.server)
      && Outside(g.server, h.server) && Did(action, g.board.images.At(g.board.running), g.server, h.server)
    case Restarts(unfit) => after.history == before.history + [Restarted(g, unfit)] && after.Fresh()
    case Fails(k, unfit) => exists ticked :: Ticked(before, ticked) && CutOff(before, ticked, k, unfit, after)
  }

  /** How many entries are recorded when power fails after the `k`th of a tick. */
  function Reached(before: nat, k: nat, all: nat): (n: nat)
    requires before <= all
    ensures before <= n <= all
  {
    if before + k < all then before + k else all
  }

  predicate CutOff(before: Moment, ticked: Moment, k: nat, unfit: bool, after: Moment) {
    && before.history != [] && |before.history| <= |ticked.history|
    && var n := Reached(|before.history|, k, |ticked.history|);
    && after.history == ticked.history[..n] + [Restarted(ticked.history[n - 1], unfit)]
    && after.Fresh()
  }

  method Perform(client: OtaClient, occasion: Occasion)
    requires client.Rested()
    modifies client, client.port, client.port.service
    ensures client.Rested()
    ensures Took(occasion, old(At(client)), At(client))
  {
    hide JointSound, Run, Step, Outside, Did, Requestable, Requested, Ticked, CutOff;
    match occasion
    case Ticks => TickIfUp(client);
    case Confirms => client.port.Confirm();
    case Acts(action) => client.port.OutsideStep(action);
    case Restarts(unfit) => Restart(client, unfit);
    case Fails(k, unfit) => ghost var ticked := Fail(client, k, unfit);
  }

  /** Updates are handled by a running process on a confirmed image. */
  method TickIfUp(client: OtaClient)
    requires client.Rested()
    modifies client, client.port, client.port.service
    ensures client.Rested() && old(client.port.history) <= client.port.history
    ensures Ticked(old(At(client)), At(client))
  {
    hide JointSound, Run, Step, Standing, PolicyAccepted, Planned, Selected;
    var board := client.port.board;
    if client.port.stored.None? {
      SettledRecord(client.port.World());
    }
    ghost var before := At(client);
    assert Now(before.history) == client.port.World();
    assert forall id :: WillClaim(before, id) ==> client.port.Claimable(id);
    if !client.port.restarting && !board.states.At(board.running).PendingVerify? {
      client.Tick();
      assert Now(client.port.history) == client.port.World();
      assert forall id :: WillClaim(before, id) ==> client.HandedOver(id);
      assert WillSettle(before) ==> old(client.Unfinished());
    }
  }

  /** The board starts again, and with it a process that has read nothing yet. */
  method Restart(client: OtaClient, unfit: bool)
    requires client.port.Sound()
    modifies client, client.port
    ensures client.Rested() && !client.initialized && !client.stopped && !client.port.restarting
    ensures client.port.history == old(client.port.history) + [client.port.World()]
    ensures client.port.World() == Restarted(old(client.port.World()), unfit)
    ensures var b := client.port.board; client.port.build == client.port.builds(b.images.At(b.running))
    ensures client.port.clock == old(client.port.clock)
  {
    hide JointSound, Run, Step;
    client.port.PowerCycle(unfit);
    client.Reset();
  }

  method Fail(client: OtaClient, k: nat, unfit: bool) returns (ghost ticked: Moment)
    requires client.Rested()
    modifies client, client.port, client.port.service
    ensures client.Rested() && old(client.port.history) <= client.port.history
    ensures Ticked(old(At(client)), ticked) && CutOff(old(At(client)), ticked, k, unfit, At(client))
  {
    hide JointSound, Run, Step, Ticked, Reached, NativePort.World;
    var mark := |client.port.history|;
    TickIfUp(client);
    ticked := At(client);
    var n := Reached(mark, k, |client.port.history|);
    client.port.Rewind(n - 1);
    Restart(client, unfit);
  }

  /** Whatever happens and in whatever order, the whole history is one run: every state it passes through satisfies the
      joint invariant, every two neighbours are one atomic event apart, and every occasion does what it should. */
  method Live(client: OtaClient, schedule: seq<Occasion>) returns (ghost trace: seq<Moment>)
    requires client.Rested()
    modifies client, client.port, client.port.service
    ensures client.Rested() && Run(client.port.history)
    ensures |trace| == |schedule| + 1 && trace[0] == old(At(client)) && trace[|schedule|] == At(client)
    ensures forall i :: 0 <= i < |schedule| ==> Took(schedule[i], trace[i], trace[i + 1])
  {
    hide JointSound, Run, Step, Took;
    trace := [At(client)];
    for i := 0 to |schedule|
      invariant client.Rested()
      invariant |trace| == i + 1 && trace[0] == old(At(client)) && trace[i] == At(client)
      invariant forall k :: 0 <= k < i ==> Took(schedule[k], trace[k], trace[k + 1])
    {
      Perform(client, schedule[i]);
      trace := trace + [At(client)];
    }
  }

  /** A device that runs its recorded image and has no update behind it. */
  lemma FreshDeviceIsSound(g: Global)
    requires g.journal.None? && g.server.jobs == map[] && g.server.firmware.Some?
    requires forall r <- g.server.catalog :: g.server.catalog[r].Lawful()
    requires g.server.firmware.value.app == g.board.images.At(g.board.running)
    requires 1 <= g.server.firmware.value.sequence && g.sequence <= g.server.firmware.value.sequence
    requires g.board.running == g.board.boot && g.board.Settled(g.board.running)
    requires !g.board.states.At(g.board.running.Other()).PendingVerify?
    ensures JointSound(g)
  {
  }

  // ----- every update comes to an end, or to the one stuck state -----

  function Settling(b: Board, unfit: bool): Board { ConfirmBoot(PowerOn(b, unfit)) }

  lemma SettledBoard(b: Board, unfit: bool)
    ensures var s := Settling(b, unfit);
            && s.boot == s.running && !s.states.At(s.running).PendingVerify?
            && s.images.At(s.running) == PowerOn(b, unfit).images.At(PowerOn(b, unfit).running)
  {
  }

  /** From any state of any run: once nothing fails and requests are let in, a restart and three ticks empty the
      journal, unless they end in the stuck state; and that happens exactly when the board comes up with an unselected
      reboot in an abandoned slot, and the server has taken the rebooting report or still would. */
  method Settle(client: OtaClient, unfit: bool)
    requires client.Rested() && client.port.Connected()
    requires var b := Settling(client.port.board, unfit); 0 < client.port.builds(b.images.At(b.running))
    modifies client, client.port, client.port.service
    ensures client.Rested() && old(client.port.history) <= client.port.history
    ensures client.port.board == Settling(old(client.port.board), unfit)
    ensures client.port.stored.Some? ==> Stuck(client.port.stored.value, client.port.board)
    ensures client.port.stored.Some? <==>
              && old(client.port.stored).Some?
              && HeadedForStuck(old(client.port.service.State()), old(client.port.stored).value, client.port.board)
  {
    hide JointSound, Run, Step, Stuck, HeadedForStuck, Terminal;
    SettledBoard(client.port.board, unfit);
    Restart(client, unfit);
    client.port.Confirm();
    if client.port.stored.Some? {
      client.Tick();
    }
    if client.port.stored.Some? && !client.stopped {
      client.Tick();
    }
    if client.port.stored.Some? && !client.stopped {
      client.Tick();
    }
    StoppedIsDoomed(client.port);
  }

  lemma StoppedIsDoomed(port: NativePort)
    requires port.Sound()
    ensures port.stored.Some? && Stuck(port.stored.value, port.board) ==> port.Doomed()
  {
    hide JointSound, Run, Step, HeadedForStuck;
    if port.stored.Some? && Stuck(port.stored.value, port.board) {
      port.DoomedWhenAnswered();
    }
  }

  /** Neither a restart nor anything the owner or the clock can do leads out of the stuck state, and the server keeps
      the job open. */
  lemma StuckStays(g: Global, s: Server, unfit: bool)
    requires JointSound(g) && g.journal.Some? && Stuck(g.journal.value, g.board) && Outside(g.server, s)
    ensures Settling(g.board, unfit) == g.board
    ensures g.journal.value.job in s.jobs && s.jobs[g.journal.value.job].state.Rebooting?
  {
  }

  // ----- an update when nothing fails -----

  /** What a finished update leaves: the release runs and is kept, both sides have it on record, and nothing is left to
      do. */
  ghost predicate Updated(g: Global, id: JobId, release: ReleaseId) {
    && g.journal.None?
    && id in g.server.jobs && g.server.jobs[id].state.Confirmed? && release in g.server.catalog
    && g.board.running == g.board.boot && g.board.images.At(g.board.running) == g.server.catalog[release].app
    && g.server.firmware.Some? && g.server.firmware.value.app == g.server.catalog[release].app
    && g.sequence == g.server.catalog[release].sequence
  }

  /** What an abandoned update leaves: the previous image runs, both sides have that on record, and nothing is left to
      do. */
  ghost predicate FellBackTo(g: Global, id: JobId, previous: Hash) {
    && g.journal.None?
    && id in g.server.jobs && g.server.jobs[id].state.RolledBack?
    && g.board.running == g.board.boot && g.board.images.At(g.board.running) == previous && LeftAbandoned(g.board)
    && g.server.firmware.Some? && g.server.firmware.value.app == previous
  }

  /** The selected target boots, passes its checks and is to be reported. */
  lemma TargetBoots(g: Global)
    requires JointSound(g) && g.journal.Some? && g.journal.value.state.Rebooting? && Selected(g.board, g.journal.value)
    ensures var b := Settling(g.board, false);
            && Decided(g.journal.value, b) && Shown(g.journal.value, b).Confirmed?
            && !b.states.At(b.running).PendingVerify?
            && PowerOn(g.board, false).images.At(PowerOn(g.board, false).running) == g.journal.value.target
  {
  }

  lemma TargetIsAbandoned(g: Global, unfit: bool)
    requires JointSound(g) && g.journal.Some? && g.journal.value.committed && g.journal.value.state.Rebooting?
    requires Selected(g.board, g.journal.value)
    ensures var b := PowerOn(PowerOn(g.board, false), unfit);
            && Decided(g.journal.value, b) && Shown(g.journal.value, b).RolledBack?
            && !b.states.At(b.running).PendingVerify? && b.images.At(b.running) == g.journal.value.previous
  {
  }

  lemma ConfirmedIsShared(g: Global)
    requires JointSound(g) && g.journal.Some? && g.journal.value.state.Confirmed? && g.journal.value.pending.None?
    ensures var j := g.journal.value;
            && j.job in g.server.jobs && g.server.jobs[j.job].state.Confirmed?
            && g.server.jobs[j.job].release == j.release
            && j.release in g.server.catalog && g.server.catalog[j.release].sequence == j.targetSequence
            && g.board.running == g.board.boot
            && g.board.images.At(g.board.running) == g.server.catalog[j.release].app
  {
  }

  lemma RollbackIsShared(g: Global)
    requires JointSound(g) && g.journal.Some? && g.journal.value.state.RolledBack? && g.journal.value.pending.None?
    ensures var j := g.journal.value;
            && j.job in g.server.jobs && g.server.jobs[j.job].state.RolledBack?
            && g.board.running == g.board.boot
            && g.board.images.At(g.board.running) == g.server.jobs[j.job].previous && LeftAbandoned(g.board)
  {
  }

  lemma SettledRecord(g: Global)
    requires JointSound(g) && g.journal.None?
    ensures g.server.firmware.Some? && g.server.firmware.value.app == g.board.images.At(g.board.running)
    ensures !g.board.states.At(g.board.running).PendingVerify?
  {
  }

  lemma QueuedStartsHere(g: Global, id: JobId)
    requires JointSound(g) && g.journal.None? && id in g.server.jobs && g.server.jobs[id].state.Queued?
    ensures g.server.jobs[id].previous == g.board.images.At(g.board.running)
    ensures g.server.jobs[id].release in g.server.catalog
  {
  }

  /** The journal of a handed-over job names the job's release and starting image. */
  lemma JournalNames(g: Global)
    requires JointSound(g) && g.journal.Some?
    ensures var j := g.journal.value;
            && j.job in g.server.jobs && g.server.jobs[j.job].previous == j.previous
            && g.server.jobs[j.job].release == j.release
            && j.release in g.server.catalog && g.server.catalog[j.release].app == j.target
  {
  }

  /** A device with nothing behind it takes on the queued job: one tick downloads, verifies and selects the target. */
  method HandOver(client: OtaClient, id: JobId)
    requires client.Rested() && !client.stopped && !client.port.restarting && client.port.stored.None?
    requires client.port.Claimable(id)
    modifies client, client.port, client.port.service
    ensures client.HandedOver(id) && client.port.Sound() && old(client.port.history) <= client.port.history
    ensures var jobs, catalog := old(client.port.service.jobs), client.port.service.catalog;
            var j := client.port.stored.value;
            && id in jobs && j.release == jobs[id].release && j.release in catalog && j.target == catalog[j.release].app
            && j.previous == jobs[id].previous
  {
    hide JointSound, Run, Step, Standing, PolicyAccepted, Selected;
    SettledRecord(client.port.World());
    ghost var start := |client.port.history| - 1;
    ghost var before := client.port.World();
    assert before == client.port.history[start];
    JobIsThere(before.server, id);
    client.Tick();
    assert client.HandedOver(id);
    JournalNames(client.port.World());
    RunKeepsJob(client.port.history, start, |client.port.history| - 1, id);
  }

  lemma JobIsThere(s: Server, id: JobId)
    requires Standing(s, id)
    ensures id in s.jobs
  {
  }

  /** A process that finds the reboot decided reports the outcome and drops the journal. */
  method Record(client: OtaClient)
    requires client.Rested() && !client.initialized && !client.stopped && !client.port.restarting
    requires client.port.stored.Some? && client.port.stored.value.pending.None? && 0 < client.port.build
    requires client.port.Smooth(client.port.stored.value.job)
    requires Decided(client.port.stored.value, client.port.board)
    requires !client.port.board.states.At(client.port.board.running).PendingVerify?
    modifies client, client.port, client.port.service
    ensures client.Rested() && old(client.port.history) <= client.port.history
    ensures var g := client.port.World();
            var j, b := old(client.port.stored).value, old(client.port.board);
            && j.job in g.server.jobs
            && if Shown(j, b).Confirmed? then Updated(g, j.job, g.server.jobs[j.job].release)
               else FellBackTo(g, j.job, g.server.jobs[j.job].previous)
  {
    hide JointSound, Run, Step, Standing;
    client.Tick();
    if client.journal.value.state.Confirmed? {
      ConfirmedIsShared(client.port.World());
    } else {
      RollbackIsShared(client.port.World());
    }
    client.Tick();
    SettledRecord(client.port.World());
  }

  /** When nothing fails, a queued update that is authorized and that the device accepts ends confirmed: one tick
      downloads, verifies and selects it, the board restarts into it, and two more ticks record the outcome. */
  method Update(client: OtaClient, id: JobId)
    requires client.Rested() && !client.stopped && !client.port.restarting && client.port.stored.None?
    requires client.port.Claimable(id)
    requires 0 < client.port.builds(client.port.service.catalog[client.port.service.jobs[id].release].app)
    modifies client, client.port, client.port.service
    ensures client.Rested() && old(client.port.history) <= client.port.history
    ensures Updated(client.port.World(), id, old(client.port.service.jobs)[id].release)
  {
    hide JointSound, Run, Step, Standing, PolicyAccepted, Selected, Updated, FellBackTo;
    ghost var start := |client.port.history| - 1;
    assert client.port.history[start] == client.port.World();
    HandOver(client, id);
    TargetBoots(client.port.World());
    Restart(client, false);
    client.port.Confirm();
    Record(client);
    RunKeepsJob(client.port.history, start, |client.port.history| - 1, id);
  }

  /** The other end of the same run: when the target is cut short or declares itself unfit before it is confirmed, the
      job ends rolled back, and the image the update started from runs and is on record. */
  method FallBack(client: OtaClient, id: JobId, unfit: bool)
    requires client.Rested() && !client.stopped && !client.port.restarting && client.port.stored.None?
    requires client.port.Claimable(id)
    requires 0 < client.port.builds(client.port.board.images.At(client.port.board.running))
    modifies client, client.port, client.port.service
    ensures client.Rested() && old(client.port.history) <= client.port.history
    ensures var b := old(client.port.board); FellBackTo(client.port.World(), id, b.images.At(b.running))
  {
    hide JointSound, Run, Step, Standing, PolicyAccepted, Selected, Updated, FellBackTo;
    ghost var start := |client.port.history| - 1;
    assert client.port.history[start] == client.port.World();
    JobIsThere(client.port.World().server, id);
    QueuedStartsHere(client.port.World(), id);
    HandOver(client, id);
    TargetIsAbandoned(client.port.World(), unfit);
    Restart(client, false);
    Restart(client, unfit);
    Record(client);
    RunKeepsJob(client.port.history, start, |client.port.history| - 1, id);
  }

  /** On a board at rest only the boot selection changes anything but images. */
  lemma AtRestUntilSelected(a: Global, b: Global)
    requires JointSound(a) && Step(a, b) && a.board.boot == a.board.running && a.board.Settled(a.board.running)
    ensures if b.board.boot == b.board.running
            then b.board == a.board.(images := b.board.images)
            else SelectAllowed(a) && b == a.(board := Switch(a.board, a.journal.value.slot))
  {
    if b.board.boot != b.board.running {
      SelectionIsAuthorized(a, b);
    }
  }

  /** The stuck state is met in real runs: every update that a device takes on gets there when power fails after the
      selection and before the record of it, and the target is found unfit or its trial is cut short as well. */
  method CutShort(client: OtaClient, id: JobId, unfit: bool, again: bool)
    requires client.Rested() && !client.stopped && !client.port.restarting && client.port.stored.None?
    requires client.port.Claimable(id)
    modifies client, client.port, client.port.service
    ensures client.Rested() && old(client.port.history) <= client.port.history
    ensures client.port.stored.Some? && Stuck(client.port.stored.value, client.port.board)
  {
    hide JointSound, Run, Step, Standing, PolicyAccepted, SelectAllowed, Stuck;
    var m := RunToSelection(client, id);
    SelectedIsStuck(client.port.history[m], client.port.history[m + 1], unfit, again);
    client.port.Rewind(m + 1);
    Restart(client, unfit);
    if !unfit {
      Restart(client, again);
    }
  }

  /** On a device whose other slot carries an abandoned image's mark one power failure is enough: between the
      acknowledged reboot and the selection. */
  method CutEarlier(client: OtaClient, id: JobId)
    requires client.Rested() && !client.stopped && !client.port.restarting && client.port.stored.None?
    requires client.port.Claimable(id) && LeftAbandoned(client.port.board)
    modifies client, client.port, client.port.service
    ensures client.Rested() && old(client.port.history) <= client.port.history
    ensures client.port.stored.Some? && Stuck(client.port.stored.value, client.port.board)
  {
    hide JointSound, Run, Step, Standing, PolicyAccepted, SelectAllowed, Stuck;
    var m := RunToSelection(client, id);
    NotSelectedIsStuck(client.port.history[m]);
    client.port.Rewind(m);
    Restart(client, false);
  }

  /** A whole update up to the restart, and the last recorded state before its selection. */
  method RunToSelection(client: OtaClient, id: JobId) returns (m: nat)
    requires client.Rested() && !client.stopped && !client.port.restarting && client.port.stored.None?
    requires client.port.Claimable(id)
    modifies client, client.port, client.port.service
    ensures client.port.Sound() && old(client.port.history) <= client.port.history
    ensures |old(client.port.history)| <= m + 1 < |client.port.history|
    ensures var run := client.port.history;
            && JointSound(run[m]) && SelectAllowed(run[m])
            && run[m].board == old(client.port.board).(images := run[m].board.images)
            && run[m + 1] == run[m].(board := Switch(run[m].board, run[m].journal.value.slot))
  {
    hide JointSound, Run, Step, Standing, PolicyAccepted, Stuck;
    var start := |client.port.history| - 1;
    assert client.port.history[start] == client.port.World();
    AtRest(client.port.World());
    HandOver(client, id);
    assert Now(client.port.history) == client.port.World();
    m := FindSelection(client.port.history, start);
  }

  /** The last state before the boot selection changes. */
  method FindSelection(history: seq<Global>, start: nat) returns (m: nat)
    requires Run(history) && start < |history| && Now(history).board.boot != Now(history).board.running
    requires var b := history[start].board; b.boot == b.running && b.Settled(b.running)
    ensures start <= m && m + 1 < |history| && JointSound(history[m]) && SelectAllowed(history[m])
    ensures history[m].board == history[start].board.(images := history[m].board.images)
    ensures history[m + 1] == history[m].(board := Switch(history[m].board, history[m].journal.value.slot))
  {
    hide JointSound, Run, Step, SelectAllowed;
    m := start;
    while history[m + 1].board.boot == history[m + 1].board.running
      invariant start <= m && m + 1 < |history|
      invariant history[m].board == history[start].board.(images := history[m].board.images)
      decreases |history| - m
    {
      Neighbours(history, m);
      AtRestUntilSelected(history[m], history[m + 1]);
      m := m + 1;
    }
    Neighbours(history, m);
    AtRestUntilSelected(history[m], history[m + 1]);
  }

  lemma AtRest(g: Global)
    requires JointSound(g) && g.journal.None?
    ensures g.board.boot == g.board.running && g.board.Settled(g.board.running)
  {
  }

  lemma Neighbours(run: seq<Global>, m: nat)
    requires Run(run) && m + 1 < |run|
    ensures JointSound(run[m]) && Step(run[m], run[m + 1])
  {
  }

  lemma SelectedIsStuck(before: Global, after: Global, unfit: bool, again: bool)
    requires JointSound(before) && SelectAllowed(before)
    requires after == before.(board := Switch(before.board, before.journal.value.slot))
    ensures after.journal.Some?
    ensures var once := Restarted(after, unfit);
            Stuck(after.journal.value, if unfit then once.board else Restarted(once, again).board)
  {
  }

  lemma NotSelectedIsStuck(g: Global)
    requires JointSound(g) && SelectAllowed(g) && LeftAbandoned(g.board)
    ensures g.journal.Some? && Stuck(g.journal.value, g.board) && Restarted(g, false) == g
  {
  }

  /** A release that an owner may ask for and that the device accepts. */
  lemma RequestStands(g: Global, release: ReleaseId, key: int, id: JobId)
    requires JointSound(g) && g.journal.None? && Requestable(g.server, release, key) && id !in g.server.jobs
    requires g.server.now < g.server.catalog[release].expires
    ensures var s := Requested(g.server, id, release, key);
            && Standing(s, id) && s.jobs[id].state.Queued? && s.jobs[id].release == release
            && s.catalog == g.server.catalog
    ensures g.server.catalog[release].purpose.Ota? && g.server.catalog[release].size <= MAX_APP_SIZE
    ensures g.board.images.At(g.board.running) in g.server.catalog[release].predecessors
  {
    SettledRecord(g);
  }

  /** From a device at rest to a confirmed update: the owner's request is taken, and when nothing fails the release ends
      up running and on record. */
  method RequestAndUpdate(client: OtaClient, release: ReleaseId, key: int, id: JobId)
    requires client.Rested() && !client.stopped && !client.port.restarting && client.port.stored.None?
    requires client.port.calm && 0 < client.port.build
    requires Requestable(client.port.service.State(), release, key) && id !in client.port.service.jobs
    requires var r := client.port.service.catalog[release];
             && client.port.service.now < r.expires && client.port.clock < r.expires
             && client.port.Floor() < r.sequence && 0 < client.port.builds(r.app)
    modifies client, client.port, client.port.service
    ensures client.Rested() && old(client.port.history) <= client.port.history
    ensures Updated(client.port.World(), id, release)
  {
    hide JointSound, Run, Step, Standing, Updated, Requestable, Requested;
    RequestStands(client.port.World(), release, key, id);
    client.port.OutsideStep(Requests(id, release, key));
    Update(client, id);
  }
}
