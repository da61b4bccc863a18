/** One device's remote console on the server: owner sessions, the commands queued in them, and the device's sync
    request, which carries at most one command away. Every request is one transaction at a later time than the last. */
module ConsoleDispatch {
  import opened Wrappers

  const SESSION_TTL: int := 600_000_000
  const COMMAND_TTL: int := 8_000_000
  const DEVICE_SYNC_WINDOW: int := 6_000_000
  const MAX_SEQUENCE: int := 1_000_000_000

  datatype CommandState = Pending | Dispatched | Acknowledged | Ignored | Blocked | Expired
  datatype AckResult = Applied | AckIgnored | AckBlocked
  datatype Ack = Ack(command: nat, result: AckResult)
  datatype Command = Command(session: nat, sequence: int, createdAt: int, expiresAt: int, state: CommandState)
  datatype Session = Session(owner: int, createdAt: int, expiresAt: int, seenAt: Option<int>, endedAt: Option<int>)
  datatype Answer = Accepted | DeviceRevoked | Malformed | Missing | SessionExpired | NotJoined | RemoteStopped | Stale
  datatype Sent = Sent(command: nat, at: int)

  // ----- what a run may have done -----

  /** The device visited before `created`, and from then to `at` never stayed away for a whole window. */
  ghost predicate Attended(visits: seq<int>, created: int, at: int) {
    visits != [] && visits[0] < created &&
    forall k :: 0 < k < |visits| && created < visits[k] <= at ==> visits[k] - visits[k - 1] < DEVICE_SYNC_WINDOW
  }

  ghost predicate Visited(sessions: seq<Session>, visits: seq<seq<int>>, clock: int) {
    |visits| == |sessions| &&
    forall s :: 0 <= s < |sessions| ==>
      sessions[s].createdAt <= clock &&
      (forall k :: 0 <= k < |visits[s]| ==> visits[s][k] <= clock) &&
      (forall j, k :: 0 <= j < k < |visits[s]| ==> visits[s][j] < visits[s][k]) &&
      sessions[s].seenAt == if visits[s] == [] then None else Some(visits[s][|visits[s]| - 1])
  }

  ghost predicate Queued(commands: seq<Command>, visits: seq<seq<int>>, clock: int) {
    (forall i :: 0 <= i < |commands| ==>
       commands[i].session < |visits| && 1 <= commands[i].sequence && commands[i].createdAt <= clock &&
       commands[i].expiresAt == commands[i].createdAt + COMMAND_TTL &&
       (commands[i].state == Pending ==> Attended(visits[commands[i].session], commands[i].createdAt, clock))) &&
    (forall i, j :: 0 <= i < j < |commands| && commands[i].session == commands[j].session ==>
       commands[i].sequence < commands[j].sequence)
  }

  /** What makes one dispatch legitimate. */
  ghost predicate Legitimate(x: Sent, sessions: seq<Session>, commands: seq<Command>, visits: seq<seq<int>>) {
    x.command < |commands| &&
    var c := commands[x.command];
    c.session < |sessions| && c.session < |visits| &&
    var s := sessions[c.session];
    && !c.state.Pending? && !c.state.Expired?
    && c.createdAt < x.at < c.expiresAt
    && s.createdAt < x.at < s.expiresAt
    && (s.endedAt.Some? ==> x.at < s.endedAt.value)
    && x.at in visits[c.session]
    && Attended(visits[c.session], c.createdAt, x.at)
  }

  /** No command twice, and within a session always a later command, so always a larger client sequence. */
  ghost predicate InOrder(sent: seq<Sent>, commands: seq<Command>) {
    (forall i :: 0 <= i < |sent| ==> sent[i].command < |commands|) &&
    (forall i, j :: 0 <= i < j < |sent| && commands[sent[i].command].session == commands[sent[j].command].session ==>
       sent[i].command < sent[j].command) &&
    (forall i, k :: 0 <= i < |sent| && 0 <= k < sent[i].command
                    && commands[k].session == commands[sent[i].command].session ==>
       !commands[k].state.Pending?)
  }

  ghost predicate Disciplined(sessions: seq<Session>, commands: seq<Command>, visits: seq<seq<int>>, sent: seq<Sent>,
                              clock: int) {
    && Visited(sessions, visits, clock)
    && Queued(commands, visits, clock)
    && InOrder(sent, commands)
    && (forall i :: 0 <= i < |sent| ==> sent[i].at <= clock && Legitimate(sent[i], sessions, commands, visits))
  }

  /** The promise of the console: each command goes out at most once, in a session they go out in the order of their
      client sequences, and each goes out before its own expiry and its session's end, with the device never away for
      six seconds since it was queued. */
  ghost predicate PromiseKept(sessions: seq<Session>, commands: seq<Command>, visits: seq<seq<int>>, sent: seq<Sent>) {
    (forall i :: 0 <= i < |sent| ==> Legitimate(sent[i], sessions, commands, visits)) &&
    (forall i, j :: 0 <= i < j < |sent| ==> sent[i].command != sent[j].command) &&
    (forall i, j :: 0 <= i < j < |sent| && commands[sent[i].command].session == commands[sent[j].command].session ==>
       commands[sent[i].command].sequence < commands[sent[j].command].sequence)
  }

  lemma AtMostOnceInOrder(sessions: seq<Session>, commands: seq<Command>, visits: seq<seq<int>>, sent: seq<Sent>,
                          clock: int)
    requires Disciplined(sessions, commands, visits, sent, clock)
    ensures PromiseKept(sessions, commands, visits, sent)
  {
    forall i, j | 0 <= i < j < |sent| && commands[sent[i].command].session == commands[sent[j].command].session
      ensures commands[sent[i].command].sequence < commands[sent[j].command].sequence
    {
      assert sent[i].command < sent[j].command;
    }
    forall i, j | 0 <= i < j < |sent| ensures sent[i].command != sent[j].command {
      assert commands[sent[i].command].session == commands[sent[j].command].session ==>
               sent[i].command < sent[j].command;
    }
  }

  // ----- the bulk updates -----

  function ExpiredIn(commands: seq<Command>, doomed: set<nat>): (r: seq<Command>)
    ensures |r| == |commands|
    ensures forall i :: 0 <= i < |r| ==>
              r[i] == if commands[i].state.Pending? && commands[i].session in doomed
                      then commands[i].(state := Expired) else commands[i]
  {
    seq(|commands|, i requires 0 <= i < |commands| =>
      if commands[i].state.Pending? && commands[i].session in doomed then commands[i].(state := Expired)
      else commands[i])
  }

  function LapsedIn(commands: seq<Command>, session: nat, now: int): (r: seq<Command>)
    ensures |r| == |commands|
    ensures forall i :: 0 <= i < |r| ==>
              r[i] == if commands[i].state.Pending? && commands[i].session == session && commands[i].expiresAt <= now
                      then commands[i].(state := Expired) else commands[i]
  {
    seq(|commands|, i requires 0 <= i < |commands| =>
      if commands[i].state.Pending? && commands[i].session == session && commands[i].expiresAt <= now
      then commands[i].(state := Expired) else commands[i])
  }

  function EndedAt(sessions: seq<Session>, doomed: set<nat>, now: int): (r: seq<Session>)
    ensures |r| == |sessions|
    ensures forall s :: 0 <= s < |r| ==>
              r[s] == if s in doomed && sessions[s].endedAt.None? then sessions[s].(endedAt := Some(now))
                      else sessions[s]
  {
    seq(|sessions|, s requires 0 <= s < |sessions| =>
      if s in doomed && sessions[s].endedAt.None? then sessions[s].(endedAt := Some(now)) else sessions[s])
  }

  function OpenOf(sessions: seq<Session>, owner: int): set<nat> {
    set s: nat | s < |sessions| && sessions[s].owner == owner && sessions[s].endedAt.None?
  }

  function Overdue(sessions: seq<Session>, now: int): set<nat> {
    set s: nat | s < |sessions| && sessions[s].endedAt.None? && sessions[s].expiresAt <= now
  }

  predicate Open(s: Session, now: int) { s.endedAt.None? && now < s.expiresAt }

  // ----- each update keeps the discipline -----

  ghost predicate OnlyExpires(before: seq<Command>, after: seq<Command>) {
    |after| == |before| &&
    forall i :: 0 <= i < |before| ==>
      after[i] == before[i] || (before[i].state.Pending? && after[i] == before[i].(state := Expired))
  }

  lemma TimePasses(sessions: seq<Session>, commands: seq<Command>, visits: seq<seq<int>>, sent: seq<Sent>, clock: int,
                   now: int)
    requires Disciplined(sessions, commands, visits, sent, clock) && clock <= now
    ensures Disciplined(sessions, commands, visits, sent, now)
  {
  }

  lemma ExpiringKeeps(sessions: seq<Session>, commands: seq<Command>, visits: seq<seq<int>>, sent: seq<Sent>,
                      clock: int, after: seq<Command>)
    requires Disciplined(sessions, commands, visits, sent, clock) && OnlyExpires(commands, after)
    ensures Disciplined(sessions, after, visits, sent, clock)
  {
    hide Attended;
    forall i | 0 <= i < |sent| ensures Legitimate(sent[i], sessions, after, visits) {
      assert Legitimate(sent[i], sessions, commands, visits);
    }
  }

  lemma EndingKeeps(sessions: seq<Session>, commands: seq<Command>, visits: seq<seq<int>>, sent: seq<Sent>, clock: int,
                    doomed: set<nat>, now: int)
    requires Disciplined(sessions, commands, visits, sent, clock) && clock < now
    ensures Disciplined(EndedAt(sessions, doomed, now), commands, visits, sent, clock)
  {
    hide Attended;
    var after := EndedAt(sessions, doomed, now);
    forall i | 0 <= i < |sent| ensures Legitimate(sent[i], after, commands, visits) {
      assert Legitimate(sent[i], sessions, commands, visits);
    }
  }

  lemma StartingKeeps(sessions: seq<Session>, commands: seq<Command>, visits: seq<seq<int>>, sent: seq<Sent>,
                      clock: int, fresher: Session)
    requires Disciplined(sessions, commands, visits, sent, clock) && fresher.createdAt <= clock &&
             fresher.seenAt == None
    ensures Disciplined(sessions + [fresher], commands, visits + [[]], sent, clock)
  {
    hide Attended;
    forall i | 0 <= i < |sent| ensures Legitimate(sent[i], sessions + [fresher], commands, visits + [[]]) {
      assert Legitimate(sent[i], sessions, commands, visits);
    }
  }

  lemma QueueingKeeps(sessions: seq<Session>, commands: seq<Command>, visits: seq<seq<int>>, sent: seq<Sent>,
                      clock: int, c: Command)
    requires Disciplined(sessions, commands, visits, sent, clock)
    requires c.session < |sessions| && sessions[c.session].seenAt.Some? && sessions[c.session].seenAt.value < clock
    requires c.createdAt == clock && c.expiresAt == clock + COMMAND_TTL && c.state == Pending && 1 <= c.sequence
    requires forall i :: 0 <= i < |commands| && commands[i].session == c.session ==> commands[i].sequence < c.sequence
    ensures Disciplined(sessions, commands + [c], visits, sent, clock)
  {
    var after := commands + [c];
    var v := visits[c.session];
    assert v[0] < clock by {
      assert v[0] <= v[|v| - 1];
    }
    assert Attended(v, clock, clock);
    forall i | 0 <= i < |sent| ensures Legitimate(sent[i], sessions, after, visits) {
      assert Legitimate(sent[i], sessions, commands, visits);
    }
  }

  lemma VisitExtends(visits: seq<int>, created: int, at: int, now: int)
    requires Attended(visits, created, at) && at < now
    ensures Attended(visits + [now], created, at)
    ensures now - visits[|visits| - 1] < DEVICE_SYNC_WINDOW && (forall k :: 0 <= k < |visits| ==> visits[k] <= at) ==>
              Attended(visits + [now], created, now)
  {
  }

  /** The device's visit to a session: it keeps the discipline if it comes within the window or nothing is pending. */
  lemma VisitingKeeps(sessions: seq<Session>, commands: seq<Command>, visits: seq<seq<int>>, sent: seq<Sent>,
                      clock: int, s: nat, now: int)
    requires Disciplined(sessions, commands, visits, sent, clock) && clock < now && s < |sessions|
    requires (sessions[s].seenAt.Some? && now - sessions[s].seenAt.value < DEVICE_SYNC_WINDOW) ||
             forall i :: 0 <= i < |commands| && commands[i].session == s ==> !commands[i].state.Pending?
    ensures Disciplined(sessions[s := sessions[s].(seenAt := Some(now))], commands, visits[s := visits[s] + [now]],
                        sent, now)
  {
    hide Attended;
    var after, visited := sessions[s := sessions[s].(seenAt := Some(now))], visits[s := visits[s] + [now]];
    forall i | 0 <= i < |commands| && commands[i].state == Pending
      ensures Attended(visited[commands[i].session], commands[i].createdAt, now)
    {
      var v := visits[commands[i].session];
      assert Attended(v, commands[i].createdAt, clock);
      if commands[i].session == s {
        VisitExtends(v, commands[i].createdAt, clock, now);
        SomeVisit(v, commands[i].createdAt, clock);
      } else {
        AwayUntil(v, commands[i].createdAt, clock, now);
      }
    }
    forall i | 0 <= i < |sent| ensures Legitimate(sent[i], after, commands, visited) {
      var x := sent[i];
      assert Legitimate(x, sessions, commands, visits);
      if commands[x.command].session == s {
        VisitExtends(visits[s], commands[x.command].createdAt, x.at, now);
      }
    }
    assert Visited(after, visited, now);
  }

  lemma SomeVisit(visits: seq<int>, created: int, at: int)
    requires Attended(visits, created, at)
    ensures visits != []
  {
  }

  lemma AwayUntil(visits: seq<int>, created: int, clock: int, now: int)
    requires Attended(visits, created, clock) && forall k :: 0 <= k < |visits| ==> visits[k] <= clock
    ensures Attended(visits, created, now)
  {
  }

  lemma SeenBefore(sessions: seq<Session>, commands: seq<Command>, visits: seq<seq<int>>, sent: seq<Sent>, clock: int)
    requires Disciplined(sessions, commands, visits, sent, clock)
    ensures forall s :: 0 <= s < |sessions| && sessions[s].seenAt.Some? ==> sessions[s].seenAt.value <= clock
    ensures |visits| == |sessions| && forall i :: 0 <= i < |commands| ==> commands[i].session < |sessions|
    ensures forall i :: 0 <= i < |commands| ==> commands[i].createdAt <= clock
    ensures forall s :: 0 <= s < |sessions| ==> sessions[s].createdAt <= clock
  {
  }

  /** Nothing is pending in a session the device never visited. */
  lemma NothingPendingUnseen(sessions: seq<Session>, commands: seq<Command>, visits: seq<seq<int>>, sent: seq<Sent>,
                             clock: int, s: nat)
    requires Disciplined(sessions, commands, visits, sent, clock) && s < |sessions| && sessions[s].seenAt.None?
    ensures forall i :: 0 <= i < |commands| && commands[i].session == s ==> !commands[i].state.Pending?
  {
  }

  lemma PendingComesLater(sent: seq<Sent>, commands: seq<Command>, i: nat, c: nat)
    requires InOrder(sent, commands) && i < |sent| && c < |commands| && commands[c].state.Pending?
    requires commands[sent[i].command].session == commands[c].session
    ensures sent[i].command <= c
  {
  }

  /** Handing over the first pending command of an open session the device is visiting right now. */
  lemma DispatchingKeeps(sessions: seq<Session>, commands: seq<Command>, visits: seq<seq<int>>, sent: seq<Sent>,
                         now: int, c: nat)
    requires Disciplined(sessions, commands, visits, sent, now) && c < |commands|
    requires commands[c].state == Pending && commands[c].createdAt < now < commands[c].expiresAt
    requires var s := sessions[commands[c].session];
             Open(s, now) && s.createdAt < now && s.seenAt == Some(now)
    requires forall i :: 0 <= i < c && commands[i].session == commands[c].session ==> !commands[i].state.Pending?
    ensures Disciplined(sessions, commands[c := commands[c].(state := Dispatched)], visits, sent + [Sent(c, now)], now)
  {
    hide Attended, Queued, InOrder, Visited;
    var after := commands[c := commands[c].(state := Dispatched)];
    var more := sent + [Sent(c, now)];
    DispatchIsAttended(sessions, commands, visits, now, c);
    DispatchedQueued(commands, visits, now, c);
    forall i | 0 <= i < |sent|
      ensures Legitimate(sent[i], sessions, after, visits) && sent[i].at <= now && sent[i].command != c
    {
      assert Legitimate(sent[i], sessions, commands, visits);
    }
    assert Legitimate(more[|sent|], sessions, after, visits);
    assert forall i :: 0 <= i < |sent| ==> more[i] == sent[i];
    DispatchedInOrder(sent, commands, now, c);
  }

  lemma DispatchIsAttended(sessions: seq<Session>, commands: seq<Command>, visits: seq<seq<int>>, now: int, c: nat)
    requires Visited(sessions, visits, now) && Queued(commands, visits, now) && c < |commands|
    requires commands[c].state == Pending && sessions[commands[c].session].seenAt == Some(now)
    ensures commands[c].session < |sessions| && commands[c].session < |visits|
    ensures now in visits[commands[c].session]
    ensures Attended(visits[commands[c].session], commands[c].createdAt, now)
  {
    hide Attended;
  }

  lemma DispatchedQueued(commands: seq<Command>, visits: seq<seq<int>>, now: int, c: nat)
    requires Queued(commands, visits, now) && c < |commands|
    ensures Queued(commands[c := commands[c].(state := Dispatched)], visits, now)
  {
    hide Attended;
  }

  lemma DispatchedInOrder(sent: seq<Sent>, commands: seq<Command>, now: int, c: nat)
    requires InOrder(sent, commands) && c < |commands| && commands[c].state.Pending?
    requires forall i :: 0 <= i < |sent| ==> sent[i].command != c
    requires forall i :: 0 <= i < c && commands[i].session == commands[c].session ==> !commands[i].state.Pending?
    ensures InOrder(sent + [Sent(c, now)], commands[c := commands[c].(state := Dispatched)])
  {
    forall i | 0 <= i < |sent| && commands[sent[i].command].session == commands[c].session ensures sent[i].command < c {
      PendingComesLater(sent, commands, i, c);
    }
  }

  lemma AcknowledgingKeeps(sessions: seq<Session>, commands: seq<Command>, visits: seq<seq<int>>, sent: seq<Sent>,
                           clock: int, c: nat, state: CommandState)
    requires Disciplined(sessions, commands, visits, sent, clock) && c < |commands| && commands[c].state == Dispatched
    requires state == Acknowledged || state == Ignored || state == Blocked
    ensures Disciplined(sessions, commands[c := commands[c].(state := state)], visits, sent, clock)
  {
    hide Attended;
    var after := commands[c := commands[c].(state := state)];
    forall i | 0 <= i < |sent| ensures Legitimate(sent[i], sessions, after, visits) {
      assert Legitimate(sent[i], sessions, commands, visits);
    }
  }

  // ----- the requests -----

  function Largest(commands: seq<Command>, session: nat): (r: int)
    ensures 0 <= r
    ensures forall i :: 0 <= i < |commands| && commands[i].session == session ==> commands[i].sequence <= r
    ensures r == 0 || exists i :: 0 <= i < |commands| && commands[i].session == session && commands[i].sequence == r
  {
    if commands == [] then 0
    else
      var rest, last := Largest(commands[..|commands| - 1], session), commands[|commands| - 1];
      if last.session == session && rest < last.sequence then last.sequence else rest
  }

  /** Why a command is refused, first reason first. */
  function Admission(sessions: seq<Session>, commands: seq<Command>, revoked: bool, remoteAllowed: bool,
                     owner: int, session: nat, sequence: int, now: int): Answer {
    if !(1 <= sequence <= MAX_SEQUENCE) then Malformed
    else if |sessions| <= session || sessions[session].owner != owner then Missing
    else if !Open(sessions[session], now) || revoked then SessionExpired
    else if sessions[session].seenAt.None? || sessions[session].seenAt.value <= now - DEVICE_SYNC_WINDOW then NotJoined
    else if !remoteAllowed then RemoteStopped
    else if sequence <= Largest(commands, session) then Stale
    else Accepted
  }

  function StateAfter(result: AckResult): CommandState {
    match result case Applied => Acknowledged case AckIgnored => Ignored case AckBlocked => Blocked
  }

  /** The newest session of the device that is still open. */
  ghost predicate Newest(sessions: seq<Session>, now: int, live: Option<nat>) {
    match live
    case None => forall s :: 0 <= s < |sessions| ==> !Open(sessions[s], now)
    case Some(n) =>
      n < |sessions| && Open(sessions[n], now) && forall s :: n < s < |sessions| ==> !Open(sessions[s], now)
  }

  /** A command that may still go out in this visit. */
  predicate Due(c: Command, live: Option<nat>, seen: Option<int>, now: int) {
    c.state.Pending? && live == Some(c.session) && now < c.expiresAt &&
    !(seen.Some? && seen.value <= now - DEVICE_SYNC_WINDOW)
  }

  /** The first command that is due. */
  ghost predicate FirstDue(commands: seq<Command>, live: Option<nat>, seen: Option<int>, now: int,
                           picked: Option<nat>) {
    match picked
    case None => forall i :: 0 <= i < |commands| ==> !Due(commands[i], live, seen, now)
    case Some(p) => p < |commands| && Due(commands[p], live, seen, now) &&
                    forall i :: 0 <= i < p ==> !Due(commands[i], live, seen, now)
  }

  method FindNewest(sessions: seq<Session>, now: int) returns (live: Option<nat>)
    ensures Newest(sessions, now, live)
  {
    var n := |sessions|;
    while 0 < n
      invariant 0 <= n <= |sessions| && forall s :: 0 <= n <= s < |sessions| ==> !Open(sessions[s], now)
    {
      n := n - 1;
      if Open(sessions[n], now) {
        return Some(n);
      }
    }
    return None;
  }

  method FindPending(commands: seq<Command>, session: nat, now: int) returns (picked: Option<nat>)
    ensures match picked
            case None => forall i :: 0 <= i < |commands| && commands[i].session == session
                                     && now < commands[i].expiresAt ==>
                           !commands[i].state.Pending?
            case Some(p) => p < |commands| && commands[p].session == session && now < commands[p].expiresAt &&
                            commands[p].state.Pending? &&
                            forall i :: 0 <= i < p && commands[i].session == session && now < commands[i].expiresAt ==>
                              !commands[i].state.Pending?
  {
    var n := 0;
    while n < |commands|
      invariant n <= |commands|
      invariant forall i :: 0 <= i < n && commands[i].session == session && now < commands[i].expiresAt ==>
                  !commands[i].state.Pending?
    {
      if commands[n].session == session && now < commands[n].expiresAt && commands[n].state.Pending? {
        return Some(n);
      }
      n := n + 1;
    }
    return None;
  }

  /** What one sync does to one command. */
  ghost function AfterSync(c: Command, i: nat, sessions: seq<Session>, live: Option<nat>, picked: Option<nat>,
                           acknowledged: Option<Ack>, now: int): CommandState
    requires c.session < |sessions| && (live.Some? ==> live.value < |sessions|)
  {
    if acknowledged.Some? && acknowledged.value.command == i && c.state.Dispatched?
    then StateAfter(acknowledged.value.result)
    else if !c.state.Pending? then c.state
    else if c.session in Overdue(sessions, now) then Expired
    else if live != Some(c.session) then Pending
    else if c.expiresAt <= now then Expired
    else if sessions[live.value].seenAt.Some? && sessions[live.value].seenAt.value <= now - DEVICE_SYNC_WINDOW
    then Expired
    else if picked == Some(i) then Dispatched
    else Pending
  }

  /** What one sync does to all of them. */
  ghost predicate CommandsSynced(before: seq<Command>, after: seq<Command>, sessions: seq<Session>, live: Option<nat>,
                                 picked: Option<nat>, acknowledged: Option<Ack>, now: int) {
    |after| == |before| &&
    (live.Some? ==> live.value < |sessions|) &&
    forall i :: 0 <= i < |before| ==>
      before[i].session < |sessions| &&
      after[i] == before[i].(state := AfterSync(before[i], i, sessions, live, picked, acknowledged, now))
  }

  function Taken(c: Command, i: nat, acknowledged: Option<Ack>): Command {
    if acknowledged.Some? && acknowledged.value.command == i && c.state.Dispatched?
    then c.(state := StateAfter(acknowledged.value.result)) else c
  }

  function Served(c: Command, i: nat, n: nat, seen: Option<int>, picked: Option<nat>, now: int): Command {
    if !(c.state.Pending? && c.session == n) then c
    else if !Due(c, Some(n), seen, now) then c.(state := Expired)
    else if picked == Some(i) then c.(state := Dispatched)
    else c
  }

  lemma NewestAfterEnding(sessions: seq<Session>, now: int, live: Option<nat>)
    requires Newest(EndedAt(sessions, Overdue(sessions, now), now), now, live)
    ensures Newest(sessions, now, live)
    ensures live.Some? ==> live.value !in Overdue(sessions, now)
    ensures live.Some? ==> EndedAt(sessions, Overdue(sessions, now), now)[live.value] == sessions[live.value]
  {
    var ended := EndedAt(sessions, Overdue(sessions, now), now);
    assert forall s :: 0 <= s < |sessions| && Open(sessions[s], now) ==> Open(ended[s], now);
  }

  lemma OverdueEnds(sessions: seq<Session>, now: int)
    ensures var ended := EndedAt(sessions, Overdue(sessions, now), now);
            && |ended| == |sessions|
            && forall s :: 0 <= s < |sessions| ==>
                 ended[s] == if sessions[s].endedAt == None && sessions[s].expiresAt <= now
                             then sessions[s].(endedAt := Some(now)) else sessions[s]
  {
  }

  /** The steps of a sync, one after another, are the one effect above. */
  lemma StepsAreSync(before: seq<Command>, taken: seq<Command>, ended: seq<Command>, after: seq<Command>,
                     sessions: seq<Session>, live: Option<nat>, picked: Option<nat>, acknowledged: Option<Ack>,
                     now: int)
    requires |before| == |taken| == |ended| == |after| && (live.Some? ==> live.value < |sessions|)
    requires forall i :: 0 <= i < |before| ==>
               before[i].session < |sessions| && taken[i] == Taken(before[i], i, acknowledged)
    requires ended == ExpiredIn(taken, Overdue(sessions, now))
    requires live.Some? ==> live.value !in Overdue(sessions, now)
    requires live.Some? ==>
               forall i :: 0 <= i < |after| ==>
                 after[i] == Served(ended[i], i, live.value, sessions[live.value].seenAt, picked, now)
    requires live.None? ==> after == ended
    ensures CommandsSynced(before, after, sessions, live, picked, acknowledged, now)
    ensures live.Some? ==>
              (FirstDue(before, live, sessions[live.value].seenAt, now, picked) <==>
               FirstDue(ended, live, sessions[live.value].seenAt, now, picked))
    ensures live.None? ==> FirstDue(before, live, None, now, None)
  {
    hide Overdue;
    if live.Some? {
      forall i | 0 <= i < |before|
        ensures Due(before[i], live, sessions[live.value].seenAt, now) <==>
                  Due(ended[i], live, sessions[live.value].seenAt, now)
      {
        assert taken[i] == Taken(before[i], i, acknowledged);
      }
    }
  }

  /** The effect on one command, by what it and its session were. */
  lemma SyncOutcomes(c: Command, i: nat, sessions: seq<Session>, live: Option<nat>, picked: Option<nat>,
                     acknowledged: Option<Ack>, now: int)
    requires c.session < |sessions| && (live.Some? ==> live.value < |sessions|)
    ensures var after := AfterSync(c, i, sessions, live, picked, acknowledged, now);
            var s := sessions[c.session];
            var away := s.seenAt.Some? && s.seenAt.value + 6_000_000 <= now;
            match c.state
            case Pending =>
              if (s.endedAt == None && s.expiresAt <= now) || (live == Some(c.session) && (c.expiresAt <= now || away))
              then after == Expired
              else if live == Some(c.session) && picked == Some(i) then after == Dispatched else after == Pending
            case Dispatched =>
              if acknowledged.None? || acknowledged.value.command != i then after == Dispatched
              else (match acknowledged.value.result
                    case Applied => after == Acknowledged
                    case AckIgnored => after == Ignored
                    case AckBlocked => after == Blocked)
            case _ => after == c.state
  {
  }

  /** Which command goes out: the first one still pending in the newest open session, not expired, and queued while the
      device was not away. */
  lemma PicksFirst(sessions: seq<Session>, commands: seq<Command>, live: Option<nat>, picked: Option<nat>, now: int)
    requires Newest(sessions, now, live)
    requires FirstDue(commands, live, if live.Some? then sessions[live.value].seenAt else None, now, picked)
    ensures live.None? ==>
              && picked.None?
              && forall s :: 0 <= s < |sessions| ==> sessions[s].endedAt.Some? || sessions[s].expiresAt <= now
    ensures live.Some? ==>
              var n := live.value;
              var away := sessions[n].seenAt.Some? && sessions[n].seenAt.value + 6_000_000 <= now;
              && n < |sessions| && sessions[n].endedAt == None && now < sessions[n].expiresAt
              && (forall s :: n < s < |sessions| ==> sessions[s].endedAt.Some? || sessions[s].expiresAt <= now)
              && match picked
                 case None =>
                   away ||
                   forall i :: 0 <= i < |commands| && commands[i].session == n && commands[i].state == Pending ==>
                     commands[i].expiresAt <= now
                 case Some(p) =>
                   && !away && p < |commands|
                   && commands[p].session == n && commands[p].state == Pending && now < commands[p].expiresAt
                   && forall i :: 0 <= i < p && commands[i].session == n && commands[i].state == Pending ==>
                        commands[i].expiresAt <= now
  {
  }

  class DeviceConsole {
    var sessions: seq<Session>
    var commands: seq<Command>
    var remoteAllowed: bool
    var revoked: bool
    var lastCommand: Option<Ack>
    ghost var visits: seq<seq<int>>
    ghost var sent: seq<Sent>
    ghost var clock: int

    ghost predicate Valid()
      reads this
    {
      Disciplined(sessions, commands, visits, sent, clock)
    }

    constructor (now: int)
      ensures Valid() && sessions == [] && commands == [] && sent == [] && remoteAllowed && !revoked && clock == now
    {
      sessions, commands, remoteAllowed, revoked, lastCommand := [], [], true, false, None;
      visits, sent, clock := [], [], now;
    }

    /** The owner opens a session; the same owner's open sessions end and what is pending in them expires. */
    method Start(owner: int, now: int) returns (answer: Answer)
      requires Valid() && clock < now
      modifies this`sessions, this`commands, this`visits, this`clock
      ensures Valid() && clock == now
      ensures answer == if revoked then DeviceRevoked else Accepted
      ensures answer == DeviceRevoked ==>
                sessions == old(sessions) && commands == old(commands) && visits == old(visits)
      ensures answer == Accepted ==>
                var ended := OpenOf(old(sessions), owner);
                sessions == EndedAt(old(sessions), ended, now) + [Session(owner, now, now + SESSION_TTL, None, None)] &&
                commands == ExpiredIn(old(commands), ended) && visits == old(visits) + [[]]
      ensures answer == Accepted ==>
                && |sessions| == |old(sessions)| + 1
                && sessions[|old(sessions)|] == Session(owner, now, now + 600_000_000, None, None)
                && (forall s :: 0 <= s < |old(sessions)| ==>
                      sessions[s] == if old(sessions)[s].owner == owner && old(sessions)[s].endedAt == None
                                     then old(sessions)[s].(endedAt := Some(now)) else old(sessions)[s])
      ensures answer == Accepted ==>
                && |commands| == |old(commands)|
                && forall i :: 0 <= i < |commands| ==>
                     var c := old(commands)[i];
                     && c.session < |old(sessions)|
                     && var s := old(sessions)[c.session];
                     commands[i] == if c.state == Pending && s.owner == owner && s.endedAt == None
                                    then c.(state := Expired) else c
    {
      hide Disciplined;
      SeenBefore(sessions, commands, visits, sent, clock);
      TimePasses(sessions, commands, visits, sent, clock, now);
      if revoked {
        clock := now;
        return DeviceRevoked;
      }
      ghost var before := clock;
      var ended := OpenOf(sessions, owner);
      ExpiringKeeps(sessions, commands, visits, sent, clock, ExpiredIn(commands, ended));
      commands := ExpiredIn(commands, ended);
      EndingKeeps(sessions, commands, visits, sent, clock, ended, now);
      sessions := EndedAt(sessions, ended, now);
      TimePasses(sessions, commands, visits, sent, clock, now);
      var session := Session(owner, now, now + SESSION_TTL, None, None);
      StartingKeeps(sessions, commands, visits, sent, now, session);
      sessions := sessions + [session];
      visits := visits + [[]];
      clock := now;
      return Accepted;
    }

    method Submit(owner: int, session: nat, sequence: int, now: int) returns (answer: Answer)
      requires Valid() && clock < now
      modifies this`commands, this`clock
      ensures Valid() && clock == now
      ensures answer == Admission(sessions, old(commands), revoked, remoteAllowed, owner, session, sequence, now)
      ensures answer == Accepted <==>
                && 1 <= sequence <= 1_000_000_000
                && session < |sessions| && sessions[session].owner == owner
                && sessions[session].endedAt == None && now < sessions[session].expiresAt && !revoked
                && sessions[session].seenAt.Some? && now < sessions[session].seenAt.value + 6_000_000
                && remoteAllowed
                && forall i :: 0 <= i < |old(commands)| && old(commands)[i].session == session ==>
                     old(commands)[i].sequence < sequence
      ensures match answer
              case Accepted => true
              case Malformed => sequence < 1 || 1_000_000_000 < sequence
              case Missing => session < |sessions| ==> sessions[session].owner != owner
              case SessionExpired =>
                && session < |sessions|
                && (sessions[session].endedAt.Some? || sessions[session].expiresAt <= now || revoked)
              case NotJoined =>
                && session < |sessions|
                && (sessions[session].seenAt.Some? ==> sessions[session].seenAt.value + 6_000_000 <= now)
              case RemoteStopped => !remoteAllowed
              case Stale =>
                exists i :: 0 <= i < |commands| && commands[i].session == session && sequence <= commands[i].sequence
              case DeviceRevoked => false
      ensures commands == if answer == Accepted
                          then old(commands) + [Command(session, sequence, now, now + 8_000_000, Pending)]
                          else old(commands)
    {
      hide Disciplined;
      TimePasses(sessions, commands, visits, sent, clock, now);
      SeenBefore(sessions, commands, visits, sent, clock);
      clock := now;
      if !(1 <= sequence <= MAX_SEQUENCE) {
        return Malformed;
      }
      if |sessions| <= session || sessions[session].owner != owner {
        return Missing;
      }
      if !Open(sessions[session], now) || revoked {
        return SessionExpired;
      }
      if sessions[session].seenAt.None? || sessions[session].seenAt.value <= now - DEVICE_SYNC_WINDOW {
        return NotJoined;
      }
      if !remoteAllowed {
        return RemoteStopped;
      }
      if sequence <= Largest(commands, session) {
        return Stale;
      }
      var row := Command(session, sequence, now, now + COMMAND_TTL, Pending);
      QueueingKeeps(sessions, commands, visits, sent, now, row);
      commands := commands + [row];
      return Accepted;
    }

    method Stop(owner: int, session: nat, now: int) returns (found: bool)
      requires Valid() && clock < now
      modifies this`sessions, this`commands, this`clock
      ensures Valid() && clock == now
      ensures found <==> session < |old(sessions)| && old(sessions)[session].owner == owner
      ensures found ==>
                sessions == EndedAt(old(sessions), {session}, now) && commands == ExpiredIn(old(commands), {session})
      ensures !found ==> sessions == old(sessions) && commands == old(commands)
      ensures found ==>
                && sessions == old(sessions)[session := old(sessions)[session].(
                                 endedAt := if old(sessions)[session].endedAt == None then Some(now)
                                            else old(sessions)[session].endedAt)]
                && |commands| == |old(commands)|
                && forall i :: 0 <= i < |commands| ==>
                     commands[i] == if old(commands)[i].session == session && old(commands)[i].state == Pending
                                    then old(commands)[i].(state := Expired) else old(commands)[i]
    {
      hide Disciplined;
      TimePasses(sessions, commands, visits, sent, clock, now);
      if |sessions| <= session || sessions[session].owner != owner {
        clock := now;
        return false;
      }
      EndingKeeps(sessions, commands, visits, sent, clock, {session}, now);
      if sessions[session].endedAt.None? {
        sessions := sessions[session := sessions[session].(endedAt := Some(now))];
      }
      assert sessions == EndedAt(old(sessions), {session}, now);
      ExpiringKeeps(sessions, commands, visits, sent, clock, ExpiredIn(commands, {session}));
      commands := ExpiredIn(commands, {session});
      TimePasses(sessions, commands, visits, sent, clock, now);
      clock := now;
      return true;
    }

    /** An acknowledgement counts only for a command that was dispatched and not acknowledged yet. */
    method Acknowledge(acknowledgement: Option<Ack>)
      requires Valid()
      modifies this`commands, this`lastCommand
      ensures Valid() && |commands| == |old(commands)|
      ensures forall i :: 0 <= i < |commands| ==>
                commands[i] == Taken(old(commands)[i], i, acknowledgement)
      ensures lastCommand == if && acknowledgement.Some? && acknowledgement.value.command < |commands|
                                && old(commands)[acknowledgement.value.command].state == Dispatched
                             then acknowledgement else old(lastCommand)
    {
      hide Disciplined;
      if acknowledgement.Some? {
        var ack := acknowledgement.value;
        if ack.command < |commands| && commands[ack.command].state.Dispatched? {
          AcknowledgingKeeps(sessions, commands, visits, sent, clock, ack.command, StateAfter(ack.result));
          commands := commands[ack.command := commands[ack.command].(state := StateAfter(ack.result))];
          lastCommand := Some(ack);
        }
      }
    }

    /** The device is seen in a session; what has lapsed there expires, and everything pending after a long gap. */
    method Visit(n: nat, now: int)
      requires Valid() && clock < now && n < |sessions|
      modifies this`sessions, this`commands, this`visits, this`clock
      ensures Valid() && clock == now && |commands| == |old(commands)|
      ensures sessions == old(sessions)[n := old(sessions)[n].(seenAt := Some(now))]
      ensures |old(visits)| == |old(sessions)| && visits == old(visits)[n := old(visits)[n] + [now]]
      ensures var seen := old(sessions)[n].seenAt;
              forall i :: 0 <= i < |commands| ==>
                commands[i] == if old(commands)[i].state.Pending? && old(commands)[i].session == n &&
                                  !Due(old(commands)[i], Some(n), seen, now)
                               then old(commands)[i].(state := Expired) else old(commands)[i]
    {
      hide Disciplined;
      SeenBefore(sessions, commands, visits, sent, clock);
      ghost var sessionsBefore, commandsBefore := sessions, commands;
      var previousSeen := sessions[n].seenAt;
      sessions := sessions[n := sessions[n].(seenAt := Some(now))];
      commands := LapsedIn(commands, n, now);
      if previousSeen.Some? && previousSeen.value <= now - DEVICE_SYNC_WINDOW {
        commands := ExpiredIn(commands, {n});
      }
      ExpiringKeeps(sessionsBefore, commandsBefore, visits, sent, clock, commands);
      if previousSeen.None? {
        NothingPendingUnseen(sessionsBefore, commands, visits, sent, clock, n);
      }
      VisitingKeeps(sessionsBefore, commands, visits, sent, clock, n, now);
      visits := visits[n := visits[n] + [now]];
      clock := now;
    }

    /** The first pending command of the session is marked dispatched and handed over. */
    method Dispatch(n: nat, now: int) returns (picked: Option<nat>)
      requires Valid() && clock == now && n < |sessions| && Open(sessions[n], now) && sessions[n].seenAt == Some(now)
      requires sessions[n].createdAt < now
      requires forall i :: 0 <= i < |commands| ==> commands[i].createdAt < now
      requires forall i :: 0 <= i < |commands| && commands[i].session == n && commands[i].state.Pending? ==>
                 now < commands[i].expiresAt
      modifies this`commands, this`sent
      ensures Valid()
      ensures match picked
              case None => forall i :: 0 <= i < |commands| ==> !(commands[i].session == n && commands[i].state.Pending?)
              case Some(p) =>
                && p < |old(commands)| && old(commands)[p].session == n && old(commands)[p].state.Pending?
                && forall i :: 0 <= i < p ==> !(old(commands)[i].session == n && old(commands)[i].state.Pending?)
      ensures commands == if picked.Some?
                          then old(commands)[picked.value := old(commands)[picked.value].(state := Dispatched)]
                          else old(commands)
      ensures sent == if picked.Some? then old(sent) + [Sent(picked.value, now)] else old(sent)
    {
      hide Disciplined;
      SeenBefore(sessions, commands, visits, sent, clock);
      picked := FindPending(commands, n, now);
      if picked.Some? {
        var p := picked.value;
        DispatchingKeeps(sessions, commands, visits, sent, now, p);
        commands := commands[p := commands[p].(state := Dispatched)];
        sent := sent + [Sent(p, now)];
      }
    }

    /** Sessions past their ten minutes end, and what is pending in them expires. */
    method EndOverdue(now: int)
      requires Valid() && clock < now
      modifies this`sessions, this`commands
      ensures Valid()
      ensures sessions == EndedAt(old(sessions), Overdue(old(sessions), now), now)
      ensures commands == ExpiredIn(old(commands), Overdue(old(sessions), now))
    {
      hide Disciplined;
      var overdue := Overdue(sessions, now);
      ExpiringKeeps(sessions, commands, visits, sent, clock, ExpiredIn(commands, overdue));
      commands := ExpiredIn(commands, overdue);
      EndingKeeps(sessions, commands, visits, sent, clock, overdue, now);
      sessions := EndedAt(sessions, overdue, now);
    }

    /** The visit to the chosen session, and the one command it may take away. */
    method Serve(n: nat, allowed: bool, now: int) returns (picked: Option<nat>)
      requires Valid() && clock < now && n < |sessions| && Open(sessions[n], now)
      modifies this`sessions, this`commands, this`visits, this`clock, this`sent
      ensures Valid() && clock == now && |commands| == |old(commands)|
      ensures sessions == old(sessions)[n := old(sessions)[n].(seenAt := Some(now))]
      ensures |old(visits)| == |old(sessions)| && visits == old(visits)[n := old(visits)[n] + [now]]
      ensures if allowed then FirstDue(old(commands), Some(n), old(sessions)[n].seenAt, now, picked) else picked == None
      ensures var seen := old(sessions)[n].seenAt;
              forall i :: 0 <= i < |commands| ==>
                commands[i] == Served(old(commands)[i], i, n, seen, picked, now)
      ensures sent == if picked.Some? then old(sent) + [Sent(picked.value, now)] else old(sent)
    {
      hide Disciplined;
      SeenBefore(sessions, commands, visits, sent, clock);
      picked := None;
      Visit(n, now);
      if allowed {
        picked := Dispatch(n, now);
      }
    }

    /** The device's sync: its acknowledgement is taken, overdue sessions end, and at most one command of the newest
        open session goes out, the first that is due, unless the device forbids remote control. */
    method Sync(allowed: bool, acknowledgement: Option<Ack>, now: int)
      returns (ok: bool, ghost live: Option<nat>, picked: Option<nat>)
      requires Valid() && clock < now
      modifies this
      ensures Valid() && clock == now && ok == !old(revoked) && revoked == old(revoked)
      ensures !ok ==>
                && sessions == old(sessions) && commands == old(commands) && sent == old(sent)
                && visits == old(visits) && remoteAllowed == old(remoteAllowed) && picked == None
                && lastCommand == old(lastCommand)
      ensures ok ==> lastCommand == if && acknowledgement.Some? && acknowledgement.value.command < |old(commands)|
                                       && old(commands)[acknowledgement.value.command].state == Dispatched
                                    then acknowledgement else old(lastCommand)
      ensures ok ==> remoteAllowed == allowed && Newest(old(sessions), now, live)
      ensures ok ==>
                var seen := if live.Some? then old(sessions)[live.value].seenAt else None;
                if allowed then FirstDue(old(commands), live, seen, now, picked) else picked == None
      ensures ok && live.None? ==>
                sessions == EndedAt(old(sessions), Overdue(old(sessions), now), now) && visits == old(visits)
      ensures ok && live.Some? ==>
                var ended := EndedAt(old(sessions), Overdue(old(sessions), now), now);
                sessions == ended[live.value := ended[live.value].(seenAt := Some(now))] &&
                visits == old(visits)[live.value := old(visits)[live.value] + [now]]
      ensures ok ==>
                && |sessions| == |old(sessions)|
                && forall s :: 0 <= s < |sessions| ==>
                     sessions[s] == if live == Some(s) then old(sessions)[s].(seenAt := Some(now))
                                    else if old(sessions)[s].endedAt == None && old(sessions)[s].expiresAt <= now
                                    then old(sessions)[s].(endedAt := Some(now)) else old(sessions)[s]
      ensures ok ==> CommandsSynced(old(commands), commands, old(sessions), live, picked, acknowledgement, now)
      ensures ok ==> sent == if picked.Some? then old(sent) + [Sent(picked.value, now)] else old(sent)
    {
      hide Disciplined, CommandsSynced, FirstDue, Newest, Overdue, Taken, Served, Due, EndedAt, ExpiredIn;
      SeenBefore(sessions, commands, visits, sent, clock);
      ok, live, picked := !revoked, None, None;
      if revoked {
        TimePasses(sessions, commands, visits, sent, clock, now);
        clock := now;
        return;
      }
      remoteAllowed := allowed;
      Acknowledge(acknowledgement);
      ghost var taken := commands;
      EndOverdue(now);
      ghost var ended := commands;
      var session := FindNewest(sessions, now);
      live := session;
      NewestAfterEnding(old(sessions), now, live);
      if session.None? {
        TimePasses(sessions, commands, visits, sent, clock, now);
        clock := now;
      } else {
        picked := Serve(session.value, remoteAllowed, now);
      }
      OverdueEnds(old(sessions), now);
      StepsAreSync(old(commands), taken, ended, commands, old(sessions), live, picked, acknowledgement, now);
    }

    /** Device revocation and re-enrolment happen elsewhere. */
    method SetRevoked(now: bool)
      requires Valid()
      modifies this`revoked
      ensures Valid() && revoked == now
    {
      revoked := now;
    }
  }

  datatype Request =
    | Starts(owner: int)
    | Submits(owner: int, session: nat, sequence: int)
    | Stops(owner: int, session: nat)
    | Syncs(allowed: bool, acknowledgement: Option<Ack>)
    | Revokes(revoked: bool)

  /** What the dashboard and the device can see of the console. */
  datatype Rows = Rows(sessions: seq<Session>, commands: seq<Command>, remoteAllowed: bool, revoked: bool,
                       lastCommand: Option<Ack>, sent: seq<Sent>)

  ghost function Shown(console: DeviceConsole): Rows
    reads console
  {
    Rows(console.sessions, console.commands, console.remoteAllowed, console.revoked, console.lastCommand, console.sent)
  }

  /** What one request leaves. */
  ghost predicate Took(request: Request, now: int, a: Rows, b: Rows) {
    match request
    case Starts(owner) =>
      if a.revoked then b == a
      else
        && b == a.(sessions := b.sessions, commands := b.commands)
        && b.sessions == EndedAt(a.sessions, OpenOf(a.sessions, owner), now)
                         + [Session(owner, now, now + SESSION_TTL, None, None)]
        && b.commands == ExpiredIn(a.commands, OpenOf(a.sessions, owner))
    case Submits(owner, session, sequence) =>
      b == if Admission(a.sessions, a.commands, a.revoked, a.remoteAllowed, owner, session, sequence, now) == Accepted
           then a.(commands := a.commands + [Command(session, sequence, now, now + COMMAND_TTL, Pending)]) else a
    case Stops(owner, session) =>
      b == if session < |a.sessions| && a.sessions[session].owner == owner
           then a.(sessions := EndedAt(a.sessions, {session}, now), commands := ExpiredIn(a.commands, {session})) else a
    case Syncs(allowed, acknowledgement) =>
      if a.revoked then b == a
      else
        && b.revoked == a.revoked && b.remoteAllowed == allowed
        && b.lastCommand == (if && acknowledgement.Some? && acknowledgement.value.command < |a.commands|
                                && a.commands[acknowledgement.value.command].state == Dispatched
                             then acknowledgement else a.lastCommand)
        && exists live: Option<nat>, picked: Option<nat> ::
             && Newest(a.sessions, now, live)
             && CommandsSynced(a.commands, b.commands, a.sessions, live, picked, acknowledgement, now)
             && var ended := EndedAt(a.sessions, Overdue(a.sessions, now), now);
             && b.sessions == (if live.None? then ended
                               else ended[live.value := ended[live.value].(seenAt := Some(now))])
             && b.sent == (if picked.Some? then a.sent + [Sent(picked.value, now)] else a.sent)
             && if !allowed then picked == None
                else FirstDue(a.commands, live, if live.Some? then a.sessions[live.value].seenAt else None, now, picked)
    case Revokes(revoked) => b == a.(revoked := revoked)
  }

  /** One request. */
  method Perform(console: DeviceConsole, request: Request, now: int)
    requires console.Valid() && console.clock < now
    modifies console
    ensures console.Valid() && (console.clock == now || (request.Revokes? && console.clock == old(console.clock)))
    ensures Took(request, now, old(Shown(console)), Shown(console))
  {
    hide Disciplined, Newest, CommandsSynced, FirstDue, EndedAt, ExpiredIn, OpenOf, Admission;
    match request
    case Starts(owner) => var answer := console.Start(owner, now);
    case Submits(owner, session, sequence) => var answer := console.Submit(owner, session, sequence, now);
    case Stops(owner, session) => var found := console.Stop(owner, session, now);
    case Syncs(allowed, acknowledgement) => var ok, live, picked := console.Sync(allowed, acknowledgement, now);
    case Revokes(revoked) => console.SetRevoked(revoked);
  }

  /** Any run of requests, each later than the last: each takes its effect, and what went to the device in the run keeps
      the promise. */
  method Run(console: DeviceConsole, requests: seq<Request>, times: seq<int>) returns (ghost trace: seq<Rows>)
    requires console.Valid() && |times| == |requests|
    requires forall i :: 0 <= i < |times| ==> console.clock < times[i]
    requires forall i, j :: 0 <= i < j < |times| ==> times[i] < times[j]
    modifies console
    ensures console.Valid()
    ensures |trace| == |requests| + 1 && trace[0] == old(Shown(console)) && trace[|requests|] == Shown(console)
    ensures forall i :: 0 <= i < |requests| ==> Took(requests[i], times[i], trace[i], trace[i + 1])
    ensures PromiseKept(console.sessions, console.commands, console.visits, console.sent)
  {
    hide Disciplined, Took, PromiseKept;
    trace := [Shown(console)];
    for i := 0 to |requests|
      invariant console.Valid()
      invariant |trace| == i + 1 && trace[0] == old(Shown(console)) && trace[i] == Shown(console)
      invariant forall k :: 0 <= k < i ==> Took(requests[k], times[k], trace[k], trace[k + 1])
      invariant forall j :: i <= j < |times| ==> console.clock < times[j]
    {
      Perform(console, requests[i], times[i]);
      trace := trace + [Shown(console)];
    }
    AtMostOnceInOrder(console.sessions, console.commands, console.visits, console.sent, console.clock);
  }
}
