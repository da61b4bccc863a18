/** The Companion's microphone path: the gate that tells a deliberate interruption from speaker echo, and the queues
    between audio capture, server playback and the socket. Every method is one step taken under the uplink lock or on
    one atomic flag, so an interleaving of the threads is a sequence of calls. */
module CompanionUplink {
  datatype Pcm = Pcm(samples: seq<int>)

  const PCM_FRAME_SAMPLES: nat := 480
  const MAX_SERVER_FRAME_BYTES: nat := 1920
  const PRE_ROLL_FRAMES: nat := 15
  const MAX_PENDING_UPLINK_FRAMES: nat := 24
  const PLAYBACK_QUEUE_FRAMES: nat := 6
  const SPEECH_FRAMES_FOR_INTERRUPTION: nat := 6

  datatype Decision = Hold | Forward | InterruptAndForward
  datatype Stage = Idle | Connecting | Listening | Error
  datatype Item = BargeIn | Audio(frame: Pcm)

  // ----- when an interruption is due -----

  datatype Observation = Observation(playback: bool, speech: bool)

  /** The first k observations end in six frames in a row with both playback and local speech. */
  ghost predicate RunEnds(since: seq<Observation>, k: nat) {
    6 <= k <= |since| &&
    forall i :: k - 6 <= i < k ==> since[i].playback && since[i].speech
  }

  ghost predicate Interrupted(since: seq<Observation>) {
    exists k: nat :: RunEnds(since, k)
  }

  /** How many of the latest observations, without a break, had both playback and speech. */
  ghost function Streak(since: seq<Observation>): (n: nat)
    ensures n <= |since|
    ensures forall i :: |since| - n <= i < |since| ==> since[i].playback && since[i].speech
    ensures n < |since| ==> !(since[|since| - n - 1].playback && since[|since| - n - 1].speech)
  {
    if since == [] then 0
    else
      var last := since[|since| - 1];
      if last.playback && last.speech then 1 + Streak(since[..|since| - 1]) else 0
  }

  lemma StreakIsRun(since: seq<Observation>)
    ensures RunEnds(since, |since|) <==> 6 <= Streak(since)
  {
    var n := Streak(since);
    if n < 6 <= |since| {
      assert !(since[|since| - n - 1].playback && since[|since| - n - 1].speech);
    }
  }

  lemma RunInPrefix(since: seq<Observation>, next: Observation, k: nat)
    requires k <= |since|
    ensures RunEnds(since + [next], k) <==> RunEnds(since, k)
  {
    assert forall i :: 0 <= i < |since| ==> (since + [next])[i] == since[i];
  }

  lemma RunsOfSnoc(since: seq<Observation>, next: Observation)
    ensures Interrupted(since + [next]) <==> Interrupted(since) || RunEnds(since + [next], |since| + 1)
    ensures Streak(since + [next]) == if next.playback && next.speech then Streak(since) + 1 else 0
    ensures RunEnds(since + [next], |since| + 1) ==> next.playback && next.speech
  {
    hide RunEnds;
    var grown := since + [next];
    assert grown[..|since|] == since;
    StreakIsRun(grown);
    forall k: nat | k <= |since| ensures RunEnds(grown, k) <==> RunEnds(since, k) {
      RunInPrefix(since, next, k);
    }
    RunsFit(since);
    RunsFit(grown);
  }

  lemma RunsFit(since: seq<Observation>)
    ensures forall k: nat :: RunEnds(since, k) ==> k <= |since|
  {
  }

  /** One playback is interrupted at most once. */
  lemma InterruptsOnce(since: seq<Observation>, j: nat, k: nat)
    requires 0 < j <= |since| && RunEnds(since[..j], j) && !Interrupted(since[..j - 1])
    requires 0 < k <= |since| && RunEnds(since[..k], k) && !Interrupted(since[..k - 1])
    ensures j == k
  {
    if j < k {
      RunsStay(since, j, k - 1);
    } else if k < j {
      RunsStay(since, k, j - 1);
    }
  }

  lemma RunsStay(since: seq<Observation>, j: nat, k: nat)
    requires j <= k <= |since| && RunEnds(since[..j], j)
    ensures Interrupted(since[..k])
  {
    assert RunEnds(since[..k], j);
  }

  class CompanionAudioGate {
    var speechFrames: nat
    var interruptionLatched: bool
    /** Everything observed since the last playback start or reset. */
    ghost var since: seq<Observation>

    ghost predicate Valid()
      reads this
    {
      && (interruptionLatched <==> Interrupted(since))
      && speechFrames == (if interruptionLatched then 0 else Streak(since))
    }

    constructor ()
      ensures Valid() && since == []
    {
      speechFrames, interruptionLatched, since := 0, false, [];
    }

    /** The interruption falls on the frame that completes the first run of six since the last playback start; frames
        are held exactly while there is playback and no such run yet. */
    method Observe(playbackActive: bool, localSpeech: bool) returns (decision: Decision)
      requires Valid()
      modifies this
      ensures Valid() && since == old(since) + [Observation(playbackActive, localSpeech)]
      ensures decision == InterruptAndForward <==> RunEnds(since, |since|) && !Interrupted(old(since))
      ensures decision == Hold <==> playbackActive && !Interrupted(since)
    {
      ghost var before := since;
      ghost var seen := Observation(playbackActive, localSpeech);
      since := since + [seen];
      RunsOfSnoc(before, seen);
      StreakIsRun(before);
      StreakIsRun(since);
      if !playbackActive || interruptionLatched {
        speechFrames := 0;
        return Forward;
      }
      if !localSpeech {
        speechFrames := 0;
        return Hold;
      }
      speechFrames := speechFrames + 1;
      if speechFrames < SPEECH_FRAMES_FOR_INTERRUPTION {
        return Hold;
      }
      speechFrames := 0;
      interruptionLatched := true;
      return InterruptAndForward;
    }

    method PlaybackStarted()
      modifies this
      ensures Valid() && since == []
    {
      speechFrames, interruptionLatched, since := 0, false, [];
    }

    method Reset()
      modifies this
      ensures Valid() && since == []
    {
      speechFrames, interruptionLatched, since := 0, false, [];
    }
  }

  // ----- what is queued -----

  function Latest<T>(items: seq<T>, bound: nat): (r: seq<T>)
    ensures |r| == if |items| <= bound then |items| else bound
    ensures r == items[|items| - |r|..]
  {
    if |items| <= bound then items else items[|items| - bound..]
  }

  lemma LatestSnoc<T>(items: seq<T>, bound: nat, next: T)
    requires 1 <= bound
    ensures Latest(Latest(items, bound) + [next], bound) == Latest(items + [next], bound)
    ensures |Latest(items + [next], bound)| > 0
    ensures Latest(items + [next], bound)[|Latest(items + [next], bound)| - 1] == next
  {
  }

  function Recorded(frames: seq<Pcm>): (items: seq<Item>)
    ensures |items| == |frames|
    ensures forall i :: 0 <= i < |frames| ==> items[i] == Audio(frames[i])
  {
    seq(|frames|, i requires 0 <= i < |frames| => Audio(frames[i]))
  }

  /** The capture numbers of the audio in a queue: one for each audio item, in its order, strictly increasing. */
  ghost predicate InCaptureOrder(items: seq<Item>, numbers: seq<nat>, captured: seq<Pcm>) {
    |numbers| == |items| &&
    (forall i :: 0 <= i < |items| && items[i].Audio? ==>
       numbers[i] < |captured| && items[i].frame == captured[numbers[i]]) &&
    (forall i, j :: 0 <= i < j < |items| && items[i].Audio? && items[j].Audio? ==> numbers[i] < numbers[j])
  }

  lemma OneMoreCaptured(items: seq<Item>, numbers: seq<nat>, captured: seq<Pcm>, frame: Pcm)
    requires InCaptureOrder(items, numbers, captured)
    ensures InCaptureOrder(items, numbers, captured + [frame])
    ensures InCaptureOrder(items + [Audio(frame)], numbers + [|captured|], captured + [frame])
  {
  }

  lemma CutKeepsOrder(items: seq<Item>, numbers: seq<nat>, captured: seq<Pcm>, from: nat, to: nat)
    requires InCaptureOrder(items, numbers, captured) && from <= to <= |items|
    ensures InCaptureOrder(items[..from] + items[to..], numbers[..from] + numbers[to..], captured)
  {
    var kept, keptNumbers := items[..from] + items[to..], numbers[..from] + numbers[to..];
    forall i | 0 <= i < |kept|
      ensures var at := if i < from then i else i + to - from; kept[i] == items[at] && keptNumbers[i] == numbers[at]
    {
    }
  }

  lemma MarkerKeepsOrder(items: seq<Item>, numbers: seq<nat>, captured: seq<Pcm>, at: nat)
    requires InCaptureOrder(items, numbers, captured) && at <= |items|
    ensures InCaptureOrder(items[..at] + [BargeIn] + items[at..], numbers[..at] + [0] + numbers[at..], captured)
  {
    var grown, grownNumbers := items[..at] + [BargeIn] + items[at..], numbers[..at] + [0] + numbers[at..];
    forall i | 0 <= i < |grown| && i != at
      ensures var from := if i < at then i else i - 1; grown[i] == items[from] && grownNumbers[i] == numbers[from]
    {
    }
  }

  /** What has been queued and, behind it, the frames still held are together in capture order. */
  ghost predicate Ordered(queued: seq<Item>, numbers: seq<nat>, held: seq<Pcm>, heldNumbers: seq<nat>,
                          captured: seq<Pcm>) {
    |numbers| == |queued| && InCaptureOrder(queued + Recorded(held), numbers + heldNumbers, captured)
  }

  lemma HoldingKeepsOrder(queued: seq<Item>, numbers: seq<nat>, held: seq<Pcm>, heldNumbers: seq<nat>,
                          captured: seq<Pcm>, frame: Pcm)
    requires Ordered(queued, numbers, held, heldNumbers, captured)
    ensures Ordered(queued, numbers, held, heldNumbers, captured + [frame])
    ensures Ordered(queued, numbers, held + [frame], heldNumbers + [|captured|], captured + [frame])
  {
    OneMoreCaptured(queued + Recorded(held), numbers + heldNumbers, captured, frame);
    assert Recorded(held + [frame]) == Recorded(held) + [Audio(frame)];
    assert queued + (Recorded(held) + [Audio(frame)]) == (queued + Recorded(held)) + [Audio(frame)];
    assert numbers + (heldNumbers + [|captured|]) == (numbers + heldNumbers) + [|captured|];
  }

  lemma HeldAreNumbered(queued: seq<Item>, numbers: seq<nat>, held: seq<Pcm>, heldNumbers: seq<nat>, captured: seq<Pcm>)
    requires Ordered(queued, numbers, held, heldNumbers, captured)
    ensures |heldNumbers| == |held|
  {
  }

  lemma DroppingKeepsOrder(queued: seq<Item>, numbers: seq<nat>, held: seq<Pcm>, heldNumbers: seq<nat>,
                           captured: seq<Pcm>, from: nat)
    requires Ordered(queued, numbers, held, heldNumbers, captured) && from <= |held|
    ensures |heldNumbers| == |held| && Ordered(queued, numbers, held[from..], heldNumbers[from..], captured)
  {
    hide InCaptureOrder;
    HeldAreNumbered(queued, numbers, held, heldNumbers, captured);
    var all, allNumbers := queued + Recorded(held), numbers + heldNumbers;
    CutKeepsOrder(all, allNumbers, captured, |queued|, |queued| + from);
    assert all[..|queued|] + all[|queued| + from..] == queued + Recorded(held[from..]);
    assert allNumbers[..|queued|] + allNumbers[|queued| + from..] == numbers + heldNumbers[from..];
  }

  lemma ForwardingKeepsOrder(queued: seq<Item>, numbers: seq<nat>, held: seq<Pcm>, heldNumbers: seq<nat>,
                             captured: seq<Pcm>, frame: Pcm)
    requires Ordered(queued, numbers, held, heldNumbers, captured)
    ensures Ordered(queued + [Audio(frame)], numbers + [|captured|], [], [], captured + [frame])
  {
    DroppingKeepsOrder(queued, numbers, held, heldNumbers, captured, |held|);
    assert queued + Recorded([]) == queued && numbers + [] == numbers;
    OneMoreCaptured(queued, numbers, captured, frame);
    assert (queued + [Audio(frame)]) + Recorded([]) == queued + [Audio(frame)];
    assert (numbers + [|captured|]) + [] == numbers + [|captured|];
  }

  lemma InterruptingKeepsOrder(queued: seq<Item>, numbers: seq<nat>, held: seq<Pcm>, heldNumbers: seq<nat>,
                               captured: seq<Pcm>)
    requires Ordered(queued, numbers, held, heldNumbers, captured)
    ensures Ordered(queued + ([BargeIn] + Recorded(held)), numbers + ([0] + heldNumbers), [], [], captured)
  {
    hide InCaptureOrder;
    var all, allNumbers := queued + Recorded(held), numbers + heldNumbers;
    MarkerKeepsOrder(all, allNumbers, captured, |queued|);
    assert all[..|queued|] + [BargeIn] + all[|queued|..] == queued + ([BargeIn] + Recorded(held)) + Recorded([]);
    assert allNumbers[..|queued|] + [0] + allNumbers[|queued|..] == numbers + ([0] + heldNumbers) + [];
  }

  /** Every frame offered in this session, what was queued and under which capture numbers, what went out, and the
      frames held since the pre-roll was last emptied. */
  datatype Trace = Trace(captured: seq<Pcm>, queued: seq<Item>, numbers: seq<nat>, sent: seq<Item>, sendFailed: bool,
                         held: seq<Pcm>, heldNumbers: seq<nat>)

  const NOTHING := Trace([], [], [], [], false, [], [])

  ghost predicate Sound(t: Trace, preRoll: seq<Pcm>, waiting: seq<Item>) {
    && Ordered(t.queued, t.numbers, t.held, t.heldNumbers, t.captured)
    && preRoll == Latest(t.held, PRE_ROLL_FRAMES)
    && (if t.sendFailed then t.sent <= t.queued else t.queued == t.sent + waiting)
  }

  function Captured(t: Trace, frame: Pcm): Trace { t.(captured := t.captured + [frame]) }

  function Holding(t: Trace, frame: Pcm): Trace {
    Captured(t, frame).(held := t.held + [frame], heldNumbers := t.heldNumbers + [|t.captured|])
  }

  function Dropped(t: Trace): Trace { t.(held := [], heldNumbers := []) }

  function Forwarded(t: Trace, frame: Pcm): Trace {
    Dropped(Captured(t, frame)).(queued := t.queued + [Audio(frame)], numbers := t.numbers + [|t.captured|])
  }

  /** What an interruption queues: a marker and the frames of the pre-roll. */
  function Burst(preRoll: seq<Pcm>): seq<Item> { [BargeIn] + Recorded(preRoll) }

  ghost function Bursting(t: Trace, preRoll: seq<Pcm>): Trace {
    var first := if |preRoll| <= |t.heldNumbers| then |t.heldNumbers| - |preRoll| else 0;
    Dropped(t).(queued := t.queued + Burst(preRoll), numbers := t.numbers + ([0] + t.heldNumbers[first..]))
  }

  lemma NothingIsSound()
    ensures Sound(NOTHING, [], [])
  {
  }

  lemma CaptureIsSound(t: Trace, preRoll: seq<Pcm>, waiting: seq<Item>, frame: Pcm)
    requires Sound(t, preRoll, waiting)
    ensures Sound(Captured(t, frame), preRoll, waiting)
    ensures Sound(Holding(t, frame), Latest(preRoll + [frame], PRE_ROLL_FRAMES), waiting)
    ensures Latest(preRoll + [frame], PRE_ROLL_FRAMES) == Latest(t.held + [frame], PRE_ROLL_FRAMES)
  {
    HoldingKeepsOrder(t.queued, t.numbers, t.held, t.heldNumbers, t.captured, frame);
    LatestSnoc(t.held, PRE_ROLL_FRAMES, frame);
  }

  lemma DropIsSound(t: Trace, preRoll: seq<Pcm>, waiting: seq<Item>)
    requires Sound(t, preRoll, waiting)
    ensures Sound(Dropped(t), [], waiting)
  {
    DroppingKeepsOrder(t.queued, t.numbers, t.held, t.heldNumbers, t.captured, |t.held|);
  }

  lemma ForwardIsSound(t: Trace, preRoll: seq<Pcm>, waiting: seq<Item>, frame: Pcm)
    requires Sound(t, preRoll, waiting)
    ensures Sound(Forwarded(t, frame), [], waiting + [Audio(frame)])
  {
    hide InCaptureOrder, Ordered;
    ForwardingKeepsOrder(t.queued, t.numbers, t.held, t.heldNumbers, t.captured, frame);
    GrownBacklog(t, waiting, [Audio(frame)]);
  }

  lemma GrownBacklog(t: Trace, waiting: seq<Item>, more: seq<Item>)
    requires if t.sendFailed then t.sent <= t.queued else t.queued == t.sent + waiting
    ensures if t.sendFailed then t.sent <= t.queued + more else t.queued + more == t.sent + (waiting + more)
  {
  }

  lemma BurstIsSound(t: Trace, preRoll: seq<Pcm>, waiting: seq<Item>)
    requires Sound(t, preRoll, waiting)
    ensures Sound(Bursting(t, preRoll), [], waiting + Burst(preRoll))
  {
    hide InCaptureOrder, Ordered;
    var from := |t.held| - |preRoll|;
    DroppingKeepsOrder(t.queued, t.numbers, t.held, t.heldNumbers, t.captured, from);
    InterruptingKeepsOrder(t.queued, t.numbers, preRoll, t.heldNumbers[from..], t.captured);
    GrownBacklog(t, waiting, Burst(preRoll));
  }

  lemma BurstEndsInFrame(held: seq<Pcm>, frame: Pcm)
    ensures var kept := Latest(held + [frame], PRE_ROLL_FRAMES);
            |Burst(kept)| == |kept| + 1 && Burst(kept)[|kept|] == Audio(frame)
  {
  }

  lemma ForwardedShape(t: Trace, frame: Pcm)
    ensures Forwarded(t, frame).sent == t.sent && Forwarded(t, frame).sendFailed == t.sendFailed
    ensures Forwarded(t, frame).captured == t.captured + [frame]
    ensures Forwarded(t, frame).held == [] == Dropped(Captured(t, frame)).held
  {
  }

  /** What reached the socket: no captured frame twice, none out of order. */
  lemma SentInCaptureOrder(t: Trace, preRoll: seq<Pcm>, waiting: seq<Item>)
    requires Sound(t, preRoll, waiting)
    ensures |t.sent| <= |t.numbers| && InCaptureOrder(t.sent, t.numbers[..|t.sent|], t.captured)
  {
    hide InCaptureOrder;
    var all, allNumbers := t.queued + Recorded(t.held), t.numbers + t.heldNumbers;
    CutIsInOrder(all, allNumbers, t.captured, |t.sent|);
    assert all[..|t.sent|] == t.sent;
    assert allNumbers[..|t.sent|] == t.numbers[..|t.sent|];
  }

  lemma CutIsInOrder(items: seq<Item>, numbers: seq<nat>, captured: seq<Pcm>, to: nat)
    requires InCaptureOrder(items, numbers, captured) && to <= |items|
    ensures InCaptureOrder(items[..to], numbers[..to], captured)
  {
    CutKeepsOrder(items, numbers, captured, to, |items|);
    assert items[..to] + items[|items|..] == items[..to] && numbers[..to] + numbers[|items|..] == numbers[..to];
  }

  class Uplink {
    const gate: CompanionAudioGate
    var stage: Stage
    var muted: bool
    var stopRequested: bool
    var playbackActive: bool
    var playback: seq<Pcm>
    var preRoll: seq<Pcm>
    var pending: seq<Item>
    var sending: seq<Item>  // what the audio task swapped out and has not sent yet
    ghost var trace: Trace

    ghost predicate Valid()
      reads this, gate
    {
      && gate.Valid() && |playback| <= PLAYBACK_QUEUE_FRAMES
      && |pending| <= MAX_PENDING_UPLINK_FRAMES && |sending| <= MAX_PENDING_UPLINK_FRAMES
      && Sound(trace, preRoll, sending + pending)
    }

    constructor ()
      ensures Valid() && fresh(gate)
    {
      hide Ordered, InCaptureOrder, Interrupted;
      NothingIsSound();
      gate := new CompanionAudioGate();
      stage, muted, stopRequested, playbackActive := Idle, true, false, false;
      playback, preRoll, pending, sending := [], [], [], [];
      trace := NOTHING;
    }

    /** The part of a session start that concerns these queues. */
    method Start(startMuted: bool)
      requires Valid()
      modifies this, gate
      ensures Valid() && gate.since == []
      ensures playback == [] && preRoll == [] && pending == [] && sending == [] && trace == NOTHING
      ensures stage == Connecting && muted == startMuted && !stopRequested && !playbackActive
    {
      hide Sound, Interrupted;
      NothingIsSound();
      playback, stopRequested, muted, playbackActive := [], false, startMuted, false;
      gate.Reset();
      preRoll, pending, sending, trace := [], [], [], NOTHING;
      stage := Connecting;
    }

    method Fail()
      requires Valid()
      modifies this`stage, this`stopRequested
      ensures Valid() && stage == Error && stopRequested
    {
      stage, stopRequested := Error, true;
    }

    ghost predicate Accepts(frame: Pcm)
      reads this
    {
      |frame.samples| == PCM_FRAME_SAMPLES && !muted && !stopRequested && stage == Listening
    }

    /** One captured frame. It is ignored, held, or queued behind everything queued before; on an interruption one
        marker and then the latest held frames, at most fifteen and ending in this one, are queued, and playback is
        cut. A queue that would pass its bound ends the session instead. */
    method ProcessedFrame(frame: Pcm, localSpeech: bool)
      requires Valid()
      modifies this, gate
      ensures Valid() && muted == old(muted) && sending == old(sending)
      ensures trace.sent == old(trace).sent && trace.sendFailed == old(trace).sendFailed
      ensures trace.captured == old(trace).captured + [frame]
      ensures !old(Accepts(frame)) ==>
                trace == Captured(old(trace), frame) && pending == old(pending) && stage == old(stage) &&
                stopRequested == old(stopRequested) && gate.since == old(gate.since) &&
                playbackActive == old(playbackActive) && playback == old(playback)
      ensures old(Accepts(frame)) ==> gate.since == old(gate.since) + [Observation(old(playbackActive), localSpeech)]
      ensures old(Accepts(frame)) && old(playbackActive) && !Interrupted(gate.since) ==>
                trace == Holding(old(trace), frame) && pending == old(pending) && !stopRequested &&
                stage == Listening && playbackActive && playback == old(playback)
      ensures old(Accepts(frame)) && RunEnds(gate.since, |gate.since|) && !Interrupted(old(gate.since)) ==>
                var burst := Burst(Latest(old(trace).held + [frame], PRE_ROLL_FRAMES));
                burst[|burst| - 1] == Audio(frame) &&
                if |old(pending)| + |burst| <= MAX_PENDING_UPLINK_FRAMES then
                  trace.queued == old(trace).queued + burst && pending == old(pending) + burst && trace.held == [] &&
                  playback == [] && !playbackActive && !stopRequested && stage == Listening
                else
                  trace.queued == old(trace).queued && pending == old(pending) && stopRequested && stage == Error
      ensures old(Accepts(frame)) && (!old(playbackActive) || Interrupted(old(gate.since))) ==>
                trace.held == [] && playbackActive == old(playbackActive) && playback == old(playback) &&
                if |old(pending)| < MAX_PENDING_UPLINK_FRAMES then
                  trace == Forwarded(old(trace), frame) && pending == old(pending) + [Audio(frame)] &&
                  !stopRequested && stage == Listening
                else
                  trace == Dropped(Captured(old(trace), frame)) && pending == old(pending) && stopRequested &&
                  stage == Error
    {
      hide Sound, Interrupted, RunEnds, Latest, Burst, CompanionAudioGate.Valid, Holding, Forwarded, Dropped;
      hide Streak, InCaptureOrder, Ordered;
      ghost var was, seen := trace, gate.since;
      BurstEndsInFrame(was.held, frame);
      CaptureIsSound(trace, preRoll, sending + pending, frame);
      trace := Captured(was, frame);
      if |frame.samples| != PCM_FRAME_SAMPLES || muted || stopRequested || stage != Listening {
        return;
      }
      var decision := gate.Observe(playbackActive, localSpeech);
      RunsOfSnoc(seen, Observation(playbackActive, localSpeech));
      ForwardedShape(was, frame);
      Place(frame, decision, was);
    }

    /** What becomes of an accepted frame once the gate has decided. */
    method Place(frame: Pcm, decision: Decision, ghost was: Trace)
      requires Valid() && trace == Captured(was, frame) && Sound(was, preRoll, sending + pending)
      requires decision != Forward ==> playbackActive
      modifies this`pending, this`preRoll, this`trace, this`playback, this`playbackActive, this`stage,
               this`stopRequested
      ensures Valid() && trace.sent == was.sent && trace.sendFailed == was.sendFailed
      ensures trace.captured == was.captured + [frame]
      ensures decision == Decision.Hold ==>
                && trace == Holding(was, frame) && pending == old(pending) && playback == old(playback)
                && playbackActive
                && stage == old(stage) && stopRequested == old(stopRequested)
      ensures decision == InterruptAndForward ==>
                var burst := Burst(Latest(was.held + [frame], PRE_ROLL_FRAMES));
                if |old(pending)| + |burst| <= MAX_PENDING_UPLINK_FRAMES then
                  && trace.queued == was.queued + burst && pending == old(pending) + burst && trace.held == []
                  && playback == [] && !playbackActive && stage == old(stage) && stopRequested == old(stopRequested)
                else
                  trace.queued == was.queued && pending == old(pending) && stopRequested && stage == Error
      ensures decision == Forward ==> playback == old(playback) && playbackActive == old(playbackActive)
      ensures decision == Forward ==>
                if |old(pending)| < MAX_PENDING_UPLINK_FRAMES then
                  && trace == Forwarded(was, frame) && pending == old(pending) + [Audio(frame)]
                  && stage == old(stage) && stopRequested == old(stopRequested)
                else
                  trace == Dropped(Captured(was, frame)) && pending == old(pending) && stopRequested && stage == Error
    {
      hide Sound, Interrupted, RunEnds, Latest, Burst, Forwarded, CompanionAudioGate.Valid;
      BurstEndsInFrame(was.held, frame);
      if playbackActive && decision != Forward {
        Hold(frame, was);
      }
      if decision == Decision.Hold {
        return;
      }
      if decision == InterruptAndForward {
        if MAX_PENDING_UPLINK_FRAMES < |pending| + |preRoll| + 1 {
          Fail();
          return;
        }
        Interrupt();
      } else {
        ForwardedShape(was, frame);
        Pass(frame, was);
      }
    }

    /** The frame goes straight to the backlog; what was held is dropped. */
    method Pass(frame: Pcm, ghost was: Trace)
      requires Valid() && trace == Captured(was, frame) && Sound(was, preRoll, sending + pending)
      modifies this`pending, this`preRoll, this`trace, this`stage, this`stopRequested
      ensures Valid() && preRoll == []
      ensures if |old(pending)| < MAX_PENDING_UPLINK_FRAMES then
                trace == Forwarded(was, frame) && pending == old(pending) + [Audio(frame)] &&
                stage == old(stage) && stopRequested == old(stopRequested)
              else
                trace == Dropped(Captured(was, frame)) && pending == old(pending) && stopRequested && stage == Error
    {
      hide Sound, Interrupted;
      DropIsSound(trace, preRoll, sending + pending);
      preRoll, trace := [], Dropped(trace);
      if MAX_PENDING_UPLINK_FRAMES <= |pending| {
        Fail();
        return;
      }
      ForwardIsSound(was, old(preRoll), sending + pending, frame);
      assert (sending + pending) + [Audio(frame)] == sending + (pending + [Audio(frame)]);
      pending, trace := pending + [Audio(frame)], Forwarded(was, frame);
    }

    /** The frame joins the pre-roll, which keeps the newest fifteen. */
    method Hold(frame: Pcm, ghost was: Trace)
      requires Valid() && trace == Captured(was, frame) && Sound(was, preRoll, sending + pending)
      modifies this`preRoll, this`trace
      ensures Valid() && trace == Holding(was, frame) && preRoll == Latest(was.held + [frame], PRE_ROLL_FRAMES)
    {
      hide Sound, Interrupted, CompanionAudioGate.Valid, Captured;
      CaptureIsSound(was, preRoll, sending + pending, frame);
      trace := Holding(was, frame);
      preRoll := preRoll + [frame];
      while PRE_ROLL_FRAMES < |preRoll|
        invariant Latest(preRoll, PRE_ROLL_FRAMES) == Latest(old(preRoll) + [frame], PRE_ROLL_FRAMES)
        modifies this`preRoll
      {
        preRoll := preRoll[1..];
      }
    }

    /** The marker and then every held frame move to the backlog; what the speaker had queued is cut. */
    method Interrupt()
      requires Valid() && |pending| + |preRoll| + 1 <= MAX_PENDING_UPLINK_FRAMES
      modifies this`pending, this`preRoll, this`trace, this`playback, this`playbackActive
      ensures Valid() && preRoll == [] && playback == [] && !playbackActive
      ensures pending == old(pending) + Burst(old(preRoll)) && trace == Bursting(old(trace), old(preRoll))
    {
      hide Sound, Interrupted, CompanionAudioGate.Valid, Latest, Recorded;
      BurstIsSound(trace, preRoll, sending + pending);
      assert (sending + pending) + Burst(preRoll) == sending + (pending + Burst(preRoll));
      ghost var backlog, burst := pending, Burst(preRoll);
      pending := pending + [BargeIn];
      while preRoll != []
        invariant |preRoll| <= |old(preRoll)| && preRoll == old(preRoll)[|old(preRoll)| - |preRoll|..]
        invariant pending == backlog + burst[..1 + |old(preRoll)| - |preRoll|]
        decreases |preRoll|
        modifies this`pending, this`preRoll
      {
        pending := pending + [Audio(preRoll[0])];
        preRoll := preRoll[1..];
      }
      assert burst[..1 + |old(preRoll)|] == burst;
      trace := Bursting(trace, old(preRoll));
      playback := [];
      playbackActive := false;
    }

    /** The locked half of a drain: the audio task takes the whole backlog. */
    method SwapPending()
      requires Valid() && sending == [] && !trace.sendFailed
      modifies this`pending, this`sending
      ensures Valid() && pending == [] && sending == old(pending)
    {
      hide Sound, Interrupted;
      assert [] + pending == pending && pending + [] == pending;
      sending, pending := pending, [];
    }

    /** The unlocked half, one send at a time, while frames go on being processed. The first failure ends the session
        and drops the rest of what was swapped out. */
    method SendNext(linkHolds: bool)
      requires Valid() && sending != [] && !trace.sendFailed
      modifies this`sending, this`trace, this`stage, this`stopRequested
      ensures Valid()
      ensures if linkHolds then
                && trace == old(trace).(sent := old(trace).sent + [old(sending)[0]]) && sending == old(sending)[1..]
                && stage == old(stage) && stopRequested == old(stopRequested)
              else
                trace == old(trace).(sendFailed := true) && sending == [] && stage == Error && stopRequested
    {
      hide Ordered, InCaptureOrder, Interrupted;
      if linkHolds {
        assert trace.sent + (sending + pending) == (trace.sent + [sending[0]]) + (sending[1..] + pending);
        trace := trace.(sent := trace.sent + [sending[0]]);
        sending := sending[1..];
      } else {
        trace := trace.(sendFailed := true);
        sending := [];
        Fail();
      }
    }

    /** A drain that nothing comes between: the whole backlog in order, or a prefix of it and the end of the session.
        The audio task leaves its loop once a send has failed. */
    method DrainPending(linkHolds: nat)
      requires Valid() && sending == [] && !trace.sendFailed
      modifies this`pending, this`sending, this`trace, this`stage, this`stopRequested
      ensures Valid() && pending == [] && sending == []
      ensures if |old(pending)| <= linkHolds then
                && trace == old(trace).(sent := old(trace).sent + old(pending))
                && stage == old(stage) && stopRequested == old(stopRequested)
              else
                && trace == old(trace).(sent := old(trace).sent + old(pending)[..linkHolds], sendFailed := true)
                && stage == Error && stopRequested
    {
      hide Sound, Interrupted;
      ghost var frames, was := pending, trace;
      SwapPending();
      var count := 0;
      assert was.sent + frames[..0] == was.sent;
      while sending != []
        invariant Valid() && pending == [] && count <= |frames| && sending == frames[count..] && count <= linkHolds
        invariant trace == was.(sent := was.sent + frames[..count]) && !trace.sendFailed
        invariant stage == old(stage) && stopRequested == old(stopRequested)
        decreases |sending|
        modifies this`sending, this`trace, this`stage, this`stopRequested
      {
        if count == linkHolds {
          SendNext(false);
          return;
        }
        assert frames[..count + 1] == frames[..count] + [frames[count]];
        SendNext(true);
        count := count + 1;
      }
      assert frames[..count] == frames;
    }

    /** A binary message from the server: the newest six frames are kept. The flag is raised before the uplink lock is
        taken, so frames may still be processed between this step and BeginPlayback. */
    method ReceiveAudio(bytes: nat, samples: Pcm) returns (begins: bool)
      requires Valid()
      modifies this`playback, this`playbackActive, this`stage, this`stopRequested
      ensures Valid()
      ensures var refused := bytes == 0 || MAX_SERVER_FRAME_BYTES < bytes || bytes % 2 != 0;
              if old(stopRequested) then
                !begins && playback == old(playback) && playbackActive == old(playbackActive) && stage == old(stage) &&
                stopRequested
              else if refused then
                !begins && playback == old(playback) && playbackActive == old(playbackActive) && stage == Error &&
                stopRequested
              else
                playback == Latest(old(playback) + [samples], PLAYBACK_QUEUE_FRAMES) && playbackActive &&
                begins == !old(playbackActive) && stage == old(stage) && !stopRequested
    {
      begins := false;
      if stopRequested {
        return;
      }
      if bytes == 0 || MAX_SERVER_FRAME_BYTES < bytes || bytes % 2 != 0 {
        Fail();
        return;
      }
      if |playback| == PLAYBACK_QUEUE_FRAMES {
        playback := playback[1..];
      }
      playback := playback + [samples];
      begins := !playbackActive;
      playbackActive := true;
    }

    method BeginPlayback()
      requires Valid()
      modifies gate, this`preRoll, this`trace
      ensures Valid() && gate.since == [] && preRoll == [] && trace == Dropped(old(trace))
    {
      hide Sound, Interrupted;
      DropIsSound(trace, preRoll, sending + pending);
      gate.PlaybackStarted();
      preRoll, trace := [], Dropped(trace);
    }

    method Ready()
      requires Valid()
      modifies this`stage
      ensures Valid() && stage == if stopRequested then old(stage) else Listening
    {
      if !stopRequested {
        stage := Listening;
      }
    }

    method Clear()
      requires Valid()
      modifies this`playback, this`playbackActive
      ensures Valid()
      ensures !stopRequested ==> playback == [] && !playbackActive
      ensures stopRequested ==> playback == old(playback) && playbackActive == old(playbackActive)
    {
      if !stopRequested {
        playback, playbackActive := [], false;
      }
    }

    method ResetAfterClear()
      requires Valid()
      modifies gate, this`preRoll, this`trace
      ensures Valid() && gate.since == [] && preRoll == [] && trace == Dropped(old(trace))
    {
      hide Sound, Interrupted;
      DropIsSound(trace, preRoll, sending + pending);
      gate.Reset();
      preRoll, trace := [], Dropped(trace);
    }

    /** The audio task hands one frame to the codec, and lowers the flag once nothing is left and the tail has run
        out. */
    method PlayOut(tailOver: bool)
      requires Valid()
      modifies this`playback, this`playbackActive
      ensures Valid() && playback == old(if playback == [] then [] else playback[1..])
      ensures playbackActive == (old(playbackActive) && !(playback == [] && tailOver))
    {
      if playback != [] {
        playback := playback[1..];
      }
      if playbackActive && playback == [] && tailOver {
        playbackActive := false;
      }
    }

    method ToggleMute(taskActive: bool)
      requires Valid()
      modifies this`muted
      ensures Valid()
      ensures muted == if taskActive || stage == Connecting || stage == Listening then !old(muted) else true
    {
      if taskActive || stage == Connecting || stage == Listening {
        muted := !muted;
      } else {
        muted := true;
      }
    }

    method Stop()
      requires Valid()
      modifies this`stopRequested, this`muted, this`playbackActive
      ensures Valid() && stopRequested && muted && !playbackActive
    {
      stopRequested, muted, playbackActive := true, true, false;
    }
  }

  /** One step of one of the threads. */
  datatype Event =
    | FrameCaptured(frame: Pcm, speech: bool)
    | DrainBegun
    | NextSent(linkHolds: bool)
    | AudioReceived(bytes: nat, samples: Pcm)
    | PlaybackBegun
    | ReadyReceived
    | ClearReceived
    | ClearFinished
    | PlayedOut(tailOver: bool)
    | MuteToggled(taskActive: bool)
    | Stopped
    | Failed

  /** The frames captured in a schedule, in order. */
  function Frames(events: seq<Event>): seq<Pcm> {
    if events == [] then []
    else
      var last := events[|events| - 1];
      Frames(events[..|events| - 1]) + if last.FrameCaptured? then [last.frame] else []
  }

  /** What a session shows: its stage and flags, its queues, what the gate has seen of this playback, and what has
      become of the captured frames. */
  datatype View = View(stage: Stage, muted: bool, stopRequested: bool, playbackActive: bool, playback: seq<Pcm>,
                       pending: seq<Item>, sending: seq<Item>, seen: seq<Observation>, trace: Trace)

  ghost function Shown(uplink: Uplink): View
    reads uplink, uplink.gate
  {
    View(uplink.stage, uplink.muted, uplink.stopRequested, uplink.playbackActive, uplink.playback, uplink.pending,
         uplink.sending, uplink.gate.since, uplink.trace)
  }

  /** What one captured frame leaves: it is recorded and otherwise ignored, or held, or queued alone, or queued with
      what was held, or it is one too many. */
  ghost predicate FrameTaken(frame: Pcm, speech: bool, a: View, b: View) {
    var accepted := |frame.samples| == 480 && !a.muted && !a.stopRequested && a.stage == Listening;
    var seen := a.seen + [Observation(a.playbackActive, speech)];
    var burst := Burst(Latest(a.trace.held + [frame], 15));
    if !accepted then b == a.(trace := Captured(a.trace, frame))
    else
      && b.seen == seen && b.muted == a.muted && b.sending == a.sending
      && b.trace.captured == a.trace.captured + [frame]
      && b.trace.sent == a.trace.sent && b.trace.sendFailed == a.trace.sendFailed
      && if !a.playbackActive || Interrupted(a.seen) then
           && b.playback == a.playback && b.playbackActive == a.playbackActive && b.trace.held == []
           && if |a.pending| < 24
              then b.pending == a.pending + [Audio(frame)] && b.stage == Listening && !b.stopRequested
              else b.pending == a.pending && b.stage == Error && b.stopRequested
         else if RunEnds(seen, |seen|) then
           if |a.pending| + |burst| <= 24
           then && b.pending == a.pending + burst && b.trace.held == []
                && b.playback == [] && !b.playbackActive && b.stage == Listening && !b.stopRequested
           else b.pending == a.pending && b.stage == Error && b.stopRequested
         else b == a.(seen := seen, trace := Holding(a.trace, frame))
  }

  /** What one step leaves. */
  ghost predicate Took(event: Event, a: View, b: View) {
    match event
    case FrameCaptured(frame, speech) => FrameTaken(frame, speech, a, b)
    case DrainBegun =>
      b == if a.trace.sendFailed || a.sending != [] then a else a.(sending := a.pending, pending := [])
    case NextSent(linkHolds) =>
      b == if a.trace.sendFailed || a.sending == [] then a
           else if linkHolds
           then a.(sending := a.sending[1..], trace := a.trace.(sent := a.trace.sent + [a.sending[0]]))
           else a.(sending := [], trace := a.trace.(sendFailed := true), stage := Error, stopRequested := true)
    case AudioReceived(bytes, samples) =>
      b == if a.stopRequested then a
           else if bytes == 0 || 1920 < bytes || bytes % 2 != 0
           then a.(stage := Error, stopRequested := true)
           else a.(playback := Latest(a.playback + [samples], 6), playbackActive := true)
    case PlaybackBegun => b == a.(seen := [], trace := Dropped(a.trace))
    case ReadyReceived => b == if a.stopRequested then a else a.(stage := Listening)
    case ClearReceived => b == if a.stopRequested then a else a.(playback := [], playbackActive := false)
    case ClearFinished => b == a.(seen := [], trace := Dropped(a.trace))
    case PlayedOut(tailOver) =>
      var left := if a.playback == [] then [] else a.playback[1..];
      b == a.(playback := left, playbackActive := a.playbackActive && !(left == [] && tailOver))
    case MuteToggled(taskActive) =>
      b == a.(muted := !((taskActive || a.stage == Connecting || a.stage == Listening) && a.muted))
    case Stopped => b == a.(stopRequested := true, muted := true, playbackActive := false)
    case Failed => b == a.(stage := Error, stopRequested := true)
  }

  /** One captured frame. */
  method Capture(uplink: Uplink, frame: Pcm, speech: bool)
    requires uplink.Valid()
    modifies uplink, uplink.gate
    ensures uplink.Valid() && FrameTaken(frame, speech, old(Shown(uplink)), Shown(uplink))
  {
    hide InCaptureOrder, Ordered, Sound, Interrupted, RunEnds, CompanionAudioGate.Valid, Burst, Latest, Streak;
    RunsOfSnoc(uplink.gate.since, Observation(uplink.playbackActive, speech));
    uplink.ProcessedFrame(frame, speech);
  }

  /** One step of one thread. `broken` is the audio task's own record of a failed send. */
  method Perform(uplink: Uplink, event: Event, broken: bool)
    requires uplink.Valid() && broken == uplink.trace.sendFailed
    modifies uplink, uplink.gate
    ensures uplink.Valid() && Took(event, old(Shown(uplink)), Shown(uplink))
  {
    hide InCaptureOrder, Ordered, Sound, Interrupted, RunEnds, CompanionAudioGate.Valid, Burst, Latest;
    hide FrameTaken, Dropped, Recorded, Streak, Uplink.Valid;
    match event
    case FrameCaptured(frame, speech) => Capture(uplink, frame, speech);
    case DrainBegun =>
      if !broken && uplink.sending == [] {
        uplink.SwapPending();
      }
    case NextSent(linkHolds) =>
      if !broken && uplink.sending != [] {
        uplink.SendNext(linkHolds);
      }
    case AudioReceived(bytes, samples) => var begins := uplink.ReceiveAudio(bytes, samples);
    case PlaybackBegun => uplink.BeginPlayback();
    case ReadyReceived => uplink.Ready();
    case ClearReceived => uplink.Clear();
    case ClearFinished => uplink.ResetAfterClear();
    case PlayedOut(tailOver) => uplink.PlayOut(tailOver);
    case MuteToggled(taskActive) => uplink.ToggleMute(taskActive);
    case Stopped => uplink.Stop();
    case Failed => uplink.Fail();
  }

  /** Any interleaving of one session's threads, sends included: every step takes its effect, and what was sent is a
      subsequence of exactly the captured frames, in capture order and without repetition, never ahead of what was
      queued. */
  method Session(uplink: Uplink, startMuted: bool, events: seq<Event>) returns (ghost run: seq<View>)
    requires uplink.Valid()
    modifies uplink, uplink.gate
    ensures uplink.Valid() && uplink.trace.captured == Frames(events)
    ensures |run| == |events| + 1 && run[|events|] == Shown(uplink)
    ensures run[0] == View(Connecting, startMuted, false, false, [], [], [], [], NOTHING)
    ensures forall i :: 0 <= i < |events| ==> Took(events[i], run[i], run[i + 1])
    ensures uplink.trace.sent <= uplink.trace.queued && |uplink.trace.sent| <= |uplink.trace.numbers|
    ensures InCaptureOrder(uplink.trace.sent, uplink.trace.numbers[..|uplink.trace.sent|], uplink.trace.captured)
    ensures |uplink.preRoll| <= PRE_ROLL_FRAMES && |uplink.pending| <= MAX_PENDING_UPLINK_FRAMES
  {
    hide InCaptureOrder, Ordered, Sound, Took, CompanionAudioGate.Valid;
    uplink.Start(startMuted);
    run := [Shown(uplink)];
    var broken := false;
    for i := 0 to |events|
      invariant uplink.Valid() && broken == uplink.trace.sendFailed
      invariant |run| == i + 1 && run[i] == Shown(uplink)
      invariant run[0] == View(Connecting, startMuted, false, false, [], [], [], [], NOTHING)
      invariant forall k :: 0 <= k < i ==> Took(events[k], run[k], run[k + 1])
      invariant uplink.trace.captured == Frames(events[..i])
    {
      assert events[..i + 1][..i] == events[..i];
      ghost var before := Shown(uplink);
      var sends := events[i].NextSent? && uplink.sending != [];
      Perform(uplink, events[i], broken);
      run := run + [Shown(uplink)];
      CapturesAndSends(events[i], before, Shown(uplink));
      broken := broken || (sends && !events[i].linkHolds);
    }
    assert events[..|events|] == events;
    SoundSession(uplink.trace, uplink.preRoll, uplink.sending + uplink.pending);
  }

  lemma CapturesAndSends(event: Event, a: View, b: View)
    requires Took(event, a, b)
    ensures b.trace.captured == a.trace.captured + if event.FrameCaptured? then [event.frame] else []
    ensures b.trace.sendFailed <==>
              a.trace.sendFailed || (event.NextSent? && a.sending != [] && !event.linkHolds)
  {
  }

  lemma SoundSession(t: Trace, preRoll: seq<Pcm>, waiting: seq<Item>)
    requires Sound(t, preRoll, waiting)
    ensures t.sent <= t.queued && |t.sent| <= |t.numbers| && |preRoll| <= PRE_ROLL_FRAMES
    ensures InCaptureOrder(t.sent, t.numbers[..|t.sent|], t.captured)
  {
    SentInCaptureOrder(t, preRoll, waiting);
  }
}
