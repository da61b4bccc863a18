/** The durable fixed-window limiter behind every device and console endpoint, with the daily cleanup that may delete
    its row at any moment. Times are microseconds. */
module RateLimit {
  import opened Wrappers

  const DAY: int := 86_400_000_000

  datatype Row = Row(startedAt: int, count: nat)

  /** One allowed call and the start of the window it was counted in. */
  datatype Call = Call(time: int, start: int)

  ghost predicate Timely(log: seq<Call>, window: nat) {
    (forall i :: 0 <= i < |log| ==> log[i].start <= log[i].time < log[i].start + window) &&
    (forall i, j :: 0 <= i < j < |log| ==> log[i].time <= log[j].time && log[i].start <= log[j].start)
  }

  /** A window opens with a call. */
  ghost predicate Opened(log: seq<Call>) {
    forall i :: 0 <= i < |log| && log[i].start != log[i].time ==> 0 < i && log[i - 1].start == log[i].start
  }

  /** Two calls are in one window or in windows that do not overlap. */
  ghost predicate Apart(log: seq<Call>, window: nat) {
    forall i, j :: 0 <= i < j < |log| && log[i].start != log[j].start ==> log[i].start + window <= log[j].start
  }

  /** No window takes more than `limit` calls. */
  ghost predicate Bounded(log: seq<Call>, limit: nat, window: nat) {
    forall i, j :: 0 <= i && j < |log| && i + limit <= j ==> log[i].start + window <= log[j].start
  }

  ghost predicate Windowed(log: seq<Call>, limit: nat, window: nat) {
    Timely(log, window) && Opened(log) && Apart(log, window) && Bounded(log, limit, window)
  }

  /** How many of the first n calls are in the window of the last one. */
  ghost function InLastWindow(log: seq<Call>, start: int): (n: nat)
    ensures n <= |log|
    ensures forall i :: |log| - n <= i < |log| ==> log[i].start == start
    ensures n < |log| ==> log[|log| - n - 1].start != start
  {
    if log == [] || log[|log| - 1].start != start then 0 else 1 + InLastWindow(log[..|log| - 1], start)
  }

  /** The allowed calls in a half-open interval. */
  ghost function CountIn(log: seq<Call>, from: int, to: int): nat {
    if log == [] then 0
    else CountIn(log[..|log| - 1], from, to) + if from <= log[|log| - 1].time < to then 1 else 0
  }

  lemma {:induction false} CountAppend(log: seq<Call>, more: seq<Call>, from: int, to: int)
    ensures CountIn(log + more, from, to) == CountIn(log, from, to) + CountIn(more, from, to)
  {
    if more == [] {
      assert log + more == log;
    } else {
      CountAppend(log, more[..|more| - 1], from, to);
      assert (log + more)[..|log + more| - 1] == log + more[..|more| - 1];
    }
  }

  lemma {:induction false} CountOfSpan(log: seq<Call>, window: nat, from: int, to: int, span: nat)
    requires Timely(log, window) && 0 < span && from <= to
    requires forall i :: 0 <= i && i + span < |log| ==> to - from <= log[i + span].time - log[i].time
    ensures CountIn(log, from, to) <= span
  {
    if |log| <= span {
      CountAtMostAll(log, from, to);
    } else {
      var last := |log| - 1;
      if from <= log[last].time < to {
        LateCalls(log, window, from, to, span);
      } else {
        CountOfSpan(log[..last], window, from, to, span);
      }
    }
  }

  lemma LateCalls(log: seq<Call>, window: nat, from: int, to: int, span: nat)
    requires Timely(log, window) && 0 < span < |log| && log[|log| - 1].time < to
    requires to - from <= log[|log| - 1].time - log[|log| - 1 - span].time
    ensures CountIn(log, from, to) <= span
  {
    hide CountIn, Timely;
    var cut := |log| - span;
    var early, late := log[..cut], log[cut..];
    assert early + late == log;
    forall i | 0 <= i < |early| ensures early[i].time < from {
      TimesSorted(log, window, i, cut - 1);
    }
    CountAppend(early, late, from, to);
    CountBefore(early, from, to);
    CountAtMostAll(late, from, to);
  }

  lemma TimesSorted(log: seq<Call>, window: nat, i: int, j: int)
    requires Timely(log, window) && 0 <= i <= j < |log|
    ensures log[i].time <= log[j].time
  {
  }

  lemma {:induction false} CountAtMostAll(log: seq<Call>, from: int, to: int)
    ensures CountIn(log, from, to) <= |log|
  {
    if log != [] {
      CountAtMostAll(log[..|log| - 1], from, to);
    }
  }

  lemma {:induction false} CountBefore(log: seq<Call>, from: int, to: int)
    requires forall i :: 0 <= i < |log| ==> log[i].time < from
    ensures CountIn(log, from, to) == 0
  {
    if log != [] {
      CountBefore(log[..|log| - 1], from, to);
    }
  }

  /** A window length passes between any allowed call and the one `2 * limit - 1` after it. */
  lemma CallsSpanWindow(log: seq<Call>, limit: nat, window: nat, i: nat)
    requires Windowed(log, limit, window) && 0 < limit && i + 2 * limit - 1 < |log|
    ensures log[i].time + window <= log[i + 2 * limit - 1].time
  {
    var last := i + 2 * limit - 1;
    if log[i].start == log[i].time {
      assert log[i].start + window <= log[i + limit].start;
      assert log[i + limit].time <= log[last].time;
    } else {
      assert 0 < i && log[i - 1].start == log[i].start;
      assert log[i - 1].start + window <= log[i - 1 + limit].start;
      assert log[i - 1 + limit].start + window <= log[last].start;
    }
  }

  /** The bound callers rely on: never more than `2 * limit - 1` allowed calls in any interval one window long. */
  lemma AllowedInWindow(log: seq<Call>, limit: nat, window: nat, from: int)
    requires Windowed(log, limit, window) && 0 < limit
    ensures CountIn(log, from, from + window) <= 2 * limit - 1
  {
    forall i: int | 0 <= i && i + (2 * limit - 1) < |log|
      ensures window <= log[i + (2 * limit - 1)].time - log[i].time
    {
      CallsSpanWindow(log, limit, window, i);
    }
    CountOfSpan(log, window, from, from + window, 2 * limit - 1);
  }

  lemma ApartBeforeLast(log: seq<Call>, window: nat, start: int)
    requires Timely(log, window) && Apart(log, window)
    requires log != [] && log[|log| - 1].start != start ==> log[|log| - 1].start + window <= start
    ensures forall i :: 0 <= i < |log| && log[i].start != start ==> log[i].start + window <= start
  {
    forall i | 0 <= i < |log| && log[i].start != start ensures log[i].start + window <= start {
      if i < |log| - 1 {
        assert log[i].start <= log[|log| - 1].start;
        assert log[i].start != log[|log| - 1].start ==> log[i].start + window <= log[|log| - 1].start;
      }
    }
  }

  lemma RoomBeforeLast(log: seq<Call>, limit: nat, window: nat, start: int)
    requires Timely(log, window) && Apart(log, window) && InLastWindow(log, start) < limit
    requires log != [] && log[|log| - 1].start != start ==> log[|log| - 1].start + window <= start
    ensures forall i :: 0 <= i && i + limit <= |log| ==> log[i].start + window <= start
  {
    hide Apart, Timely;
    ApartBeforeLast(log, window, start);
    var n := InLastWindow(log, start);
    forall i | 0 <= i && i + limit <= |log| ensures log[i].start + window <= start {
      StartsSorted(log, window, i, |log| - n - 1);
    }
  }

  lemma StartsSorted(log: seq<Call>, window: nat, i: int, j: int)
    requires Timely(log, window) && 0 <= i <= j < |log|
    ensures log[i].start <= log[j].start
  {
  }

  /** One more call in the window that opened at `start`. */
  lemma OneMoreCall(log: seq<Call>, limit: nat, window: nat, now: int, start: int)
    requires Windowed(log, limit, window) && InLastWindow(log, start) < limit
    requires start <= now < start + window && (log != [] ==> log[|log| - 1].time <= now)
    requires log != [] && log[|log| - 1].start != start ==> log[|log| - 1].start + window <= start
    requires InLastWindow(log, start) == 0 ==> start == now
    ensures Windowed(log + [Call(now, start)], limit, window)
    ensures InLastWindow(log + [Call(now, start)], start) == InLastWindow(log, start) + 1
  {
    var grown := log + [Call(now, start)];
    assert grown[..|log|] == log;
    StaysTimely(log, window, now, start);
    StaysOpened(log, now, start);
    ApartBeforeLast(log, window, start);
    StaysApart(log, window, now, start);
    RoomBeforeLast(log, limit, window, start);
    StaysBounded(log, limit, window, now, start);
  }

  lemma StaysTimely(log: seq<Call>, window: nat, now: int, start: int)
    requires Timely(log, window) && start <= now < start + window
    requires log != [] ==> log[|log| - 1].time <= now && log[|log| - 1].start <= start
    ensures Timely(log + [Call(now, start)], window)
  {
    forall i | 0 <= i < |log| ensures log[i].time <= now && log[i].start <= start {
      assert i < |log| - 1 ==> log[i].time <= log[|log| - 1].time && log[i].start <= log[|log| - 1].start;
    }
  }

  lemma StaysOpened(log: seq<Call>, now: int, start: int)
    requires Opened(log) && (start != now ==> log != [] && log[|log| - 1].start == start)
    ensures Opened(log + [Call(now, start)])
  {
  }

  lemma StaysApart(log: seq<Call>, window: nat, now: int, start: int)
    requires Apart(log, window)
    requires forall i :: 0 <= i < |log| && log[i].start != start ==> log[i].start + window <= start
    ensures Apart(log + [Call(now, start)], window)
  {
  }

  lemma StaysBounded(log: seq<Call>, limit: nat, window: nat, now: int, start: int)
    requires Bounded(log, limit, window) && 0 < limit
    requires forall i :: 0 <= i && i + limit <= |log| ==> log[i].start + window <= start
    ensures Bounded(log + [Call(now, start)], limit, window)
  {
  }

  /** The window a call at `now` falls in. */
  function WindowAt(row: Option<Row>, window: nat, now: int): int {
    if row.None? || row.value.startedAt <= now - window then now else row.value.startedAt
  }

  class RateBucket {
    const limit: nat
    const window: nat
    var row: Option<Row>
    ghost var log: seq<Call>
    ghost var clock: int

    /** The row counts exactly the allowed calls of its window; without a row, the last window is over. */
    ghost predicate Valid()
      reads this
    {
      && 0 < window <= DAY
      && Windowed(log, limit, window)
      && (log != [] ==> log[|log| - 1].time <= clock)
      && match row
         case None => log != [] ==> log[|log| - 1].start + window <= clock
         case Some(r) =>
           r.startedAt <= clock && r.count == InLastWindow(log, r.startedAt) &&
           (log != [] && log[|log| - 1].start != r.startedAt ==> log[|log| - 1].start + window <= r.startedAt) &&
           (r.count == 0 ==> limit == 0)
    }

    constructor (limit: nat, window: nat, clock: int)
      requires 0 < window <= DAY
      ensures Valid() && this.limit == limit && this.window == window && row == None && log == [] && this.clock == clock
    {
      this.limit, this.window, row, log, this.clock := limit, window, None, [], clock;
    }

    /** One call. It is allowed exactly when the window it falls in has taken fewer than `limit` calls. */
    method Allowed(now: int) returns (ok: bool)
      requires Valid() && clock <= now
      modifies this`row, this`log, this`clock
      ensures Valid() && clock == now
      ensures var start := WindowAt(old(row), window, now);
              (ok <==> InLastWindow(old(log), start) < limit) &&
              log == if ok then old(log) + [Call(now, start)] else old(log)
      ensures match old(row)
              case None => (ok <==> 0 < limit) && row == Some(Row(now, if ok then 1 else 0))
              case Some(r) =>
                if r.startedAt + window <= now
                then (ok <==> 0 < limit) && row == Some(if ok then Row(now, 1) else r)
                else (ok <==> r.count < limit) && row == Some(if ok then Row(r.startedAt, r.count + 1) else r)
    {
      hide Windowed;
      var current := match row case None => Row(now, 0) case Some(r) => r;
      row := Some(current);
      ghost var start := WindowAt(old(row), window, now);
      clock := now;
      if current.startedAt <= now - window {
        current := Row(now, 0);
      }
      assert current == Row(start, InLastWindow(log, start));
      if limit <= current.count {
        return false;
      }
      OneMoreCall(log, limit, window, now, start);
      current := current.(count := current.count + 1);
      row := Some(current);
      log := log + [Call(now, start)];
      return true;
    }

    /** The daily cleanup deletes a row whose window opened more than a day ago. */
    method Cleanup(now: int)
      requires Valid() && clock <= now
      modifies this`row, this`clock
      ensures Valid() && clock == now
      ensures row == if old(row).Some? && old(row).value.startedAt + 86_400_000_000 < now then None else old(row)
    {
      hide Windowed, InLastWindow;
      clock := now;
      if row.Some? && row.value.startedAt < now - DAY {
        row := None;
      }
    }
  }

  datatype Event = Asked(now: int) | CleanedUp(now: int)

  /** The counter's row and the calls it has allowed. */
  datatype Moment = Moment(row: Option<Row>, log: seq<Call>)

  ghost function At(bucket: RateBucket): Moment
    reads bucket
  {
    Moment(bucket.row, bucket.log)
  }

  /** What one event leaves. A refused call records nothing, but its row exists from then on. */
  ghost predicate Took(event: Event, limit: nat, window: nat, a: Moment, b: Moment) {
    match event
    case Asked(now) =>
      var runs := a.row.Some? && now < a.row.value.startedAt + window;
      var start, used := if runs then a.row.value.startedAt else now, if runs then a.row.value.count else 0;
      if used < limit then b == Moment(Some(Row(start, used + 1)), a.log + [Call(now, start)])
      else b == Moment(if a.row.Some? then a.row else Some(Row(now, 0)), a.log)
    case CleanedUp(now) =>
      b == a.(row := if a.row.Some? && a.row.value.startedAt + 86_400_000_000 < now then None else a.row)
  }

  /** One event. */
  method Meet(bucket: RateBucket, event: Event)
    requires bucket.Valid() && bucket.clock <= event.now
    modifies bucket
    ensures bucket.Valid() && bucket.clock == event.now && old(bucket.log) <= bucket.log
    ensures Took(event, bucket.limit, bucket.window, old(At(bucket)), At(bucket))
  {
    hide Windowed, InLastWindow;
    match event
    case Asked(now) => var ok := bucket.Allowed(now);
    case CleanedUp(now) => bucket.Cleanup(now);
  }

  lemma KeptInBounds(bucket: RateBucket)
    requires bucket.Valid() && 0 < bucket.limit
    ensures forall from, to :: to == from + bucket.window ==> CountIn(bucket.log, from, to) <= 2 * bucket.limit - 1
  {
    hide Windowed, InLastWindow, CountIn;
    forall from, to | to == from + bucket.window ensures CountIn(bucket.log, from, to) <= 2 * bucket.limit - 1 {
      AllowedInWindow(bucket.log, bucket.limit, bucket.window, from);
    }
  }

  /** Any time-ordered mix of calls and cleanups keeps the bound in every interval one window long. */
  method Serve(bucket: RateBucket, events: seq<Event>) returns (ghost trace: seq<Moment>)
    requires bucket.Valid() && 0 < bucket.limit
    requires forall i :: 0 <= i < |events| ==> bucket.clock <= events[i].now
    requires forall i, j :: 0 <= i < j < |events| ==> events[i].now <= events[j].now
    modifies bucket
    ensures bucket.Valid() && old(bucket.log) <= bucket.log
    ensures |trace| == |events| + 1 && trace[0] == old(At(bucket)) && trace[|events|] == At(bucket)
    ensures forall i :: 0 <= i < |events| ==> Took(events[i], bucket.limit, bucket.window, trace[i], trace[i + 1])
    ensures forall from, to :: to == from + bucket.window ==> CountIn(bucket.log, from, to) <= 2 * bucket.limit - 1
  {
    hide Windowed, InLastWindow, CountIn, Took, RateBucket.Valid;
    trace := [At(bucket)];
    for i := 0 to |events|
      invariant bucket.Valid() && old(bucket.log) <= bucket.log
      invariant |trace| == i + 1 && trace[0] == old(At(bucket)) && trace[i] == At(bucket)
      invariant forall k :: 0 <= k < i ==> Took(events[k], bucket.limit, bucket.window, trace[k], trace[k + 1])
      invariant bucket.clock == if i == 0 then old(bucket.clock) else events[i - 1].now
      invariant forall j :: i <= j < |events| ==> bucket.clock <= events[j].now
    {
      Meet(bucket, events[i]);
      trace := trace + [At(bucket)];
    }
    KeptInBounds(bucket);
  }

  /** The bound is reached: one early call opens a window, the rest come at its end, and the next window is used up at
      once. */
  method WorstCase(limit: nat, window: nat) returns (bucket: RateBucket)
    requires 0 < limit && 1 < window <= DAY
    ensures fresh(bucket) && bucket.Valid() && bucket.limit == limit && bucket.window == window
    ensures CountIn(bucket.log, window - 1, window - 1 + window) == 2 * limit - 1
  {
    hide Windowed, InLastWindow;
    bucket := new RateBucket(limit, window, 0);
    var ok := bucket.Allowed(0);
    assert bucket.log == [Call(0, 0)];
    Repeat(bucket, window - 1, 1, window - 1);
    Repeat(bucket, window, 0, window - 1);
  }

  /** Uses up one window, `done` calls of which are already taken, with calls all at one moment. */
  method Repeat(bucket: RateBucket, now: int, done: nat, from: int)
    requires bucket.Valid() && done <= bucket.limit && bucket.row.Some? && bucket.clock <= now
    requires if done == 0 then bucket.row.value.startedAt + bucket.window <= now && 0 < bucket.limit
             else bucket.row.value.count == done && now < bucket.row.value.startedAt + bucket.window
    requires from <= now < from + bucket.window
    modifies bucket
    ensures bucket.Valid() && bucket.row.Some? && bucket.row.value.count == bucket.limit && bucket.clock <= now
    ensures bucket.row.value.startedAt == if done == 0 then now else old(bucket.row.value.startedAt)
    ensures CountIn(bucket.log, from, from + bucket.window)
         == CountIn(old(bucket.log), from, from + bucket.window) + bucket.limit - done
  {
    hide Windowed, InLastWindow;
    var i := done;
    while i < bucket.limit
      invariant done <= i <= bucket.limit && bucket.Valid() && bucket.row.Some? && bucket.clock <= now
      invariant if i == 0 then bucket.row.value.startedAt + bucket.window <= now
                else bucket.row.value.count == i && now < bucket.row.value.startedAt + bucket.window
      invariant bucket.row.value.startedAt == if done == 0 < i then now else old(bucket.row.value.startedAt)
      invariant CountIn(bucket.log, from, from + bucket.window)
             == CountIn(old(bucket.log), from, from + bucket.window) + i - done
    {
      ghost var log := bucket.log;
      var ok := bucket.Allowed(now);
      assert bucket.log[..|log|] == log;
      i := i + 1;
    }
  }
}
