/** The timer queue: sorted by expiry with the earliest last, fired from the back. Times are in
    nanoseconds, durations and waits in microseconds. */
module Timers {
  /** A queued timer with its callback, its duration and its expiry time. */
  datatype Entry = Entry(timer: nat, callback: nat, duration: int, expire: int)

  /** What is done to the queue by a callback or by another thread: a timer is scheduled with the
      expiry it has been given, or cancelled. */
  datatype Op = Schedule(e: Entry) | Cancel(timer: nat)

  /** What a callback does and answers: operations on the queue, whether once is enough, and the
      clock after it. */
  datatype Answer = Answer(ops: seq<Op>, once: bool, now: int)

  /** `wait_duration`: the difference in whole microseconds, rounded towards zero. */
  function Wait(e: Entry, current: int): int {
    var d := e.expire - current;
    if d >= 0 then d / 1000 else -(-d / 1000)
  }

  /** `expired`. */
  predicate Expired(e: Entry, current: int) { Wait(e, current) <= 0 }

  /** A timer counts as expired less than a microsecond before its time, and from then on. */
  lemma ExpiredIff(e: Entry, current: int)
    ensures Expired(e, current) <==> e.expire < current + 1000
  {
  }

  /** The wait in whole microseconds, never longer than the time left and less than a microsecond shorter. */
  lemma WaitInTime(e: Entry, current: int)
    ensures e.expire >= current ==> 1000 * Wait(e, current) <= e.expire - current < 1000 * Wait(e, current) + 1000
    ensures e.expire < current ==> 1000 * Wait(e, current) - 1000 < e.expire - current <= 1000 * Wait(e, current)
  {
  }

  /** So a timer can fire early, by less than a microsecond. */
  lemma FiresEarly() returns (e: Entry, current: int)
    ensures Expired(e, current) && current < e.expire
  {
    e, current := Entry(0, 0, 1, 999), 0;
  }

  lemma WaitMonotone(a: Entry, b: Entry, current: int)
    requires a.expire <= b.expire
    ensures Wait(a, current) <= Wait(b, current)
  {
  }

  // ------------------------------------------------------------ the queue as a set

  /** `schedule_timer` and `remove_timer`. */
  function Scheduled(es: set<Entry>, e: Entry): set<Entry> { Removed(es, e.timer) + {e} }

  function Removed(es: set<Entry>, timer: nat): set<Entry> { set e | e in es && e.timer != timer }

  /** `cancel` does nothing to a timer that counts as expired. */
  function Cancelled(es: set<Entry>, timer: nat, current: int): set<Entry> {
    set e | e in es && (e.timer != timer || Expired(e, current))
  }

  function After(es: set<Entry>, op: Op, current: int): set<Entry> {
    match op
    case Schedule(e) => Scheduled(es, e)
    case Cancel(t) => Cancelled(es, t, current)
  }

  function AfterAll(es: set<Entry>, ops: seq<Op>, current: int): set<Entry> {
    if ops == [] then es else After(AfterAll(es, ops[..|ops| - 1], current), ops[|ops| - 1], current)
  }

  /** `expires_from_now` on a timer whose callback wants to wait again. */
  function Rearmed(e: Entry, now: int): Entry { e.(expire := now + 1000 * e.duration) }

  /** A timer scheduled with a positive duration from a clock that does not go back. */
  predicate Ahead(op: Op, current: int) {
    op.Schedule? ==> op.e.duration > 0 && op.e.expire >= current + 1000
  }

  predicate Spares(op: Op, timer: nat) { op.Schedule? ==> op.e.timer != timer }

  /** A callback of e may schedule and cancel timers, but does not schedule its own. */
  ghost predicate Polite(a: Answer, e: Entry, current: int) {
    && a.now >= current
    && forall op :: op in a.ops ==> Ahead(op, current) && Spares(op, e.timer)
  }

  ghost predicate AllPolite(respond: Entry -> Answer, current: int) {
    forall e :: Polite(respond(e), e, current)
  }

  // ------------------------------------------------------------ one pass

  /** The next timer to fire: expired, and none expires before it. */
  ghost predicate IsNext(es: set<Entry>, current: int, f: Entry) {
    f in es && Expired(f, current) && forall e :: e in es ==> f.expire <= e.expire
  }

  /** The queue after a timer was taken off and its callback has run. */
  function Fire(es: set<Entry>, current: int, respond: Entry -> Answer, f: Entry): set<Entry> {
    AfterAll(es - {f}, respond(f).ops, current)
  }

  /** The queue after some timers were fired. */
  function Left(es: set<Entry>, current: int, respond: Entry -> Answer, fired: seq<Entry>): set<Entry> {
    if fired == [] then es
    else Fire(Left(es, current, respond, fired[..|fired| - 1]), current, respond, fired[|fired| - 1])
  }

  /** Each was the next one when it was fired, in a queue its predecessors' callbacks had changed. */
  ghost predicate InTurn(es: set<Entry>, current: int, respond: Entry -> Answer, fired: seq<Entry>) {
    fired == [] ||
    var n := |fired| - 1;
    InTurn(es, current, respond, fired[..n]) && IsNext(Left(es, current, respond, fired[..n]), current, fired[n])
  }

  /** One pass: timers fire in turn up to and including the first whose callback wants to wait again,
      which is queued anew, or until none is expired. */
  ghost predicate Pass(es: set<Entry>, current: int, respond: Entry -> Answer, fired: seq<Entry>, next: set<Entry>) {
    var m := |fired|;
    && InTurn(es, current, respond, fired)
    && (forall i :: 0 <= i < m - 1 ==> respond(fired[i]).once)
    && var left := Left(es, current, respond, fired);
    if m > 0 && !respond(fired[m - 1]).once then
      next == left + {Rearmed(fired[m - 1], respond(fired[m - 1]).now)}
    else next == left && forall e :: e in next ==> !Expired(e, current)
  }

  // ------------------------------------------------------------ the queue as a list

  ghost predicate Sorted(q: seq<Entry>) {
    forall i, j :: 0 <= i < j < |q| ==> q[i].expire >= q[j].expire
  }

  ghost predicate Distinct(q: seq<Entry>) {
    forall i, j :: 0 <= i < j < |q| ==> q[i].timer != q[j].timer
  }

  ghost function Entries(q: seq<Entry>): set<Entry> { set e | e in q }

  ghost predicate Positive(es: set<Entry>) { forall e :: e in es ==> e.duration > 0 }

  predicate Queued(q: seq<Entry>, timer: nat) { exists i :: 0 <= i < |q| && q[i].timer == timer }

  /** `std::sort` as far as the queue relies on it; equal expiries may come in any order. */
  method SortTimers(q: seq<Entry>) returns (r: seq<Entry>)
    requires Distinct(q)
    ensures Sorted(r) && Distinct(r) && Entries(r) == Entries(q) && |r| == |q|
  {
    r := [];
    for i := 0 to |q|
      invariant Sorted(r) && Distinct(r) && |r| == i
      invariant forall e :: e in r <==> e in q[..i]
    {
      assert q[..i + 1] == q[..i] + [q[i]];
      r := Insert(r, q[i]);
    }
    assert q[..|q|] == q;
  }

  method Insert(q: seq<Entry>, e: Entry) returns (r: seq<Entry>)
    requires Sorted(q) && Distinct(q)
    requires forall x :: x in q ==> x.timer != e.timer
    ensures Sorted(r) && Distinct(r) && |r| == |q| + 1
    ensures forall x :: x in r <==> x in q || x == e
  {
    var k := 0;
    while k < |q| && q[k].expire >= e.expire
      invariant 0 <= k <= |q|
      invariant forall i :: 0 <= i < k ==> q[i].expire >= e.expire
    {
      k := k + 1;
    }
    r := q[..k] + [e] + q[k..];
    forall i, j | 0 <= i < j < |r| ensures r[i].expire >= r[j].expire && r[i].timer != r[j].timer {
      Between(q, e, k, i);
      Between(q, e, k, j);
    }
    forall x ensures x in r <==> x in q || x == e {
      assert q == q[..k] + q[k..];
    }
  }

  lemma Between(q: seq<Entry>, e: Entry, k: nat, i: nat)
    requires k <= |q| && i < |q| + 1
    ensures var r := q[..k] + [e] + q[k..];
      r[i] == (if i < k then q[i] else if i == k then e else q[i - 1]) && (i != k ==> r[i] in q)
  {
  }

  /** The loop is woken if the timer scheduled is earlier than all others, and only if none is earlier. */
  ghost predicate WakesFor(es: set<Entry>, e: Entry, wakeup: bool) {
    && ((forall x :: x in es && x != e ==> e.expire < x.expire) ==> wakeup)
    && (wakeup ==> forall x :: x in es ==> e.expire <= x.expire)
  }

  class TimerQueue {
    var queue: seq<Entry>
    var currentTime: int

    ghost predicate Valid()
      reads this
    {
      Sorted(queue) && Distinct(queue)
    }

    ghost function All(): set<Entry>
      reads this
    {
      Entries(queue)
    }

    constructor ()
      ensures Valid() && queue == [] && currentTime == 0
    {
      queue, currentTime := [], 0;
    }

    /** `find_timer`. */
    method FindTimer(timer: nat) returns (at: nat)
      ensures at <= |queue| && (at < |queue| <==> Queued(queue, timer))
      ensures at < |queue| ==> queue[at].timer == timer
    {
      at := 0;
      while at < |queue| && queue[at].timer != timer
        invariant 0 <= at <= |queue|
        invariant forall i :: 0 <= i < at ==> queue[i].timer != timer
      {
        at := at + 1;
      }
    }

    /** `schedule_timer`: the timer is queued once, with its callback and the expiry it has, the
        others stay, and the loop is woken if it is now the earliest. */
    method ScheduleTimer(e: Entry) returns (wakeup: bool)
      requires Valid()
      modifies this`queue
      ensures Valid() && All() == Scheduled(old(All()), e)
      ensures forall x :: x in All() <==> x == e || (x in old(All()) && x.timer != e.timer)
      ensures WakesFor(All(), e, wakeup)
    {
      var at := FindTimer(e.timer);
      if at == |queue| {
        Appended(queue, e);
        queue := queue + [e];
      } else {
        Replaced(queue, at, e);
        queue := queue[at := e];
      }
      queue := SortTimers(queue);
      assert e in All();
      wakeup := queue[|queue| - 1].timer == e.timer;
      BackIsEarliest(queue, e);
    }

    /** `remove_timer`. */
    method RemoveTimer(timer: nat) returns (wakeup: bool)
      requires Valid()
      modifies this`queue
      ensures Valid() && All() == Removed(old(All()), timer)
      ensures forall x :: x in All() <==> x in old(All()) && x.timer != timer
      ensures wakeup <==> Queued(old(queue), timer) && queue != []
    {
      wakeup := false;
      var at := FindTimer(timer);
      if at < |queue| {
        Erased(queue, at);
        queue := queue[..at] + queue[at + 1..];
        if queue != [] {
          queue := SortTimers(queue);
          wakeup := true;
        }
      } else {
        NotThere(queue, timer);
      }
    }

    /** `cancel`: nothing for a timer that counts as expired, or that is not queued. */
    method CancelTimer(timer: nat) returns (wakeup: bool)
      requires Valid()
      modifies this`queue
      ensures Valid() && All() == Cancelled(old(All()), timer, currentTime)
      ensures forall x :: x in All() <==> x in old(All()) && (x.timer != timer || x.expire < currentTime + 1000)
    {
      wakeup := false;
      var at := FindTimer(timer);
      CancelMeans(queue, at, timer, currentTime);
      if at < |queue| && !Expired(queue[at], currentTime) { wakeup := RemoveTimer(timer); }
    }

    /** What a callback does to the queue; the result says whether the loop is woken. */
    method Apply(ops: seq<Op>) returns (wakeup: bool)
      requires Valid()
      modifies this`queue
      ensures Valid() && All() == AfterAll(old(All()), ops, currentTime)
    {
      wakeup := false;
      ghost var es := All();
      for i := 0 to |ops|
        invariant Valid() && All() == AfterAll(es, ops[..i], currentTime)
      {
        assert ops[..i + 1][..i] == ops[..i];
        var w;
        match ops[i] {
          case Schedule(e) => w := ScheduleTimer(e);
          case Cancel(t) => w := CancelTimer(t);
        }
        wakeup := wakeup || w;
      }
      assert ops[..|ops|] == ops;
    }

    /** `get_timeout`: no longer than asked for, and no longer than any timer has to wait. */
    method GetTimeout(usec: int) returns (r: int)
      requires Valid()
      ensures IsTimeout(All(), currentTime, usec, r) && InTime(All(), currentTime, usec, r)
    {
      r := usec;
      if queue != [] {
        var back := queue[|queue| - 1];
        var duration := Wait(back, currentTime);
        if usec > duration { r := duration; }
        forall e | e in All() ensures duration <= Wait(e, currentTime) {
          EarliestLast(queue, e);
          WaitMonotone(back, e, currentTime);
        }
        assert back in All();
      }
      TimeoutInTime(All(), currentTime, usec, r);
    }

    /** The body of the loop of `process_timers`: the earliest timer is taken off, its callback runs and
        may change the queue, and a timer that wants to wait again is queued at the back. */
    method FireBack(respond: Entry -> Answer, ghost es: set<Entry>, ghost fired: seq<Entry>)
      returns (e: Entry, again: bool, wakeup: bool)
      requires Distinct(queue) && Midway(es, currentTime, respond, fired, queue, false)
      requires queue != [] && Expired(queue[|queue| - 1], currentTime)
      modifies this`queue
      ensures Distinct(queue) && Midway(es, currentTime, respond, fired + [e], queue, again)
      ensures |Overdue(es, currentTime, respond, fired + [e])| < |Overdue(es, currentTime, respond, fired)|
    {
      e := queue[|queue| - 1];
      KeepsPositive(es, currentTime, respond, fired);
      NextAtBack(queue, currentTime);
      Advances(es, currentTime, respond, fired, e);
      queue := queue[..|queue| - 1];
      ghost var rest := All();
      assert Polite(respond(e), e, currentTime);
      var answer := respond(e);
      wakeup := Apply(answer.ops);
      again := !answer.once;
      if again {
        OpsSpare(rest, answer.ops, currentTime, e.timer);
        queue := queue + [Rearmed(e, answer.now)];
      }
    }

    /** `process_timers`, given what each callback does and answers. Callbacks change the queue under
        the loop, which looks at its back anew after each. */
    method ProcessTimers(respond: Entry -> Answer) returns (fired: seq<Entry>, wakeup: bool)
      requires Valid() && Positive(All()) && AllPolite(respond, currentTime)
      modifies this`queue
      ensures Valid() && Positive(All())
      ensures Pass(old(All()), currentTime, respond, fired, All())
    {
      fired, wakeup := [], false;
      ghost var es := All();
      var n := 0; // the count of expired loop timers
      while queue != []
        invariant Distinct(queue) && Midway(es, currentTime, respond, fired, queue, n > 0)
        decreases |Overdue(es, currentTime, respond, fired)|
      {
        if n > 0 { LastStays(es, currentTime, respond, fired, queue); }
        if !Expired(queue[|queue| - 1], currentTime) { break; }
        var e, again, w := FireBack(respond, es, fired);
        fired := fired + [e];
        wakeup := wakeup || w;
        if again { n := n + 1; }
      }
      Finished(es, currentTime, respond, fired, queue, n > 0);
      if n > 0 {
        queue := SortTimers(queue);
      }
    }
  }

  // ------------------------------------------------------------ lists and sets

  ghost predicate IsTimeout(es: set<Entry>, current: int, usec: int, r: int) {
    && r <= usec && (forall e :: e in es ==> r <= Wait(e, current))
    && (r == usec || exists e :: e in es && r == Wait(e, current))
  }

  /** In nanoseconds: a wait of r microseconds outlasts no timer, and is shorter than asked for only for a
      timer due within a microsecond of its end. */
  ghost predicate InTime(es: set<Entry>, current: int, usec: int, r: int) {
    && r <= usec
    && (r > 0 ==> forall e :: e in es ==> current + 1000 * r <= e.expire)
    && (r < usec ==> exists e :: e in es && e.expire < current + 1000 * r + 1000)
  }

  lemma TimeoutInTime(es: set<Entry>, current: int, usec: int, r: int)
    requires IsTimeout(es, current, usec, r)
    ensures InTime(es, current, usec, r)
  {
    forall e | e in es ensures r > 0 ==> current + 1000 * r <= e.expire { WaitInTime(e, current); }
    if r < usec {
      var e :| e in es && r == Wait(e, current);
      WaitInTime(e, current);
    }
  }

  lemma Appended(q: seq<Entry>, e: Entry)
    requires Distinct(q) && !Queued(q, e.timer)
    ensures Distinct(q + [e]) && Entries(q + [e]) == Scheduled(Entries(q), e)
  {
    NotThere(q, e.timer);
  }

  lemma NotThere(q: seq<Entry>, timer: nat)
    requires !Queued(q, timer)
    ensures Removed(Entries(q), timer) == Entries(q)
  {
    forall e | e in Entries(q) ensures e.timer != timer {
      var i :| 0 <= i < |q| && q[i] == e;
    }
  }

  lemma Replaced(q: seq<Entry>, at: nat, e: Entry)
    requires Distinct(q) && at < |q| && q[at].timer == e.timer
    ensures Distinct(q[at := e]) && Entries(q[at := e]) == Scheduled(Entries(q), e)
  {
    var r := q[at := e];
    forall x ensures x in Entries(r) <==> x in Scheduled(Entries(q), e) {
      if x in Entries(r) {
        var i :| 0 <= i < |r| && r[i] == x;
        assert i == at || (x in q && x.timer != e.timer);
      }
      if x in Scheduled(Entries(q), e) {
        if x == e { assert r[at] == e; } else {
          var i :| 0 <= i < |q| && q[i] == x;
          assert r[i] == x;
        }
      }
    }
  }

  lemma Erased(q: seq<Entry>, at: nat)
    requires Distinct(q) && at < |q|
    ensures Distinct(q[..at] + q[at + 1..]) && Entries(q[..at] + q[at + 1..]) == Removed(Entries(q), q[at].timer)
    ensures Sorted(q) && at == |q| - 1 ==> Sorted(q[..at] + q[at + 1..])
  {
    var r := q[..at] + q[at + 1..];
    assert forall i :: 0 <= i < |r| ==> r[i] == q[if i < at then i else i + 1];
    forall x ensures x in Entries(r) <==> x in Removed(Entries(q), q[at].timer) {
      if x in Entries(r) {
        var i :| 0 <= i < |r| && r[i] == x;
      }
      if x in Removed(Entries(q), q[at].timer) {
        var i :| 0 <= i < |q| && q[i] == x;
        assert r[if i < at then i else i - 1] == x;
      }
    }
  }

  lemma CancelMeans(q: seq<Entry>, at: nat, timer: nat, current: int)
    requires Distinct(q) && at <= |q| && (at < |q| <==> Queued(q, timer)) && (at < |q| ==> q[at].timer == timer)
    ensures Cancelled(Entries(q), timer, current) ==
      if at < |q| && !Expired(q[at], current) then Removed(Entries(q), timer) else Entries(q)
  {
    if at == |q| { NotThere(q, timer); }
    forall e | e in Entries(q) && e.timer == timer ensures e == q[at] {
      var i :| 0 <= i < |q| && q[i] == e;
    }
  }

  lemma EarliestLast(q: seq<Entry>, e: Entry)
    requires Sorted(q) && e in q
    ensures q[|q| - 1].expire <= e.expire
  {
    var i :| 0 <= i < |q| && q[i] == e;
  }

  lemma BackIsEarliest(q: seq<Entry>, e: Entry)
    requires Sorted(q) && Distinct(q) && e in q
    ensures WakesFor(Entries(q), e, q[|q| - 1].timer == e.timer)
  {
    var back := q[|q| - 1];
    var i :| 0 <= i < |q| && q[i] == e;
    assert back.timer == e.timer <==> back == e;
    forall x | x in Entries(q) ensures back.expire <= x.expire { EarliestLast(q, x); }
    assert back in Entries(q);
  }

  // ------------------------------------------------------------ the loop of a pass

  /** A pass after some callbacks; `again` says that the last of them wants to wait again, and then its
      timer stands at the back of the list, out of order. */
  ghost predicate Midway(es: set<Entry>, current: int, respond: Entry -> Answer, fired: seq<Entry>,
                         q: seq<Entry>, again: bool)
  {
    var m, now := |fired|, Entries(q);
    && Positive(es) && AllPolite(respond, current) && InTurn(es, current, respond, fired)
    && (again ==> m > 0 && fired[m - 1].duration > 0)
    && (forall i :: 0 <= i < m - 1 ==> respond(fired[i]).once)
    && (if again then
          && m > 0 && !respond(fired[m - 1]).once && |q| > 0
          && q[|q| - 1] == Rearmed(fired[m - 1], respond(fired[m - 1]).now)
          && now == Left(es, current, respond, fired) + {q[|q| - 1]}
        else
          && Sorted(q) && now == Left(es, current, respond, fired)
          && (m > 0 ==> respond(fired[m - 1]).once))
  }

  /** The expired timers not fired yet. Callbacks bring no new one. */
  ghost function Overdue(es: set<Entry>, current: int, respond: Entry -> Answer, fired: seq<Entry>): set<Entry> {
    set e | e in Left(es, current, respond, fired) && Expired(e, current)
  }

  lemma NextAtBack(q: seq<Entry>, current: int)
    requires Sorted(q) && Distinct(q) && q != [] && Expired(q[|q| - 1], current)
    ensures IsNext(Entries(q), current, q[|q| - 1])
    ensures Sorted(q[..|q| - 1]) && Distinct(q[..|q| - 1])
    ensures Entries(q[..|q| - 1]) == Entries(q) - {q[|q| - 1]}
  {
    forall e | e in Entries(q) ensures q[|q| - 1].expire <= e.expire { EarliestLast(q, e); }
    assert q == q[..|q| - 1] + [q[|q| - 1]];
  }

  /** Callbacks add no expired timer. */
  lemma {:induction false} OpsAhead(es: set<Entry>, ops: seq<Op>, current: int)
    requires forall op :: op in ops ==> Ahead(op, current)
    ensures forall e :: e in AfterAll(es, ops, current) && Expired(e, current) ==> e in es
    ensures forall e :: e in AfterAll(es, ops, current) ==> e in es || (e.duration > 0 && e.expire >= current + 1000)
  {
    if ops != [] {
      OpsAhead(es, ops[..|ops| - 1], current);
      var last := ops[|ops| - 1];
      assert Ahead(last, current);
      if last.Schedule? { ExpiredIff(last.e, current); }
    }
  }

  lemma Advances(es: set<Entry>, current: int, respond: Entry -> Answer, fired: seq<Entry>, e: Entry)
    requires InTurn(es, current, respond, fired) && AllPolite(respond, current)
    requires IsNext(Left(es, current, respond, fired), current, e)
    ensures InTurn(es, current, respond, fired + [e])
    ensures Left(es, current, respond, fired + [e]) ==
            AfterAll(Left(es, current, respond, fired) - {e}, respond(e).ops, current)
    ensures |Overdue(es, current, respond, fired + [e])| < |Overdue(es, current, respond, fired)|
  {
    assert (fired + [e])[..|fired|] == fired;
    assert Polite(respond(e), e, current);
    OpsAhead(Left(es, current, respond, fired) - {e}, respond(e).ops, current);
    SmallerSet(Overdue(es, current, respond, fired + [e]), Overdue(es, current, respond, fired), e);
  }

  lemma SmallerSet(a: set<Entry>, b: set<Entry>, x: Entry)
    requires a <= b && x in b && x !in a
    ensures |a| < |b|
  {
    assert a <= b - {x};
    SubsetSize(a, b - {x});
  }

  lemma {:induction false} SubsetSize(a: set<Entry>, b: set<Entry>)
    requires a <= b
    ensures |a| <= |b|
  {
    if a != {} {
      var x :| x in a;
      SubsetSize(a - {x}, b - {x});
    }
  }

  lemma {:induction false} KeepsPositive(es: set<Entry>, current: int, respond: Entry -> Answer, fired: seq<Entry>)
    requires Positive(es) && AllPolite(respond, current)
    ensures Positive(Left(es, current, respond, fired))
  {
    if fired != [] {
      var n := |fired| - 1;
      KeepsPositive(es, current, respond, fired[..n]);
      assert Polite(respond(fired[n]), fired[n], current);
      OpsAhead(Left(es, current, respond, fired[..n]) - {fired[n]}, respond(fired[n]).ops, current);
    }
  }

  /** A timer armed again is not expired at once; so a pass ends behind the first that repeats. */
  lemma NotAtOnce(e: Entry, current: int, now: int)
    requires e.duration > 0 && now >= current
    ensures !Expired(Rearmed(e, now), current)
  {
    ExpiredIff(Rearmed(e, now), current);
  }

  lemma LastStays(es: set<Entry>, current: int, respond: Entry -> Answer, fired: seq<Entry>, q: seq<Entry>)
    requires Midway(es, current, respond, fired, q, true)
    ensures q != [] && !Expired(q[|q| - 1], current)
  {
    var last := fired[|fired| - 1];
    assert Polite(respond(last), last, current);
    NotAtOnce(last, current, respond(last).now);
  }

  /** Operations that leave a timer alone do not bring it into the queue. */
  lemma {:induction false} OpsSpare(es: set<Entry>, ops: seq<Op>, current: int, timer: nat)
    requires forall op :: op in ops ==> Spares(op, timer)
    requires forall e :: e in es ==> e.timer != timer
    ensures forall e :: e in AfterAll(es, ops, current) ==> e.timer != timer
  {
    if ops != [] {
      OpsSpare(es, ops[..|ops| - 1], current, timer);
      assert Spares(ops[|ops| - 1], timer);
    }
  }

  lemma Finished(es: set<Entry>, current: int, respond: Entry -> Answer, fired: seq<Entry>, q: seq<Entry>, again: bool)
    requires Midway(es, current, respond, fired, q, again)
    requires again || q == [] || !Expired(q[|q| - 1], current)
    ensures Pass(es, current, respond, fired, Entries(q)) && (!again ==> Sorted(q)) && Positive(Entries(q))
  {
    KeepsPositive(es, current, respond, fired);
    if !again {
      forall e | e in Entries(q) ensures !Expired(e, current) {
        EarliestLast(q, e);
        WaitMonotone(q[|q| - 1], e, current);
      }
    }
  }

  // ------------------------------------------------------------ order and bounded waiting

  lemma {:induction false} LeftWithin(es: set<Entry>, current: int, respond: Entry -> Answer, fired: seq<Entry>)
    requires AllPolite(respond, current)
    ensures forall e :: e in Left(es, current, respond, fired) ==> e in es || e.expire >= current + 1000
  {
    if fired != [] {
      var n := |fired| - 1;
      LeftWithin(es, current, respond, fired[..n]);
      assert Polite(respond(fired[n]), fired[n], current);
      OpsAhead(Left(es, current, respond, fired[..n]) - {fired[n]}, respond(fired[n]).ops, current);
    }
  }

  lemma {:induction false} FiredWithin(es: set<Entry>, current: int, respond: Entry -> Answer, fired: seq<Entry>)
    requires AllPolite(respond, current) && InTurn(es, current, respond, fired)
    ensures forall f :: f in fired ==> f in es && Expired(f, current)
  {
    if fired != [] {
      var n := |fired| - 1;
      FiredWithin(es, current, respond, fired[..n]);
      LeftWithin(es, current, respond, fired[..n]);
      ExpiredIff(fired[n], current);
      assert fired == fired[..n] + [fired[n]];
    }
  }

  /** What is still queued does not expire before what was fired. */
  lemma {:induction false} FiredFirst(es: set<Entry>, current: int, respond: Entry -> Answer, fired: seq<Entry>)
    requires AllPolite(respond, current) && InTurn(es, current, respond, fired)
    ensures forall f, e :: f in fired && e in Left(es, current, respond, fired) ==> f.expire <= e.expire
    ensures forall i, j :: 0 <= i < j < |fired| ==> fired[i].expire <= fired[j].expire
  {
    if fired != [] {
      var n := |fired| - 1;
      var init, last := fired[..n], fired[n];
      FiredFirst(es, current, respond, init);
      FiredWithin(es, current, respond, fired);
      assert last in Left(es, current, respond, init);
      forall f, e | f in fired && e in Left(es, current, respond, fired) ensures f.expire <= e.expire {
        ExpiredIff(f, current);
        assert Polite(respond(last), last, current);
        OpsAhead(Left(es, current, respond, init) - {last}, respond(last).ops, current);
        assert fired == init + [last];
        if e in Left(es, current, respond, init) { assert f in init || f == last; }
      }
      forall i, j | 0 <= i < j < |fired| ensures fired[i].expire <= fired[j].expire {
        if j == n { assert init[i] in init; } else { assert init[i] == fired[i] && init[j] == fired[j]; }
      }
    }
  }

  /** A pass fires in the order of expiry, although callbacks change the queue under it; nothing left
      behind expires before what was fired; and only timers that were queued and expired fire. */
  lemma FiredInOrder(es: set<Entry>, current: int, respond: Entry -> Answer, fired: seq<Entry>, next: set<Entry>)
    requires AllPolite(respond, current) && Positive(es) && Pass(es, current, respond, fired, next)
    ensures forall i, j :: 0 <= i < j < |fired| ==> fired[i].expire <= fired[j].expire
    ensures forall f, e :: f in fired && e in next ==> f.expire <= e.expire
    ensures forall f :: f in fired ==> f in es && Expired(f, current)
  {
    FiredFirst(es, current, respond, fired);
    FiredWithin(es, current, respond, fired);
    forall f, e | f in fired && e in next ensures f.expire <= e.expire {
      ExpiredIff(f, current);
      if e !in Left(es, current, respond, fired) {
        var last := fired[|fired| - 1];
        assert Polite(respond(last), last, current);
      }
    }
  }

  // ------------------------------------------------------------ what a pass leaves

  function TimerOf(op: Op): nat { if op.Schedule? then op.e.timer else op.timer }

  lemma {:induction false} OpsBring(es: set<Entry>, ops: seq<Op>, current: int, e: Entry)
    ensures e in AfterAll(es, ops, current) ==> e in es || Schedule(e) in ops
    ensures e in es && (forall op :: op in ops ==> TimerOf(op) != e.timer) ==> e in AfterAll(es, ops, current)
  {
    if ops != [] {
      var n := |ops| - 1;
      assert ops == ops[..n] + [ops[n]];
      OpsBring(es, ops[..n], current, e);
      if forall op :: op in ops ==> TimerOf(op) != e.timer {
        assert ops[n] in ops && TimerOf(ops[n]) != e.timer;
        forall op | op in ops[..n] ensures TimerOf(op) != e.timer { assert op in ops; }
      }
    }
  }

  /** Some callback of the pass has scheduled it. */
  ghost predicate ScheduledBy(respond: Entry -> Answer, fired: seq<Entry>, e: Entry) {
    exists g :: g in fired && Schedule(e) in respond(g).ops
  }

  /** No callback of the pass has touched the timer. */
  ghost predicate Untouched(respond: Entry -> Answer, fired: seq<Entry>, timer: nat) {
    forall g, op :: g in fired && op in respond(g).ops ==> TimerOf(op) != timer
  }

  lemma {:induction false} FiringBrings(es: set<Entry>, current: int, respond: Entry -> Answer, fired: seq<Entry>,
                                        e: Entry)
    ensures e in Left(es, current, respond, fired) ==> (e in es && e !in fired) || ScheduledBy(respond, fired, e)
    ensures e in es && e !in fired && Untouched(respond, fired, e.timer) ==> e in Left(es, current, respond, fired)
  {
    if fired != [] {
      var n := |fired| - 1;
      var init, last := fired[..n], fired[n];
      FiringBrings(es, current, respond, init, e);
      OpsBring(Left(es, current, respond, init) - {last}, respond(last).ops, current, e);
      assert fired == init + [last];
      if ScheduledBy(respond, init, e) {
        var g :| g in init && Schedule(e) in respond(g).ops;
        assert g in fired;
      }
    }
  }

  /** The timer a callback has asked to wait for again: the same timer and callback, due one duration
      after the callback has answered. */
  predicate WaitsAgain(f: Entry, now: int, e: Entry) {
    && e.timer == f.timer && e.callback == f.callback && e.duration == f.duration
    && e.expire - now == 1000 * f.duration
  }

  /** What a pass leaves. Only the last callback may want to wait again, and then its timer waits for
      one more duration; if it does not, no timer is due within a microsecond. What was not fired and
      not touched by a callback stays, and nothing else is there but what callbacks have scheduled. */
  lemma PassLeaves(es: set<Entry>, current: int, respond: Entry -> Answer, fired: seq<Entry>, next: set<Entry>)
    requires Pass(es, current, respond, fired, next)
    ensures forall i :: 0 <= i < |fired| - 1 ==> respond(fired[i]).once
    ensures var again := fired != [] && !respond(fired[|fired| - 1]).once;
      && (!again ==> forall e :: e in next ==> e.expire >= current + 1000)
      && (again ==> exists e :: e in next && WaitsAgain(fired[|fired| - 1], respond(fired[|fired| - 1]).now, e))
      && forall e :: e in next ==>
           || (e in es && e !in fired) || ScheduledBy(respond, fired, e)
           || (again && WaitsAgain(fired[|fired| - 1], respond(fired[|fired| - 1]).now, e))
    ensures forall e :: e in es && e !in fired && Untouched(respond, fired, e.timer) ==> e in next
  {
    forall e
      ensures e in Left(es, current, respond, fired) ==> (e in es && e !in fired) || ScheduledBy(respond, fired, e)
      ensures e in es && e !in fired && Untouched(respond, fired, e.timer) ==> e in Left(es, current, respond, fired)
    {
      FiringBrings(es, current, respond, fired, e);
    }
    forall e | e in next && !Expired(e, current) ensures e.expire >= current + 1000 { ExpiredIff(e, current); }
    if fired != [] && !respond(fired[|fired| - 1]).once {
      var f := fired[|fired| - 1];
      assert WaitsAgain(f, respond(f).now, Rearmed(f, respond(f).now));
    }
  }

  // ------------------------------------------------------------ waiting

  /** The other timers due no later than x. */
  ghost function Due(es: set<Entry>, x: Entry): set<Entry> { set e | e in es && e != x && e.expire <= x.expire }

  /** No operation schedules the timer watched; that it is expired protects it from a cancel. */
  lemma {:induction false} OpsLeave(es: set<Entry>, ops: seq<Op>, current: int, x: Entry)
    requires x in es && Expired(x, current)
    requires forall op :: op in ops ==> Ahead(op, current) && Spares(op, x.timer)
    ensures x in AfterAll(es, ops, current) && Due(AfterAll(es, ops, current), x) <= Due(es, x)
  {
    if ops != [] {
      OpsLeave(es, ops[..|ops| - 1], current, x);
      assert ops[|ops| - 1] in ops;
      ExpiredIff(x, current);
    }
  }

  ghost predicate SparesAll(respond: Entry -> Answer, timer: nat) {
    forall e, op :: op in respond(e).ops ==> Spares(op, timer)
  }

  lemma {:induction false} FiringLeaves(es: set<Entry>, current: int, respond: Entry -> Answer, fired: seq<Entry>,
                                        x: Entry)
    requires AllPolite(respond, current) && SparesAll(respond, x.timer)
    requires x in es && Expired(x, current) && x !in fired
    ensures var left := Left(es, current, respond, fired);
      x in left && Due(left, x) <= Due(es, x) && forall f :: f in fired ==> f !in Due(left, x)
  {
    if fired != [] {
      var n := |fired| - 1;
      var init, last := fired[..n], fired[n];
      FiringLeaves(es, current, respond, init, x);
      var before := Left(es, current, respond, init) - {last};
      assert Polite(respond(last), last, current);
      OpsLeave(before, respond(last).ops, current, x);
      assert fired == init + [last];
    }
  }

  /** A pass that does not fire an expired timer fires another one due no later, and brings none due
      that early. */
  lemma PassAdvances(es: set<Entry>, current: int, respond: Entry -> Answer, fired: seq<Entry>, next: set<Entry>,
                     x: Entry)
    requires AllPolite(respond, current) && SparesAll(respond, x.timer) && Positive(es)
    requires Pass(es, current, respond, fired, next)
    requires x in es && Expired(x, current) && x !in fired
    ensures x in next && |Due(next, x)| < |Due(es, x)|
  {
    FiringLeaves(es, current, respond, fired, x);
    FiredFirst(es, current, respond, fired);
    FiredWithin(es, current, respond, fired);
    assert x in next;
    var last := fired[|fired| - 1];
    assert last in fired && last.expire <= x.expire;
    assert Polite(respond(last), last, current);
    ExpiredIff(x, current);
    SmallerSet(Due(next, x), Due(es, x), last);
  }

  // ------------------------------------------------------------ runs

  /** The queue and the clock of the current turn. */
  datatype Clock = Clock(es: set<Entry>, current: int)

  datatype Happening =
    | Tick(now: int)
    | FirePass(respond: Entry -> Answer, fired: seq<Entry>, next: set<Entry>)
    | Request(op: Op)

  ghost predicate CanHappen(c: Clock, h: Happening) {
    match h
    case Tick(now) => now >= c.current
    case FirePass(respond, fired, next) => AllPolite(respond, c.current) && Pass(c.es, c.current, respond, fired, next)
    case Request(op) => Ahead(op, c.current)
  }

  function Happen(c: Clock, h: Happening): Clock {
    match h
    case Tick(now) => c.(current := now)
    case FirePass(_, _, next) => c.(es := next)
    case Request(op) => c.(es := After(c.es, op, c.current))
  }

  ghost predicate CanRun(c: Clock, hs: seq<Happening>)
    decreases |hs|
  {
    hs == [] || (CanHappen(c, hs[0]) && CanRun(Happen(c, hs[0]), hs[1..]))
  }

  /** Nobody schedules the timer anew. */
  ghost predicate LeftAlone(hs: seq<Happening>, timer: nat) {
    forall i :: 0 <= i < |hs| ==> LetsBe(hs[i], timer)
  }

  ghost predicate LetsBe(h: Happening, timer: nat) {
    match h
    case Tick(_) => true
    case FirePass(respond, _, _) => SparesAll(respond, timer)
    case Request(op) => Spares(op, timer)
  }

  function Passes(hs: seq<Happening>): nat {
    if hs == [] then 0 else (if hs[0].FirePass? then 1 else 0) + Passes(hs[1..])
  }

  ghost predicate Fires(hs: seq<Happening>, x: Entry) {
    exists i :: 0 <= i < |hs| && hs[i].FirePass? && x in hs[i].fired
  }

  lemma PositiveStays(c: Clock, h: Happening)
    requires Positive(c.es) && CanHappen(c, h)
    ensures Positive(Happen(c, h).es)
  {
    if h.FirePass? {
      KeepsPositive(c.es, c.current, h.respond, h.fired);
      FiredWithin(c.es, c.current, h.respond, h.fired);
    }
  }

  /** Bounded waiting: an expired timer with k others due no later fires within k + 1 passes, whatever
      callbacks and other threads schedule or cancel meanwhile. */
  lemma {:induction false} BoundedWaiting(c: Clock, hs: seq<Happening>, x: Entry)
    requires Positive(c.es) && CanRun(c, hs) && LeftAlone(hs, x.timer)
    requires x in c.es && Expired(x, c.current) && Passes(hs) > |Due(c.es, x)|
    ensures Fires(hs, x)
    decreases |hs|
  {
    var h, rest := hs[0], hs[1..];
    assert LetsBe(h, x.timer);
    if h.FirePass? && x in h.fired {
    } else {
      StillWaiting(c, h, x);
      PositiveStays(c, h);
      forall i | 0 <= i < |rest| ensures LetsBe(rest[i], x.timer) { assert rest[i] == hs[i + 1]; }
      BoundedWaiting(Happen(c, h), rest, x);
      var i :| 0 <= i < |rest| && rest[i].FirePass? && x in rest[i].fired;
      assert hs[i + 1] == rest[i];
    }
  }

  lemma StillWaiting(c: Clock, h: Happening, x: Entry)
    requires Positive(c.es) && CanHappen(c, h) && LetsBe(h, x.timer) && x in c.es && Expired(x, c.current)
    requires h.FirePass? ==> x !in h.fired
    ensures var d := Happen(c, h);
      x in d.es && Expired(x, d.current) && |Due(d.es, x)| + (if h.FirePass? then 1 else 0) <= |Due(c.es, x)|
  {
    ExpiredIff(x, c.current);
    match h
    case Tick(now) => ExpiredIff(x, now);
    case FirePass(respond, fired, next) => PassAdvances(c.es, c.current, respond, fired, next, x);
    case Request(op) =>
      OpsLeave(c.es, [op], c.current, x);
      assert [op][..0] == [];
      SubsetSize(Due(After(c.es, op, c.current), x), Due(c.es, x));
  }
}
