/** The counting semaphore over a kernel semaphore, for one signalling and one waiting thread,
    as a transition system: each atomic operation on the count and each operation on the kernel
    semaphore is one step. */
module Semaphore {
  /** The signalling thread: idle, or owing the kernel semaphore a token. */
  datatype Signaller = SIdle | SPost

  /** The waiting thread inside `tryWait` (WTry..) or `wait` with a timeout in microseconds;
      a negative timeout waits for ever. */
  datatype Waiter =
    | WIdle
    | WTryLoad(spin: bool, timeout: int)
    | WTryDec
    | WSpin(left: nat, timeout: int)
    | WDec(timeout: int)
    | WSleep(timeout: int)
    | WUndo
    | WRedo
    | WTryToken

  datatype Sema = Sema(count: int, tokens: nat, sig: Signaller, wait: Waiter)

  datatype Act =
    | Signal(n: nat)
    | Post
    | CallTryWait
    | CallWait(timeout: int)
    | Waits
    | GivesUp        // the kernel's wait times out, or fails with an error

  datatype Answer = Silent | Granted | Refused

  const SPINS: nat := 1024

  predicate Enabled(s: Sema, a: Act) {
    match a
    case Signal(_) => s.sig.SIdle?
    case Post => s.sig.SPost?
    case CallTryWait => s.wait.WIdle?
    case CallWait(_) => s.wait.WIdle?
    case Waits => !s.wait.WIdle? && (s.wait.WSleep? ==> s.tokens > 0)
    case GivesUp => s.wait.WSleep?
  }

  function Step(s: Sema, a: Act): (Sema, Answer)
    requires Enabled(s, a)
  {
    match a
    case Signal(n) => (s.(count := s.count + n, sig := if s.count < 0 then SPost else SIdle), Silent)
    case Post => (s.(tokens := s.tokens + 1, sig := SIdle), Silent)
    case CallTryWait => (s.(wait := WTryLoad(false, 0)), Silent)
    case CallWait(t) => (s.(wait := WTryLoad(true, t)), Silent)
    case GivesUp => (s.(wait := WUndo), Silent)
    case Waits =>
      match s.wait
      case WTryLoad(spin, t) =>
        if s.count > 0 then (s.(wait := WTryDec), Silent)
        else if spin then (s.(wait := WSpin(SPINS, t)), Silent)
        else (s.(wait := WIdle), Refused)
      case WTryDec => (s.(count := s.count - 1, wait := WIdle), Granted)
      case WSpin(left, t) =>
        if left == 0 then (s.(wait := WDec(t)), Silent)
        else if s.count > 0 then (s.(wait := WTryDec), Silent)
        else (s.(wait := WSpin(left - 1, t)), Silent)
      case WDec(t) =>
        if s.count > 0 then (s.(count := s.count - 1, wait := WIdle), Granted)
        else (s.(count := s.count - 1, wait := if t == 0 then WUndo else WSleep(t)), Silent)
      case WSleep(_) => (s.(tokens := s.tokens - 1, wait := WIdle), Granted)
      case WUndo =>
        if s.count < 0 then (s.(count := s.count + 1, wait := WIdle), Refused)
        else (s.(count := s.count + 1, wait := WRedo), Silent)
      case WRedo => (s.(count := s.count - 1, wait := if s.count > 0 then WTryToken else WUndo), Silent)
      case WTryToken =>
        if s.tokens > 0 then (s.(tokens := s.tokens - 1, wait := WIdle), Granted)
        else (s.(wait := WUndo), Silent)
  }

  // ------------------------------------------------------------ the books

  /** Permits taken off the count by a wait that has not answered yet. */
  function Held(w: Waiter): nat { if w.WSleep? || w.WUndo? || w.WTryToken? then 1 else 0 }

  /** Kernel tokens posted or owed. */
  function Due(s: Sema): nat { s.tokens + (if s.sig.SPost? then 1 else 0) }

  /** The waiter went below zero and has since been signalled. */
  predicate Answered(s: Sema) { s.wait.WRedo? || (Held(s.wait) == 1 && s.count >= 0) }

  /** `signalled` and `granted` are the permits given and taken since the start. */
  predicate Books(s: Sema, signalled: nat, granted: nat) {
    && s.count == signalled - granted - Held(s.wait)
    && s.count >= -1
    && (Held(s.wait) == 0 ==> s.count >= 0)
    && (s.wait.WTryDec? || s.wait.WRedo? ==> s.count > 0)
    && (s.wait.WTryToken? ==> s.count >= 0)
    && Due(s) == (if Answered(s) then 1 else 0)
  }

  function SignalledBy(a: Act): nat { if a.Signal? then a.n else 0 }

  function GrantedBy(r: Answer): nat { if r.Granted? then 1 else 0 }

  /** A step keeps the books exactly when it is not a signal of no permits to a waiter. */
  lemma StepKeepsBooks(s: Sema, a: Act, signalled: nat, granted: nat)
    requires Books(s, signalled, granted) && Enabled(s, a)
    ensures var (s', r) := Step(s, a);
      Books(s', signalled + SignalledBy(a), granted + GrantedBy(r)) <==> !(a == Signal(0) && s.count < 0)
  {
  }

  // ------------------------------------------------------------ runs

  const START := Sema(0, 0, SIdle, WIdle)

  predicate CanRun(s: Sema, acts: seq<Act>)
    decreases |acts|
  {
    acts == [] || (Enabled(s, acts[0]) && CanRun(Step(s, acts[0]).0, acts[1..]))
  }

  function Exec(s: Sema, acts: seq<Act>): Sema
    requires CanRun(s, acts)
    decreases |acts|
  {
    if acts == [] then s else Exec(Step(s, acts[0]).0, acts[1..])
  }

  function Signalled(acts: seq<Act>): nat {
    if acts == [] then 0 else SignalledBy(acts[0]) + Signalled(acts[1..])
  }

  function Grants(s: Sema, acts: seq<Act>): nat
    requires CanRun(s, acts)
    decreases |acts|
  {
    if acts == [] then 0 else GrantedBy(Step(s, acts[0]).1) + Grants(Step(s, acts[0]).0, acts[1..])
  }

  /** What the steps answer. */
  function Answers(s: Sema, acts: seq<Act>): (r: seq<Answer>)
    requires CanRun(s, acts)
    ensures |r| == |acts|
    decreases |acts|
  {
    if acts == [] then [] else [Step(s, acts[0]).1] + Answers(Step(s, acts[0]).0, acts[1..])
  }

  predicate Positive(acts: seq<Act>) {
    forall i :: 0 <= i < |acts| && acts[i].Signal? ==> acts[i].n >= 1
  }

  lemma {:induction false} RunKeepsBooks(s: Sema, acts: seq<Act>, signalled: nat, granted: nat)
    requires Books(s, signalled, granted) && CanRun(s, acts) && Positive(acts)
    ensures Books(Exec(s, acts), signalled + Signalled(acts), granted + Grants(s, acts))
    decreases |acts|
  {
    if acts != [] {
      StepKeepsBooks(s, acts[0], signalled, granted);
      RunKeepsBooks(Step(s, acts[0]).0, acts[1..], signalled + SignalledBy(acts[0]),
                    granted + GrantedBy(Step(s, acts[0]).1));
    }
  }

  /** In every run no more permits are granted than were signalled. While no wait is under way
      and no signal is half done, the count is exactly the difference and no kernel token is
      posted or owed. */
  lemma Conservation(acts: seq<Act>)
    requires CanRun(START, acts) && Positive(acts)
    ensures Grants(START, acts) <= Signalled(acts)
    ensures Exec(START, acts).wait.WIdle? ==>
              && Exec(START, acts).count == Signalled(acts) - Grants(START, acts) >= 0
              && Exec(START, acts).tokens == 0 && Exec(START, acts).sig.SIdle?
    ensures Exec(START, acts).count >= -1
    ensures Exec(START, acts).wait.WSleep? && Signalled(acts) > Grants(START, acts) ==>
              Exec(START, acts).tokens > 0 || Exec(START, acts).sig.SPost?
  {
    RunKeepsBooks(START, acts, 0, 0);
    BooksMean(Exec(START, acts), Signalled(acts), Grants(START, acts));
  }

  lemma BooksMean(s: Sema, signalled: nat, granted: nat)
    requires Books(s, signalled, granted)
    ensures granted <= signalled && s.count >= -1
    ensures s.wait.WIdle? ==> s.count == signalled - granted && s.tokens == 0 && s.sig.SIdle?
    ensures s.wait.WSleep? && signalled > granted ==> s.tokens > 0 || s.sig.SPost?
  {
  }

  lemma {:induction false} AnswerAt(s: Sema, acts: seq<Act>, j: nat)
    requires CanRun(s, acts) && j < |acts|
    ensures CanRun(s, acts[..j]) && Enabled(Exec(s, acts[..j]), acts[j])
    ensures Answers(s, acts)[j] == Step(Exec(s, acts[..j]), acts[j]).1
    decreases |acts|
  {
    if j > 0 {
      AnswerAt(Step(s, acts[0]).0, acts[1..], j - 1);
      assert acts[..j][1..] == acts[1..][..j - 1];
    }
  }

  /** A refusal is justified: a `tryWait` or `wait` answers so only at an instant at which every permit
      signalled so far has been granted. */
  lemma RefusedOnlyWithout(acts: seq<Act>, j: nat)
    requires CanRun(START, acts) && Positive(acts) && j < |acts| && Answers(START, acts)[j].Refused?
    ensures CanRun(START, acts[..j]) && Signalled(acts[..j]) == Grants(START, acts[..j])
  {
    AnswerAt(START, acts, j);
    PositivePrefix(acts, j);
    RefusedNext(START, acts[..j], acts[j]);
  }

  lemma PositivePrefix(acts: seq<Act>, j: nat)
    requires Positive(acts) && j <= |acts|
    ensures Positive(acts[..j])
  {
    forall i | 0 <= i < j && acts[..j][i].Signal? ensures acts[..j][i].n >= 1 { assert acts[..j][i] == acts[i]; }
  }

  lemma RefusedNext(s: Sema, before: seq<Act>, a: Act)
    requires Books(s, 0, 0) && CanRun(s, before) && Positive(before) && Enabled(Exec(s, before), a)
    requires Step(Exec(s, before), a).1.Refused?
    ensures Signalled(before) == Grants(s, before)
  {
    RunKeepsBooks(s, before, 0, 0);
    RefusedState(Exec(s, before), a, Signalled(before), Grants(s, before));
  }

  lemma RefusedState(s: Sema, a: Act, signalled: nat, granted: nat)
    requires Books(s, signalled, granted) && Enabled(s, a) && Step(s, a).1.Refused?
    ensures signalled == granted
  {
  }

  /** A call that is left alone answers in two or three steps: it takes a permit if there is one, and
      without one `tryWait` is refused. */
  ghost predicate Alone(s: Sema, call: Act, permit: bool) {
    if permit then CanRun(s, [call, Waits, Waits]) && Answers(s, [call, Waits, Waits]) == [Silent, Silent, Granted]
    else call.CallTryWait? ==> CanRun(s, [call, Waits]) && Answers(s, [call, Waits]) == [Silent, Refused]
  }

  /** There is a permit exactly if more were signalled than granted. */
  lemma CallAlone(acts: seq<Act>, call: Act)
    requires CanRun(START, acts) && Positive(acts) && Exec(START, acts).wait.WIdle?
    requires call.CallTryWait? || call.CallWait?
    ensures Alone(Exec(START, acts), call, Signalled(acts) > Grants(START, acts))
  {
    Conservation(acts);
    AloneFrom(Exec(START, acts), call);
  }

  lemma AloneFrom(s: Sema, call: Act)
    requires s.wait.WIdle? && (call.CallTryWait? || call.CallWait?)
    ensures Alone(s, call, s.count > 0)
  {
    var s1 := Step(s, call).0;
    var s2 := Step(s1, Waits).0;
    if s.count > 0 {
      Then(s2, Waits, []);
      Then(s1, Waits, [Waits]);
      Then(s, call, [Waits, Waits]);
      assert [Waits] + [Waits] == [Waits, Waits] && [call] + [Waits, Waits] == [call, Waits, Waits];
    } else if call.CallTryWait? {
      Then(s1, Waits, []);
      Then(s, call, [Waits]);
      assert [call] + [Waits] == [call, Waits];
    }
  }

  lemma Then(s: Sema, a: Act, rest: seq<Act>)
    requires Enabled(s, a) && CanRun(Step(s, a).0, rest)
    ensures CanRun(s, [a] + rest) && Answers(s, [a] + rest) == [Step(s, a).1] + Answers(Step(s, a).0, rest)
    ensures rest == [] ==> CanRun(s, [a]) && Answers(s, [a]) == [Step(s, a).1]
  {
    assert ([a] + rest)[1..] == rest;
    if rest == [] { assert [a] + rest == [a]; }
  }

  /** A wait that has timed out, left alone by a signaller that owes nothing, takes the permit that came
      too late for the kernel to tell, and is refused without one. */
  ghost predicate AnswersLate(s: Sema, permit: bool) {
    if permit then CanRun(s, [Waits, Waits, Waits]) && Answers(s, [Waits, Waits, Waits]) == [Silent, Silent, Granted]
    else CanRun(s, [Waits]) && Answers(s, [Waits]) == [Refused]
  }

  lemma TimedOutAlone(acts: seq<Act>)
    requires CanRun(START, acts) && Positive(acts)
    requires Exec(START, acts).wait.WUndo? && Exec(START, acts).sig.SIdle?
    ensures AnswersLate(Exec(START, acts), Signalled(acts) > Grants(START, acts))
  {
    RunKeepsBooks(START, acts, 0, 0);
    LateFrom(Exec(START, acts), Signalled(acts), Grants(START, acts));
  }

  lemma LateFrom(s: Sema, signalled: nat, granted: nat)
    requires Books(s, signalled, granted) && s.wait.WUndo? && s.sig.SIdle?
    ensures AnswersLate(s, signalled > granted)
  {
    var s1 := Step(s, Waits).0;
    if s.count >= 0 {
      var s2 := Step(s1, Waits).0;
      Then(s2, Waits, []);
      Then(s1, Waits, [Waits]);
      Then(s, Waits, [Waits, Waits]);
      assert [Waits] + [Waits] == [Waits, Waits] && [Waits] + [Waits, Waits] == [Waits, Waits, Waits];
    } else {
      Then(s, Waits, []);
    }
  }

  /** A thread that waits with a timeout of 0 or only tries never sleeps. */
  lemma ZeroNeverSleeps(acts: seq<Act>)
    requires CanRun(START, acts) && forall i :: 0 <= i < |acts| && acts[i].CallWait? ==> acts[i].timeout == 0
    ensures !Exec(START, acts).wait.WSleep?
  {
    StaysAwake(START, acts);
  }

  predicate Hurries(w: Waiter) {
    !w.WSleep? && (w.WTryLoad? || w.WSpin? || w.WDec? ==> w.timeout == 0)
  }

  lemma {:induction false} StaysAwake(s: Sema, acts: seq<Act>)
    requires CanRun(s, acts) && Hurries(s.wait)
    requires forall i :: 0 <= i < |acts| && acts[i].CallWait? ==> acts[i].timeout == 0
    ensures Hurries(Exec(s, acts).wait)
    decreases |acts|
  {
    if acts != [] { StaysAwake(Step(s, acts[0]).0, acts[1..]); }
  }

  lemma {:induction false} RunSplit(s: Sema, a: seq<Act>, b: seq<Act>)
    requires CanRun(s, a) && CanRun(Exec(s, a), b)
    ensures CanRun(s, a + b) && Exec(s, a + b) == Exec(Exec(s, a), b)
    ensures Grants(s, a + b) == Grants(s, a) + Grants(Exec(s, a), b) && Signalled(a + b) == Signalled(a) + Signalled(b)
    decreases |a|
  {
    if a == [] {
      assert a + b == b;
    } else {
      assert (a + b)[1..] == a[1..] + b && (a + b)[0] == a[0];
      RunSplit(Step(s, a[0]).0, a[1..], b);
    }
  }

  /** A wait that is refused, timed out or not, leaves the count as it would be without it. */
  lemma RefusalRestores(s: Sema, call: seq<Act>, signalled: nat, granted: nat)
    requires Books(s, signalled, granted) && s.wait.WIdle?
    requires CanRun(s, call) && Positive(call) && Exec(s, call).wait.WIdle? && Grants(s, call) == 0
    ensures Exec(s, call).count == s.count + Signalled(call)
  {
    RunKeepsBooks(s, call, signalled, granted);
  }

  // ------------------------------------------------------------ where it fails

  /** A signal of no permits, which the source's assertion lets through, wakes a sleeper: a
      permit is granted that was never signalled. */
  lemma ZeroSignalGrants(timeout: int) returns (acts: seq<Act>)
    requires timeout != 0
    ensures CanRun(START, acts) && Signalled(acts) == 0 && Grants(START, acts) == 1
  {
    var sleep := FallAsleep(timeout);
    var wake := WokenByNothing(timeout);
    RunSplit(START, sleep, wake);
    acts := sleep + wake;
  }

  lemma WokenByNothing(timeout: int) returns (acts: seq<Act>)
    ensures var s := Sema(-1, 0, SIdle, WSleep(timeout));
      CanRun(s, acts) && Signalled(acts) == 0 && Grants(s, acts) == 1
  {
    var s := Sema(-1, 0, SIdle, WSleep(timeout));
    var s1 := Step(s, Signal(0)).0;
    RunOne(s, Signal(0));
    RunOne(s1, Post);
    RunOne(Step(s1, Post).0, Waits);
    RunSplit(s1, [Post], [Waits]);
    RunSplit(s, [Signal(0)], [Post] + [Waits]);
    acts := [Signal(0)] + ([Post] + [Waits]);
  }

  lemma FallAsleep(timeout: int) returns (acts: seq<Act>)
    requires timeout != 0
    ensures CanRun(START, acts) && Exec(START, acts) == Sema(-1, 0, SIdle, WSleep(timeout))
    ensures Grants(START, acts) == 0 && Signalled(acts) == 0
  {
    var s1 := Step(START, CallWait(timeout)).0;
    RunOne(START, CallWait(timeout));
    RunOne(s1, Waits);
    Spun(SPINS, timeout);
    var fall := seq(SPINS + 1, _ => Waits) + [Waits];
    RunSplit(s1, [Waits], fall);
    RunSplit(START, [CallWait(timeout)], [Waits] + fall);
    acts := [CallWait(timeout)] + ([Waits] + fall);
  }

  lemma RunOne(s: Sema, a: Act)
    requires Enabled(s, a)
    ensures CanRun(s, [a]) && Exec(s, [a]) == Step(s, a).0
    ensures Grants(s, [a]) == GrantedBy(Step(s, a).1) && Signalled([a]) == SignalledBy(a)
  {
    assert [a][1..] == [];
  }

  /** With the count at zero the spin loop runs out and the waiter goes to sleep. */
  lemma {:induction false} Spun(left: nat, timeout: int)
    requires timeout != 0
    ensures var s, acts := Sema(0, 0, SIdle, WSpin(left, timeout)), seq(left + 1, _ => Waits) + [Waits];
      && CanRun(s, acts) && Exec(s, acts) == Sema(-1, 0, SIdle, WSleep(timeout))
      && Grants(s, acts) == 0 && Signalled(acts) == 0
    decreases left
  {
    var s := Sema(0, 0, SIdle, WSpin(left, timeout));
    var acts := seq(left + 1, _ => Waits) + [Waits];
    RunOne(s, Waits);
    if left == 0 {
      var s1 := Step(s, Waits).0;
      RunOne(s1, Waits);
      RunSplit(s, [Waits], [Waits]);
      assert acts == [Waits] + [Waits];
    } else {
      var rest := seq(left, _ => Waits) + [Waits];
      Spun(left - 1, timeout);
      RunSplit(s, [Waits], rest);
      assert acts == [Waits] + rest;
    }
  }
}
