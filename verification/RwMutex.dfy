/**
 * The reader-writer lock of `mutex.h` as a protocol over threads. A step is one critical section of
 * its counter mutex: what a thread does from taking that mutex until it gives it up, by returning or
 * by going to sleep on a condition variable.
 */
module RwMutexes {
  import opened Collections

  type Thread(==, !new)

  /** A condition variable: the threads asleep on it, and those woken that have yet to look again. */
  datatype Waiters = Waiters(sleeping: set<Thread>, woken: set<Thread>) {
    function All(): set<Thread> {
      sleeping + woken
    }

    function Sleep(t: Thread): Waiters {
      Waiters(sleeping + {t}, woken - {t})
    }

    function Wake(t: Thread): Waiters {
      Waiters(sleeping - {t}, woken + {t})
    }

    function Leave(t: Thread): Waiters {
      Waiters(sleeping, woken - {t})
    }

    /** `chosen` is the thread that `notify_one` picks, if there is one to pick. */
    predicate CanNotify(chosen: Option<Thread>) {
      if chosen.None? then sleeping == {} else chosen.value in sleeping
    }

    function NotifyOne(chosen: Option<Thread>): Waiters {
      if chosen.None? then this else Wake(chosen.value)
    }

    function NotifyAll(): Waiters {
      Waiters({}, sleeping + woken)
    }
  }

  /**
   * The three counters, and where each thread stands. The counters are integers: that they never drop below
   * zero is proved.
   */
  datatype State = State(readCount: int, writeCount: int, writing: bool,
                         reading: set<Thread>, holding: set<Thread>,
                         readers: Waiters, writers: Waiters)
  {
    predicate Idle(t: Thread) {
      t !in reading && t !in holding && t !in readers.All() && t !in writers.All()
    }

    predicate MayRead() {
      writeCount == 0
    }

    predicate MayWrite() {
      readCount == 0 && !writing
    }
  }

  const INITIAL := State(0, 0, false, {}, {}, Waiters({}, {}), Waiters({}, {}))

  datatype Step =
    | LockRead(t: Thread)
    | CheckRead(t: Thread)
    | LockWrite(t: Thread)
    | CheckWrite(t: Thread)
    | ReleaseRead(t: Thread, chosen: Option<Thread>)
    | ReleaseWrite(t: Thread, chosen: Option<Thread>)
    | SpuriousRead(t: Thread)
    | SpuriousWrite(t: Thread)

  // ---------------------------------------------------------------- the steps

  /** The wait loop of `lock_read`: go on, or sleep. */
  function WaitRead(s: State, t: Thread): State {
    if s.MayRead() then s.(readCount := s.readCount + 1, reading := s.reading + {t}, readers := s.readers.Leave(t))
    else s.(readers := s.readers.Sleep(t))
  }

  function WaitWrite(s: State, t: Thread): State {
    if s.MayWrite() then s.(writing := true, holding := s.holding + {t}, writers := s.writers.Leave(t))
    else s.(writers := s.writers.Sleep(t))
  }

  function LeaveRead(s: State, t: Thread, chosen: Option<Thread>): State {
    var s' := s.(readCount := s.readCount - 1, reading := s.reading - {t});
    if s'.readCount == 0 && s'.writeCount > 0 then s'.(writers := s'.writers.NotifyOne(chosen)) else s'
  }

  function LeaveWrite(s: State, t: Thread, chosen: Option<Thread>): State {
    var s' := s.(writeCount := s.writeCount - 1, holding := s.holding - {t}, writing := false);
    if s'.writeCount == 0 then s'.(readers := s'.readers.NotifyAll()) else s'.(writers := s'.writers.NotifyOne(chosen))
  }

  /**
   * Who may take a step: idle threads lock, woken ones look again, holders release, sleepers may wake for no
   * reason.
   */
  predicate Enabled(s: State, step: Step) {
    match step
    case LockRead(t) => s.Idle(t)
    case CheckRead(t) => t in s.readers.woken
    case LockWrite(t) => s.Idle(t)
    case CheckWrite(t) => t in s.writers.woken
    case ReleaseRead(t, chosen) => t in s.reading && s.writers.CanNotify(chosen)
    case ReleaseWrite(t, chosen) => t in s.holding && s.writers.CanNotify(chosen)
    case SpuriousRead(t) => t in s.readers.sleeping
    case SpuriousWrite(t) => t in s.writers.sleeping
  }

  function Apply(s: State, step: Step): State {
    match step
    case LockRead(t) => WaitRead(s, t)
    case CheckRead(t) => WaitRead(s, t)
    case LockWrite(t) => WaitWrite(s.(writeCount := s.writeCount + 1), t)
    case CheckWrite(t) => WaitWrite(s, t)
    case ReleaseRead(t, chosen) => LeaveRead(s, t, chosen)
    case ReleaseWrite(t, chosen) => LeaveWrite(s, t, chosen)
    case SpuriousRead(t) => s.(readers := s.readers.Wake(t))
    case SpuriousWrite(t) => s.(writers := s.writers.Wake(t))
  }

  /** Every step of the run is enabled when it is taken. */
  predicate IsRun(s: State, steps: seq<Step>)
    decreases |steps|
  {
    steps == [] || (Enabled(s, steps[0]) && IsRun(Apply(s, steps[0]), steps[1..]))
  }

  function After(s: State, steps: seq<Step>): State
    decreases |steps|
  {
    if steps == [] then s else After(Apply(s, steps[0]), steps[1..])
  }

  // ---------------------------------------------------------------- what every step keeps

  function One(b: bool): nat {
    if b then 1 else 0
  }

  /** In how many places `t` stands. */
  function Places(s: State, t: Thread): nat {
    One(t in s.reading) + One(t in s.holding)
    + One(t in s.readers.sleeping) + One(t in s.readers.woken)
    + One(t in s.writers.sleeping) + One(t in s.writers.woken)
  }

  /** No thread stands in two places. */
  ghost predicate Apart(s: State) {
    forall t :: Places(s, t) <= 1
  }

  /** The counters count: readers inside; writers inside or waiting; a writer inside. */
  predicate Counted(s: State) {
    && s.readCount == |s.reading|
    && s.writeCount == |s.holding| + |s.writers.sleeping| + |s.writers.woken|
    && |s.holding| == (if s.writing then 1 else 0)
  }

  /** Never two writers, never a reader with a writer. */
  predicate Exclusive(s: State) {
    && |s.holding| <= 1
    && (s.holding == {} || s.reading == {})
  }

  /** Nobody sleeps unless someone is bound to wake them. */
  predicate NoLostWakeup(s: State) {
    && (s.readers.sleeping != {} ==> s.writeCount > 0)
    && (s.writers.sleeping != {} ==> s.reading != {} || s.holding != {} || s.writers.woken != {})
  }

  ghost predicate Invariant(s: State) {
    Apart(s) && Counted(s) && Exclusive(s) && NoLostWakeup(s)
  }

  lemma Added(s: set<Thread>, t: Thread)
    requires t !in s
    ensures |s + {t}| == |s| + 1
  {
  }

  lemma Removed(s: set<Thread>, t: Thread)
    ensures |s - {t}| == |s| - (if t in s then 1 else 0)
  {
  }

  lemma Empty(s: set<Thread>)
    ensures |s| == 0 <==> s == {}
  {
  }

  /** Only the place of `t` has changed, or some have been woken, and nobody is in one place more. */
  lemma ApartStays(s: State, s': State)
    requires Apart(s) && forall t :: Places(s', t) <= Places(s, t) || Places(s', t) == 1
    ensures Apart(s')
  {
    hide Places;
  }

  lemma WaitReadApart(s: State, t: Thread)
    requires Apart(s) && (s.Idle(t) || t in s.readers.woken)
    ensures Apart(WaitRead(s, t)) && t !in s.reading
  {
    var s' := WaitRead(s, t);
    assert Places(s, t) <= 1;
    forall u ensures Places(s', u) == (if u == t then 1 else Places(s, u)) {
    }
    ApartStays(s, s');
  }

  lemma WaitReadKeeps(s: State, t: Thread)
    requires Invariant(s) && (s.Idle(t) || t in s.readers.woken)
    ensures Invariant(WaitRead(s, t))
  {
    WaitReadApart(s, t);
    hide Apart, Places, State.Idle, Waiters.All;
    var s' := WaitRead(s, t);
    assert s'.holding == s.holding && s'.writers == s.writers;
    assert s'.writeCount == s.writeCount && s'.writing == s.writing;
    if s.MayRead() {
      assert s'.reading == s.reading + {t} && s'.readCount == s.readCount + 1;
      assert s'.readers.sleeping == s.readers.sleeping;
      hide WaitRead, Waiters.Leave, Waiters.Sleep;
      Added(s.reading, t);
      Empty(s.holding);
    } else {
      assert s'.reading == s.reading && s'.readCount == s.readCount;
      hide WaitRead, Waiters.Leave, Waiters.Sleep;
    }
  }

  /** What holds when writer `t` looks whether it may go in: it is counted, wherever it stands. */
  ghost predicate Announced(s: State, t: Thread) {
    && Apart(s) && (s.Idle(t) || t in s.writers.woken)
    && s.readCount == |s.reading|
    && s.writeCount == |s.holding| + |s.writers.sleeping| + |s.writers.woken - {t}| + 1
    && |s.holding| == (if s.writing then 1 else 0)
    && Exclusive(s) && NoLostWakeup(s)
  }

  lemma AnnounceApart(s: State, n: int)
    requires Apart(s)
    ensures Apart(s.(writeCount := n))
  {
    forall u ensures Places(s.(writeCount := n), u) == Places(s, u) {
    }
    ApartStays(s, s.(writeCount := n));
  }

  lemma AnnounceKeeps(s: State, t: Thread)
    requires Invariant(s)
    ensures s.Idle(t) ==> Announced(s.(writeCount := s.writeCount + 1), t)
    ensures t in s.writers.woken ==> Announced(s, t)
  {
    AnnounceApart(s, s.writeCount + 1);
    hide Apart, Places;
    Removed(s.writers.woken, t);
  }

  lemma WaitWriteApart(s: State, t: Thread)
    requires Apart(s) && (s.Idle(t) || t in s.writers.woken)
    ensures Apart(WaitWrite(s, t)) && t !in s.holding && t !in s.writers.sleeping
  {
    var s' := WaitWrite(s, t);
    assert Places(s, t) <= 1;
    forall u ensures Places(s', u) == (if u == t then 1 else Places(s, u)) {
    }
    ApartStays(s, s');
  }

  lemma WriteEnters(s: State, t: Thread)
    requires Announced(s, t) && s.MayWrite()
    ensures Invariant(WaitWrite(s, t))
  {
    WaitWriteApart(s, t);
    hide Apart, Places, State.Idle, Waiters.All;
    var s' := WaitWrite(s, t);
    Empty(s.holding);
    Empty(s.reading);
    assert s'.holding == {t};
  }

  lemma WriteSleeps(s: State, t: Thread)
    requires Announced(s, t) && !s.MayWrite()
    ensures Invariant(WaitWrite(s, t))
  {
    WaitWriteApart(s, t);
    hide Apart, Places, State.Idle, Waiters.All;
    Added(s.writers.sleeping, t);
    Empty(s.holding);
    Empty(s.reading);
  }

  lemma NotifyOneKeeps(w: Waiters, chosen: Option<Thread>)
    requires w.sleeping !! w.woken && w.CanNotify(chosen)
    ensures var w' := w.NotifyOne(chosen);
            && |w'.sleeping| + |w'.woken| == |w.sleeping| + |w.woken|
            && (w'.sleeping != {} ==> w'.woken != {})
  {
  }

  lemma WritersApart(s: State)
    requires Apart(s)
    ensures s.writers.sleeping !! s.writers.woken
  {
    forall t | t in s.writers.sleeping ensures t !in s.writers.woken {
      assert Places(s, t) <= 1;
    }
  }

  lemma LeaveApart(s: State, t: Thread, chosen: Option<Thread>)
    requires Apart(s) && s.writers.CanNotify(chosen)
    ensures Apart(LeaveRead(s, t, chosen)) && Apart(LeaveWrite(s, t, chosen))
  {
    forall u
      ensures Places(LeaveRead(s, t, chosen), u) <= Places(s, u) && Places(LeaveWrite(s, t, chosen), u) <= Places(s, u)
    {
      assert Places(s, u) <= 1;
    }
    ApartStays(s, LeaveRead(s, t, chosen));
    ApartStays(s, LeaveWrite(s, t, chosen));
  }

  lemma LeaveReadKeeps(s: State, t: Thread, chosen: Option<Thread>)
    requires Invariant(s) && t in s.reading && s.writers.CanNotify(chosen)
    ensures Invariant(LeaveRead(s, t, chosen))
  {
    LeaveApart(s, t, chosen);
    WritersApart(s);
    NotifyOneKeeps(s.writers, chosen);
    hide Apart;
    Removed(s.reading, t);
    Empty(s.reading - {t});
    Empty(s.writers.sleeping);
  }

  lemma LeaveWriteKeeps(s: State, t: Thread, chosen: Option<Thread>)
    requires Invariant(s) && t in s.holding && s.writers.CanNotify(chosen)
    ensures Invariant(LeaveWrite(s, t, chosen))
  {
    LeaveApart(s, t, chosen);
    WritersApart(s);
    NotifyOneKeeps(s.writers, chosen);
    hide Apart;
    Removed(s.holding, t);
    Empty(s.writers.sleeping);
    Empty(s.writers.woken);
  }

  lemma WakeApart(s: State, s': State, t: Thread)
    requires Apart(s)
    requires || (s' == s.(readers := s.readers.Wake(t)) && t in s.readers.sleeping)
             || (s' == s.(writers := s.writers.Wake(t)) && t in s.writers.sleeping)
    ensures Apart(s')
  {
    forall u ensures Places(s', u) <= Places(s, u) {
      assert Places(s, u) <= 1;
    }
    ApartStays(s, s');
  }

  lemma SpuriousReadKeeps(s: State, t: Thread)
    requires Invariant(s) && t in s.readers.sleeping
    ensures Invariant(Apply(s, SpuriousRead(t)))
  {
    WakeApart(s, Apply(s, SpuriousRead(t)), t);
    hide Apart;
  }

  lemma SpuriousWriteKeeps(s: State, t: Thread)
    requires Invariant(s) && t in s.writers.sleeping
    ensures Invariant(Apply(s, SpuriousWrite(t)))
  {
    WakeApart(s, Apply(s, SpuriousWrite(t)), t);
    WritersApart(s);
    hide Apart;
    Removed(s.writers.sleeping, t);
    Added(s.writers.woken, t);
  }

  /** Every step keeps the invariant. */
  lemma StepKeeps(s: State, step: Step)
    requires Invariant(s) && Enabled(s, step)
    ensures Invariant(Apply(s, step))
  {
    hide Apart, Counted, Exclusive, NoLostWakeup, WaitRead, WaitWrite, LeaveRead, LeaveWrite;
    match step
    case LockRead(t) => WaitReadKeeps(s, t);
    case CheckRead(t) => WaitReadKeeps(s, t);
    case LockWrite(t) =>
      AnnounceKeeps(s, t);
      var s' := s.(writeCount := s.writeCount + 1);
      if s'.MayWrite() { WriteEnters(s', t); } else { WriteSleeps(s', t); }
    case CheckWrite(t) =>
      AnnounceKeeps(s, t);
      if s.MayWrite() { WriteEnters(s, t); } else { WriteSleeps(s, t); }
    case ReleaseRead(t, chosen) => LeaveReadKeeps(s, t, chosen);
    case ReleaseWrite(t, chosen) => LeaveWriteKeeps(s, t, chosen);
    case SpuriousRead(t) => SpuriousReadKeeps(s, t);
    case SpuriousWrite(t) => SpuriousWriteKeeps(s, t);
  }

  lemma {:induction false} RunKeeps(s: State, steps: seq<Step>)
    requires Invariant(s) && IsRun(s, steps)
    ensures Invariant(After(s, steps))
    decreases |steps|
  {
    if steps != [] {
      StepKeeps(s, steps[0]);
      RunKeeps(Apply(s, steps[0]), steps[1..]);
    }
  }

  /** Whatever threads do, in whatever order, from the start. */
  lemma AlwaysSafe(steps: seq<Step>)
    requires IsRun(INITIAL, steps)
    ensures var s := After(INITIAL, steps);
            && Exclusive(s) && NoLostWakeup(s) && s.readCount >= 0 && s.writeCount >= 0
            && (forall t, u :: t in s.holding && u in s.holding ==> t == u)
            && (forall t, u :: !(t in s.holding && u in s.reading))
  {
    RunKeeps(INITIAL, steps);
    var s := After(INITIAL, steps);
    hide After;
    forall t | t in s.holding ensures s.holding == {t} && s.reading == {} {
      OneWriter(s, t);
    }
  }

  /** Writers first: no reader enters while a writer is inside or waiting. */
  lemma WritersFirst(steps: seq<Step>, step: Step, t: Thread)
    requires IsRun(INITIAL, steps)
    requires var s := After(INITIAL, steps);
             Enabled(s, step) && t !in s.reading && t in Apply(s, step).reading
    ensures var s := After(INITIAL, steps);
            s.holding == {} && s.writers.All() == {} && step in {LockRead(t), CheckRead(t)}
  {
    RunKeeps(INITIAL, steps);
    var s := After(INITIAL, steps);
    hide Apart, NoLostWakeup, Exclusive, After;
    Empty(s.holding);
    Empty(s.writers.sleeping);
    Empty(s.writers.woken);
  }

  /** Who gets in: a reader if no writer is inside or waiting, a writer if nobody is inside. Nobody else does. */
  lemma WhoEnters(s: State, step: Step)
    requires Invariant(s) && Enabled(s, step)
    ensures var s' := Apply(s, step);
            match step
            case LockRead(t) => t in s'.reading <==> s.holding == {} && s.writers.All() == {}
            case CheckRead(t) => t in s'.reading <==> s.holding == {} && s.writers.All() == {}
            case LockWrite(t) => t in s'.holding <==> s.reading == {} && s.holding == {}
            case CheckWrite(t) => t in s'.holding <==> s.reading == {} && s.holding == {}
            case _ => s'.reading <= s.reading && s'.holding <= s.holding
  {
    CountersTell(s);
    hide Counted, Exclusive, NoLostWakeup, Apart;
    if step.CheckRead? || step.CheckWrite? {
      WokenAreOutside(s, step.t);
    }
  }

  lemma CountersTell(s: State)
    requires Counted(s)
    ensures s.readCount == 0 <==> s.reading == {}
    ensures s.writeCount == 0 <==> s.holding == {} && s.writers.All() == {}
    ensures s.writing <==> s.holding != {}
  {
    Empty(s.reading);
    Empty(s.holding);
    Empty(s.writers.sleeping);
    Empty(s.writers.woken);
  }

  lemma WokenAreOutside(s: State, t: Thread)
    requires Apart(s) && (t in s.readers.woken || t in s.writers.woken)
    ensures t !in s.reading && t !in s.holding
  {
    assert Places(s, t) <= 1;
  }

  lemma OneIsWoken(w: Waiters, chosen: Option<Thread>)
    requires w.CanNotify(chosen)
    ensures var woken := w.sleeping - w.NotifyOne(chosen).sleeping;
            && (forall x, y :: x in woken && y in woken ==> x == y) && (woken != {} <==> w.sleeping != {})
            && w.NotifyOne(chosen).woken == w.woken + woken
  {
    if chosen.Some? {
      assert w.sleeping - w.NotifyOne(chosen).sleeping == {chosen.value};
    }
  }

  /** The last reader wakes one of the writers asleep, if there are any; other readers wake nobody. */
  lemma WokenByReader(s: State, t: Thread, chosen: Option<Thread>)
    requires Invariant(s) && t in s.reading && s.writers.CanNotify(chosen)
    ensures var s' := LeaveRead(s, t, chosen);
            var woken := s.writers.sleeping - s'.writers.sleeping;
            && s'.readers == s.readers && s'.writers.woken == s.writers.woken + woken
            && (forall x, y :: x in woken && y in woken ==> x == y)
            && (woken != {} <==> s.writers.sleeping != {} && s'.reading == {})
  {
    CountersTell(s);
    OneWriter(s, t);
    OneIsWoken(s.writers, chosen);
    Removed(s.reading, t);
    Empty(s.reading - {t});
    assert s.readCount == |s.reading|;
    hide Counted, Exclusive, NoLostWakeup, Apart, Waiters.CanNotify, Waiters.NotifyOne;
  }

  /** A writer wakes one of the others that are asleep, or else, if no other waits, all readers. */
  lemma WokenByWriter(s: State, t: Thread, chosen: Option<Thread>)
    requires Invariant(s) && t in s.holding && s.writers.CanNotify(chosen)
    ensures var s' := LeaveWrite(s, t, chosen);
            var woken := s.writers.sleeping - s'.writers.sleeping;
            && s'.writers.woken == s.writers.woken + woken && s'.reading == {}
            && (forall x, y :: x in woken && y in woken ==> x == y)
            && (woken != {} <==> s.writers.sleeping != {})
            && s'.readers.sleeping == (if s.writers.All() == {} then {} else s.readers.sleeping)
            && s'.readers.woken == s.readers.woken + (if s.writers.All() == {} then s.readers.sleeping else {})
  {
    OneWriter(s, t);
    OneIsWoken(s.writers, chosen);
    Empty(s.writers.sleeping);
    Empty(s.writers.woken);
    assert s.writeCount == 1 + |s.writers.sleeping| + |s.writers.woken|;
    hide Counted, Exclusive, NoLostWakeup, Apart, Waiters.CanNotify, Waiters.NotifyOne;
  }

  /**
   * Whom a release wakes. The last reader wakes one waiting writer, a writer one of the others or, if it is the
   * last one, all readers; another reader wakes nobody.
   */
  lemma WhoIsWoken(s: State, step: Step)
    requires Invariant(s) && Enabled(s, step) && (step.ReleaseRead? || step.ReleaseWrite?)
    ensures var s' := Apply(s, step);
            var readers, writers := s.readers.sleeping - s'.readers.sleeping, s.writers.sleeping - s'.writers.sleeping;
            && readers == (if step.ReleaseWrite? && s.writers.All() == {} then s.readers.sleeping else {})
            && (forall x, y :: x in writers && y in writers ==> x == y)
            && (writers != {} <==> s.writers.sleeping != {} && s'.reading == {})
            && s'.readers.woken == s.readers.woken + readers && s'.writers.woken == s.writers.woken + writers
  {
    hide *;
    StepIs(s, step);
    if step.ReleaseRead? {
      WokenByReader(s, step.t, step.chosen);
    } else {
      WokenByWriter(s, step.t, step.chosen);
    }
  }

  lemma StepIs(s: State, step: Step)
    ensures step.ReleaseRead? ==>
              Apply(s, step) == LeaveRead(s, step.t, step.chosen)
              && (Enabled(s, step) <==> step.t in s.reading && s.writers.CanNotify(step.chosen))
    ensures step.ReleaseWrite? ==>
              Apply(s, step) == LeaveWrite(s, step.t, step.chosen)
              && (Enabled(s, step) <==> step.t in s.holding && s.writers.CanNotify(step.chosen))
  {
  }

  lemma OneWriter(s: State, t: Thread)
    requires Invariant(s)
    ensures t in s.holding ==> s.holding == {t} && s.reading == {}
    ensures t in s.reading ==> s.holding == {}
  {
    if t in s.holding {
      Removed(s.holding, t);
      Empty(s.holding - {t});
    }
  }

  // ---------------------------------------------------------------- progress

  function Waiting(s: State): set<Thread> {
    s.readers.All() + s.writers.All()
  }

  /** With nobody inside, some woken thread that looks again gets in. */
  lemma SomeoneEnters(s: State) returns (step: Step)
    requires Invariant(s) && s.reading == {} && s.holding == {} && Waiting(s) != {}
    ensures step.CheckRead? || step.CheckWrite?
    ensures Enabled(s, step) && step.t in Apply(s, step).reading + Apply(s, step).holding
  {
    if s.writers.All() != {} {
      assert s.writers.woken != {};
      var t :| t in s.writers.woken;
      step := CheckWrite(t);
    } else {
      assert s.writers.sleeping == {} && s.writers.woken == {};
      assert s.readers.woken != {};
      var t :| t in s.readers.woken;
      step := CheckRead(t);
    }
  }

  /** What is left to do: each waiting thread has to go in and out, each one inside to go out. */
  function Load(s: State): nat {
    2 * (|s.readers.All()| + |s.writers.All()|) + |s.reading| + |s.holding|
  }

  /** The thread `notify_one` might pick. */
  ghost function Pick(w: Waiters): (chosen: Option<Thread>)
    ensures w.CanNotify(chosen)
  {
    if w.sleeping == {} then None
    else
      var t :| t in w.sleeping;
      Some(t)
  }

  /** Those who have yet to look again. */
  function Woken(s: State): nat {
    |s.readers.woken| + |s.writers.woken|
  }

  predicate Deserted(s: State) {
    s.reading == s.holding == {} && Waiting(s) == {}
  }

  /** The steps that are left when no more threads come and nobody wakes for no reason. */
  predicate Finishing(step: Step) {
    step.CheckRead? || step.CheckWrite? || step.ReleaseRead? || step.ReleaseWrite?
  }

  ghost predicate Stuck(s: State) {
    forall step :: Finishing(step) ==> !Enabled(s, step)
  }

  /** No deadlock: nothing is left to do only when nobody is inside or waiting. */
  lemma StuckIsDeserted(s: State)
    requires Invariant(s)
    ensures Stuck(s) <==> Deserted(s)
  {
    if !Deserted(s) {
      if s.reading != {} {
        var t :| t in s.reading;
        assert Enabled(s, ReleaseRead(t, Pick(s.writers)));
      } else if s.holding != {} {
        var t :| t in s.holding;
        assert Enabled(s, ReleaseWrite(t, Pick(s.writers)));
      } else {
        var step := SomeoneEnters(s);
      }
    }
  }

  lemma NotifyKeepsAll(w: Waiters, chosen: Option<Thread>)
    requires w.CanNotify(chosen)
    ensures w.NotifyOne(chosen).All() == w.All() == w.NotifyAll().All()
  {
  }

  /** Every release lightens the load, whichever thread is notified. */
  lemma ReleaseLightens(s: State, t: Thread, chosen: Option<Thread>)
    requires Invariant(s) && s.writers.CanNotify(chosen)
    ensures t in s.reading ==> Load(Apply(s, ReleaseRead(t, chosen))) == Load(s) - 1
    ensures t in s.holding ==> Load(Apply(s, ReleaseWrite(t, chosen))) == Load(s) - 1
  {
    hide Invariant, Waiters.All, Waiters.NotifyOne, Waiters.NotifyAll, Waiters.CanNotify, Pick;
    NotifyKeepsAll(s.writers, chosen);
    NotifyKeepsAll(s.readers, Pick(s.readers));
    Removed(s.reading, t);
    Removed(s.holding, t);
  }

  lemma LeavingAll(w: Waiters, t: Thread)
    requires t in w.woken && t !in w.sleeping
    ensures |w.Leave(t).All()| == |w.All()| - 1
  {
    assert w.Leave(t).All() == w.All() - {t};
    Removed(w.All(), t);
  }

  lemma SleepingAll(w: Waiters, t: Thread)
    requires t in w.woken
    ensures w.Sleep(t).All() == w.All() && |w.Sleep(t).woken| == |w.woken| - 1
  {
    Removed(w.woken, t);
  }

  /** A reader's second look lets it in, or costs one woken thread. */
  lemma LookingReadLightens(s: State, t: Thread)
    requires Invariant(s) && t in s.readers.woken
    ensures var s' := WaitRead(s, t);
            if s.MayRead() then Load(s') == Load(s) - 1 else Load(s') == Load(s) && Woken(s') == Woken(s) - 1
  {
    assert Places(s, t) <= 1;
    LeavingAll(s.readers, t);
    SleepingAll(s.readers, t);
    Added(s.reading, t);
    hide Invariant, Waiters.All, Waiters.Leave, Waiters.Sleep, Places;
  }

  lemma LookingWriteLightens(s: State, t: Thread)
    requires Invariant(s) && t in s.writers.woken
    ensures var s' := WaitWrite(s, t);
            if s.MayWrite() then Load(s') == Load(s) - 1 else Load(s') == Load(s) && Woken(s') == Woken(s) - 1
  {
    assert Places(s, t) <= 1;
    LeavingAll(s.writers, t);
    SleepingAll(s.writers, t);
    Added(s.holding, t);
    hide Invariant, Waiters.All, Waiters.Leave, Waiters.Sleep, Places;
  }

  /** Each of these steps lightens the load, or keeps it and leaves fewer woken threads. */
  lemma FinishingLightens(s: State, step: Step)
    requires Invariant(s) && Finishing(step) && Enabled(s, step)
    ensures var s' := Apply(s, step);
            Load(s') == Load(s) - 1 || (Load(s') == Load(s) && Woken(s') == Woken(s) - 1)
  {
    hide Invariant, Load, Woken, WaitRead, WaitWrite, LeaveRead, LeaveWrite;
    match step
    case CheckRead(t) => LookingReadLightens(s, t);
    case CheckWrite(t) => LookingWriteLightens(s, t);
    case ReleaseRead(t, chosen) => ReleaseLightens(s, t, chosen);
    case ReleaseWrite(t, chosen) => ReleaseLightens(s, t, chosen);
    case _ =>
  }

  lemma FewerWoken(s: State)
    ensures Woken(s) <= Load(s)
  {
    assert s.readers.woken <= s.readers.All() && s.writers.woken <= s.writers.All();
    Within(s.readers.woken, s.readers.All());
    Within(s.writers.woken, s.writers.All());
  }

  lemma Within(a: set<Thread>, b: set<Thread>)
    requires a <= b
    ensures |a| <= |b|
  {
    assert b == a + (b - a);
  }

  /** How many more such steps there can be at most. */
  function Patience(s: State): nat {
    Load(s) * (Load(s) + 1) + Woken(s)
  }

  lemma PatienceShrinks(load: nat, woken: nat, load': nat, woken': nat)
    requires woken' <= load' && (load' == load - 1 || (load' == load && woken' == woken - 1))
    ensures load' * (load' + 1) + woken' < load * (load + 1) + woken
  {
    if load' == load - 1 {
      assert load' * (load' + 1) == load * (load + 1) - 2 * load;
    }
  }

  lemma PatienceFades(s: State, step: Step)
    requires Invariant(s) && Finishing(step) && Enabled(s, step)
    ensures Patience(Apply(s, step)) < Patience(s)
  {
    hide Invariant, Load, Woken, Apply, Enabled, Finishing;
    FinishingLightens(s, step);
    FewerWoken(Apply(s, step));
    PatienceShrinks(Load(s), Woken(s), Load(Apply(s, step)), Woken(Apply(s, step)));
  }

  /**
   * No deadlock and no livelock, whatever happened before and whatever the schedule: if no more threads
   * come, those inside release, those woken look again and nobody wakes for no reason, then this comes to
   * an end, and it cannot end before everybody has got in and out.
   */
  lemma {:induction false} EveryRunEnds(s: State, steps: seq<Step>)
    requires Invariant(s) && IsRun(s, steps) && forall step :: step in steps ==> Finishing(step)
    ensures |steps| <= Patience(s)
    ensures Stuck(After(s, steps)) <==> Deserted(After(s, steps))
    decreases |steps|
  {
    hide Invariant, Patience, Apply, Stuck, Deserted, Enabled, Finishing;
    if steps == [] {
      StuckIsDeserted(s);
    } else {
      StepKeeps(s, steps[0]);
      PatienceFades(s, steps[0]);
      EveryRunEnds(Apply(s, steps[0]), steps[1..]);
    }
  }

  lemma EnteringLightens(s: State, step: Step)
    requires Invariant(s) && (step.CheckRead? || step.CheckWrite?) && Enabled(s, step)
    requires step.t in Apply(s, step).reading + Apply(s, step).holding
    ensures Load(Apply(s, step)) == Load(s) - 1
  {
    assert Places(s, step.t) <= 1;
    hide Invariant, Load, Woken, Places;
    if step.CheckRead? {
      LookingReadLightens(s, step.t);
    } else {
      LookingWriteLightens(s, step.t);
    }
  }

  lemma LooksFinish(step: Step)
    requires step.CheckRead? || step.CheckWrite?
    ensures Finishing(step)
  {
  }

  lemma ReleasesFinish(s: State, t: Thread)
    ensures t in s.reading ==> Enabled(s, ReleaseRead(t, Pick(s.writers)))
    ensures t in s.holding ==> Enabled(s, ReleaseWrite(t, Pick(s.writers)))
    ensures Finishing(ReleaseRead(t, Pick(s.writers))) && Finishing(ReleaseWrite(t, Pick(s.writers)))
  {
  }

  /** In particular some run empties the lock, with no failed look: everybody waiting gets in and out. */
  lemma {:induction false} Drains(s: State) returns (steps: seq<Step>)
    requires Invariant(s)
    ensures IsRun(s, steps) && |steps| == Load(s)
    ensures forall step :: step in steps ==> Finishing(step)
    ensures Deserted(After(s, steps))
    decreases Load(s)
  {
    hide Invariant, Apply, Waiters.All, WaitRead, WaitWrite, Finishing, Enabled;
    var step: Step;
    if s.reading != {} {
      var t :| t in s.reading;
      step := ReleaseRead(t, Pick(s.writers));
      ReleaseLightens(s, t, Pick(s.writers));
      ReleasesFinish(s, t);
    } else if s.holding != {} {
      var t :| t in s.holding;
      step := ReleaseWrite(t, Pick(s.writers));
      ReleaseLightens(s, t, Pick(s.writers));
      ReleasesFinish(s, t);
    } else if Waiting(s) != {} {
      step := SomeoneEnters(s);
      EnteringLightens(s, step);
      LooksFinish(step);
    } else {
      Empty(s.readers.All());
      Empty(s.writers.All());
      return [];
    }
    StepKeeps(s, step);
    var rest := Drains(Apply(s, step));
    steps := [step] + rest;
    assert steps[1..] == rest;
  }

  // ---------------------------------------------------------------- the class

  /** `rwmutex`: each method is one critical section, and does one step of the protocol. */
  class RwMutex {
    var readCount: int
    var writeCount: int
    var writing: bool
    var condRead: Waiters
    var condWrite: Waiters
    ghost var reading: set<Thread>
    ghost var holding: set<Thread>

    ghost function Current(): State
      reads this
    {
      State(readCount, writeCount, writing, reading, holding, condRead, condWrite)
    }

    constructor ()
      ensures Current() == INITIAL
    {
      readCount, writeCount, writing := 0, 0, false;
      condRead, condWrite := Waiters({}, {}), Waiters({}, {});
      reading, holding := {}, {};
    }

    /** One turn of the wait loop of `lock_read`. */
    method TryRead(t: Thread) returns (entered: bool)
      modifies this
      ensures Current() == old(WaitRead(Current(), t)) && entered == (old(writeCount) == 0)
    {
      entered := writeCount == 0;
      if entered {
        condRead := condRead.Leave(t);
        readCount := readCount + 1;
        reading := reading + {t};
      } else {
        condRead := condRead.Sleep(t);
      }
    }

    method TryWrite(t: Thread) returns (entered: bool)
      modifies this
      ensures Current() == old(WaitWrite(Current(), t)) && entered == old(readCount == 0 && !writing)
    {
      entered := readCount == 0 && !writing;
      if entered {
        condWrite := condWrite.Leave(t);
        writing := true;
        holding := holding + {t};
      } else {
        condWrite := condWrite.Sleep(t);
      }
    }

    method BeginRead(t: Thread) returns (entered: bool)
      requires Invariant(Current()) && Enabled(Current(), LockRead(t))
      modifies this
      ensures Current() == old(Apply(Current(), LockRead(t))) && Invariant(Current())
      ensures entered <==> t in reading
    {
      StepKeeps(Current(), LockRead(t));
      entered := TryRead(t);
    }

    method ResumeRead(t: Thread) returns (entered: bool)
      requires Invariant(Current()) && Enabled(Current(), CheckRead(t))
      modifies this
      ensures Current() == old(Apply(Current(), CheckRead(t))) && Invariant(Current())
      ensures entered <==> t in reading
    {
      assert Places(Current(), t) <= 1;
      StepKeeps(Current(), CheckRead(t));
      entered := TryRead(t);
    }

    method BeginWrite(t: Thread) returns (entered: bool)
      requires Invariant(Current()) && Enabled(Current(), LockWrite(t))
      modifies this
      ensures Current() == old(Apply(Current(), LockWrite(t))) && Invariant(Current())
      ensures entered <==> t in holding
    {
      StepKeeps(Current(), LockWrite(t));
      writeCount := writeCount + 1;
      entered := TryWrite(t);
    }

    method ResumeWrite(t: Thread) returns (entered: bool)
      requires Invariant(Current()) && Enabled(Current(), CheckWrite(t))
      modifies this
      ensures Current() == old(Apply(Current(), CheckWrite(t))) && Invariant(Current())
      ensures entered <==> t in holding
    {
      assert Places(Current(), t) <= 1;
      StepKeeps(Current(), CheckWrite(t));
      entered := TryWrite(t);
    }

    method NotifyOneWriter() returns (chosen: Option<Thread>)
      modifies this`condWrite
      ensures old(condWrite).CanNotify(chosen) && condWrite == old(condWrite).NotifyOne(chosen)
    {
      chosen := None;
      if condWrite.sleeping != {} {
        var t :| t in condWrite.sleeping;
        chosen := Some(t);
        condWrite := condWrite.Wake(t);
      }
    }

    method EndRead(t: Thread) returns (ghost chosen: Option<Thread>)
      requires Invariant(Current()) && t in reading
      modifies this
      ensures old(Enabled(Current(), ReleaseRead(t, chosen)))
      ensures Current() == old(Apply(Current(), ReleaseRead(t, chosen))) && Invariant(Current())
    {
      hide Invariant, Waiters.NotifyOne, Waiters.NotifyAll, Waiters.CanNotify, Pick;
      ghost var before := Current();
      chosen := Pick(condWrite);
      readCount := readCount - 1;
      reading := reading - {t};
      if readCount == 0 && writeCount > 0 {
        chosen := NotifyOneWriter();
      }
      StepKeeps(before, ReleaseRead(t, chosen));
    }

    method EndWrite(t: Thread) returns (ghost chosen: Option<Thread>)
      requires Invariant(Current()) && t in holding
      modifies this
      ensures old(Enabled(Current(), ReleaseWrite(t, chosen)))
      ensures Current() == old(Apply(Current(), ReleaseWrite(t, chosen))) && Invariant(Current())
    {
      hide Invariant, Waiters.NotifyOne, Waiters.NotifyAll, Waiters.CanNotify, Pick;
      ghost var before := Current();
      chosen := Pick(condWrite);
      writeCount := writeCount - 1;
      holding := holding - {t};
      if writeCount == 0 {
        condRead := condRead.NotifyAll();
      } else {
        chosen := NotifyOneWriter();
      }
      writing := false;
      StepKeeps(before, ReleaseWrite(t, chosen));
    }
  }
}
