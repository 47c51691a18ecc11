/** The fork-join pool as a protocol: one caller, the workers, a mutex, two condition
    variables whose sleepers may wake for no reason, a wrapping generation counter and
    a count of workers still to finish. */
module ForkJoin {
  import Chunks

  /** Where the caller is.  `Posting`, `CheckDone` and `Stopping` hold the mutex. */
  datatype CallerPc =
    | Out | WantPost | Posting | NotifyStart | RunOwn | WantWait | CheckDone | AsleepDone
    | WantStop | Stopping | NotifyStop | Joining | Gone

  /** Where a worker is.  `CheckStart`, `CountDown` and `NotifyDone` hold the mutex. */
  datatype WorkerPc = WantStart | CheckStart | AsleepStart | Running | WantDone | CountDown | NotifyDone | Exited

  datatype Holder = Nobody | TheCaller | TheWorker(i: nat)

  datatype Option<+T> = None | Some(value: T)

  /** A worker's locals: the generation it last saw, and the job it is on. */
  datatype Worker = Worker(pc: WorkerPc, seen: nat, job: Option<nat>, total: int)

  /** One call of a job's function: of which job (the first is 1), on which chunk of how
      long a range. */
  datatype Call = Call(job: nat, chunk: nat, total: int)

  /** `arg` is the range of the call in progress; `totals` and `calls` are history:
      the range of every job posted and every call of a job function made. */
  datatype State = State(
    lock: Holder,
    gen: nat,
    fn: Option<nat>,
    total: int,
    remaining: int,
    stop: bool,
    caller: CallerPc,
    arg: int,
    workers: seq<Worker>,
    totals: seq<int>,
    calls: multiset<Call>)
  {
    function Threads(): nat { |workers| + 1 }

    /** A job is posted and not yet returned. */
    predicate Active() {
      caller == NotifyStart || caller == RunOwn || caller == WantWait || caller == CheckDone || caller == AsleepDone
    }

    predicate OwnDone() { caller == WantWait || caller == CheckDone || caller == AsleepDone }
  }

  /** Every sleeping worker wakes and will want the mutex again. */
  function WakeAll(ws: seq<Worker>): (r: seq<Worker>)
    ensures |r| == |ws|
    ensures forall i | 0 <= i < |ws| :: r[i] == if ws[i].pc == AsleepStart then ws[i].(pc := WantStart) else ws[i]
  {
    seq(|ws|, i requires 0 <= i < |ws| => if ws[i].pc == AsleepStart then ws[i].(pc := WantStart) else ws[i])
  }

  // ---- Steps ----

  /** The counter wraps; the generation after is another one all the same. */
  function After(wrap: nat, gen: nat): (next: nat)
    requires wrap >= 2
    ensures next < wrap && (gen < wrap ==> next != gen)
  {
    if gen + 1 < wrap then gen + 1 else 0
  }

  /** The caller enters `parallel_for`, or the pool's destructor. */
  function Enter(s: State, total: int): State { s.(caller := WantPost, arg := total) }

  function Destroy(s: State): State { s.(caller := WantStop) }

  predicate AllExited(s: State) {
    forall i | 0 <= i < |s.workers| :: s.workers[i].pc == Exited
  }

  /** The caller can move: it is inside the pool, is not asleep, and gets the mutex or
      the joins it waits for. */
  predicate CallerCan(s: State) {
    match s.caller
    case Out => false
    case Gone => false
    case AsleepDone => false
    case WantPost => s.lock == Nobody
    case WantWait => s.lock == Nobody
    case WantStop => s.lock == Nobody
    case Joining => AllExited(s)
    case _ => true
  }

  function CallerStep(wrap: nat, s: State): State
    requires wrap >= 2 && CallerCan(s)
  {
    match s.caller
    case WantPost => s.(caller := Posting, lock := TheCaller)
    case Posting => s.(fn := Some(|s.totals| + 1), total := s.arg, remaining := |s.workers|, gen := After(wrap, s.gen),
                       totals := s.totals + [s.arg], lock := Nobody, caller := NotifyStart)
    case NotifyStart => s.(workers := WakeAll(s.workers), caller := RunOwn)
    case RunOwn => s.(calls := s.calls + multiset{Call(|s.totals|, 0, s.arg)}, caller := WantWait)
    case WantWait => s.(caller := CheckDone, lock := TheCaller)
    case CheckDone => if s.remaining == 0 then s.(fn := None, lock := Nobody, caller := Out)
      else s.(lock := Nobody, caller := AsleepDone)
    case WantStop => s.(caller := Stopping, lock := TheCaller)
    case Stopping => s.(stop := true, lock := Nobody, caller := NotifyStop)
    case NotifyStop => s.(workers := WakeAll(s.workers), caller := Joining)
    case Joining => s.(caller := Gone)
  }

  predicate WorkerCan(s: State, i: nat) {
    && i < |s.workers|
    && match s.workers[i].pc
       case WantStart => s.lock == Nobody
       case WantDone => s.lock == Nobody
       case AsleepStart => false
       case Exited => false
       case _ => true
  }

  function WorkerStep(s: State, i: nat): State
    requires WorkerCan(s, i)
  {
    var w := s.workers[i];
    match w.pc
    case WantStart => s.(workers := s.workers[i := w.(pc := CheckStart)], lock := TheWorker(i))
    case CheckStart =>
      if s.stop then s.(workers := s.workers[i := w.(pc := Exited)], lock := Nobody)
      else if s.gen != w.seen then
        s.(workers := s.workers[i := Worker(Running, s.gen, s.fn, s.total)], lock := Nobody)
      else s.(workers := s.workers[i := w.(pc := AsleepStart)], lock := Nobody)
    case Running =>
      s.(workers := s.workers[i := w.(pc := WantDone)],
         calls := if w.job.Some? then s.calls + multiset{Call(w.job.value, i + 1, w.total)} else s.calls)
    case WantDone => s.(workers := s.workers[i := w.(pc := CountDown)], lock := TheWorker(i))
    case CountDown =>
      if s.remaining - 1 == 0 then s.(remaining := 0, workers := s.workers[i := w.(pc := NotifyDone)])
      else s.(remaining := s.remaining - 1, workers := s.workers[i := w.(pc := WantStart, job := None)], lock := Nobody)
    case NotifyDone =>
      s.(workers := s.workers[i := w.(pc := WantStart, job := None)], lock := Nobody,
         caller := if s.caller == AsleepDone then WantWait else s.caller)
  }

  /** A sleeper wakes although nobody notified it. */
  ghost predicate Spurious(s: State, s': State) {
    || (s.caller == AsleepDone && s' == s.(caller := WantWait))
    || (exists i: nat ::
      i < |s.workers| && s.workers[i].pc == AsleepStart
        && s' == s.(workers := s.workers[i := s.workers[i].(pc := WantStart)]))
  }

  /** A step of the protocol proper. */
  ghost predicate Moves(wrap: nat, s: State, s': State)
    requires wrap >= 2
  {
    || (CallerCan(s) && s' == CallerStep(wrap, s))
    || (exists i: nat :: WorkerCan(s, i) && s' == WorkerStep(s, i))
  }

  ghost predicate Next(wrap: nat, s: State, s': State)
    requires wrap >= 2
  {
    || Moves(wrap, s, s') || Spurious(s, s')
    || (s.caller == Out && (s' == Destroy(s) || exists total: int :: s' == Enter(s, total)))
  }

  predicate Init(wrap: nat, s: State) {
    && wrap >= 2 && |s.workers| >= 1 && s.lock == Nobody && s.gen == 0 && s.fn == None && s.remaining == 0 && !s.stop
      && s.caller == Out
    && s.totals == [] && s.calls == multiset{}
    && forall i | 0 <= i < |s.workers| :: s.workers[i] == Worker(WantStart, 0, None, s.workers[i].total)
  }

  ghost predicate IsRun(wrap: nat, run: seq<State>) {
    && |run| > 0 && Init(wrap, run[0])
    && forall i | 0 < i < |run| :: Next(wrap, run[i - 1], run[i])
  }

  // ---- The invariant ----

  predicate Holds(pc: WorkerPc) { pc == CheckStart || pc == CountDown || pc == NotifyDone }

  /** The mutex is held by exactly the thread that is inside a critical section. */
  ghost predicate LockOk(s: State) {
    && (s.lock == TheCaller <==> s.caller == Posting || s.caller == CheckDone || s.caller == Stopping)
    && (forall i: nat | i < |s.workers| :: s.lock == TheWorker(i) <==> Holds(s.workers[i].pc))
    && (s.lock.TheWorker? ==> s.lock.i < |s.workers|)
  }

  ghost predicate PhaseOk(wrap: nat, s: State) {
    && s.gen < wrap && |s.workers| >= 1
    && (s.stop <==> s.caller == NotifyStop || s.caller == Joining || s.caller == Gone)
    && s.fn == (if s.Active() then Some(|s.totals|) else None)
    && (s.Active() ==> |s.totals| > 0 && s.total == s.arg == s.totals[|s.totals| - 1])
    && (!s.Active() ==> s.remaining == 0)
  }

  /** On the current job, not yet counted down. */
  predicate Busy(pc: WorkerPc) { pc == Running || pc == WantDone || pc == CountDown }

  ghost predicate WorkerOk(wrap: nat, s: State, w: Worker)
    requires wrap >= 2
  {
    && w.seen < wrap
    && (w.seen == s.gen || (s.Active() && After(wrap, w.seen) == s.gen
      && (w.pc == WantStart || w.pc == CheckStart || w.pc == AsleepStart)))
    && (Busy(w.pc) || w.pc == NotifyDone ==>
      s.Active() && w.seen == s.gen && w.job == Some(|s.totals|) && w.total == s.arg)
    && (w.job.Some? ==> Busy(w.pc) || w.pc == NotifyDone)
    && (w.pc == NotifyDone ==> s.remaining == 0)
    && (w.pc == Exited ==> s.stop)
    && (s.caller == Gone ==> w.pc == Exited)
  }

  ghost predicate WorkersOk(wrap: nat, s: State)
    requires wrap >= 2
  {
    forall i: nat | i < |s.workers| :: WorkerOk(wrap, s, s.workers[i])
  }

  /** A worker that still has to count down for the current job. */
  predicate Owes(gen: nat, w: Worker) { w.seen != gen || Busy(w.pc) }

  ghost function Owed(gen: nat, ws: seq<Worker>): (n: nat)
    ensures n <= |ws|
  {
    if |ws| == 0 then 0 else Owed(gen, ws[..|ws| - 1]) + if Owes(gen, ws[|ws| - 1]) then 1 else 0
  }

  ghost predicate CountOk(s: State) {
    s.Active() ==> s.remaining == Owed(s.gen, s.workers)
  }

  /** No lost wakeup: a sleeper whose condition holds has a notification still to come. */
  ghost predicate WakeOk(s: State) {
    && (forall i: nat | i < |s.workers| && s.workers[i].pc == AsleepStart ::
          (s.workers[i].seen != s.gen ==> s.caller == NotifyStart) && (s.stop ==> s.caller == NotifyStop))
    && (s.caller == AsleepDone && s.remaining == 0 ==>
          s.lock.TheWorker? && s.lock.i < |s.workers| && s.workers[s.lock.i].pc == NotifyDone)
  }

  /** Chunk `c` of the current job has been run. */
  ghost predicate Did(s: State, c: nat)
    requires c <= |s.workers|
  {
    if c == 0 then s.OwnDone() else s.workers[c - 1].seen == s.gen && s.workers[c - 1].pc != Running
  }

  ghost predicate Expected(s: State, x: Call) {
    && 1 <= x.job <= |s.totals| && x.total == s.totals[x.job - 1] && x.chunk <= |s.workers|
    && (x.job == |s.totals| && s.Active() ==> Did(s, x.chunk))
  }

  /** Every chunk of every finished job has been run once, and of the current job the
      ones that are done; nothing else was ever called. */
  ghost predicate CallsOk(s: State) {
    forall x: Call :: s.calls[x] == if Expected(s, x) then 1 else 0
  }

  ghost predicate Inv(wrap: nat, s: State) {
    wrap >= 2 && LockOk(s) && PhaseOk(wrap, s) && WorkersOk(wrap, s) && CountOk(s) && WakeOk(s) && CallsOk(s)
  }

  // ---- Counting ----

  lemma {:induction false} OwedUpdate(gen: nat, ws: seq<Worker>, i: nat, w: Worker)
    requires i < |ws|
    ensures Owed(gen, ws[i := w]) + (if Owes(gen, ws[i]) then 1 else 0) == Owed(gen, ws) + if Owes(gen, w) then 1 else 0
    decreases |ws|
  {
    var n := |ws| - 1;
    if i < n {
      OwedUpdate(gen, ws[..n], i, w);
      assert ws[i := w][..n] == ws[..n][i := w];
    } else {
      assert ws[i := w][..n] == ws[..n];
    }
  }

  lemma {:induction false} OwedSame(gen: nat, ws: seq<Worker>, ws': seq<Worker>)
    requires |ws| == |ws'| && forall i | 0 <= i < |ws| :: Owes(gen, ws[i]) <==> Owes(gen, ws'[i])
    ensures Owed(gen, ws) == Owed(gen, ws')
    decreases |ws|
  {
    if |ws| > 0 {
      OwedSame(gen, ws[..|ws| - 1], ws'[..|ws| - 1]);
    }
  }

  lemma {:induction false} OwedAll(gen: nat, ws: seq<Worker>)
    requires forall i | 0 <= i < |ws| :: Owes(gen, ws[i])
    ensures Owed(gen, ws) == |ws|
    decreases |ws|
  {
    if |ws| > 0 {
      OwedAll(gen, ws[..|ws| - 1]);
    }
  }

  lemma {:induction false} OwedNone(gen: nat, ws: seq<Worker>, i: nat)
    requires i < |ws|
    ensures Owed(gen, ws) == 0 ==> !Owes(gen, ws[i])
    decreases |ws|
  {
    if i < |ws| - 1 {
      OwedNone(gen, ws[..|ws| - 1], i);
    }
  }

  // ---- The caller's steps ----

  lemma CallerLock(wrap: nat, s: State)
    requires Inv(wrap, s) && CallerCan(s)
    ensures LockOk(CallerStep(wrap, s))
  {
    hide CountOk, CallsOk, WakeOk, WorkersOk;
  }

  lemma CallerPhase(wrap: nat, s: State)
    requires Inv(wrap, s) && CallerCan(s)
    ensures PhaseOk(wrap, CallerStep(wrap, s))
  {
    hide CountOk, CallsOk, WakeOk, WorkersOk, LockOk, After;
  }

  lemma CallerWorkers(wrap: nat, s: State)
    requires Inv(wrap, s) && CallerCan(s)
    ensures WorkersOk(wrap, CallerStep(wrap, s))
  {
    hide CallsOk, WakeOk, WorkerOk, CountOk, LockOk, PhaseOk;
    var s' := CallerStep(wrap, s);
    forall i: nat | i < |s'.workers| ensures WorkerOk(wrap, s', s'.workers[i]) {
      CallerWorker(wrap, s, i);
    }
  }

  lemma CallerWorker(wrap: nat, s: State, i: nat)
    requires Inv(wrap, s) && CallerCan(s) && i < |s.workers|
    ensures |CallerStep(wrap, s).workers| == |s.workers|
    ensures WorkerOk(wrap, CallerStep(wrap, s), CallerStep(wrap, s).workers[i])
  {
    hide CallsOk, WakeOk, WorkersOk, Owed, After;
    WorkerAt(wrap, s, i);
    if s.caller == CheckDone && s.remaining == 0 { OwedNone(s.gen, s.workers, i); }
  }

  lemma WorkerAt(wrap: nat, s: State, i: nat)
    requires wrap >= 2 && WorkersOk(wrap, s) && i < |s.workers|
    ensures WorkerOk(wrap, s, s.workers[i])
  {
    hide WorkerOk;
  }

  lemma CallerCount(wrap: nat, s: State)
    requires Inv(wrap, s) && CallerCan(s)
    ensures CountOk(CallerStep(wrap, s))
  {
    hide CallsOk, WakeOk, LockOk, After;
    var s' := CallerStep(wrap, s);
    if s.caller == Posting {
      forall i | 0 <= i < |s.workers| ensures Owes(s'.gen, s'.workers[i]) {
        assert WorkerOk(wrap, s, s.workers[i]);
      }
      OwedAll(s'.gen, s'.workers);
    } else if s.caller == NotifyStart {
      OwedSame(s.gen, s.workers, s'.workers);
    }
  }

  lemma CallerWake(wrap: nat, s: State)
    requires Inv(wrap, s) && CallerCan(s)
    ensures WakeOk(CallerStep(wrap, s))
  {
    hide CallsOk;
  }

  lemma CallerCalls(wrap: nat, s: State)
    requires Inv(wrap, s) && CallerCan(s)
    ensures CallsOk(CallerStep(wrap, s))
  {
    hide WakeOk, LockOk, CallsOk;
    var s' := CallerStep(wrap, s);
    forall x: Call ensures s'.calls[x] == if Expected(s', x) then 1 else 0 {
      CallerExpected(wrap, s, x);
      CallsAt(s, x);
    }
    CallsAre(s');
  }

  lemma CallsAt(s: State, x: Call)
    requires CallsOk(s)
    ensures s.calls[x] == if Expected(s, x) then 1 else 0
  {
  }

  lemma CallsAre(s: State)
    requires forall x: Call :: s.calls[x] == if Expected(s, x) then 1 else 0
    ensures CallsOk(s)
  {
  }

  /** What a caller step makes of the calls expected: its own chunk, when it runs it. */
  lemma CallerExpected(wrap: nat, s: State, x: Call)
    requires Inv(wrap, s) && CallerCan(s)
    ensures var s' := CallerStep(wrap, s);
      Expected(s', x) <==> Expected(s, x) || (s.caller == RunOwn && x == Call(|s.totals|, 0, s.arg))
    ensures s.caller == RunOwn ==> !Expected(s, Call(|s.totals|, 0, s.arg))
  {
    hide WakeOk, LockOk, CallsOk, WorkersOk, CountOk;
    if s.caller == Posting {
      PostExpected(wrap, s, x);
    } else if s.caller == CheckDone && s.remaining == 0 {
      ReturnExpected(wrap, s, x);
    }
  }

  /** A new job: of the one before everything was done, of this one nothing is. */
  lemma PostExpected(wrap: nat, s: State, x: Call)
    requires Inv(wrap, s) && s.caller == Posting
    ensures Expected(CallerStep(wrap, s), x) <==> Expected(s, x)
  {
    hide WakeOk, LockOk, CallsOk, WorkersOk, CountOk;
    if 1 <= x.chunk <= |s.workers| { WorkerAt(wrap, s, x.chunk - 1); }
  }

  /** The caller returns: every worker has counted down, so every chunk is done. */
  lemma ReturnExpected(wrap: nat, s: State, x: Call)
    requires Inv(wrap, s) && s.caller == CheckDone && s.remaining == 0
    ensures Expected(CallerStep(wrap, s), x) <==> Expected(s, x)
  {
    hide WakeOk, LockOk, CallsOk, WorkersOk, Owed;
    if 1 <= x.chunk <= |s.workers| { OwedNone(s.gen, s.workers, x.chunk - 1); }
  }

  // ---- A worker's steps ----

  lemma WorkerLock(wrap: nat, s: State, i: nat)
    requires Inv(wrap, s) && WorkerCan(s, i)
    ensures LockOk(WorkerStep(s, i))
  {
    hide CountOk, CallsOk, WakeOk, WorkersOk, PhaseOk, Holds, WorkerStep;
    var s' := WorkerStep(s, i);
    HolderIs(s, i);
    StepHolds(s, i);
    forall j: nat | j < |s'.workers| ensures s'.lock == TheWorker(j) <==> Holds(s'.workers[j].pc) {
      HolderIs(s, j);
    }
  }

  lemma HolderIs(s: State, i: nat)
    requires LockOk(s) && i < |s.workers|
    ensures s.lock == TheWorker(i) <==> Holds(s.workers[i].pc)
  {
  }

  /** Before and after its step a worker holds the mutex if its place says so. */
  lemma StepHolds(s: State, i: nat)
    requires WorkerCan(s, i) && (s.lock == TheWorker(i) <==> Holds(s.workers[i].pc))
    ensures var s' := WorkerStep(s, i);
      && (s'.lock == TheWorker(i) <==> Holds(s'.workers[i].pc))
      && (s'.lock == s.lock || s'.lock == TheWorker(i) || (s.lock == TheWorker(i) && s'.lock == Nobody))
      && (s'.lock != s.lock ==> s.lock == Nobody || s.lock == TheWorker(i))
      && |s'.workers| == |s.workers| && (forall j | 0 <= j < |s.workers| && j != i :: s'.workers[j] == s.workers[j])
      && (s'.caller == s.caller || (s.caller == AsleepDone && s'.caller == WantWait)) && s'.gen == s.gen
  {
  }

  lemma WorkerPhase(wrap: nat, s: State, i: nat)
    requires Inv(wrap, s) && WorkerCan(s, i)
    ensures PhaseOk(wrap, WorkerStep(s, i))
  {
    hide CallsOk, WakeOk, WorkersOk, LockOk, After, CountOk;
    WorkerAt(wrap, s, i);
  }

  lemma WorkerWorkers(wrap: nat, s: State, i: nat)
    requires Inv(wrap, s) && WorkerCan(s, i)
    ensures WorkersOk(wrap, WorkerStep(s, i))
  {
    hide CallsOk, WakeOk, WorkerOk, CountOk, LockOk, PhaseOk, After, WorkersOk;
    var s' := WorkerStep(s, i);
    forall j: nat | j < |s'.workers| ensures WorkerOk(wrap, s', s'.workers[j]) {
      WorkerAt(wrap, s, j);
      if j == i { WorkerSelf(wrap, s, i); } else { WorkerOther(wrap, s, i, j); }
    }
    WorkersAre(wrap, s');
  }

  lemma WorkersAre(wrap: nat, s: State)
    requires wrap >= 2 && forall i: nat | i < |s.workers| :: WorkerOk(wrap, s, s.workers[i])
    ensures WorkersOk(wrap, s)
  {
  }

  lemma WorkerSelf(wrap: nat, s: State, i: nat)
    requires Inv(wrap, s) && WorkerCan(s, i)
    ensures WorkerOk(wrap, WorkerStep(s, i), WorkerStep(s, i).workers[i])
  {
    hide CallsOk, WakeOk, WorkersOk, After, Owed, LockOk;
    WorkerAt(wrap, s, i);
  }

  /** Only one worker at a time is notifying, so a count of zero stays a count of zero. */
  lemma WorkerOther(wrap: nat, s: State, i: nat, j: nat)
    requires Inv(wrap, s) && WorkerCan(s, i) && j < |s.workers| && j != i
    ensures |WorkerStep(s, i).workers| == |s.workers|
    ensures WorkerOk(wrap, WorkerStep(s, i), WorkerStep(s, i).workers[j])
  {
    hide CallsOk, WakeOk, WorkersOk, After, Owed, CountOk;
    WorkerAt(wrap, s, i);
    WorkerAt(wrap, s, j);
  }

  lemma WorkerCount(wrap: nat, s: State, i: nat)
    requires Inv(wrap, s) && WorkerCan(s, i)
    ensures CountOk(WorkerStep(s, i))
  {
    hide CallsOk, WakeOk, LockOk, WorkersOk, After, Owed;
    WorkerAt(wrap, s, i);
    OwedUpdate(s.gen, s.workers, i, WorkerStep(s, i).workers[i]);
  }

  lemma WorkerWake(wrap: nat, s: State, i: nat)
    requires Inv(wrap, s) && WorkerCan(s, i)
    ensures WakeOk(WorkerStep(s, i))
  {
    hide CallsOk, WorkersOk, After, Owed, CountOk;
    WorkerAt(wrap, s, i);
  }

  lemma WorkerCalls(wrap: nat, s: State, i: nat)
    requires Inv(wrap, s) && WorkerCan(s, i)
    ensures CallsOk(WorkerStep(s, i))
  {
    hide WakeOk, LockOk, CallsOk, Expected;
    var s' := WorkerStep(s, i);
    WorkerAt(wrap, s, i);
    forall x: Call ensures s'.calls[x] == if Expected(s', x) then 1 else 0 {
      WorkerExpected(wrap, s, i, x);
      CallsAt(s, x);
    }
    CallsAre(s');
  }

  /** What a worker's step makes of the calls expected: its own chunk, when it runs it. */
  lemma WorkerExpected(wrap: nat, s: State, i: nat, x: Call)
    requires Inv(wrap, s) && WorkerCan(s, i)
    ensures var s' := WorkerStep(s, i);
      Expected(s', x) <==> Expected(s, x) || (s.workers[i].pc == Running && x == Call(|s.totals|, i + 1, s.arg))
    ensures s.workers[i].pc == Running ==> !Expected(s, Call(|s.totals|, i + 1, s.arg))
  {
    hide WakeOk, CallsOk, WorkersOk, CountOk, LockOk, After, Did;
    WorkerAt(wrap, s, i);
    if 1 <= x.job == |s.totals| && x.chunk <= |s.workers| && s.Active() {
      WorkerDid(wrap, s, i, x.chunk);
    }
    if s.workers[i].pc == Running { WorkerDid(wrap, s, i, i + 1); }
  }

  lemma WorkerDid(wrap: nat, s: State, i: nat, c: nat)
    requires Inv(wrap, s) && WorkerCan(s, i) && c <= |s.workers| && s.Active()
    ensures WorkerStep(s, i).Active() && |WorkerStep(s, i).workers| == |s.workers|
    ensures Did(WorkerStep(s, i), c) <==> Did(s, c) || (c == i + 1 && s.workers[i].pc == Running)
    ensures c == i + 1 && s.workers[i].pc == Running ==> !Did(s, c)
  {
    hide WakeOk, CallsOk, WorkersOk, CountOk, LockOk, PhaseOk, WorkerStep;
    HolderIs(s, i);
    StepHolds(s, i);
    if c == i + 1 { WorkerDidOwn(wrap, s, i); }
  }

  lemma WorkerDidOwn(wrap: nat, s: State, i: nat)
    requires Inv(wrap, s) && WorkerCan(s, i) && s.Active()
    ensures |WorkerStep(s, i).workers| == |s.workers|
    ensures Did(WorkerStep(s, i), i + 1) <==> Did(s, i + 1) || s.workers[i].pc == Running
    ensures s.workers[i].pc == Running ==> !Did(s, i + 1)
  {
    hide WakeOk, CallsOk, WorkersOk, CountOk, LockOk, After;
    WorkerAt(wrap, s, i);
  }

  // ---- Every step keeps the invariant ----

  lemma MovesKeep(wrap: nat, s: State, s': State)
    requires Inv(wrap, s) && Moves(wrap, s, s')
    ensures Inv(wrap, s')
  {
    hide LockOk, PhaseOk, WorkersOk, CountOk, WakeOk, CallsOk, CallerStep, WorkerStep, CallerCan, WorkerCan;
    if CallerCan(s) && s' == CallerStep(wrap, s) {
      CallerLock(wrap, s);
      CallerPhase(wrap, s);
      CallerWorkers(wrap, s);
      CallerCount(wrap, s);
      CallerWake(wrap, s);
      CallerCalls(wrap, s);
    } else {
      var i: nat :| WorkerCan(s, i) && s' == WorkerStep(s, i);
      WorkerLock(wrap, s, i);
      WorkerPhase(wrap, s, i);
      WorkerWorkers(wrap, s, i);
      WorkerCount(wrap, s, i);
      WorkerWake(wrap, s, i);
      WorkerCalls(wrap, s, i);
    }
  }

  lemma CallerWakes(wrap: nat, s: State)
    requires Inv(wrap, s) && s.caller == AsleepDone
    ensures Inv(wrap, s.(caller := WantWait))
  {
    hide Owed, After, CallsOk;
    var s' := s.(caller := WantWait);
    forall i: nat | i < |s.workers| ensures WorkerOk(wrap, s', s'.workers[i]) { WorkerAt(wrap, s, i); }
    forall x: Call ensures s'.calls[x] == if Expected(s', x) then 1 else 0 { CallsAt(s, x); }
    CallsAre(s');
  }

  lemma WorkerWakes(wrap: nat, s: State, i: nat)
    requires Inv(wrap, s) && i < |s.workers| && s.workers[i].pc == AsleepStart
    ensures Inv(wrap, s.(workers := s.workers[i := s.workers[i].(pc := WantStart)]))
  {
    hide Owed, After, CallsOk, WorkersOk;
    var w := s.workers[i].(pc := WantStart);
    var s' := s.(workers := s.workers[i := w]);
    OwedUpdate(s.gen, s.workers, i, w);
    WorkerAt(wrap, s, i);
    forall j: nat | j < |s.workers| ensures WorkerOk(wrap, s', s'.workers[j]) { WorkerAt(wrap, s, j); }
    WorkersAre(wrap, s');
    forall x: Call ensures s'.calls[x] == if Expected(s', x) then 1 else 0 { CallsAt(s, x); }
    CallsAre(s');
  }

  /** Entering `parallel_for` or the destructor. */
  lemma EnterKeeps(wrap: nat, s: State, pc: CallerPc, arg: int)
    requires Inv(wrap, s) && s.caller == Out && (pc == WantPost || pc == WantStop)
    ensures Inv(wrap, s.(caller := pc, arg := arg))
  {
    hide Owed, After, CallsOk;
    var s' := s.(caller := pc, arg := arg);
    forall i: nat | i < |s.workers| ensures WorkerOk(wrap, s', s'.workers[i]) { WorkerAt(wrap, s, i); }
    forall x: Call ensures s'.calls[x] == if Expected(s', x) then 1 else 0 { CallsAt(s, x); }
    CallsAre(s');
  }

  lemma NextKeeps(wrap: nat, s: State, s': State)
    requires wrap >= 2 && Inv(wrap, s) && Next(wrap, s, s')
    ensures Inv(wrap, s')
  {
    hide Inv, Moves;
    if Moves(wrap, s, s') {
      MovesKeep(wrap, s, s');
    } else if Spurious(s, s') {
      if s.caller == AsleepDone && s' == s.(caller := WantWait) {
        CallerWakes(wrap, s);
      } else {
        var i: nat :| i < |s.workers| && s.workers[i].pc == AsleepStart
          && s' == s.(workers := s.workers[i := s.workers[i].(pc := WantStart)]);
        WorkerWakes(wrap, s, i);
      }
    } else if s' == Destroy(s) {
      EnterKeeps(wrap, s, WantStop, s.arg);
    } else {
      var total: int :| s' == Enter(s, total);
      EnterKeeps(wrap, s, WantPost, total);
    }
  }

  lemma InitOk(wrap: nat, s: State)
    requires Init(wrap, s)
    ensures Inv(wrap, s)
  {
  }

  lemma {:induction false} RunKeeps(wrap: nat, run: seq<State>)
    requires IsRun(wrap, run)
    ensures forall i | 0 <= i < |run| :: Inv(wrap, run[i])
    decreases |run|
  {
    hide Inv, Next;
    InitOk(wrap, run[0]);
    if |run| > 1 {
      var front := run[..|run| - 1];
      RunKeeps(wrap, front);
      assert Inv(wrap, front[|run| - 2]);
      assert Next(wrap, run[|run| - 2], run[|run| - 1]);
      NextKeeps(wrap, run[|run| - 2], run[|run| - 1]);
      forall i | 0 <= i < |run| ensures Inv(wrap, run[i]) {
        if i < |front| { assert Inv(wrap, front[i]); }
      }
    }
  }

  // ---- What every run promises ----

  /** One of the chunks of one of the jobs, over that job's range. */
  predicate Complete(s: State, x: Call) {
    1 <= x.job <= |s.totals| && x.chunk < s.Threads() && x.total == s.totals[x.job - 1]
  }

  /** Whenever no job is outstanding, so at every return of `parallel_for`: each chunk of
      each job has been run exactly once and nothing else was ever called, no worker
      holds a job, and every worker has seen the current generation. */
  lemma ReturnMeansDone(wrap: nat, run: seq<State>)
    requires IsRun(wrap, run) && !run[|run| - 1].Active()
    ensures var s := run[|run| - 1];
      && (forall x: Call :: s.calls[x] == if Complete(s, x) then 1 else 0)
      && (forall i | 0 <= i < |s.workers| :: s.workers[i].job == None && s.workers[i].seen == s.gen)
  {
    hide Inv;
    RunKeeps(wrap, run);
    DoneState(wrap, run[|run| - 1]);
  }

  lemma DoneState(wrap: nat, s: State)
    requires Inv(wrap, s) && !s.Active()
    ensures forall x: Call :: s.calls[x] == if Complete(s, x) then 1 else 0
    ensures forall i | 0 <= i < |s.workers| :: s.workers[i].job == None && s.workers[i].seen == s.gen
  {
    hide CallsOk, Owed, After, LockOk, WakeOk;
    forall x: Call ensures s.calls[x] == if Complete(s, x) then 1 else 0 { CallsAt(s, x); }
    forall i | 0 <= i < |s.workers|
      ensures s.workers[i].job == None && s.workers[i].seen == s.gen { WorkerAt(wrap, s, i); }
  }

  /** Index by index: when a job over [0, total) has returned, `k` has been in exactly
      one of the chunks that were run, and that chunk was run once. */
  lemma EveryIndexOnce(wrap: nat, run: seq<State>, job: nat, k: nat)
    requires IsRun(wrap, run) && !run[|run| - 1].Active() && 1 <= job <= |run[|run| - 1].totals|
    requires k < run[|run| - 1].totals[job - 1]
    ensures var s := run[|run| - 1];
      var total, n: nat := s.totals[job - 1], s.Threads();
      && s.calls[Call(job, Chunks.Home(k, total, n), total)] == 1
      && forall x: Call | x.job == job && x in s.calls ::
           x.total == total && s.calls[x] == 1
             && (Chunks.InChunk(k, x.chunk, total, n) <==> x.chunk == Chunks.Home(k, total, n))
  {
    hide Inv, Chunks.InChunk, Chunks.Home;
    ReturnMeansDone(wrap, run);
    var s := run[|run| - 1];
    Chunks.ChunksPartition(s.totals[job - 1], s.Threads());
    HomeIs(k, s.totals[job - 1], s.Threads());
  }

  lemma HomeIs(k: nat, total: nat, n: nat)
    requires n > 0 && k < total
    ensures Chunks.Home(k, total, n) < n
  {
    assert Chunks.InChunk(k, Chunks.Home(k, total, n), total, n);
  }

  /** At every moment a worker has seen the current generation or the one before, and one
      that is running calls the job that is current and not yet returned. */
  lemma WorkersAreRecent(wrap: nat, run: seq<State>, i: nat)
    requires IsRun(wrap, run) && i < |run[|run| - 1].workers|
    ensures wrap >= 2 && var s := run[|run| - 1]; var w := s.workers[i];
      && (w.seen == s.gen || (s.Active() && After(wrap, w.seen) == s.gen))
      && (w.pc == Running ==>
            s.Active() && |s.totals| > 0 && w.job == s.fn == Some(|s.totals|) && w.total == s.totals[|s.totals| - 1])
  {
    hide After, CallsOk, Owed, LockOk, WakeOk;
    RunKeeps(wrap, run);
    WorkerAt(wrap, run[|run| - 1], i);
  }

  // ---- No lost wakeup, no deadlock ----

  /** A thread asleep although what it waits for has happened will still be notified:
      the thread that does it is at its notification. */
  lemma NoLostWakeup(wrap: nat, run: seq<State>)
    requires IsRun(wrap, run)
    ensures var s := run[|run| - 1];
      && (forall i | 0 <= i < |s.workers| && s.workers[i].pc == AsleepStart ::
            (s.gen != s.workers[i].seen ==> s.caller == NotifyStart) && (s.stop ==> s.caller == NotifyStop))
      && (s.caller == AsleepDone && s.remaining == 0 ==>
            exists i :: 0 <= i < |s.workers| && s.workers[i].pc == NotifyDone && s.lock == TheWorker(i))
  {
    hide After, CallsOk, Owed, CountOk, WorkersOk, PhaseOk;
    RunKeeps(wrap, run);
    var s := run[|run| - 1];
    if s.caller == AsleepDone && s.remaining == 0 {
      assert s.workers[s.lock.i].pc == NotifyDone;
    }
  }

  ghost predicate CanMove(s: State) {
    CallerCan(s) || exists i: nat :: WorkerCan(s, i)
  }

  /** Somebody can move while the caller is inside the pool, spurious wakeups aside. */
  lemma SomebodyMoves(wrap: nat, s: State)
    requires Inv(wrap, s) && s.caller != Out && s.caller != Gone
    ensures CanMove(s)
  {
    hide After, CallsOk, Owed;
    if s.lock.TheWorker? {
      assert WorkerCan(s, s.lock.i);
    } else if s.lock == TheCaller {
      assert CallerCan(s);
    } else if s.caller == AsleepDone {
      var i := SomeoneOwes(s.gen, s.workers);
      WorkerAt(wrap, s, i);
      assert WorkerCan(s, i);
    } else if s.caller == Joining && !CallerCan(s) {
      var i: nat :| i < |s.workers| && s.workers[i].pc != Exited;
      WorkerAt(wrap, s, i);
      assert WorkerCan(s, i);
    }
  }

  lemma {:induction false} SomeoneOwes(gen: nat, ws: seq<Worker>) returns (i: nat)
    requires Owed(gen, ws) > 0
    ensures i < |ws| && Owes(gen, ws[i])
    decreases |ws|
  {
    if Owes(gen, ws[|ws| - 1]) { i := |ws| - 1; } else { i := SomeoneOwes(gen, ws[..|ws| - 1]); }
  }

  // ---- The measure ----

  function WorkerWeight(gen: nat, w: Worker): (k: nat)
    ensures k <= 12
  {
    match w.pc
    case AsleepStart => if w.seen != gen then 12 else 1
    case WantStart => if w.seen != gen then 11 else 3
    case CheckStart => if w.seen != gen then 10 else 2
    case Running => 9
    case WantDone => 8
    case CountDown => 7
    case NotifyDone => 6
    case Exited => 0
  }

  function CallerWeight(pc: CallerPc, n: nat): nat {
    match pc
    case Out => 0
    case WantPost => 14 * n + 7
    case Posting => 14 * n + 6
    case NotifyStart => 2 * n + 5
    case RunOwn => 4
    case WantWait => 3
    case CheckDone => 2
    case AsleepDone => 1
    case WantStop => 2 * n + 4
    case Stopping => 2 * n + 3
    case NotifyStop => 2 * n + 2
    case Joining => 1
    case Gone => 0
  }

  ghost function Weigh(gen: nat, ws: seq<Worker>): (k: nat)
    ensures k <= 12 * |ws|
  {
    if |ws| == 0 then 0 else Weigh(gen, ws[..|ws| - 1]) + WorkerWeight(gen, ws[|ws| - 1])
  }

  ghost function Measure(s: State): nat {
    CallerWeight(s.caller, |s.workers|) + Weigh(s.gen, s.workers)
  }

  lemma {:induction false} WeighUpdate(gen: nat, ws: seq<Worker>, i: nat, w: Worker)
    requires i < |ws|
    ensures Weigh(gen, ws[i := w]) + WorkerWeight(gen, ws[i]) == Weigh(gen, ws) + WorkerWeight(gen, w)
    decreases |ws|
  {
    hide WorkerWeight;
    var n := |ws| - 1;
    if i < n {
      WeighUpdate(gen, ws[..n], i, w);
      assert ws[i := w][..n] == ws[..n][i := w];
    } else {
      assert ws[i := w][..n] == ws[..n];
    }
  }

  lemma {:induction false} WeighWoken(gen: nat, ws: seq<Worker>)
    ensures Weigh(gen, WakeAll(ws)) <= Weigh(gen, ws) + 2 * |ws|
    decreases |ws|
  {
    if |ws| > 0 {
      WeighWoken(gen, ws[..|ws| - 1]);
      assert WakeAll(ws)[..|ws| - 1] == WakeAll(ws[..|ws| - 1]);
    }
  }

  /** Every step that is not a spurious wakeup brings the call closer to its return. */
  lemma MovesLower(wrap: nat, s: State, s': State)
    requires wrap >= 2 && Inv(wrap, s) && Moves(wrap, s, s')
    ensures Measure(s') < Measure(s) && |s'.workers| == |s.workers|
  {
    hide Inv, Measure, WorkerStep, WorkerCan, CallerStep, CallerCan;
    if CallerCan(s) && s' == CallerStep(wrap, s) {
      CallerLowers(wrap, s);
    } else {
      var i: nat :| WorkerCan(s, i) && s' == WorkerStep(s, i);
      WorkerLowers(wrap, s, i);
    }
  }

  lemma CallerLowers(wrap: nat, s: State)
    requires wrap >= 2 && CallerCan(s)
    ensures Measure(CallerStep(wrap, s)) < Measure(s) && |CallerStep(wrap, s).workers| == |s.workers|
  {
    hide Weigh, After;
    if s.caller == NotifyStart || s.caller == NotifyStop { WeighWoken(s.gen, s.workers); }
  }

  lemma WorkerLowers(wrap: nat, s: State, i: nat)
    requires wrap >= 2 && Inv(wrap, s) && WorkerCan(s, i)
    ensures Measure(WorkerStep(s, i)) < Measure(s) && |WorkerStep(s, i).workers| == |s.workers|
  {
    hide Weigh, After, CallsOk, CountOk, WakeOk, LockOk, WorkersOk, PhaseOk;
    WorkerAt(wrap, s, i);
    WeighUpdate(s.gen, s.workers, i, WorkerStep(s, i).workers[i]);
  }

  /** Apart from spurious wakeups a call can only take so many steps, and where no step
      is left the caller is out: `parallel_for` has returned, or the pool is gone. */
  lemma {:induction false} CallsReturn(wrap: nat, run: seq<State>)
    requires wrap >= 2 && |run| > 0 && Inv(wrap, run[0])
    requires forall i, j | 0 <= i < j == i + 1 < |run| :: Moves(wrap, run[i], run[j])
    ensures |run| - 1 + Measure(run[|run| - 1]) <= Measure(run[0]) && Inv(wrap, run[|run| - 1])
    ensures var s := run[|run| - 1]; s.caller != Out && s.caller != Gone ==> CanMove(s)
    decreases |run|
  {
    hide Inv, Measure, Moves, CanMove;
    var last := run[|run| - 1];
    if |run| > 1 {
      var front := run[..|run| - 1];
      CallsReturn(wrap, front);
      assert Moves(wrap, run[|run| - 2], last) && front[|front| - 1] == run[|run| - 2];
      MovesKeep(wrap, run[|run| - 2], last);
      MovesLower(wrap, run[|run| - 2], last);
    }
    if last.caller != Out && last.caller != Gone { SomebodyMoves(wrap, last); }
  }

  /** Once the destructor has run every worker has left its loop. */
  lemma GoneMeansExited(wrap: nat, run: seq<State>)
    requires IsRun(wrap, run) && run[|run| - 1].caller == Gone
    ensures AllExited(run[|run| - 1])
  {
    hide After, CallsOk, Owed, LockOk, WakeOk;
    RunKeeps(wrap, run);
    var s := run[|run| - 1];
    forall i | 0 <= i < |s.workers| ensures s.workers[i].pc == Exited { WorkerAt(wrap, s, i); }
  }

  /** Nobody who is inside a job function holds the mutex, in any state of any run: chunks
      run side by side. */
  lemma CallsHoldNoLock(wrap: nat, run: seq<State>, i: nat)
    requires IsRun(wrap, run) && i < |run[|run| - 1].workers|
    ensures var s := run[|run| - 1];
      (s.caller == RunOwn ==> s.lock != TheCaller) && (s.workers[i].pc == Running ==> s.lock != TheWorker(i))
  {
    hide PhaseOk, WorkersOk, CountOk, WakeOk, CallsOk;
    RunKeeps(wrap, run);
    var s := run[|run| - 1];
    assert Inv(wrap, s);
    assert s.lock == TheWorker(i) <==> Holds(s.workers[i].pc);
  }
}
