/** The multi-writer protocol over one scope of the Delta log: many threads in many processes, each
    process with a prefix cache, one exclusive lease, and appends whose outcome may be unknown.

    The lease has no expiry. It is `Stuck` once it stays held with nobody to release it: after
    `retain`, or when the release call itself failed. */
module LogProtocol {
  import opened Model
  import opened ControlLog
  import opened StoreInvariants
  import opened StoreHistory

  // ----- The cache -----

  /** `_remember`: absorb events into the cache, refusing a changed event, a bad number or a gap. What
      was absorbed before a refusal stays. */
  function Absorb(cache: seq<Event>, events: seq<Event>): (seq<Event>, bool)
    decreases |events|
  {
    if events == [] then (cache, true)
    else
      var e := events[0];
      if e.sequence < 1 then (cache, false)
      else if e.sequence <= |cache| then
        if cache[e.sequence - 1] != e then (cache, false) else Absorb(cache, events[1..])
      else if e.sequence == |cache| + 1 then Absorb(cache + [e], events[1..])
      else (cache, false)
  }

  /** `_read_after`: the rows of the scope above a sequence number, in order. */
  function ReadAfter(log: seq<Event>, sequence: nat): seq<Event> {
    if log == [] then []
    else
      var last := log[|log| - 1];
      ReadAfter(log[..|log| - 1], sequence) + if last.sequence > sequence then [last] else []
  }

  lemma {:induction false} ReadAfterIsSuffix(log: seq<Event>, n: nat)
    requires Numbered(log)
    ensures ReadAfter(log, n) == if n <= |log| then log[n..] else []
  {
    if log != [] {
      ReadAfterIsSuffix(log[..|log| - 1], n);
    }
  }

  /** Absorbing any stretch of the log into a cached prefix of it: it fails exactly when the stretch
      begins beyond the cache. */
  lemma {:induction false} AbsorbStretch(log: seq<Event>, cache: nat, lo: nat, hi: nat)
    requires Numbered(log) && cache <= |log| && lo <= hi <= |log|
    ensures Absorb(log[..cache], log[lo..hi])
         == if lo <= cache || lo == hi then (log[..(if hi > cache && lo < hi then hi else cache)], true)
            else (log[..cache], false)
    decreases hi - lo
  {
    if lo < hi {
      assert log[lo..hi][0] == log[lo] && log[lo..hi][1..] == log[lo + 1..hi];
      if lo < cache {
        AbsorbStretch(log, cache, lo + 1, hi);
      } else if lo == cache {
        assert log[..cache] + [log[lo]] == log[..cache + 1];
        AbsorbStretch(log, cache + 1, lo + 1, hi);
      }
    }
  }

  // ----- The system -----

  datatype Lease = Free | Held(holder: nat) | Stuck

  /** Where a thread is in `transaction`. */
  datatype Phase = Idle | Entered | Decided(base: seq<Event>, call: Call) | Appended(pending: seq<Event>)

  datatype State = State(log: seq<Event>, lease: Lease, threads: map<nat, Phase>, caches: map<nat, seq<Event>>)

  function PhaseOf(s: State, thread: nat): Phase
  {
    if thread in s.threads then s.threads[thread] else Idle
  }

  function CacheOf(s: State, process: nat): seq<Event> {
    if process in s.caches then s.caches[process] else []
  }

  datatype Action =
    | Acquire(thread: nat)
    | ReadAndDecide(thread: nat, call: Call)
    | GiveUp(thread: nat, freed: bool)
    | Append(thread: nat)
    | AppendUnconfirmed(thread: nat, committed: bool)
    | Remember(thread: nat, freed: bool)
    | View(process: nat)
    | Clear(process: nat)

  /** What the transaction put, numbered after the events that it read. */
  function Pending(base: seq<Event>, call: Call): seq<Event> {
    match Decide(Fold(base), call.command, call.now)
    case Ok(es) => Stamp(|base|, es)
    case Err(_) => []
  }

  predicate Enabled(s: State, a: Action) {
    match a
    case Acquire(i) => PhaseOf(s, i).Idle? && s.lease.Free?
    case ReadAndDecide(i, _) => PhaseOf(s, i).Entered?
    case GiveUp(i, _) => PhaseOf(s, i).Entered? || PhaseOf(s, i).Decided?
    case Append(i) => PhaseOf(s, i).Decided? && Pending(PhaseOf(s, i).base, PhaseOf(s, i).call) != []
    case AppendUnconfirmed(i, _) => PhaseOf(s, i).Decided? && Pending(PhaseOf(s, i).base, PhaseOf(s, i).call) != []
    case Remember(i, _) => PhaseOf(s, i).Appended?
    case View(_) => true
    case Clear(_) => true
  }

  function Refreshed(s: State, process: nat): State {
    s.(caches := s.caches[process := Absorb(CacheOf(s, process), ReadAfter(s.log, |CacheOf(s, process)|)).0])
  }

  function Leave(s: State, thread: nat, freed: bool): State {
    s.(threads := s.threads[thread := Idle], lease := if freed then Free else Stuck)
  }

  /** `home` tells which process a thread belongs to. */
  function Next(home: nat -> nat, s: State, a: Action): State
    requires Enabled(s, a)
  {
    match a
    case Acquire(i) => s.(lease := Held(i), threads := s.threads[i := Entered])
    case ReadAndDecide(i, call) =>
      var s' := Refreshed(s, home(i));
      s'.(threads := s'.threads[i := Decided(CacheOf(s', home(i)), call)])
    case GiveUp(i, freed) => Leave(s, i, freed)
    case Append(i) =>
      var pending := Pending(PhaseOf(s, i).base, PhaseOf(s, i).call);
      s.(log := s.log + pending, threads := s.threads[i := Appended(pending)])
    case AppendUnconfirmed(i, committed) =>
      var pending := Pending(PhaseOf(s, i).base, PhaseOf(s, i).call);
      Leave(if committed then s.(log := s.log + pending) else s, i, false)
    case Remember(i, freed) =>
      var (cache, known) := Absorb(CacheOf(s, home(i)), PhaseOf(s, i).pending);
      Leave(s.(caches := s.caches[home(i) := cache]), i, known && freed)
    case View(p) => Refreshed(s, p)
    case Clear(p) => s.(caches := s.caches[p := []])
  }

  const Start := State([], Free, map[], map[])

  // ----- Safety -----

  ghost predicate PhaseOk(s: State, i: nat) {
    match PhaseOf(s, i)
    case Idle => s.lease != Held(i)
    case Entered => s.lease == Held(i)
    case Decided(base, _) => s.lease == Held(i) && base == s.log
    case Appended(pending) =>
      && s.lease == Held(i) && pending != [] && |pending| <= |s.log| && pending == s.log[|s.log| - |pending|..]
  }

  /** The log is numbered 1..n; every cache is a prefix of it; only the lease holder is in a transaction,
      and what it read is still the whole log. */
  ghost predicate Inv(s: State) {
    && Numbered(s.log)
    && (forall p :: CacheOf(s, p) <= s.log)
    && (forall i :: PhaseOk(s, i))
  }

  lemma RefreshIsComplete(s: State, process: nat)
    requires Numbered(s.log) && CacheOf(s, process) <= s.log
    ensures Absorb(CacheOf(s, process), ReadAfter(s.log, |CacheOf(s, process)|)) == (s.log, true)
  {
    hide Absorb;
    var n := |CacheOf(s, process)|;
    ReadAfterIsSuffix(s.log, n);
    AbsorbStretch(s.log, n, n, |s.log|);
    assert s.log[n..|s.log|] == s.log[n..] && s.log[..n] == CacheOf(s, process) && s.log[..|s.log|] == s.log;
  }

  /** `events` always returns exactly the full log, and never raises AUDIT_CORRUPTION. */
  lemma ViewsAreComplete(s: State, process: nat)
    requires Inv(s)
    ensures Absorb(CacheOf(s, process), ReadAfter(s.log, |CacheOf(s, process)|)) == (s.log, true)
    ensures CacheOf(Refreshed(s, process), process) == s.log
  {
    RefreshIsComplete(s, process);
  }

  lemma PendingStamps(base: seq<Event>, call: Call)
    requires Numbered(base)
    ensures Numbered(base + Pending(base, call))
    ensures Step(base, call) == base + Pending(base, call)
  {
  }

  /** Absorbing the end of the log into a cached prefix. */
  lemma AbsorbEnd(log: seq<Event>, cache: seq<Event>, end: seq<Event>)
    requires Numbered(log) && cache <= log && end != [] && |end| <= |log| && end == log[|log| - |end|..]
    ensures Absorb(cache, end) == if |cache| >= |log| - |end| then (log, true) else (cache, false)
  {
    hide Absorb, Numbered;
    AbsorbStretch(log, |cache|, |log| - |end|, |log|);
    assert log[|log| - |end|..|log|] == end && log[..|cache|] == cache && log[..|log|] == log;
  }

  /** The acknowledged events are the end of the log; the writer's cache misses them exactly when it
      has become shorter than what the transaction had read. */
  lemma RememberFailsExactly(home: nat -> nat, s: State, i: nat)
    requires Inv(s) && PhaseOf(s, i).Appended?
    ensures var (cache, known) := Absorb(CacheOf(s, home(i)), PhaseOf(s, i).pending);
            && (known <==> |CacheOf(s, home(i))| >= |s.log| - |PhaseOf(s, i).pending|)
            && cache == if known then s.log else CacheOf(s, home(i))
  {
    hide Absorb, Numbered;
    InvParts(s, home(i));
    assert PhaseOk(s, i);
    AbsorbEnd(s.log, CacheOf(s, home(i)), PhaseOf(s, i).pending);
  }

  lemma InvParts(s: State, p: nat)
    requires Inv(s)
    ensures Numbered(s.log) && CacheOf(s, p) <= s.log
  {
  }

  lemma StepKeepsInv(home: nat -> nat, s: State, a: Action)
    requires Inv(s) && Enabled(s, a)
    ensures Inv(Next(home, s, a))
  {
    var s' := Next(home, s, a);
    StepKeepsLog(home, s, a);
    forall j ensures PhaseOk(s', j) {
      StepKeepsPhase(home, s, a, j);
    }
  }

  /** A step leaves the log or extends it by what the lease holder decided; the caches stay prefixes. */
  lemma StepKeepsLog(home: nat -> nat, s: State, a: Action)
    requires Inv(s) && Enabled(s, a)
    ensures var s' := Next(home, s, a);
            && Numbered(s'.log)
            && (forall p :: CacheOf(s', p) <= s'.log)
            && s'.log == if a.Append? || (a.AppendUnconfirmed? && a.committed)
                         then Step(s.log, PhaseOf(s, a.thread).call)
                         else s.log
  {
    var s' := Next(home, s, a);
    match a {
      case ReadAndDecide(i, _) => RefreshIsComplete(s, home(i));
      case View(p) => RefreshIsComplete(s, p);
      case Append(i) => AppendedLog(s, i);
      case AppendUnconfirmed(i, _) => AppendedLog(s, i);
      case Remember(i, _) => RememberFailsExactly(home, s, i);
      case _ =>
    }
    forall p ensures CacheOf(s', p) <= s'.log {
      assert CacheOf(s, p) <= s.log;
    }
  }

  lemma AppendedLog(s: State, i: nat)
    requires Inv(s) && PhaseOf(s, i).Decided?
    ensures var pending := Pending(PhaseOf(s, i).base, PhaseOf(s, i).call);
            && PhaseOf(s, i).base == s.log
            && Numbered(s.log + pending) && s.log + pending == Step(s.log, PhaseOf(s, i).call)
            && (s.log + pending)[|s.log|..] == pending
  {
    assert PhaseOk(s, i);
    PendingStamps(s.log, PhaseOf(s, i).call);
  }

  lemma StepKeepsPhase(home: nat -> nat, s: State, a: Action, j: nat)
    requires Inv(s) && Enabled(s, a)
    ensures PhaseOk(Next(home, s, a), j)
  {
    hide Absorb, Pending;
    assert PhaseOk(s, j);
    match a {
      case Acquire(i) => assert PhaseOk(s, i);
      case ReadAndDecide(i, _) =>
        assert PhaseOk(s, i);
        RefreshIsComplete(s, home(i));
      case GiveUp(i, _) => assert PhaseOk(s, i);
      case Append(i) =>
        assert PhaseOk(s, i);
        AppendedLog(s, i);
      case AppendUnconfirmed(i, _) => assert PhaseOk(s, i);
      case Remember(i, _) => assert PhaseOk(s, i);
      case View(_) =>
      case Clear(_) =>
    }
  }

  /** The empty scope, with nobody inside, is where all of this begins. */
  lemma StartHolds(home: nat -> nat)
    ensures Inv(Start)
  {
  }

  // ----- Whole histories -----

  ghost predicate Possible(home: nat -> nat, s: State, actions: seq<Action>)
    decreases |actions|
  {
    actions == [] || (Enabled(s, actions[0]) && Possible(home, Next(home, s, actions[0]), actions[1..]))
  }

  ghost function Run(home: nat -> nat, s: State, actions: seq<Action>): State
    requires Possible(home, s, actions)
    decreases |actions|
  {
    if actions == [] then s else Run(home, Next(home, s, actions[0]), actions[1..])
  }

  /** The call that an action commits to the log, if any. */
  function Committing(s: State, a: Action): seq<Call>
    requires Enabled(s, a)
  {
    if a.Append? || (a.AppendUnconfirmed? && a.committed) then [PhaseOf(s, a.thread).call] else []
  }

  /** The calls that the threads decided and whose append reached the log, in that order. */
  ghost function Committed(home: nat -> nat, s: State, actions: seq<Action>): seq<Call>
    requires Possible(home, s, actions)
    decreases |actions|
  {
    if actions == [] then []
    else Committing(s, actions[0]) + Committed(home, Next(home, s, actions[0]), actions[1..])
  }

  /** Every interleaving of writers, readers, cache clears and unconfirmed appends is a serial history of
      whole transactions: the log is what the committed calls leave, run one by one. */
  lemma {:induction false} EveryHistoryIsSerial(home: nat -> nat, s: State, actions: seq<Action>)
    requires Inv(s) && Possible(home, s, actions)
    ensures Inv(Run(home, s, actions))
    ensures Run(home, s, actions).log == Exec(s.log, Committed(home, s, actions))
    decreases |actions|
  {
    if actions != [] {
      var a, s' := actions[0], Next(home, s, actions[0]);
      StepKeepsInv(home, s, a);
      StepKeepsLog(home, s, a);
      EveryHistoryIsSerial(home, s', actions[1..]);
      var rest := Committed(home, s', actions[1..]);
      if Committing(s, a) != [] {
        ExecFirst(s.log, PhaseOf(s, a.thread).call, rest);
      } else {
        assert Committing(s, a) + rest == rest;
      }
    }
  }

  /** Whatever the interleaving, the Delta log folds to a well-formed control store, as long as the
      callers follow the repository's conventions. */
  lemma DeltaLogsAreWellFormed(home: nat -> nat, actions: seq<Action>)
    requires Possible(home, Start, actions) && Lawful([], Committed(home, Start, actions))
    ensures Numbered(Run(home, Start, actions).log) && StoreOk(Fold(Run(home, Start, actions).log))
  {
    StartHolds(home);
    EveryHistoryIsSerial(home, Start, actions);
    ReachableOk([], Committed(home, Start, actions));
  }

  lemma {:induction false} ExecFirst(log: seq<Event>, first: Call, calls: seq<Call>)
    ensures Exec(log, [first] + calls) == Exec(Step(log, first), calls)
  {
    var all := [first] + calls;
    if calls == [] {
      assert all[..0] == [];
    } else {
      ExecFirst(log, first, calls[..|calls| - 1]);
      assert all[..|all| - 1] == [first] + calls[..|calls| - 1];
    }
  }

  /** After an unconfirmed append nobody can ever append to this scope again. */
  lemma {:induction false} StuckForEver(home: nat -> nat, s: State, actions: seq<Action>)
    requires Inv(s) && s.lease.Stuck? && Possible(home, s, actions)
    ensures Run(home, s, actions).log == s.log && Run(home, s, actions).lease.Stuck?
    decreases |actions|
  {
    if actions != [] {
      var a := actions[0];
      forall i ensures PhaseOf(s, i).Idle? {
        assert PhaseOk(s, i);
      }
      StepKeepsInv(home, s, a);
      StuckForEver(home, Next(home, s, a), actions[1..]);
    }
  }

  // ----- When an acknowledged append is reported as a failure -----

  /** The writer's cache still holds what its transaction read. */
  ghost predicate Warm(home: nat -> nat, s: State) {
    forall i :: WarmAt(home, s, i)
  }

  ghost predicate WarmAt(home: nat -> nat, s: State, i: nat) {
    match PhaseOf(s, i)
    case Decided(base, _) => |CacheOf(s, home(i))| >= |base|
    case Appended(pending) => |CacheOf(s, home(i))| >= |s.log| - |pending|
    case _ => true
  }

  /** Only `clear_cache` makes a cache shorter. */
  lemma CacheGrows(home: nat -> nat, s: State, a: Action, p: nat)
    requires Inv(s) && Enabled(s, a) && !a.Clear?
    ensures |CacheOf(Next(home, s, a), p)| >= |CacheOf(s, p)|
  {
    hide Pending, Absorb, Numbered, PhaseOk;
    assert CacheOf(s, p) <= s.log;
    if a.ReadAndDecide? {
      InvParts(s, home(a.thread));
      RefreshIsComplete(s, home(a.thread));
    } else if a.View? {
      InvParts(s, a.process);
      RefreshIsComplete(s, a.process);
    } else if a.Remember? {
      RememberFailsExactly(home, s, a.thread);
    }
  }

  /** A step that leaves a thread's phase and the log alone leaves its cache warm. */
  lemma WarmOther(home: nat -> nat, s: State, a: Action, j: nat)
    requires Inv(s) && WarmAt(home, s, j) && Enabled(s, a) && !a.Clear?
    requires PhaseOf(Next(home, s, a), j) == PhaseOf(s, j) && Next(home, s, a).log == s.log
    ensures WarmAt(home, Next(home, s, a), j)
  {
    hide Inv, Next;
    CacheGrows(home, s, a, home(j));
  }

  lemma WarmRead(home: nat -> nat, s: State, a: Action)
    requires Inv(s) && a.ReadAndDecide? && Enabled(s, a)
    ensures WarmAt(home, Next(home, s, a), a.thread)
  {
    hide Absorb, Numbered;
  }

  lemma WarmAppend(home: nat -> nat, s: State, a: Action)
    requires Inv(s) && a.Append? && Enabled(s, a) && WarmAt(home, s, a.thread)
    ensures WarmAt(home, Next(home, s, a), a.thread)
  {
    hide Pending, Absorb, Numbered;
    assert PhaseOk(s, a.thread);
  }

  predicate Inside(s: State, j: nat) {
    PhaseOf(s, j).Decided? || PhaseOf(s, j).Appended?
  }

  /** While a thread is inside its transaction, no other thread can take a step of one. */
  lemma OnlyHolderActs(s: State, a: Action, j: nat)
    requires Inv(s) && Enabled(s, a) && Inside(s, j)
    ensures a.View? || a.Clear? || a.thread == j
  {
    hide Pending, Numbered;
    assert PhaseOk(s, j);
    if !a.View? && !a.Clear? {
      assert PhaseOk(s, a.thread);
    }
  }

  lemma OutsideIsWarm(home: nat -> nat, s: State, a: Action)
    requires Enabled(s, a) && (a.Acquire? || a.GiveUp? || a.AppendUnconfirmed? || a.Remember?)
    ensures WarmAt(home, Next(home, s, a), a.thread)
  {
    hide Pending, Absorb, CacheOf;
  }

  lemma OthersOutside(home: nat -> nat, s: State, a: Action, j: nat)
    requires Enabled(s, a) && !a.View? && !a.Clear? && a.thread != j && !Inside(s, j)
    ensures WarmAt(home, Next(home, s, a), j)
  {
    hide Pending, Absorb, CacheOf;
  }

  lemma WarmStep(home: nat -> nat, s: State, a: Action, j: nat)
    requires Inv(s) && WarmAt(home, s, j) && Enabled(s, a) && !a.Clear?
    ensures WarmAt(home, Next(home, s, a), j)
  {
    hide Inv, Next, WarmAt, Enabled;
    if Inside(s, j) {
      OnlyHolderActs(s, a, j);
    }
    if a.View? {
      ViewChangesNoPhase(home, s, a, j);
      WarmOther(home, s, a, j);
    } else if a.thread != j {
      OthersOutside(home, s, a, j);
    } else if a.ReadAndDecide? {
      WarmRead(home, s, a);
    } else if a.Append? {
      WarmAppend(home, s, a);
    } else {
      OutsideIsWarm(home, s, a);
    }
  }

  lemma ViewChangesNoPhase(home: nat -> nat, s: State, a: Action, j: nat)
    requires a.View?
    ensures PhaseOf(Next(home, s, a), j) == PhaseOf(s, j) && Next(home, s, a).log == s.log
  {
  }

  /** Without a cache clear, every acknowledged append is absorbed, and so reported as a success. */
  lemma {:induction false} WithoutClearsEveryAppendIsConfirmed(home: nat -> nat, s: State, actions: seq<Action>, i: nat)
    requires Inv(s) && Warm(home, s) && Possible(home, s, actions)
    requires forall a | a in actions :: !a.Clear?
    ensures Warm(home, Run(home, s, actions))
    ensures var s' := Run(home, s, actions);
            PhaseOf(s', i).Appended? ==> Absorb(CacheOf(s', home(i)), PhaseOf(s', i).pending) == (s'.log, true)
    decreases |actions|
  {
    if actions == [] {
      if PhaseOf(s, i).Appended? {
        assert WarmAt(home, s, i);
        RememberFailsExactly(home, s, i);
      }
    } else {
      StepKeepsInv(home, s, actions[0]);
      forall j ensures WarmAt(home, Next(home, s, actions[0]), j) {
        assert WarmAt(home, s, j);
        WarmStep(home, s, actions[0], j);
      }
      WithoutClearsEveryAppendIsConfirmed(home, Next(home, s, actions[0]), actions[1..], i);
    }
  }

  /** With one, an append that the table has acknowledged is raised as AUDIT_CORRUPTION and its lease is
      kept, in every scope that already had events: clear the writer's cache between the append and
      `_remember`. */
  lemma ClearedCacheFailsAnAcknowledgedAppend(home: nat -> nat, s: State, i: nat, freed: bool)
    requires Inv(s) && PhaseOf(s, i).Appended? && |PhaseOf(s, i).pending| < |s.log|
    ensures var cleared := Next(home, s, Clear(home(i)));
            && Enabled(cleared, Remember(i, freed))
            && !Absorb(CacheOf(cleared, home(i)), PhaseOf(cleared, i).pending).1
            && var s' := Next(home, cleared, Remember(i, freed)); s'.log == s.log && s'.lease.Stuck?
  {
    var cleared := Next(home, s, Clear(home(i)));
    StepKeepsInv(home, s, Clear(home(i)));
    RememberFailsExactly(home, cleared, i);
  }

  lemma {:induction false} RunConcat(home: nat -> nat, s: State, a: seq<Action>, b: seq<Action>)
    requires Possible(home, s, a) && Possible(home, Run(home, s, a), b)
    ensures Possible(home, s, a + b) && Run(home, s, a + b) == Run(home, Run(home, s, a), b)
    decreases |a|
  {
    if a == [] {
      assert a + b == b;
    } else {
      RunConcat(home, Next(home, s, a[0]), a[1..], b);
      assert (a + b)[0] == a[0] && (a + b)[1..] == a[1..] + b;
    }
  }

  lemma OneAction(home: nat -> nat, s: State, a: Action)
    requires Enabled(s, a)
    ensures Possible(home, s, [a]) && Run(home, s, [a]) == Next(home, s, a)
  {
    assert [a][1..] == [];
  }

  /** A free scope lets any thread read, decide and append. */
  lemma Enter(home: nat -> nat, s: State, i: nat, call: Call) returns (actions: seq<Action>)
    requires Inv(s) && s.lease.Free? && Pending(s.log, call) != []
    ensures Possible(home, s, actions)
    ensures var s' := Run(home, s, actions);
            && Inv(s') && s'.log == s.log + Pending(s.log, call)
            && PhaseOf(s', i) == Appended(Pending(s.log, call)) && CacheOf(s', home(i)) == s.log
  {
    hide Pending, Absorb;
    assert PhaseOk(s, i);
    assert PhaseOf(s, i).Idle?;
    var s1 := Next(home, s, Acquire(i));
    StepKeepsInv(home, s, Acquire(i));
    RefreshIsComplete(s1, home(i));
    var s2 := Next(home, s1, ReadAndDecide(i, call));
    StepKeepsInv(home, s1, ReadAndDecide(i, call));
    StepKeepsInv(home, s2, Append(i));
    OneAction(home, s, Acquire(i));
    OneAction(home, s1, ReadAndDecide(i, call));
    OneAction(home, s2, Append(i));
    RunConcat(home, s, [Acquire(i)], [ReadAndDecide(i, call)]);
    RunConcat(home, s, [Acquire(i)] + [ReadAndDecide(i, call)], [Append(i)]);
    actions := [Acquire(i)] + [ReadAndDecide(i, call)] + [Append(i)];
  }

  /** The first run of a scope begins, and ends without nodes. */
  lemma FirstCallsCommit(request: RunRequest, cfg: Config, now: real)
    requires request.mode.Normal?
    ensures var begin, finish := Call(Begin(request, cfg, []), now), Call(FinishRun(1, 1, RunSucceeded), now);
            && Pending([], begin) != [] && Numbered(Pending([], begin))
            && Pending(Pending([], begin), finish) != []
  {
    var begin := Call(Begin(request, cfg, []), now);
    var es := Decide(Fold([]), begin.command, now).value;
    assert CreateEntries(BeginCommon(EmptyTables, request, cfg), []) == [];
    assert es == [es[0]];
    var log := Pending([], begin);
    assert log == [Event(1, es[0])];
    assert log[..0] == [];
    assert Fold(log) == Evolve(EmptyTables, es[0]);
  }

  /** A free scope lets any thread complete a whole transaction. */
  lemma Transact(home: nat -> nat, s: State, i: nat, call: Call) returns (actions: seq<Action>)
    requires Inv(s) && s.lease.Free? && Pending(s.log, call) != []
    ensures Possible(home, s, actions)
    ensures var s' := Run(home, s, actions); Inv(s') && s'.log == s.log + Pending(s.log, call) && s'.lease.Free?
  {
    hide Pending, Absorb;
    actions := Enter(home, s, i, call);
    var s' := Run(home, s, actions);
    RememberFailsExactly(home, s', i);
    StepKeepsInv(home, s', Remember(i, true));
    OneAction(home, s', Remember(i, true));
    RunConcat(home, s, actions, [Remember(i, true)]);
    actions := actions + [Remember(i, true)];
  }

  /** The race from an empty scope: one transaction is confirmed; the next is appended, another thread of
      its process clears the cache, and the acknowledged append is not recognised. */
  lemma RaceFromStart(
    home: nat -> nat, i: nat, request: RunRequest, cfg: Config, now: real
  ) returns (actions: seq<Action>)
    requires request.mode.Normal?
    ensures Possible(home, Start, actions) && Run(home, Start, actions).lease.Stuck?
    ensures var log := Pending([], Call(Begin(request, cfg, []), now));
            Run(home, Start, actions).log == log + Pending(log, Call(FinishRun(1, 1, RunSucceeded), now))
    ensures |actions| > 2 && actions[|actions| - 2..] == [Clear(home(i)), Remember(i, true)]
  {
    hide Pending, Inv, Run, Possible;
    FirstCallsCommit(request, cfg, now);
    StartHolds(home);
    var race := [Clear(home(i)), Remember(i, true)];
    var first := Transact(home, Start, i, Call(Begin(request, cfg, []), now));
    var s1 := Run(home, Start, first);
    assert s1.log == Pending([], Call(Begin(request, cfg, []), now));
    var second := Enter(home, s1, i, Call(FinishRun(1, 1, RunSucceeded), now));
    RunConcat(home, Start, first, second);
    Stall(home, Run(home, s1, second), i);
    RunConcat(home, Start, first + second, race);
    EnterIsNotEmpty(home, s1, second);
    actions := first + second + race;
  }

  lemma EnterIsNotEmpty(home: nat -> nat, s: State, actions: seq<Action>)
    requires Possible(home, s, actions) && Run(home, s, actions) != s
    ensures actions != []
  {
  }

  lemma Stall(home: nat -> nat, s: State, i: nat)
    requires Inv(s) && PhaseOf(s, i).Appended? && |PhaseOf(s, i).pending| < |s.log|
    ensures Possible(home, s, [Clear(home(i)), Remember(i, true)])
    ensures var s' := Run(home, s, [Clear(home(i)), Remember(i, true)]); s'.lease.Stuck? && s'.log == s.log
  {
    ClearedCacheFailsAnAcknowledgedAppend(home, s, i, true);
    var cleared := Next(home, s, Clear(home(i)));
    OneAction(home, s, Clear(home(i)));
    OneAction(home, cleared, Remember(i, true));
    RunConcat(home, s, [Clear(home(i))], [Remember(i, true)]);
    assert [Clear(home(i))] + [Remember(i, true)] == [Clear(home(i)), Remember(i, true)];
  }
}
