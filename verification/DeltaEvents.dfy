/** One process of the Delta event store: its prefix cache, and one transaction under its file lease. */
module DeltaEvents {
  import opened Model
  import opened ControlLog
  import opened StoreHistory
  import opened LogProtocol

  const AUDIT_CORRUPTION := Workflow("AUDIT_CORRUPTION")
  const LEASE_RELEASE_FAILED := Failure("LEASE_RELEASE_FAILED", Infrastructure, false)
  const UNCONFIRMED := Failure("append", Infrastructure, false)

  /** The rows of one scope. */
  class Table {
    var log: seq<Event>

    constructor ()
      ensures log == []
    {
      log := [];
    }
  }

  /** `DataLakeFileLease`: an infinite lease that `release` gives back unless it was retained. */
  class FileLease {
    var held: bool
    var retained: bool

    constructor ()
      ensures held && !retained
    {
      held, retained := true, false;
    }

    method Retain()
      modifies this
      ensures retained && held == old(held)
    {
      retained := true;
    }

    /** `service` says whether the storage service accepts the release. */
    method Release(service: bool) returns (ok: bool)
      modifies this
      ensures retained == old(retained)
      ensures held == (old(held) && (retained || !service))
      ensures ok == (retained || service)
    {
      ok := true;
      if !retained {
        ok := service;
        held := held && !service;
      }
    }
  }

  datatype Fate = Acknowledged | Lost(committed: bool)

  /** What the environment does to one transaction: the lease renewal, the append, another thread that
      clears the cache before `_remember`, and the release. */
  datatype Weather = Weather(renewed: bool, fate: Fate, cleared: bool, released: bool)

  class DeltaEvents {
    const table: Table
    var cache: seq<Event>

    ghost predicate Valid()
      reads this, table
    {
      Numbered(table.log) && cache <= table.log
    }

    constructor (table: Table)
      requires Numbered(table.log)
      ensures Valid() && this.table == table && cache == []
    {
      this.table, cache := table, [];
    }

    method ClearCache()
      requires Valid()
      modifies this
      ensures Valid() && cache == []
    {
      cache := [];
    }

    /** `_remember`, in place. */
    method Remember(events: seq<Event>) returns (known: bool)
      modifies this
      ensures (cache, known) == Absorb(old(cache), events)
    {
      for i := 0 to |events|
        invariant Absorb(cache, events[i..]) == Absorb(old(cache), events)
      {
        var e := events[i];
        assert events[i..][0] == e && events[i..][1..] == events[i + 1..];
        if e.sequence < 1 {
          return false;
        }
        if e.sequence <= |cache| {
          if cache[e.sequence - 1] != e {
            return false;
          }
        } else if e.sequence == |cache| + 1 {
          cache := cache + [e];
        } else {
          return false;
        }
      }
      known := true;
    }

    /** `events`: exactly the committed log, whatever was cached. */
    method Events() returns (events: seq<Event>)
      requires Valid()
      modifies this
      ensures Valid() && events == table.log && cache == table.log
    {
      var rows := ReadAfter(table.log, |cache|);
      ReadAfterIsSuffix(table.log, |cache|);
      AbsorbStretch(table.log, |cache|, |cache|, |table.log|);
      assert table.log[|cache|..|table.log|] == table.log[|cache|..] && table.log[..|cache|] == cache;
      assert table.log[..|table.log|] == table.log;
      var known := Remember(rows);
      assert known;
      events := cache;
    }

    /** What absorbing the appended events into the present cache gives. */
    lemma Absorbed(base: seq<Event>, pending: seq<Event>)
      requires Valid() && table.log == base + pending && pending != []
      ensures Absorb(cache, pending) == if |cache| >= |base| then (table.log, true) else (cache, false)
    {
      AbsorbStretch(table.log, |cache|, |base|, |table.log|);
      assert table.log[|base|..|table.log|] == pending && table.log[..|cache|] == cache;
      assert table.log[..|table.log|] == table.log;
    }

    /** `transaction`, for the body that `Decide` describes. A success is a whole serial step and frees the
        lease. Whenever a failure may hide a committed append, the lease stays held. */
    method Transaction(c: Command, now: real, weather: Weather) returns (r: Outcome<seq<Event>>, guard: FileLease)
      requires Valid()
      modifies this, table
      ensures Valid()
      ensures table.log == old(table.log) || table.log == Step(old(table.log), Call(c, now))
      ensures r.Ok? ==> table.log == Step(old(table.log), Call(c, now)) && !guard.held
      ensures r.Err? && table.log != old(table.log) ==> guard.held
      ensures guard.retained <==>
              && Step(old(table.log), Call(c, now)) != old(table.log) && weather.renewed
              && (weather.fate.Lost? || (weather.cleared && old(table.log) != []))
      ensures guard.held <==> guard.retained || !weather.released
      ensures r.Ok? <==>
              && Decide(Fold(old(table.log)), c, now).Ok? && weather.released && !guard.retained
              && (Step(old(table.log), Call(c, now)) == old(table.log) || weather.renewed)
    {
      hide Decide, Fold;
      guard := new FileLease();
      var events := Events();
      PendingStamps(events, Call(c, now));
      var decision := Decide(Fold(events), c, now);
      if decision.Err? {
        var _ := guard.Release(weather.released);
        return Err(decision.error), guard;
      }
      var pending := LogProtocol.Pending(events, Call(c, now));
      if pending != [] {
        if !weather.renewed {
          var _ := guard.Release(weather.released);
          return Err(LEASE_LOST), guard;
        }
        var confirmed := AppendAndRemember(events, pending, weather);
        if confirmed.Err? {
          guard.Retain();
          var _ := guard.Release(weather.released);
          return Err(confirmed.error), guard;
        }
      }
      var freed := guard.Release(weather.released);
      r := if freed then Ok(pending) else Err(LEASE_RELEASE_FAILED);
    }

    /** The part that runs with `writing` set. */
    method AppendAndRemember(events: seq<Event>, pending: seq<Event>, weather: Weather) returns (r: Outcome<bool>)
      requires Valid() && events == table.log && cache == events && pending != [] && Numbered(events + pending)
      modifies this, table
      ensures Valid()
      ensures table.log == events + pending || (table.log == events && weather.fate == Lost(false))
      ensures r.Err? <==> weather.fate.Lost? || (weather.cleared && events != [])
    {
      match weather.fate {
        case Lost(committed) =>
          if committed {
            table.log := table.log + pending;
          }
          return Err(UNCONFIRMED);
        case Acknowledged =>
          table.log := table.log + pending;
      }
      if weather.cleared {
        ClearCache();
      }
      Absorbed(events, pending);
      var known := Remember(pending);
      r := if known then Ok(true) else Err(AUDIT_CORRUPTION);
    }
  }
}
