/** Shared terminal sizing of one publication. All viewers of the publication share one controller per
    pane; between any two steps, and in the middle of an acquisition, helpers may end and other
    publications may reclaim idle controllers. */
module Sizings {
  import opened Wire
  import opened SizingState
  import opened SizingLaws

  /** How handling a frame ended: passed on, or with a failure of the view. */
  datatype Result = Fine | Failed(code: string)

  class Sizing {
    var pool: Pool
    var registry: map<Pane, Handle>
    var known: Option<set<Pane>>
    var closed: bool
    var views: map<Viewer, View>
    var due: map<Viewer, Duty>
    ghost var timers: set<Timer>
    ghost var log: Log
    ghost var gone: set<Pane>

    ghost predicate Valid()
      reads this
    {
      var all :=
        && Pooled(pool) && WithinCapacity(pool)
        && Counted(registry, pool.table, views)
        && Idle(registry, pool)
        && Held(pool.table, views)
        && Lingering(registry, pool.table, log)
        && Requested(views)
        && Recorded();
      all
    }

    /** Every navigation written so far came after what it needed was held, and so will those that are
        still to be written. */
    ghost predicate Recorded()
      reads this
    {
      && Logged(registry, views, log) && Witnessed(gone, log) && Guarded(log) && Ready(views, due, log)
      && Tracked(views, log)
    }

    /** What other publications may rely on: this one only reclaims their idle controllers. */
    twostate predicate Considerate()
      reads this
    {
      Interferes(old(pool), pool, false)
    }

    constructor ()
      ensures Valid() && registry == map[] && views == map[] && due == map[] && !closed && known == None
    {
      pool, registry, known, closed, views, due := Pool(map[], {}, {}), map[], None, false, map[], map[];
      timers, log, gone := {}, Empty, {};
      new;
      NothingYet();
    }

    lemma NothingYet()
      requires pool == Pool(map[], {}, {}) && registry == map[] && views == map[] && due == map[]
      requires gone == {} && log == Empty
      ensures Valid()
    {
      forall h ensures PooledAt(pool, h) {
      }
      forall n ensures WithinCapacityOf(pool, n) {
      }
      forall k ensures CountedAt(registry, pool.table, views, k) {
      }
      forall h ensures IdleAt(registry, pool, h) {
      }
      forall v, k ensures HeldAt(pool.table, views, v, k) {
      }
      forall k ensures LingeringAt(registry, pool.table, log, k) {
      }
      forall v ensures RequestedAt(views, v) {
      }
      forall v, k ensures LoggedAt(registry, views, log, v, k) {
      }
      forall v ensures ReadyAt(views, due, log, v) {
      }
      forall v ensures TrackedAt(views, log, v) {
        NewTracks(v);
      }
      NobodyGone(log);
    }

    // The environment -----------------------------------------------------------------------------

    /** Others act, any number of times: helpers end, idle controllers are reclaimed, and other
        publications make, use and stop controllers of their own. */
    method Interfere()
      requires Valid()
      modifies this`pool
      ensures Valid() && Interferes(old(pool), pool, true)
    {
      var n: nat := *;
      InterferesSelf(pool, true);
      while n > 0
        invariant Valid() && Interferes(old(pool), pool, true)
      {
        ghost var before := pool;
        Other();
        InterferesTransitive(old(pool), before, pool, true);
        n := n - 1;
      }
    }

    method Other()
      requires Valid()
      modifies this`pool
      ensures Valid() && Interferes(old(pool), pool, true)
    {
      var action: int, h: Handle, c: Controller, idle: bool := *, *, *, *;
      InterferesSelf(pool, true);
      if action == 0 && h in pool.table {
        EndPool(pool, h);
        InterfereOurs(registry, pool, Ended(pool, h), views, log);
        pool := Ended(pool, h);
      } else if action == 1 && h in pool.idle && h in pool.table {
        EvictPool(pool, h);
        InterfereOurs(registry, pool, Evicted(pool, h), views, log);
        pool := Evicted(pool, h);
      } else if !c.mine && (h in pool.table ==> !pool.table[h].mine) && !(idle && c.retired)
                && (c.retired ==> c.dead) && (c.dead || h in pool.slots || |pool.slots| < CAPACITY) {
        ForeignPool(pool, h, c, idle);
        InterfereOurs(registry, pool, Foreign(pool, h, c, idle), views, log);
        pool := Foreign(pool, h, c, idle);
      }
    }

    // Slots ---------------------------------------------------------------------------------------

    /** Makes room for another helper, at the cost of idle controllers of any publication. It is refused
        only when every slot is taken and no controller is idle. */
    method Reserve() returns (room: bool)
      requires Valid()
      modifies this`pool
      ensures Valid() && Considerate() && Interferes(old(pool), pool, true)
      ensures room ==> |pool.slots| < CAPACITY
      ensures !room ==> |pool.slots| >= CAPACITY && pool.idle == {}
      ensures pool.idle <= old(pool).idle
    {
      InterferesSelf(pool, true);
      InterferesSelf(pool, false);
      while |pool.slots| >= CAPACITY && pool.idle != {}
        invariant Valid() && Interferes(old(pool), pool, true) && Interferes(old(pool), pool, false)
        invariant pool.idle <= old(pool).idle
        decreases |pool.idle|
      {
        var h :| h in pool.idle;
        assert PooledAt(pool, h);
        ghost var before := pool;
        EvictPool(pool, h);
        InterfereOurs(registry, pool, Evicted(pool, h), views, log);
        CountOne(pool.idle, h);
        pool := Evicted(pool, h);
        InterferesTransitive(old(pool), before, pool, true);
        InterferesTransitive(old(pool), before, pool, false);
      }
      room := |pool.slots| < CAPACITY;
    }

    // Stopping ------------------------------------------------------------------------------------

    /** Stops a controller, and waits for its helper to end. */
    method Stop(h: Handle)
      requires Valid() && h in pool.table && pool.table[h].mine
      modifies this`pool, this`registry, this`log
      ensures Valid() && Considerate()
      ensures pool == Halted(old(pool), h)
      ensures registry == Unregistered(old(registry), pool.table[h].pane, h)
      ensures log == Then(old(log), Stopped(h))
    {
      HaltPool(pool, h);
      HaltForeign(pool, h);
      HaltOurs(registry, pool, views, log, pool.table[h].pane, h);
      StopLogged(registry, pool.table, views, log, h);
      StillWitnessed(gone, log, Stopped(h));
      StillGuarded(log, Stopped(h));
      StillReady(views, due, log, Stopped(h));
      StillTracked(views, log, Stopped(h));
      registry := Unregistered(registry, pool.table[h].pane, h);
      pool := Halted(pool, h);
      log := Then(log, Stopped(h));
    }

    /** A retirement that was scheduled, however long ago. It stops the controller only if nobody took it
        since. */
    method Expire(t: Timer)
      requires Valid()
      modifies this`pool, this`registry, this`log
      ensures Valid() && Considerate()
      ensures if old(t.pane in registry && registry[t.pane] == t.controller && t.controller in pool.table
                     && pool.table[t.controller].refs == 0 && pool.table[t.controller].epoch == t.epoch)
              then QuietSince(old(log), t.controller, t.epoch) && registry == old(registry) - {t.pane}
                   && pool == Halted(old(pool), t.controller)
              else unchanged(this`pool, this`registry, this`log)
    {
      InterferesSelf(pool, false);
      if Due(registry, pool, t) {
        assert LingeringAt(registry, pool.table, log, t.pane) && CountedAt(registry, pool.table, views, t.pane);
        Stop(t.controller);
      }
    }

    /** A helper has ended: its controller is stopped, unless somebody uses it. */
    method Watch(pane: Pane, h: Handle)
      requires Valid() && h in pool.table && pool.table[h].dead
      modifies this`pool, this`registry, this`log
      ensures Valid() && Considerate()
      ensures if pane in old(registry) && old(registry)[pane] == h && old(pool).table[h].refs == 0
              then registry == old(registry) - {pane}
              else unchanged(this`pool, this`registry, this`log)
    {
      InterferesSelf(pool, false);
      if pane in registry && registry[pane] == h && pool.table[h].refs == 0 {
        assert CountedAt(registry, pool.table, views, pane);
        Stop(h);
      }
    }

    /** Stops the controllers of panes that satisfy nobody any more. Others go on meanwhile. */
    method StopAll(keep: set<Pane>)
      requires Valid()
      modifies this`pool, this`registry, this`log
      ensures Valid()
      ensures registry.Keys == old(registry).Keys * keep
      ensures forall pane :: pane in registry ==> registry[pane] == old(registry)[pane]
      ensures OnlyReleases(log, old(log)) && OnlyAcquires(log, old(log))
    {
      var todo := registry.Keys;
      while todo != {}
        invariant Valid()
        invariant todo <= registry.Keys <= old(registry).Keys
        invariant forall pane :: pane in registry ==> registry[pane] == old(registry)[pane]
        invariant forall pane :: pane in old(registry) && pane !in todo ==> (pane in registry <==> pane in keep)
        invariant OnlyReleases(log, old(log)) && OnlyAcquires(log, old(log))
        decreases |todo|
      {
        var pane :| pane in todo;
        todo := todo - {pane};
        Interfere();
        if pane !in keep {
          assert CountedAt(registry, pool.table, views, pane);
          Stop(registry[pane]);
        }
      }
    }

    /** The publication ends: so do all its controllers. */
    method Close()
      requires Valid()
      modifies this`closed, this`pool, this`registry, this`log
      ensures Valid() && closed && registry == map[]
    {
      closed := true;
      StopAll({});
      assert registry.Keys == {};
    }

    /** Of the views, only this one may have changed, and only in what it holds. */
    twostate predicate Regrips(v: Viewer)
      reads this`views
    {
      && v in views && v in old(views)
      && var all := views[v] == old(views)[v].(held := views[v].held) && views == old(views)[v := views[v]];
      all
    }

    // Releasing -----------------------------------------------------------------------------------

    /** A viewer lets a pane go. A controller that was replaced meanwhile is only forgotten: its
        replacement is not touched. */
    method Release(v: Viewer, pane: Pane)
      requires Valid() && v in views && v !in due && pane in views[v].held && MayRelease(log, v, pane)
      modifies this`pool, this`registry, this`views, this`timers, this`log
      ensures Valid() && Considerate() && views == Ungrip(old(views), v, pane)
      ensures forall k :: k != pane ==>
                (k in registry <==> k in old(registry)) && (k in registry ==> registry[k] == old(registry)[k])
      ensures if old(Pins(registry, views[v], pane)) then Loosened(v, pane)
              else unchanged(this`pool, this`registry, this`log, this`timers)
      ensures OnlyReleases(log, old(log))
      ensures forall k :: old(MayRelease(log, v, k)) ==> MayRelease(log, v, k)
    {
      InterferesSelf(pool, false);
      if Pins(registry, views[v], pane) {
        LetGo(v, pane);
        return;
      }
      UngripRequested(views, v, pane);
      SetTracked(views, log, v, Ungrip(views, v, pane)[v]);
      OthersReady(views, due, log, v, Ungrip(views, v, pane)[v]);
      ForgetOurs(registry, pool, views, v, pane);
      ForgetLogged(registry, views, log, v, pane);
      views := Ungrip(views, v, pane);
    }

    /** A controller was let go by one of its viewers. When it was the last one, the controller stays registered
        and idles, with its retirement scheduled, or is stopped if its helper has ended. */
    twostate predicate Loosened(v: Viewer, pane: Pane)
      requires pane in old(registry)
      reads this`pool, this`registry, this`timers, this`log
    {
      var h := old(registry)[pane];
      && h in old(pool).table && h in pool.table && old(pool).table[h].refs > 0
      && pool.table[h].refs == old(pool).table[h].refs - 1
      && var released := Then(old(log), Released(v, pane, h));
      if pool.table[h].refs > 0 then registry == old(registry) && log == released && timers == old(timers)
      else if old(pool).table[h].dead then
        registry == old(registry) - {pane} && pool.table[h].retired && log == Then(released, Stopped(h))
      else
        && registry == old(registry) && h in pool.idle && !pool.table[h].retired
        && pool.table[h].epoch == old(pool).table[h].epoch + 1
        && log == Then(released, Scheduled(h, pool.table[h].epoch))
        && timers == old(timers) + {Timer(pane, h, pool.table[h].epoch)}
    }

    /** Lets the registered controller of a pane go. */
    method LetGo(v: Viewer, pane: Pane)
      requires Valid() && v in views && v !in due && MayRelease(log, v, pane) && Pins(registry, views[v], pane)
      modifies this`pool, this`registry, this`views, this`timers, this`log
      ensures Valid() && Considerate() && views == Ungrip(old(views), v, pane) && Loosened(v, pane)
    {
      var h := registry[pane];
      UngripRequested(views, v, pane);
      HolderCounts(registry, pool.table, views, v, pane);
      ReleaseRecorded(registry, views, due, gone, log, v, pane);
      ghost var released := Then(log, Released(v, pane, h));
      if pool.table[h].refs == 1 && pool.table[h].dead {
        BuryPool(pool, h);
        BuryOurs(registry, pool, views, log, v, pane);
        BuryLogged(registry, pool, views, gone, log, v, pane);
        StillReady(Ungrip(views, v, pane), due, released, Stopped(h));
        StillTracked(Ungrip(views, v, pane), released, Stopped(h));
        pool, registry, views := Buried(pool, h), registry - {pane}, Ungrip(views, v, pane);
        log := Then(released, Stopped(h));
      } else if pool.table[h].refs == 1 {
        DropPool(pool, h, true);
        DropOurs(registry, pool, views, log, v, pane);
        pool, views := Idled(pool, h), Ungrip(views, v, pane);
        ScheduleRecorded(registry, views, due, gone, released, h, pool.table[h].epoch);
        log := Then(released, Scheduled(h, pool.table[h].epoch));
        timers := timers + {Timer(pane, h, pool.table[h].epoch)};
      } else {
        DropPool(pool, h, false);
        DropOurs(registry, pool, views, log, v, pane);
        pool, views := Dropped(pool, h), Ungrip(views, v, pane);
        log := released;
      }
    }

    /** A viewer leaves. */
    method CloseView(v: Viewer)
      requires Valid() && v in views && v !in due
      modifies this`pool, this`registry, this`views, this`timers, this`log
      ensures Valid()
      ensures views == old(views)[v := old(views)[v].(active := false, gone := true, held := map[])]
    {
      assert RequestedAt(views, v) && TrackedAt(views, log, v);
      LeftTracks(views[v], log, v);
      Mark(v, views[v].(active := false, gone := true), Left(v));
      ReleaseRest(v, {});
    }

    /** Lets go of every pane that a viewer holds and is not to keep. Others go on meanwhile. */
    method ReleaseRest(v: Viewer, keep: set<Pane>)
      requires Valid() && v in views && v !in due && forall k :: k !in keep ==> MayRelease(log, v, k)
      modifies this`pool, this`registry, this`views, this`timers, this`log
      ensures Valid()
      ensures Regrips(v)
      ensures views[v].held.Keys == old(views)[v].held.Keys * keep
      ensures forall k :: k in keep && old(v in views && Pins(registry, views[v], k)) ==> Pins(registry, views[v], k)
      ensures OnlyReleases(log, old(log))
    {
      var todo := views[v].held.Keys;
      while todo != {}
        invariant Valid()
        invariant Regrips(v)
        invariant todo <= views[v].held.Keys <= old(views)[v].held.Keys
        invariant forall k :: k in old(views)[v].held && k !in todo ==> (k in views[v].held <==> k in keep)
        invariant forall k :: k in keep && old(v in views && Pins(registry, views[v], k)) ==>
                Pins(registry, views[v], k)
        invariant OnlyReleases(log, old(log))
        invariant forall k :: k !in keep ==> MayRelease(log, v, k)
        decreases |todo|
      {
        var pane :| pane in todo;
        todo := todo - {pane};
        if pane !in keep {
          ghost var earlier := log;
          ReleaseOne(v, pane, keep);
          OnlyReleasesTransitive(log, earlier, old(log));
        }
      }
    }

    /** Lets go of one of them. */
    method ReleaseOne(v: Viewer, pane: Pane, ghost keep: set<Pane>)
      requires Valid() && v in views && v !in due && pane in views[v].held && pane !in keep
      requires forall k :: k !in keep ==> MayRelease(log, v, k)
      modifies this`pool, this`registry, this`views, this`timers, this`log
      ensures Valid()
      ensures Regrips(v)
      ensures views[v].held.Keys == old(views)[v].held.Keys - {pane}
      ensures forall k :: k in keep && old(v in views && Pins(registry, views[v], k)) ==> Pins(registry, views[v], k)
      ensures OnlyReleases(log, old(log))
      ensures forall k :: k !in keep ==> MayRelease(log, v, k)
    {
      Interfere();
      Release(v, pane);
    }

    // Acquiring -----------------------------------------------------------------------------------

    /** What the terminal program says about a pane when acquiring it failed: whether it is gone. `gone`
        is what it said so in the current reconciliation. */
    method Absent(pane: Pane) returns (absent: bool)
      requires Valid()
      modifies this`gone, this`log
      ensures Valid()
      ensures gone == if absent then old(gone) + {pane} else old(gone)
      ensures log == if absent then Then(old(log), Missing(pane)) else old(log)
    {
      absent := *;
      if absent {
        Note(Missing(pane));
        gone := gone + {pane};
      }
    }

    /** Puts on record what changes nothing. */
    ghost method Note(e: SizingEvent)
      requires Valid() && (e.Missing? || (e.Reconciling? && e.viewer !in due))
      modifies this`log, this`gone
      ensures Valid() && log == Then(old(log), e)
      ensures gone == if e.Reconciling? then {} else old(gone)
      ensures e.Missing? ==> Witnessed(gone + {e.pane}, log)
    {
      StillLogged(registry, views, log, e);
      StillGuarded(log, e);
      StillReady(views, due, log, e);
      StillTracked(views, log, e);
      LingerOn(registry, pool.table, log, e);
      if e.Reconciling? {
        gone := {};
        NobodyGone(Then(log, e));
      } else {
        StillWitnessed(gone, log, e);
      }
      log := Then(log, e);
    }

    method Fresh() returns (h: Handle)
      ensures h !in pool.table
    {
      var todo := pool.table.Keys;
      h := 0;
      while todo != {}
        invariant forall g :: g in pool.table && g !in todo ==> g < h
        decreases |todo|
      {
        var g :| g in todo;
        todo := todo - {g};
        h := if g < h then h else g + 1;
      }
    }

    /** Starts a controller for a pane that has none, and takes it. */
    method Hold(v: Viewer, pane: Pane) returns (ok: bool)
      requires Valid() && v in views && v !in due && pane !in registry
      modifies this`pool, this`registry, this`views, this`log
      ensures Valid() && Considerate()
      ensures ok ==> pane in registry && registry == old(registry)[pane := registry[pane]]
                     && views == Grip(old(views), v, pane, registry[pane])
                     && log == Then(old(log), Acquired(v, pane, registry[pane]))
      ensures !ok ==> unchanged(this`registry, this`views, this`log)
    {
      var room := Reserve();
      ok := *;
      ok := ok && room;
      if ok {
        var h := Fresh();
        ghost var before := pool;
        NewPool(pool, h, pane);
        AcquirePool(WithNew(pool, h, pane), h);
        NewOurs(registry, pool, views, log, v, pane, h);
        GripRequested(views, v, pane, h);
        RegisterLogged(registry, pool.table, views, log, pane, h);
        AcquireLogged(registry[pane := h], views, log, v, pane);
        StillWitnessed(gone, log, Acquired(v, pane, h));
        StillGuarded(log, Acquired(v, pane, h));
        OthersReady(views, due, log, v, Grip(views, v, pane, h)[v]);
        StillReady(Grip(views, v, pane, h), due, log, Acquired(v, pane, h));
        SetTracked(views, log, v, Grip(views, v, pane, h)[v]);
        StillTracked(Grip(views, v, pane, h), log, Acquired(v, pane, h));
        InterferesTransitive(before, WithNew(pool, h, pane), Acquire(WithNew(pool, h, pane), h), false);
        pool, registry := Acquire(WithNew(pool, h, pane), h), registry[pane := h];
        views, log := Grip(views, v, pane, h), Then(log, Acquired(v, pane, h));
        InterferesTransitive(old(pool), before, pool, false);
      }
    }

    /** Takes the controller that a pane has. */
    method Share(v: Viewer, pane: Pane)
      requires Valid() && v in views && v !in due && pane in registry && registry[pane] in pool.table
      requires !pool.table[registry[pane]].retired && !Pins(registry, views[v], pane)
      modifies this`pool, this`views, this`log
      ensures Valid() && Considerate()
      ensures views == Grip(old(views), v, pane, registry[pane])
      ensures log == Then(old(log), Acquired(v, pane, registry[pane]))
    {
      assert CountedAt(registry, pool.table, views, pane);
      AcquirePool(pool, registry[pane]);
      AcquireOurs(registry, pool, views, log, v, pane);
      GripRequested(views, v, pane, registry[pane]);
      AcquireLogged(registry, views, log, v, pane);
      StillWitnessed(gone, log, Acquired(v, pane, registry[pane]));
      StillGuarded(log, Acquired(v, pane, registry[pane]));
      OthersReady(views, due, log, v, Grip(views, v, pane, registry[pane])[v]);
      StillReady(Grip(views, v, pane, registry[pane]), due, log, Acquired(v, pane, registry[pane]));
      SetTracked(views, log, v, Grip(views, v, pane, registry[pane])[v]);
      StillTracked(Grip(views, v, pane, registry[pane]), log, Acquired(v, pane, registry[pane]));
      pool, views := Acquire(pool, registry[pane]), Grip(views, v, pane, registry[pane]);
      log := Then(log, Acquired(v, pane, registry[pane]));
    }

    /** Before anything is acquired: stops controllers that cannot be used any more, and validates panes
        that have none. A pane may turn out to be gone. */
    method Examine(pane: Pane) returns (ok: bool, absent: bool)
      requires Valid()
      modifies this`pool, this`registry, this`log, this`gone
      ensures Valid()
      ensures forall k :: k != pane ==>
                (k in registry <==> k in old(registry)) && (k in registry ==> registry[k] == old(registry)[k])
      ensures OnlyAcquires(log, old(log)) && OnlyReleases(log, old(log))
      ensures old(gone) <= gone && (absent ==> pane in gone)
    {
      Interfere();
      if pane in registry {
        assert CountedAt(registry, pool.table, views, pane) && PooledAt(pool, registry[pane]);
        var c := pool.table[registry[pane]];
        if !c.dead {
          return true, false;
        }
        Stop(registry[pane]);
        if !(c.refs == 0 && c.retired) {
          absent := Absent(pane);
          return absent, absent;
        }
      }
      var measured := *;
      if measured {
        return true, false;
      }
      absent := Absent(pane);
      return absent, absent;
    }

    /** Nothing changes for a viewer's other panes. */
    twostate predicate Elsewhere(v: Viewer, pane: Pane)
      reads this
    {
      && v in views && v in old(views)
      && forall k :: k != pane ==>
           && (k in registry <==> k in old(registry)) && (k in registry ==> registry[k] == old(registry)[k])
           && (k in views[v].held <==> k in old(views)[v].held)
           && (k in views[v].held ==> views[v].held[k] == old(views)[v].held[k])
    }

    /** Makes a viewer hold a pane, by the controller that is registered for it. */
    method Pin(v: Viewer, pane: Pane) returns (ok: bool, absent: bool)
      requires Valid() && v in views && v !in due
      modifies this`pool, this`registry, this`views, this`log, this`gone
      ensures Valid() && v in views
      ensures Regrips(v)
      ensures Elsewhere(v, pane)
      ensures old(views)[v].held.Keys <= views[v].held.Keys
      ensures ok && !absent ==> Pins(registry, views[v], pane)
      ensures OnlyAcquires(log, old(log))
      ensures old(gone) <= gone && (absent ==> pane in gone)
    {
      Interfere();
      if Pins(registry, views[v], pane) {
        return true, false;
      }
      assert CountedAt(registry, pool.table, views, pane);
      if pane !in registry {
        ok, absent := PinAnew(v, pane);
      } else if pool.table[registry[pane]].retired {
        ok, absent := PinInstead(v, pane);
      } else {
        Share(v, pane);
        return true, false;
      }
    }

    /** A controller that was reclaimed meanwhile is replaced. */
    method PinInstead(v: Viewer, pane: Pane) returns (ok: bool, absent: bool)
      requires Valid() && v in views && v !in due && pane in registry
      modifies this`pool, this`registry, this`views, this`log, this`gone
      ensures Valid() && v in views
      ensures Regrips(v)
      ensures Elsewhere(v, pane)
      ensures old(views)[v].held.Keys <= views[v].held.Keys
      ensures ok && !absent ==> Pins(registry, views[v], pane)
      ensures OnlyAcquires(log, old(log))
      ensures old(gone) <= gone && (absent ==> pane in gone)
    {
      assert CountedAt(registry, pool.table, views, pane);
      Stop(registry[pane]);
      var measured := *;
      if !measured {
        absent := Absent(pane);
        return absent, absent;
      }
      ghost var stopped := log;
      ok, absent := PinAnew(v, pane);
      OnlyAcquiresTransitive(log, stopped, old(log));
    }

    method PinAnew(v: Viewer, pane: Pane) returns (ok: bool, absent: bool)
      requires Valid() && v in views && v !in due && pane !in registry
      modifies this`pool, this`registry, this`views, this`log, this`gone
      ensures Valid() && v in views
      ensures Regrips(v)
      ensures Elsewhere(v, pane)
      ensures old(views)[v].held.Keys <= views[v].held.Keys
      ensures ok && !absent ==> Pins(registry, views[v], pane)
      ensures OnlyAcquires(log, old(log))
      ensures old(gone) <= gone && (absent ==> pane in gone)
    {
      var held := Hold(v, pane);
      if held {
        return true, false;
      }
      absent := Absent(pane);
      return absent, absent;
    }

    // Reconciling ---------------------------------------------------------------------------------

    /** The panes that a view is to hold, each once. */
    method Plan(v: Viewer) returns (order: seq<Pane>)
      requires v in views
      ensures forall pane :: pane in order <==> Wants(views[v], known, pane)
      ensures forall i, j :: 0 <= i < j < |order| ==> order[i] != order[j]
    {
      order := [];
      var view := views[v];
      if !view.active {
        return;
      }
      var tabs := Tabs(view.snapshot.tab, view.pending);
      for i := 0 to |view.snapshot.panes|
        invariant forall pane :: pane in order <==>
                    && (known.Some? ==> pane in known.value)
                    && exists j :: 0 <= j < i && view.snapshot.panes[j].0 == pane && view.snapshot.panes[j].1 in tabs
        invariant forall j, k :: 0 <= j < k < |order| ==> order[j] != order[k]
      {
        var p := view.snapshot.panes[i];
        if p.1 in tabs && p.0 !in order && (known.None? || p.0 in known.value) {
          order := order + [p.0];
        }
      }
    }

    /** Brings what is known of the panes up to date with a new snapshot. A snapshot alone never stops a
        controller: that takes the terminal program's own list. */
    method Catalogue(v: Viewer) returns (ok: bool)
      requires Valid() && v in views
      modifies this`known, this`pool, this`registry, this`log
      ensures Valid()
      ensures OnlyAcquires(log, old(log)) && OnlyReleases(log, old(log))
      ensures forall pane :: pane in registry ==> pane in old(registry) && registry[pane] == old(registry)[pane]
      ensures forall pane :: pane in old(registry) && pane !in registry ==> known.Some? && pane !in known.value
    {
      var view := views[v];
      if view.snapshot.boot == [] {
        return true;
      }
      var listed := set i | 0 <= i < |view.snapshot.panes| :: view.snapshot.panes[i].0;
      if known == Some(listed) {
        return true;
      }
      if known.None? && registry.Keys <= listed {
        known := Some(listed);
        return true;
      }
      ok := *;
      if !ok {
        return;
      }
      var native: set<Pane> := *;
      known := Some(native);
      StopAll(native);
    }

    /** Takes a view's snapshot into account, once. */
    method See(v: Viewer) returns (ok: bool)
      requires Valid() && v in views && v !in due
      modifies this`known, this`pool, this`registry, this`log, this`views
      ensures Valid() && v in views
      ensures OnlyAcquires(log, old(log)) && OnlyReleases(log, old(log))
      ensures views == old(views)[v := old(views)[v].(catalogSeen := views[v].catalogSeen)]
      ensures ok ==> views[v].catalogSeen
    {
      ok := true;
      if !views[v].catalogSeen {
        ok := Catalogue(v);
        if ok {
          assert RequestedAt(views, v);
          Set(v, views[v].(catalogSeen := true));
        }
      }
    }

    /** A view's panes and no others are held, each by the controller that is registered for it. */
    ghost predicate Exact(v: Viewer, absent: set<Pane>)
      reads this
    {
      && v in views
      && (forall pane :: pane in views[v].held <==> Wants(views[v], known, pane) && pane !in absent)
      && (forall pane :: pane in views[v].held ==> Pins(registry, views[v], pane))
    }

    /** Brings what a view holds in line with what it is to hold. Everything is acquired before anything is
        released, so that no competing viewer sees a gap; what the terminal program says is gone is not
        held. If it fails, nothing was released. */
    method Reconcile(v: Viewer) returns (result: Result, ghost absent: set<Pane>, ghost middle: Log)
      requires Valid() && v in views && v !in due
      modifies this`known, this`pool, this`registry, this`views, this`timers, this`log, this`gone
      ensures Valid() && v in views
      ensures views[v] == old(views)[v].(held := views[v].held, catalogSeen := views[v].catalogSeen)
      ensures views == old(views)[v := views[v]]
      ensures OnlyAcquires(middle, old(log)) && OnlyReleases(log, middle)
      ensures result.Fine? ==> views[v].catalogSeen && Exact(v, absent) && absent <= gone
      ensures result.Fine? ==> log.Then? && log.last == Reconciled(v, views[v], known)
      ensures result.Failed? ==> log == middle && old(views)[v].held.Keys <= views[v].held.Keys
      ensures old(closed) ==> result.Failed?
    {
      Note(Reconciling(v));
      middle, absent := log, {};
      if closed {
        return Failed("closed"), absent, middle;
      }
      ghost var begun := log;
      var listed := See(v);
      OnlyAcquiresTransitive(log, begun, old(log));
      middle := log;
      if !listed {
        return Failed("query"), absent, middle;
      }
      var late := *;
      if views[v].active && views[v].pending != map[] && late {
        return Failed("navigation_timeout"), absent, middle;
      }
      var order := Plan(v);
      if |order| > CAPACITY {
        return Failed("sizing_limit"), absent, middle;
      }
      ghost var view, start := views[v], log;
      var ok, wanted, end := Bring(v, order);
      OnlyAcquiresTransitive(end, start, old(log));
      middle := end;
      if !ok {
        return Failed("acquisition"), absent, middle;
      }
      absent := Members(order) - wanted;
      ExactNow(order, wanted, view, views[v], known);
      Conclude(v, absent);
      return Fine, absent, middle;
    }

    /** Puts on record that a view was brought in line. */
    ghost method Conclude(v: Viewer, absent: set<Pane>)
      requires Valid() && v in views && v !in due && Exact(v, absent) && absent <= gone
      modifies this`log
      ensures Valid() && log == Then(old(log), Reconciled(v, views[v], known))
    {
      ghost var e := Reconciled(v, views[v], known);
      ReconciledGuarded(registry, views, gone, known, log, v, absent);
      StillLogged(registry, views, log, e);
      StillWitnessed(gone, log, e);
      StillReady(views, due, log, e);
      StillTracked(views, log, e);
      LingerOn(registry, pool.table, log, e);
      log := Then(log, e);
    }

    /** Acquires what is to be held, and then releases the rest. */
    method Bring(v: Viewer, order: seq<Pane>) returns (ok: bool, ghost wanted: set<Pane>, ghost middle: Log)
      requires Valid() && v in views && v !in due
      requires forall i, j :: 0 <= i < j < |order| ==> order[i] != order[j]
      requires forall pane :: Wants(views[v], known, pane) ==> pane in order
      modifies this`pool, this`registry, this`views, this`timers, this`log, this`gone
      ensures Valid() && v in views
      ensures Regrips(v)
      ensures OnlyAcquires(middle, old(log)) && OnlyReleases(log, middle)
      ensures forall pane :: pane in wanted ==> pane in order
      ensures ok ==> views[v].held.Keys == wanted && forall pane :: pane in wanted ==> Pins(registry, views[v], pane)
      ensures !ok ==> log == middle && old(views)[v].held.Keys <= views[v].held.Keys
      ensures old(gone) <= gone && forall pane :: pane in order && pane !in wanted ==> pane in gone
    {
      var keep: set<Pane>;
      ok, keep := Preflight(order);
      ghost var start := log;
      if ok {
        ok, keep := AcquireAll(v, order, keep);
        OnlyAcquiresTransitive(log, start, old(log));
      }
      middle, wanted := log, keep;
      if ok {
        KeepOnly(v, keep);
      }
    }

    /** Lets go of everything but what is to be kept. */
    method KeepOnly(v: Viewer, keep: set<Pane>)
      requires Valid() && v in views && v !in due
      requires forall pane :: Wants(views[v], known, pane) ==> pane in keep || pane in gone
      modifies this`pool, this`registry, this`views, this`timers, this`log
      ensures Valid()
      ensures Regrips(v)
      ensures views[v].held.Keys == old(views)[v].held.Keys * keep
      ensures forall k :: k in keep && old(v in views && Pins(registry, views[v], k)) ==> Pins(registry, views[v], k)
      ensures OnlyReleases(log, old(log))
    {
      Keep(v, keep);
      ghost var decided := log;
      ReleaseRest(v, keep);
      OnlyReleasesTransitive(log, decided, old(log));
    }

    /** Puts on record what a view is to keep. */
    ghost method Keep(v: Viewer, keep: set<Pane>)
      requires Valid() && v in views && forall pane :: Wants(views[v], known, pane) ==> pane in keep || pane in gone
      modifies this`log
      ensures Valid() && log == Then(old(log), Keeping(v, views[v], known, keep))
    {
      ghost var e := Keeping(v, views[v], known, keep);
      assert TrackedAt(views, log, v);
      KeepingGuarded(gone, log, e);
      StillLogged(registry, views, log, e);
      StillWitnessed(gone, log, e);
      StillReady(views, due, log, e);
      StillTracked(views, log, e);
      LingerOn(registry, pool.table, log, e);
      log := Then(log, e);
    }

    method Preflight(order: seq<Pane>) returns (ok: bool, wanted: set<Pane>)
      requires Valid()
      modifies this`pool, this`registry, this`log, this`gone
      ensures Valid()
      ensures forall pane :: pane in wanted ==> pane in order
      ensures OnlyAcquires(log, old(log)) && OnlyReleases(log, old(log))
      ensures old(gone) <= gone && forall pane :: pane in order && pane !in wanted ==> pane in gone
    {
      wanted := Members(order);
      for i := 0 to |order|
        invariant Valid() && forall pane :: pane in wanted ==> pane in order
        invariant old(gone) <= gone && forall pane :: pane in order && pane !in wanted ==> pane in gone
        invariant OnlyAcquires(log, old(log)) && OnlyReleases(log, old(log))
      {
        ghost var before := log;
        var fine, absent := Examine(order[i]);
        OnlyAcquiresTransitive(log, before, old(log));
        OnlyReleasesTransitive(log, before, old(log));
        if !fine {
          return false, wanted;
        }
        if absent {
          wanted := wanted - {order[i]};
        }
      }
      return true, wanted;
    }

    method AcquireAll(v: Viewer, order: seq<Pane>, within: set<Pane>) returns (ok: bool, wanted: set<Pane>)
      requires Valid() && v in views && v !in due
      requires forall pane :: pane in within ==> pane in order
      requires forall i, j :: 0 <= i < j < |order| ==> order[i] != order[j]
      modifies this`pool, this`registry, this`views, this`log, this`gone
      ensures Valid() && v in views
      ensures Regrips(v)
      ensures wanted <= within && old(views)[v].held.Keys <= views[v].held.Keys
      ensures ok ==> forall pane :: pane in wanted ==> Pins(registry, views[v], pane)
      ensures OnlyAcquires(log, old(log))
      ensures old(gone) <= gone && within - wanted <= gone
    {
      wanted := within;
      for i := 0 to |order|
        invariant Valid() && v in views
        invariant Regrips(v)
        invariant wanted <= within && old(views)[v].held.Keys <= views[v].held.Keys
        invariant old(gone) <= gone && within - wanted <= gone
        invariant forall j :: 0 <= j < i && order[j] in wanted ==> Pins(registry, views[v], order[j])
        invariant OnlyAcquires(log, old(log))
      {
        ghost var before := log;
        ok, wanted := PinNext(v, order, i, wanted);
        OnlyAcquiresTransitive(log, before, old(log));
        if !ok {
          return;
        }
      }
      ok := true;
    }

    /** The next pane in order, if it is still wanted. */
    method PinNext(v: Viewer, order: seq<Pane>, i: nat, within: set<Pane>) returns (ok: bool, wanted: set<Pane>)
      requires Valid() && v in views && v !in due && i < |order|
      requires forall j, k :: 0 <= j < k < |order| ==> order[j] != order[k]
      requires forall j :: 0 <= j < i && order[j] in within ==> Pins(registry, views[v], order[j])
      modifies this`pool, this`registry, this`views, this`log, this`gone
      ensures Valid() && v in views
      ensures Regrips(v)
      ensures wanted <= within && old(views)[v].held.Keys <= views[v].held.Keys
      ensures ok ==> forall j :: 0 <= j <= i && order[j] in wanted ==> Pins(registry, views[v], order[j])
      ensures OnlyAcquires(log, old(log))
      ensures old(gone) <= gone && within - wanted <= gone
    {
      wanted := within;
      if order[i] !in wanted {
        return true, wanted;
      }
      var absent: bool;
      ok, absent := Pin(v, order[i]);
      if ok && absent {
        wanted := wanted - {order[i]};
      }
    }

    // Frames --------------------------------------------------------------------------------------

    /** A new viewer, that has not said anything yet. */
    method Join(v: Viewer)
      requires Valid() && v !in views && v !in due
      modifies this`views
      ensures Valid()
      ensures views == old(views)[v := NewView()]
    {
      JoinCounted(registry, pool.table, views, v);
      SetLogged(registry, views, log, v, NewView());
      OthersReady(views, due, log, v, NewView());
      SetTracked(views, log, v, NewView());
      views := views[v := NewView()];
    }

    /** Changes a view in what is neither held nor shown, and not where it is going. */
    method Set(v: Viewer, view: View)
      requires Valid() && v in views && v !in due && view.held == views[v].held && ViewSound(view)
      requires Alike(views[v], view)
      modifies this`views
      ensures Valid() && views == old(views)[v := view]
    {
      ViewChanged(registry, pool.table, views, v, view);
      SetRequested(views, v, view);
      SetLogged(registry, views, log, v, view);
      OthersReady(views, due, log, v, view);
      SetTracked(views, log, v, view);
      views := views[v := view];
    }

    /** Changes a view in everything but what it holds, and puts on record what made it change. */
    method Mark(v: Viewer, view: View, ghost e: SizingEvent)
      requires Valid() && v in views && v !in due && view.held == views[v].held && ViewSound(view)
      requires Marks(e, v) && Tracks(view, Then(log, e), v) && GuardedNow(log, e)
      modifies this`views, this`log
      ensures Valid() && views == old(views)[v := view] && log == Then(old(log), e)
    {
      ViewChanged(registry, pool.table, views, v, view);
      SetRequested(views, v, view);
      SetLogged(registry, views, log, v, view);
      OthersReady(views, due, log, v, view);
      MarkTracked(views, log, e, v, view);
      StillLogged(registry, views[v := view], log, e);
      StillWitnessed(gone, log, e);
      StillReady(views[v := view], due, log, e);
      LingerOn(registry, pool.table, log, e);
      views := views[v := view];
      log := Then(log, e);
    }

    /** Writes to the terminal program, and puts it on record. */
    method SendUp(v: Viewer, sent: Upward) returns (ok: bool)
      requires Valid() && v in views && Permitted(log, v, views[v], sent)
      modifies this`log
      ensures Valid() && log == Then(old(log), SentUp(v, sent, views[v]))
    {
      ghost var e := SentUp(v, sent, views[v]);
      StillLogged(registry, views, log, e);
      StillWitnessed(gone, log, e);
      StillReady(views, due, log, e);
      StillTracked(views, log, e);
      LingerOn(registry, pool.table, log, e);
      log := Then(log, e);
      ok := *;
    }

    /** A viewer's handler has this left to do. */
    method Owe(v: Viewer, duty: Duty)
      requires Valid() && v in views && (duty.Pass? ==> Permitted(log, v, views[v], duty.sent))
      modifies this`due
      ensures Valid() && due == old(due)[v := duty]
    {
      MoreReady(views, due, log, v, duty);
      due := due[v := duty];
    }

    /** A viewer's handler does what it has left to do, after any number of steps of others. */
    method Pay(v: Viewer) returns (duty: Duty)
      requires Valid() && v in due
      modifies this`due
      ensures Valid() && v in views && due == old(due) - {v} && duty == old(due)[v]
      ensures duty.Pass? ==> Permitted(log, v, views[v], duty.sent)
    {
      LessReady(views, due, log, v);
      duty := due[v];
      due := due - {v};
    }

    /** A viewer introduces itself, once. Its surface stays inactive until its first tab is held. The
        introduction is still to be passed on. */
    method TakeHello(v: Viewer, surface: bool, supported: bool) returns (result: Result)
      requires Valid() && v in views && v !in due && !views[v].gone
      modifies this`known, this`pool, this`registry, this`views, this`timers, this`log, this`gone, this`due
      ensures Valid() && v in views
      ensures old(views)[v].initialized || !supported ==> result.Failed? && views == old(views)
      ensures result.Fine? ==> views[v].initialized && views[v].active == surface && views[v].requestedActive == surface
      ensures due == if result.Fine? then old(due)[v := Pass(Hello)] else old(due)
    {
      if views[v].initialized {
        return Failed("native_protocol");
      }
      if !supported {
        return Failed("native_protocol");
      }
      assert RequestedAt(views, v) && TrackedAt(views, log, v);
      IntroducedTracks(views[v], log, v, surface);
      Mark(v, views[v].(active := surface, requestedActive := surface, initial := true, initialized := true),
           Introduced(v, surface));
      ghost var absent, middle;
      result, absent, middle := Reconcile(v);
      if result.Fine? {
        Owe(v, Pass(Hello));
      }
    }

    /** A request of the viewer. A navigation pins its destination before it is passed on, which is still to
        be done. */
    method TakeRequest(v: Viewer, boot: bytes, id: bytes, op: Operation) returns (result: Result)
      requires Valid() && v in views && v !in due && views[v].initialized && !views[v].gone
      modifies this`known, this`pool, this`registry, this`views, this`timers, this`log, this`gone, this`due
      ensures Valid() && v in views
      ensures old(views)[v].snapshot.boot != [] && boot != old(views)[v].snapshot.boot ==>
                result.Fine? && views == old(views)
      ensures old(views)[v].snapshot.boot == [] || boot == old(views)[v].snapshot.boot ==>
                if Excessive(old(views)[v], id, op) then result == Failed("native_protocol") && views == old(views)
                else Demands(old(views)[v], views[v], id, op)
      ensures result.Fine? && boot == old(views)[v].snapshot.boot && Destination(old(views)[v].snapshot, op) != "" ==>
                id in views[v].pending && exists absent :: absent <= gone && Exact(v, absent)
      ensures due == if result.Fine? then old(due)[v := Pass(Request(boot, id, op))] else old(due)
    {
      if views[v].snapshot.boot != [] && boot != views[v].snapshot.boot {
        Owe(v, Pass(Request(boot, id, op)));
        return Fine;
      }
      var view := Requesting(views[v], id, op);
      RequestingDemands(views[v], id, op);
      if view.None? {
        return Failed("native_protocol");
      }
      result := Follow(v, boot, id, op, view.value, views[v]);
    }

    /** Takes a request into account, and brings the view in line with it. */
    method Follow(v: Viewer, boot: bytes, id: bytes, op: Operation, view: View, ghost was: View)
      returns (result: Result)
      requires Valid() && v in views && v !in due && views[v].initialized && !views[v].gone
      requires was == views[v] && Requesting(was, id, op) == Some(view) && Demands(was, view, id, op)
      modifies this`known, this`pool, this`registry, this`views, this`timers, this`log, this`gone, this`due
      ensures Valid() && v in views && Demands(was, views[v], id, op)
      ensures result.Fine? ==> exists absent :: absent <= gone && Exact(v, absent)
      ensures Destination(was.snapshot, op) != "" ==> id in views[v].pending
      ensures due == if result.Fine? then old(due)[v := Pass(Request(boot, id, op))] else old(due)
    {
      RequestingKeeps(was, id, op);
      Demand(v, id, op, view);
      ghost var absent, middle;
      result, absent, middle := Reconcile(v);
      DemandsStill(was, view, id, op, views[v].held, views[v].catalogSeen);
      if result.Fine? {
        Owe(v, Pass(Request(boot, id, op)));
      }
    }

    /** Takes a request into account. */
    method Demand(v: Viewer, id: bytes, op: Operation, view: View)
      requires Valid() && v in views && v !in due && views[v].initialized && !views[v].gone
      requires Requesting(views[v], id, op) == Some(view) && view.held == views[v].held
      modifies this`views, this`log
      ensures Valid() && views == old(views)[v := view]
    {
      assert RequestedAt(views, v) && TrackedAt(views, log, v);
      RequestingSound(views[v], id, op);
      var tab := Destination(views[v].snapshot, op);
      if tab != "" {
        StartedTracks(views[v], log, v, id, tab);
        assert TracksAt(views[v].pending, log, v, id);
        Mark(v, view, Started(v, id, tab, view.sequence));
      } else if op.SetSurface? && op.wanted == Some(true) {
        LitTracks(views[v], log, v, id);
        Mark(v, view, Lit(v));
      } else {
        Set(v, view);
      }
    }

    /** Passes on what is still to be passed on. */
    method PassOn(v: Viewer) returns (result: Result)
      requires Valid() && v in due && due[v].Pass?
      modifies this`log, this`due
      ensures Valid() && v in views && due == old(due) - {v}
      ensures log == Then(old(log), SentUp(v, old(due)[v].sent, views[v]))
    {
      var duty := Pay(v);
      var sent := SendUp(v, duty.sent);
      result := if sent then Fine else Failed("transport");
    }

    /** Brings a view in line after a response. */
    method AlignNow(v: Viewer) returns (result: Result)
      requires Valid() && v in due && due[v].Align?
      modifies this`known, this`pool, this`registry, this`views, this`timers, this`log, this`gone, this`due
      ensures Valid() && v in views && v in old(views) && due == old(due) - {v}
      ensures views == old(views)[v := old(views)[v].(held := views[v].held, catalogSeen := views[v].catalogSeen)]
      ensures result.Fine? ==> views[v].catalogSeen && exists absent :: absent <= gone && Exact(v, absent)
    {
      var duty := Pay(v);
      ghost var absent, middle;
      result, absent, middle := Reconcile(v);
    }

    /** A response to the viewer, or to one of the sizing's own requests. The view is still to be brought in
        line with it. */
    method TakeResponse(v: Viewer, boot: bytes, id: RequestId, final: bool, response: Response) returns (result: Result)
      requires Valid() && v in views && v !in due && !views[v].gone
      modifies this`views, this`log, this`due
      ensures Valid() && v in views
      ensures boot != old(views)[v].snapshot.boot ==> result.Fine? && unchanged(this)
      ensures result.Fine? && boot == old(views)[v].snapshot.boot ==>
                && views == old(views)[v := Answered(old(views)[v], id, final, response)]
                && due == old(due)[v := Align]
      ensures result.Fine? && boot == old(views)[v].snapshot.boot ==>
                Resolves(old(views)[v], views[v], id, final, response)
      ensures result.Failed? ==> due == old(due)
      ensures !id.Own? && boot == old(views)[v].snapshot.boot && !(final && response.Done?) ==> result.Failed?
    {
      if boot != views[v].snapshot.boot {
        return Fine;
      }
      AnsweredResolves(views[v], id, final, response);
      if !id.Own? && (!final || !response.Done?) {
        return Failed("native_protocol");
      }
      if id.Barrier? {
        assert RequestedAt(views, v) && TrackedAt(views, log, v);
        RaisedSound(views[v], id.sequence, response.revision);
        ReachedTracks(views[v], log, v, id.sequence, response.revision);
        Mark(v, Raised(views[v], id.sequence, response.revision), Reached(v, id.sequence, response.revision));
        Tally(v);
      } else if id.Own? && final && !response.Garbled? {
        var ok := TakeAnswer(v, id.text, response);
        if !ok {
          return Failed("transport");
        }
      }
      Owe(v, Align);
      result := Fine;
    }

    /** Goes through the navigations for those that are over. */
    method Tally(v: Viewer)
      requires Valid() && v in views && v !in due
      modifies this`views, this`log
      ensures Valid() && views == old(views)[v := Settled(old(views)[v])] && log == Then(old(log), Tallied(v))
    {
      assert RequestedAt(views, v) && TrackedAt(views, log, v);
      SettledSound(views[v]);
      TalliedTracks(views[v], log, v);
      Mark(v, Settled(views[v]), Tallied(v));
    }

    /** The answer to a request of the viewer. A navigation that succeeded is followed by a barrier. */
    method TakeAnswer(v: Viewer, id: bytes, response: Response) returns (ok: bool)
      requires Valid() && v in views && v !in due && !views[v].gone && !response.Garbled?
      modifies this`views, this`log
      ensures Valid() && v in views
      ensures ok ==> views == old(views)[v := Answered(old(views)[v], Own(id), true, response)]
      ensures id in old(views)[v].pending && response.Done? && old(views)[v].requestedActive ==>
                Prefix(Then(Then(old(log), Replied(v, id, false)),
                            SentUp(v, Raise(old(views)[v].pending[id].sequence),
                                   Responded(old(views)[v], id, response))), log)
      ensures views[v].snapshot == old(views)[v].snapshot
    {
      assert RequestedAt(views, v);
      AnsweredSound(views[v], id, response);
      ok := true;
      if id in views[v].pending {
        ok := Acknowledge(v, id, response);
        if !ok {
          return;
        }
      }
      Resolve(v, id, response);
    }

    /** What an answer hides, and which navigations are over with it. */
    method Resolve(v: Viewer, id: bytes, response: Response)
      requires Valid() && v in views && v !in due
      modifies this`views, this`log
      ensures Valid() && views == old(views)[v := Settled(Hidden(old(views)[v], id, response))]
      ensures Prefix(old(log), log)
    {
      if id in views[v].hide {
        Hide(v, id, response);
      }
      Tally(v);
    }

    /** A navigation was answered. */
    method Acknowledge(v: Viewer, id: bytes, response: Response) returns (ok: bool)
      requires Valid() && v in views && v !in due && id in views[v].pending
      modifies this`views, this`log
      ensures Valid() && views == old(views)[v := Responded(old(views)[v], id, response)]
      ensures var replied := Then(old(log), Replied(v, id, response.Refused?));
              if !response.Refused? && old(views)[v].requestedActive
              then log == Then(replied, SentUp(v, Raise(old(views)[v].pending[id].sequence), views[v]))
              else ok && log == replied
    {
      assert RequestedAt(views, v) && TrackedAt(views, log, v);
      var sequence := views[v].pending[id].sequence;
      RespondedSound(views[v], id, response);
      RepliedTracks(views[v], log, v, id, response);
      Mark(v, Responded(views[v], id, response), Replied(v, id, response.Refused?));
      ok := true;
      if !response.Refused? && views[v].requestedActive {
        ok := SendUp(v, Raise(sequence));
      }
    }

    /** A request to hide the surface was answered. */
    method Hide(v: Viewer, id: bytes, response: Response)
      requires Valid() && v in views && v !in due && id in views[v].hide
      modifies this`views, this`log
      ensures Valid() && views == old(views)[v := Hidden(old(views)[v], id, response)]
      ensures log == if response.Done? && old(views)[v].hide[id] == old(views)[v].activity then Then(old(log), Hid(v))
                     else old(log)
    {
      assert RequestedAt(views, v) && TrackedAt(views, log, v);
      HiddenSound(views[v], id, response);
      if response.Done? && views[v].hide[id] == views[v].activity {
        HidTracks(views[v], log, v);
        Mark(v, Hidden(views[v], id, response), Hid(v));
      } else {
        Set(v, Hidden(views[v], id, response));
      }
    }

    /** What the viewer's shell shows now. The viewer's surface is to be activated once its first tab is
        held. */
    method TakeSnapshot(v: Viewer, snapshot: Snapshot) returns (result: Result)
      requires Valid() && v in views && v !in due && !views[v].gone
      modifies this`known, this`pool, this`registry, this`views, this`timers, this`log, this`gone, this`due
      ensures Valid() && v in views
      ensures old(v in views && Stale(views[v].snapshot, snapshot)) ==>
                result.Fine? && unchanged(this)
      ensures result.Fine? && old(v in views && !Stale(views[v].snapshot, snapshot)) ==>
                && views[v].snapshot == snapshot && !views[v].initial
                && exists absent :: absent <= gone && Exact(v, absent)
      ensures old(v in views && !Stale(views[v].snapshot, snapshot)) ==>
                Arrives(old(views)[v].pending, views[v].pending, snapshot)
      ensures due == if result.Fine? && old(v in views && !Stale(views[v].snapshot, snapshot))
                        && old(views)[v].initial && views[v].active
                     then old(due)[v := Pass(Activate)] else old(due)
    {
      var view := views[v];
      var late := view.snapshot.boot == snapshot.boot && snapshot.revision < view.snapshot.revision;
      assert late == Stale(view.snapshot, snapshot);
      if late {
        return Fine;
      }
      Show(v, snapshot);
      ghost var absent, middle;
      result, absent, middle := Reconcile(v);
      if result.Fine? && views[v].initial {
        assert RequestedAt(views, v);
        Set(v, views[v].(initial := false));
        if views[v].active {
          Owe(v, Pass(Activate));
        }
      }
    }

    /** Something else is shown. */
    method Show(v: Viewer, snapshot: Snapshot)
      requires Valid() && v in views && v !in due
      modifies this`views, this`log
      ensures Valid() && v in views && v in old(views)
      ensures views == old(views)[v := Settled(old(views)[v].(snapshot := snapshot, catalogSeen := false))]
      ensures Arrives(old(views)[v].pending, views[v].pending, snapshot)
    {
      assert RequestedAt(views, v) && TrackedAt(views, log, v);
      ShowedTracks(views[v], log, v, snapshot);
      ShowArrives(views[v], snapshot);
      Mark(v, views[v].(snapshot := snapshot, catalogSeen := false), Showed(v, snapshot));
      Tally(v);
    }

    // What follows --------------------------------------------------------------------------------

    /** What it means that a view holds its panes and no others: of an active view, those that are known, on a tab
        that is shown or being navigated to, and not gone; of any other view, none. */
    lemma ExactMeans(v: Viewer, absent: set<Pane>, pane: Pane)
      requires Valid() && Exact(v, absent)
      ensures pane in views[v].held <==>
                && views[v].active && (known.Some? ==> pane in known.value) && pane !in absent
                && exists i :: 0 <= i < |views[v].snapshot.panes| && views[v].snapshot.panes[i].0 == pane
                     && (views[v].snapshot.panes[i].1 == views[v].snapshot.tab
                         || exists id :: id in views[v].pending
                              && views[v].pending[id].tab == views[v].snapshot.panes[i].1)
      ensures pane in views[v].held ==> pane in registry && views[v].held[pane] == registry[pane]
    {
      var view := views[v];
      var tabs := Tabs(view.snapshot.tab, view.pending);
      forall i | 0 <= i < |view.snapshot.panes|
        ensures view.snapshot.panes[i].1 in tabs <==>
                  || view.snapshot.panes[i].1 == view.snapshot.tab
                  || exists id :: id in view.pending && view.pending[id].tab == view.snapshot.panes[i].1
      {
      }
    }

    /** Every registered controller counts exactly the viewers that hold this very controller. */
    lemma ReferencesConserved(pane: Pane)
      requires Valid() && pane in registry
      ensures registry[pane] in pool.table && pool.table[registry[pane]].pane == pane
      ensures pool.table[registry[pane]].refs == |Holders(views, pane, registry[pane])|
    {
      assert CountedAt(registry, pool.table, views, pane);
    }

    /** A controller in use is not retired and cannot be reclaimed; whatever can be reclaimed is used by
        nobody. */
    lemma InUseIsSafe(v: Viewer, pane: Pane)
      requires Valid() && v in views && Pins(registry, views[v], pane)
      ensures registry[pane] in pool.table && pool.table[registry[pane]].refs > 0
      ensures !pool.table[registry[pane]].retired && registry[pane] !in pool.idle
    {
      HolderCounts(registry, pool.table, views, v, pane);
      assert IdleAt(registry, pool, registry[pane]);
    }

    lemma IdleIsUnused(h: Handle)
      requires Valid() && h in pool.idle && h in pool.table && pool.table[h].mine
      ensures pool.table[h].refs == 0 && Holders(views, pool.table[h].pane, h) == {}
    {
      assert IdleAt(registry, pool, h);
      assert CountedAt(registry, pool.table, views, pool.table[h].pane);
    }

    /** Never more helpers run than there are slots. */
    lemma SlotsBounded()
      requires Valid()
      ensures |pool.slots| <= CAPACITY
      ensures forall h :: h in pool.table && !pool.table[h].dead ==> h in pool.slots
    {
      assert WithinCapacityOf(pool, CAPACITY);
      forall h | h in pool.table && !pool.table[h].dead ensures h in pool.slots {
        assert PooledAt(pool, h);
      }
    }

    /** In every run, whatever other viewers did meanwhile, a navigation of an active view was written only
        after the view was brought in line: it was then just what it was at the write, every pane of the
        destination that was known then had been acquired by the viewer or was said to be gone, and the
        viewer has released none of them before the write. The same holds of the first activation of its
        surface, for the displayed tab. */
    lemma WritesFollowPins(before: Log, e: SizingEvent)
      returns (r: Log, w: View, known: Option<set<Pane>>)
      requires Valid() && Prefix(Then(before, e), log) && e.SentUp?
      requires e.view.active && Target(e.view.snapshot, e.sent) != ""
      ensures Prefix(Then(r, Reconciled(e.viewer, w, known)), before) && w.(initial := e.view.initial) == e.view
      ensures forall pane :: Needs(e.view, known, e.sent, pane) && !GoneIn(r, pane) ==>
                && pane in e.view.held
                && HeldIn(r, e.viewer, pane, e.view.held[pane]) && HeldBy(before, e.viewer, pane, e.view.held[pane])
    {
      GuardedPrefix(Then(before, e), log);
      r, w, known := BroughtBy(before, e.viewer, e.view);
      forall pane | Needs(e.view, known, e.sent, pane) && !GoneIn(r, pane)
        ensures pane in e.view.held && HeldIn(r, e.viewer, pane, e.view.held[pane])
      {
        assert GuardedAt(r, Reconciled(e.viewer, w, known), pane) && Wants(w, known, pane);
      }
    }

    /** In every run, a pane that a navigation leads to, and that its viewer releases after the navigation has
        begun, is released only after the navigation has ended - it was refused; it was answered, and its tab
        or a state as new as its barrier was shown; the surface was hidden; or the viewer left - or else the
        surface was off all the while, or the pane was said to be gone, or is not known, or not shown on the
        tab, when the viewer decided what to keep. */
    lemma ReleasedAfterItsEnd(before: Log, e: SizingEvent, start: Log, id: bytes, tab: Tab, sequence: nat)
      returns (r: Log, k: SizingEvent)
      requires Valid() && Prefix(Then(before, e), log) && e.Released?
      requires Prefix(Then(start, Started(e.viewer, id, tab, sequence)), before)
      ensures var base := Then(start, Started(e.viewer, id, tab, sequence));
              && Prefix(Then(r, k), before) && Prefix(base, r)
              && (EndedSince(Then(r, k), base, e.viewer, id, tab, sequence)
                  || (&& k.Keeping? && k.viewer == e.viewer && e.pane !in k.keep
                      && (|| !ShowingSince(r, base, e.viewer) || GoneIn(r, e.pane)
                          || (k.known.Some? && e.pane !in k.known.value)
                          || !Listed(Shown(r, e.viewer).panes, {tab}, e.pane))))
    {
      var base := Then(start, Started(e.viewer, id, tab, sequence));
      GuardedPrefix(Then(before, e), log);
      r, k := ReleasedBy(before, e.viewer, e.pane, base);
      CourseUntilItEnds(r, start, e.viewer, id, tab, sequence);
      ShowingUntilItEnds(r, start, e.viewer, id, tab, sequence);
      if k.Keeping? && !EndedSince(r, base, e.viewer, id, tab, sequence) {
        assert KeptAt(r, k, e.pane) && TracksAt(k.view.pending, r, e.viewer, id);
        assert id in k.view.pending && tab in Tabs(k.view.snapshot.tab, k.view.pending);
      }
    }

    /** A navigation that has not ended is still under way, as far as it has come. */
    lemma UnderWayUntilItEnds(start: Log, v: Viewer, id: bytes, tab: Tab, sequence: nat)
      requires Valid() && Prefix(Then(start, Started(v, id, tab, sequence)), log)
      ensures var base := Then(start, Started(v, id, tab, sequence));
              EndedSince(log, base, v, id, tab, sequence)
              || (&& v in views && id in views[v].pending
                  && views[v].pending[id]
                     == Navigation(tab, sequence, AnsweredSince(log, base, v, id), FloorSince(log, base, v, sequence)))
    {
      CourseUntilItEnds(log, start, v, id, tab, sequence);
      assert TrackedAt(views, log, v);
      assert TracksAt(ViewOf(views, v).pending, log, v, id);
    }

    /** A view whose surface was last asked for is active exactly until its viewer leaves. */
    lemma RequestedIsActive(v: Viewer)
      requires Valid() && v in views && views[v].requestedActive
      ensures views[v].active <==> !views[v].gone
    {
      assert RequestedAt(views, v);
    }

    /** A retirement that takes effect comes after a release with no acquisition in between. */
    lemma DueMeansQuiet(t: Timer)
      requires Valid() && Due(registry, pool, t)
      ensures QuietSince(log, t.controller, t.epoch) && Holders(views, t.pane, t.controller) == {}
    {
      assert LingeringAt(registry, pool.table, log, t.pane) && CountedAt(registry, pool.table, views, t.pane);
    }
  }

  predicate Due(registry: map<Pane, Handle>, pool: Pool, t: Timer) {
    && t.pane in registry && registry[t.pane] == t.controller && t.controller in pool.table
    && pool.table[t.controller].refs == 0 && pool.table[t.controller].epoch == t.epoch
  }
}
