/** How single steps keep the invariants of terminal sizing. */
module SizingLaws {
  import opened Wire
  import opened SizingState

  // Counting --------------------------------------------------------------------------------------

  lemma CountOne<T>(s: set<T>, x: T)
    ensures x !in s ==> |s + {x}| == |s| + 1
    ensures x in s ==> |s - {x}| == |s| - 1 && |s| > 0
  {
  }

  lemma {:induction false} Smaller<T>(s: set<T>, t: set<T>)
    requires s <= t
    ensures |s| <= |t|
    decreases |s|
  {
    if s != {} {
      var x :| x in s;
      Smaller(s - {x}, t - {x});
    }
  }

  /** A viewer's grip on a pane. */
  function Grip(views: map<Viewer, View>, v: Viewer, pane: Pane, h: Handle): map<Viewer, View>
    requires v in views
  {
    views[v := views[v].(held := views[v].held[pane := h])]
  }

  function Ungrip(views: map<Viewer, View>, v: Viewer, pane: Pane): map<Viewer, View>
    requires v in views
  {
    views[v := views[v].(held := views[v].held - {pane})]
  }

  lemma GripHolders(views: map<Viewer, View>, v: Viewer, pane: Pane, h: Handle)
    requires v in views && !(pane in views[v].held && views[v].held[pane] == h)
    ensures |Holders(Grip(views, v, pane, h), pane, h)| == |Holders(views, pane, h)| + 1
    ensures forall q, g :: q != pane ==> Holders(Grip(views, v, pane, h), q, g) == Holders(views, q, g)
  {
    var more := Grip(views, v, pane, h);
    assert Holders(more, pane, h) == Holders(views, pane, h) + {v};
    forall q, g | q != pane ensures Holders(more, q, g) == Holders(views, q, g) {
      forall u ensures u in Holders(more, q, g) <==> u in Holders(views, q, g) {
      }
    }
  }

  lemma UngripHolders(views: map<Viewer, View>, v: Viewer, pane: Pane)
    requires v in views && pane in views[v].held
    ensures forall g :: g != views[v].held[pane] ==> Holders(Ungrip(views, v, pane), pane, g) == Holders(views, pane, g)
    ensures |Holders(Ungrip(views, v, pane), pane, views[v].held[pane])|
            == |Holders(views, pane, views[v].held[pane])| - 1
    ensures forall q, g :: q != pane ==> Holders(Ungrip(views, v, pane), q, g) == Holders(views, q, g)
  {
    var less, h := Ungrip(views, v, pane), views[v].held[pane];
    assert Holders(less, pane, h) == Holders(views, pane, h) - {v};
    CountOne(Holders(views, pane, h), v);
    forall g | g != h ensures Holders(less, pane, g) == Holders(views, pane, g) {
      forall u ensures u in Holders(less, pane, g) <==> u in Holders(views, pane, g) {
      }
    }
    forall q, g | q != pane ensures Holders(less, q, g) == Holders(views, q, g) {
      forall u ensures u in Holders(less, q, g) <==> u in Holders(views, q, g) {
      }
    }
  }

  // Stopping --------------------------------------------------------------------------------------

  /** The pool after a controller was stopped: it is idle no more, and its helper has ended. */
  function Halted(p: Pool, h: Handle): Pool
    requires h in p.table
  {
    Pool(p.table[h := p.table[h].(epoch := p.table[h].epoch + 1, retired := true, dead := true)], p.idle - {h},
         p.slots - {h})
  }

  lemma HaltPool(p: Pool, h: Handle)
    requires Pooled(p) && WithinCapacity(p) && h in p.table
    ensures Pooled(Halted(p, h)) && WithinCapacity(Halted(p, h))
  {
    var q := Halted(p, h);
    forall g ensures PooledAt(q, g) {
      assert PooledAt(p, g);
    }
    Smaller(q.slots, p.slots);
    forall n ensures WithinCapacityOf(q, n) {
      assert WithinCapacityOf(p, n);
    }
  }

  lemma HaltForeign(p: Pool, h: Handle)
    requires h in p.table && p.table[h].mine
    ensures Interferes(p, Halted(p, h), false)
  {
    forall g ensures InterferesAt(p, Halted(p, h), false, g) {
    }
  }

  /** The registry without a controller. */
  function Unregistered(registry: map<Pane, Handle>, pane: Pane, h: Handle): map<Pane, Handle> {
    if pane in registry && registry[pane] == h then registry - {pane} else registry
  }

  lemma HaltOurs(registry: map<Pane, Handle>, p: Pool, views: map<Viewer, View>, log: Log, pane: Pane, h: Handle)
    requires Counted(registry, p.table, views) && Idle(registry, p) && Held(p.table, views)
    requires Lingering(registry, p.table, log) && h in p.table && p.table[h].pane == pane
    ensures var r, q := Unregistered(registry, pane, h), Halted(p, h);
            && Counted(r, q.table, views) && Idle(r, q) && Held(q.table, views)
            && Lingering(r, q.table, Then(log, Stopped(h)))
  {
    var r, q := Unregistered(registry, pane, h), Halted(p, h);
    forall k ensures CountedAt(r, q.table, views, k) {
      assert CountedAt(registry, p.table, views, k);
    }
    forall g ensures IdleAt(r, q, g) {
      assert IdleAt(registry, p, g);
    }
    forall v, k ensures HeldAt(q.table, views, v, k) {
      assert HeldAt(p.table, views, v, k);
    }
    forall k ensures LingeringAt(r, q.table, Then(log, Stopped(h)), k) {
      assert LingeringAt(registry, p.table, log, k) && CountedAt(registry, p.table, views, k);
    }
  }

  // Others act ------------------------------------------------------------------------------------

  lemma InterfereOurs(registry: map<Pane, Handle>, p: Pool, q: Pool, views: map<Viewer, View>, log: Log)
    requires Interferes(p, q, true)
    requires Counted(registry, p.table, views) && Idle(registry, p) && Held(p.table, views)
    requires Lingering(registry, p.table, log)
    ensures Counted(registry, q.table, views) && Idle(registry, q) && Held(q.table, views)
    ensures Lingering(registry, q.table, log)
  {
    forall k ensures CountedAt(registry, q.table, views, k) {
      assert CountedAt(registry, p.table, views, k);
      if k in registry {
        assert InterferesAt(p, q, true, registry[k]) && IdleAt(registry, p, registry[k]);
      }
    }
    forall g ensures IdleAt(registry, q, g) {
      assert IdleAt(registry, p, g) && InterferesAt(p, q, true, g);
    }
    forall v, k ensures HeldAt(q.table, views, v, k) {
      assert HeldAt(p.table, views, v, k);
      if v in views && k in views[v].held {
        assert InterferesAt(p, q, true, views[v].held[k]);
      }
    }
    forall k ensures LingeringAt(registry, q.table, log, k) {
      assert LingeringAt(registry, p.table, log, k) && CountedAt(registry, p.table, views, k);
      if k in registry {
        assert InterferesAt(p, q, true, registry[k]);
      }
    }
  }

  lemma InterferesTransitive(p: Pool, q: Pool, r: Pool, mine: bool)
    requires Interferes(p, q, mine) && Interferes(q, r, mine)
    ensures Interferes(p, r, mine)
  {
    forall h ensures InterferesAt(p, r, mine, h) {
      assert InterferesAt(p, q, mine, h) && InterferesAt(q, r, mine, h);
    }
  }

  lemma InterferesSelf(p: Pool, mine: bool)
    ensures Interferes(p, p, mine)
  {
    forall h ensures InterferesAt(p, p, mine, h) {
    }
  }

  // Eviction --------------------------------------------------------------------------------------

  /** The pool after an idle controller was reclaimed. */
  function Evicted(p: Pool, h: Handle): Pool
    requires h in p.table
  {
    Pool(p.table[h := p.table[h].(retired := true, dead := true)], p.idle - {h}, p.slots - {h})
  }

  lemma EvictPool(p: Pool, h: Handle)
    requires Pooled(p) && WithinCapacity(p) && h in p.idle && h in p.table
    ensures Pooled(Evicted(p, h)) && WithinCapacity(Evicted(p, h))
    ensures Interferes(p, Evicted(p, h), true) && Interferes(p, Evicted(p, h), false)
  {
    var q := Evicted(p, h);
    forall g ensures PooledAt(q, g) {
      assert PooledAt(p, g);
    }
    Smaller(q.slots, p.slots);
    forall n ensures WithinCapacityOf(q, n) {
      assert WithinCapacityOf(p, n);
    }
    forall g ensures InterferesAt(p, q, true, g) && InterferesAt(p, q, false, g) {
      assert PooledAt(p, g);
    }
  }

  // Acquiring -------------------------------------------------------------------------------------

  /** A controller after one more viewer took it. Taking an idle one begins another epoch. */
  function Taken(c: Controller): Controller {
    if c.refs == 0 then c.(refs := 1, epoch := c.epoch + 1) else c.(refs := c.refs + 1)
  }

  function Acquire(p: Pool, h: Handle): Pool
    requires h in p.table
  {
    p.(table := p.table[h := Taken(p.table[h])], idle := p.idle - {h})
  }

  lemma AcquirePool(p: Pool, h: Handle)
    requires Pooled(p) && WithinCapacity(p) && h in p.table && p.table[h].mine
    ensures Pooled(Acquire(p, h)) && WithinCapacity(Acquire(p, h)) && Interferes(p, Acquire(p, h), false)
  {
    var q := Acquire(p, h);
    forall g ensures PooledAt(q, g) {
      assert PooledAt(p, g);
    }
    forall n ensures WithinCapacityOf(q, n) {
      assert WithinCapacityOf(p, n);
    }
    forall g ensures InterferesAt(p, q, false, g) {
    }
  }

  lemma AcquireOurs(registry: map<Pane, Handle>, p: Pool, views: map<Viewer, View>, log: Log, v: Viewer, pane: Pane)
    requires Counted(registry, p.table, views) && Idle(registry, p) && Held(p.table, views)
    requires Lingering(registry, p.table, log)
    requires pane in registry && registry[pane] in p.table && v in views && !p.table[registry[pane]].retired
    requires !Pins(registry, views[v], pane)
    ensures var h := registry[pane];
            var q, more := Acquire(p, h), Grip(views, v, pane, h);
            && Counted(registry, q.table, more) && Idle(registry, q) && Held(q.table, more)
            && Lingering(registry, q.table, Then(log, Acquired(v, pane, h)))
  {
    var h := registry[pane];
    var q, more, longer := Acquire(p, h), Grip(views, v, pane, h), Then(log, Acquired(v, pane, h));
    GripHolders(views, v, pane, h);
    assert CountedAt(registry, p.table, views, pane);
    forall k ensures CountedAt(registry, q.table, more, k) {
      assert CountedAt(registry, p.table, views, k);
    }
    forall g ensures IdleAt(registry, q, g) {
      assert IdleAt(registry, p, g);
    }
    forall u, k ensures HeldAt(q.table, more, u, k) {
      assert HeldAt(p.table, views, u, k);
    }
    forall k ensures LingeringAt(registry, q.table, longer, k) {
      assert LingeringAt(registry, p.table, log, k) && CountedAt(registry, p.table, views, k);
    }
  }

  /** The pool with a new controller of ours, whose helper runs. */
  function WithNew(p: Pool, h: Handle, pane: Pane): Pool {
    Pool(p.table[h := Controller(pane, 0, 0, false, false, true)], p.idle, p.slots + {h})
  }

  lemma NewPool(p: Pool, h: Handle, pane: Pane)
    requires Pooled(p) && h !in p.table && |p.slots| < CAPACITY
    ensures Pooled(WithNew(p, h, pane)) && WithinCapacity(WithNew(p, h, pane)) && h !in p.idle
    ensures Interferes(p, WithNew(p, h, pane), false)
  {
    var q := WithNew(p, h, pane);
    assert PooledAt(p, h);
    CountOne(p.slots, h);
    forall g ensures PooledAt(q, g) {
      assert PooledAt(p, g);
    }
    forall n ensures WithinCapacityOf(q, n) {
    }
    forall g ensures InterferesAt(p, q, false, g) {
    }
  }

  /** A new controller is registered and taken at once. */
  lemma NewOurs(registry: map<Pane, Handle>, p: Pool, views: map<Viewer, View>, log: Log, v: Viewer, pane: Pane,
                h: Handle)
    requires Counted(registry, p.table, views) && Idle(registry, p) && Held(p.table, views)
    requires Lingering(registry, p.table, log)
    requires pane !in registry && h !in p.table && h !in p.idle && v in views
    ensures var r, q, more := registry[pane := h], Acquire(WithNew(p, h, pane), h), Grip(views, v, pane, h);
            && Counted(r, q.table, more) && Idle(r, q) && Held(q.table, more)
            && Lingering(r, q.table, Then(log, Acquired(v, pane, h)))
  {
    var r, q, more := registry[pane := h], Acquire(WithNew(p, h, pane), h), Grip(views, v, pane, h);
    var longer := Then(log, Acquired(v, pane, h));
    assert HeldAt(p.table, views, v, pane);
    GripHolders(views, v, pane, h);
    NobodyHolds(p.table, views, pane, h);
    forall k ensures CountedAt(r, q.table, more, k) {
      assert CountedAt(registry, p.table, views, k);
    }
    forall g ensures IdleAt(r, q, g) {
      assert IdleAt(registry, p, g);
    }
    forall u, k ensures HeldAt(q.table, more, u, k) {
      assert HeldAt(p.table, views, u, k);
    }
    forall k ensures LingeringAt(r, q.table, longer, k) {
      assert LingeringAt(registry, p.table, log, k) && CountedAt(registry, p.table, views, k);
    }
  }

  lemma NobodyHolds(table: map<Handle, Controller>, views: map<Viewer, View>, pane: Pane, h: Handle)
    requires Held(table, views) && h !in table
    ensures Holders(views, pane, h) == {}
  {
    forall v ensures v !in Holders(views, pane, h) {
      assert HeldAt(table, views, v, pane);
    }
  }

  // Releasing -------------------------------------------------------------------------------------

  /** The pool after a viewer let a controller go that others still use. */
  function Dropped(p: Pool, h: Handle): Pool
    requires h in p.table && p.table[h].refs > 0
  {
    p.(table := p.table[h := p.table[h].(refs := p.table[h].refs - 1)])
  }

  /** The pool after the last viewer let a controller go: it idles from now on. */
  function Idled(p: Pool, h: Handle): Pool
    requires h in p.table && p.table[h].refs > 0
  {
    p.(table := p.table[h := p.table[h].(refs := p.table[h].refs - 1, epoch := p.table[h].epoch + 1)],
       idle := p.idle + {h})
  }

  lemma HolderCounts(registry: map<Pane, Handle>, table: map<Handle, Controller>, views: map<Viewer, View>, v: Viewer,
                     pane: Pane)
    requires Counted(registry, table, views) && v in views && Pins(registry, views[v], pane)
    ensures registry[pane] in table && table[registry[pane]].refs > 0 && !table[registry[pane]].retired
    ensures table[registry[pane]].mine && table[registry[pane]].pane == pane
  {
    assert CountedAt(registry, table, views, pane);
    assert v in Holders(views, pane, registry[pane]);
  }

  lemma DropPool(p: Pool, h: Handle, idle: bool)
    requires Pooled(p) && WithinCapacity(p) && h in p.table && p.table[h].refs > 0 && p.table[h].mine
    requires !p.table[h].retired
    ensures var q := if idle then Idled(p, h) else Dropped(p, h);
            Pooled(q) && WithinCapacity(q) && Interferes(p, q, false)
  {
    var q := if idle then Idled(p, h) else Dropped(p, h);
    forall g ensures PooledAt(q, g) {
      assert PooledAt(p, g);
    }
    forall n ensures WithinCapacityOf(q, n) {
      assert WithinCapacityOf(p, n);
    }
    forall g ensures InterferesAt(p, q, false, g) {
    }
  }

  /** A viewer lets a controller go that it holds and that is registered. */
  lemma DropOurs(registry: map<Pane, Handle>, p: Pool, views: map<Viewer, View>, log: Log, v: Viewer, pane: Pane)
    requires Counted(registry, p.table, views) && Idle(registry, p) && Held(p.table, views)
    requires Lingering(registry, p.table, log) && v in views && Pins(registry, views[v], pane)
    requires registry[pane] in p.table && p.table[registry[pane]].refs > 0
    ensures var h, less := registry[pane], Ungrip(views, v, pane);
            && (p.table[h].refs > 1 ==>
                  && Counted(registry, Dropped(p, h).table, less) && Idle(registry, Dropped(p, h))
                  && Held(Dropped(p, h).table, less)
                  && Lingering(registry, Dropped(p, h).table, Then(log, Released(v, pane, h))))
            && (p.table[h].refs == 1 ==>
                  && Counted(registry, Idled(p, h).table, less) && Idle(registry, Idled(p, h))
                  && Held(Idled(p, h).table, less)
                  && Lingering(registry, Idled(p, h).table,
                               Then(Then(log, Released(v, pane, h)), Scheduled(h, Idled(p, h).table[h].epoch))))
  {
    var h, less := registry[pane], Ungrip(views, v, pane);
    var q := if p.table[h].refs > 1 then Dropped(p, h) else Idled(p, h);
    var longer := if p.table[h].refs > 1 then Then(log, Released(v, pane, h))
                  else Then(Then(log, Released(v, pane, h)), Scheduled(h, Idled(p, h).table[h].epoch));
    UngripHolders(views, v, pane);
    assert CountedAt(registry, p.table, views, pane);
    forall k ensures CountedAt(registry, q.table, less, k) {
      assert CountedAt(registry, p.table, views, k);
    }
    forall g ensures IdleAt(registry, q, g) {
      assert IdleAt(registry, p, g);
    }
    forall u, k ensures HeldAt(q.table, less, u, k) {
      assert HeldAt(p.table, views, u, k);
    }
    forall k ensures LingeringAt(registry, q.table, longer, k) {
      assert LingeringAt(registry, p.table, log, k) && CountedAt(registry, p.table, views, k);
    }
  }

  /** A viewer forgets a controller that is registered no more. */
  lemma ForgetOurs(registry: map<Pane, Handle>, p: Pool, views: map<Viewer, View>, v: Viewer, pane: Pane)
    requires Counted(registry, p.table, views) && Held(p.table, views) && v in views && pane in views[v].held
    requires !Pins(registry, views[v], pane)
    ensures Counted(registry, p.table, Ungrip(views, v, pane)) && Held(p.table, Ungrip(views, v, pane))
  {
    var less := Ungrip(views, v, pane);
    UngripHolders(views, v, pane);
    forall k ensures CountedAt(registry, p.table, less, k) {
      assert CountedAt(registry, p.table, views, k);
    }
    forall u, k ensures HeldAt(p.table, less, u, k) {
      assert HeldAt(p.table, views, u, k);
    }
  }

  /** The pool after the last viewer let a controller go whose helper has ended: it is stopped. */
  function Buried(p: Pool, h: Handle): Pool
    requires h in p.table && p.table[h].refs > 0
  {
    Halted(Dropped(p, h), h)
  }

  lemma BuryOurs(registry: map<Pane, Handle>, p: Pool, views: map<Viewer, View>, log: Log, v: Viewer, pane: Pane)
    requires Counted(registry, p.table, views) && Idle(registry, p) && Held(p.table, views)
    requires Lingering(registry, p.table, log) && v in views && Pins(registry, views[v], pane)
    requires registry[pane] in p.table && p.table[registry[pane]].refs > 0 && p.table[registry[pane]].pane == pane
    ensures var h, less := registry[pane], Ungrip(views, v, pane);
            && Counted(registry - {pane}, Buried(p, h).table, less) && Idle(registry - {pane}, Buried(p, h))
            && Held(Buried(p, h).table, less)
            && Lingering(registry - {pane}, Buried(p, h).table, Then(Then(log, Released(v, pane, h)), Stopped(h)))
  {
    var h, less, r := registry[pane], Ungrip(views, v, pane), registry - {pane};
    var q, longer := Buried(p, h), Then(Then(log, Released(v, pane, h)), Stopped(h));
    UngripHolders(views, v, pane);
    forall k ensures CountedAt(r, q.table, less, k) {
      assert CountedAt(registry, p.table, views, k);
    }
    forall g ensures IdleAt(r, q, g) {
      assert IdleAt(registry, p, g);
    }
    forall u, k ensures HeldAt(q.table, less, u, k) {
      assert HeldAt(p.table, views, u, k);
    }
    forall k ensures LingeringAt(r, q.table, longer, k) {
      assert LingeringAt(registry, p.table, log, k) && CountedAt(registry, p.table, views, k);
    }
  }

  lemma BuryPool(p: Pool, h: Handle)
    requires Pooled(p) && WithinCapacity(p) && h in p.table && p.table[h].refs > 0 && p.table[h].mine
    ensures Pooled(Buried(p, h)) && WithinCapacity(Buried(p, h)) && Interferes(p, Buried(p, h), false)
  {
    var q := Buried(p, h);
    forall g ensures PooledAt(q, g) {
      assert PooledAt(p, g);
    }
    Smaller(q.slots, p.slots);
    forall n ensures WithinCapacityOf(q, n) {
      assert WithinCapacityOf(p, n);
    }
    forall g ensures InterferesAt(p, q, false, g) {
    }
  }

  // Histories of what is held ---------------------------------------------------------------------

  lemma AcquireLogged(registry: map<Pane, Handle>, views: map<Viewer, View>, log: Log, v: Viewer, pane: Pane)
    requires Logged(registry, views, log) && v in views && pane in registry
    ensures Logged(registry, Grip(views, v, pane, registry[pane]), Then(log, Acquired(v, pane, registry[pane])))
  {
    var more, longer := Grip(views, v, pane, registry[pane]), Then(log, Acquired(v, pane, registry[pane]));
    forall u, k ensures LoggedAt(registry, more, longer, u, k) {
      assert LoggedAt(registry, views, log, u, k);
    }
  }

  /** Nobody holds a controller that is yet to be made. */
  lemma RegisterLogged(registry: map<Pane, Handle>, table: map<Handle, Controller>, views: map<Viewer, View>, log: Log,
                       pane: Pane, h: Handle)
    requires Logged(registry, views, log) && Held(table, views) && h !in table
    ensures Logged(registry[pane := h], views, log)
  {
    var r := registry[pane := h];
    forall u, k ensures LoggedAt(r, views, log, u, k) {
      assert LoggedAt(registry, views, log, u, k) && HeldAt(table, views, u, k);
    }
  }

  lemma ReleaseLogged(registry: map<Pane, Handle>, views: map<Viewer, View>, log: Log, v: Viewer, pane: Pane)
    requires Logged(registry, views, log) && v in views && pane in registry
    ensures Logged(registry, Ungrip(views, v, pane), Then(log, Released(v, pane, registry[pane])))
  {
    var less, longer := Ungrip(views, v, pane), Then(log, Released(v, pane, registry[pane]));
    forall u, k ensures LoggedAt(registry, less, longer, u, k) {
      assert LoggedAt(registry, views, log, u, k);
    }
  }

  lemma ForgetLogged(registry: map<Pane, Handle>, views: map<Viewer, View>, log: Log, v: Viewer, pane: Pane)
    requires Logged(registry, views, log) && v in views
    ensures Logged(registry, Ungrip(views, v, pane), log)
  {
    forall u, k ensures LoggedAt(registry, Ungrip(views, v, pane), log, u, k) {
      assert LoggedAt(registry, views, log, u, k);
    }
  }

  lemma StopLogged(registry: map<Pane, Handle>, table: map<Handle, Controller>, views: map<Viewer, View>, log: Log,
                   h: Handle)
    requires Logged(registry, views, log) && Counted(registry, table, views) && h in table
    ensures Logged(Unregistered(registry, table[h].pane, h), views, Then(log, Stopped(h)))
  {
    var r := Unregistered(registry, table[h].pane, h);
    forall u, k ensures LoggedAt(r, views, Then(log, Stopped(h)), u, k) {
      assert LoggedAt(registry, views, log, u, k) && CountedAt(registry, table, views, k);
    }
  }

  /** What else happens does not change what is held. */
  lemma StillLogged(registry: map<Pane, Handle>, views: map<Viewer, View>, log: Log, e: SizingEvent)
    requires Logged(registry, views, log) && !e.Stopped? && !e.Released?
    ensures Logged(registry, views, Then(log, e))
  {
    forall u, k ensures LoggedAt(registry, views, Then(log, e), u, k) {
      assert LoggedAt(registry, views, log, u, k);
    }
  }

  lemma SetLogged(registry: map<Pane, Handle>, views: map<Viewer, View>, log: Log, v: Viewer, view: View)
    requires Logged(registry, views, log)
    requires if v in views then view.held == views[v].held else view.held == map[]
    ensures Logged(registry, views[v := view], log)
  {
    var other := views[v := view];
    forall u, k ensures LoggedAt(registry, other, log, u, k) {
      assert LoggedAt(registry, views, log, u, k);
    }
  }

  lemma StillWitnessed(gone: set<Pane>, log: Log, e: SizingEvent)
    requires Witnessed(gone, log) && !e.Reconciling?
    ensures Witnessed(gone, Then(log, e))
    ensures e.Missing? ==> Witnessed(gone + {e.pane}, Then(log, e))
  {
    forall k ensures WitnessedAt(gone, Then(log, e), k)
            && (e.Missing? ==> WitnessedAt(gone + {e.pane}, Then(log, e), k)) {
      assert WitnessedAt(gone, log, k);
    }
  }

  lemma NobodyGone(log: Log)
    ensures Witnessed({}, log)
  {
    forall k ensures WitnessedAt({}, log, k) {
    }
  }

  lemma {:induction false} GuardedPrefix(earlier: Log, log: Log)
    requires Guarded(log) && Prefix(earlier, log)
    ensures Guarded(earlier)
  {
    if earlier != log {
      GuardedPrefix(earlier, log.earlier);
    }
  }

  lemma BuryLogged(registry: map<Pane, Handle>, p: Pool, views: map<Viewer, View>, gone: set<Pane>, log: Log, v: Viewer,
                   pane: Pane)
    requires Logged(registry, views, log) && Witnessed(gone, log) && Guarded(log)
    requires Counted(registry, p.table, views) && v in views && pane in registry && MayRelease(log, v, pane)
    ensures var longer := Then(Then(log, Released(v, pane, registry[pane])), Stopped(registry[pane]));
            Logged(registry - {pane}, Ungrip(views, v, pane), longer) && Witnessed(gone, longer) && Guarded(longer)
  {
    var h := registry[pane];
    var once := Then(log, Released(v, pane, h));
    ReleaseLogged(registry, views, log, v, pane);
    StillWitnessed(gone, log, Released(v, pane, h));
    StillWitnessed(gone, once, Stopped(h));
    var r, less, longer := registry - {pane}, Ungrip(views, v, pane), Then(once, Stopped(h));
    forall u, k ensures LoggedAt(r, less, longer, u, k) {
      assert LoggedAt(registry, less, once, u, k);
      assert CountedAt(registry, p.table, views, k) && CountedAt(registry, p.table, views, pane);
    }
  }

  /** What happens next changes nothing about what is held, and needs nothing. */
  lemma Continue(registry: map<Pane, Handle>, views: map<Viewer, View>, gone: set<Pane>, log: Log, e: SizingEvent)
    requires Logged(registry, views, log) && Witnessed(gone, log) && Guarded(log)
    requires !e.Stopped? && !e.Reconciling? && !Needy(e)
    ensures Logged(registry, views, Then(log, e)) && Witnessed(gone, Then(log, e)) && Guarded(Then(log, e))
  {
    StillLogged(registry, views, log, e);
    StillWitnessed(gone, log, e);
  }

  lemma LingerOn(registry: map<Pane, Handle>, table: map<Handle, Controller>, log: Log, e: SizingEvent)
    requires Lingering(registry, table, log) && !e.Acquired? && !e.Scheduled?
    ensures Lingering(registry, table, Then(log, e))
  {
    forall k ensures LingeringAt(registry, table, Then(log, e), k) {
      assert LingeringAt(registry, table, log, k);
    }
  }

  /** What needs something to have happened before. */
  predicate Needy(e: SizingEvent) {
    e.SentUp? || e.Reconciled? || e.Keeping? || e.Released? || e.Started? || e.Introduced?
  }

  lemma StillGuarded(log: Log, e: SizingEvent)
    requires Guarded(log) && !Needy(e)
    ensures Guarded(Then(log, e))
  {
  }

  /** A view that holds exactly what it is to hold, by registered controllers, but for what is gone. */
  lemma ReconciledGuarded(registry: map<Pane, Handle>, views: map<Viewer, View>, gone: set<Pane>,
                          known: Option<set<Pane>>, log: Log, v: Viewer, absent: set<Pane>)
    requires Guarded(log) && Logged(registry, views, log) && Witnessed(gone, log) && v in views && absent <= gone
    requires forall pane :: pane in views[v].held <==> Wants(views[v], known, pane) && pane !in absent
    requires forall pane :: pane in views[v].held ==> Pins(registry, views[v], pane)
    ensures Guarded(Then(log, Reconciled(v, views[v], known)))
  {
    var e := Reconciled(v, views[v], known);
    forall k ensures GuardedAt(log, e, k) {
      assert LoggedAt(registry, views, log, v, k) && WitnessedAt(gone, log, k);
    }
  }

  // What became of a viewer -----------------------------------------------------------------------

  /** What marks nothing of a viewer leaves it where it was. */
  lemma StillTracked(views: map<Viewer, View>, log: Log, e: SizingEvent)
    requires Tracked(views, log) && forall v :: !Marks(e, v)
    ensures Tracked(views, Then(log, e))
  {
    forall v ensures TrackedAt(views, Then(log, e), v) {
      assert TrackedAt(views, log, v);
      TracksOn(ViewOf(views, v), log, e, v);
    }
  }

  lemma TracksOn(view: View, log: Log, e: SizingEvent, v: Viewer)
    requires Tracks(view, log, v) && !Marks(e, v)
    ensures Tracks(view, Then(log, e), v)
  {
    forall id ensures TracksAt(view.pending, Then(log, e), v, id) {
      assert TracksAt(view.pending, log, v, id);
    }
  }

  /** A view may change in what it does not show and not navigate to. */
  lemma SetTracked(views: map<Viewer, View>, log: Log, v: Viewer, view: View)
    requires Tracked(views, log)
    requires Alike(ViewOf(views, v), view)
    ensures Tracked(views[v := view], log)
  {
    var other := views[v := view];
    forall u ensures TrackedAt(other, log, u) {
      assert TrackedAt(views, log, u);
      if u == v {
        var was := ViewOf(views, v);
        forall id ensures TracksAt(view.pending, log, v, id) {
          assert TracksAt(was.pending, log, v, id);
        }
      }
    }
  }

  predicate Alike(v: View, w: View) {
    w.snapshot == v.snapshot && w.active == v.active && w.initialized == v.initialized && w.pending == v.pending
  }

  /** Something happened to one viewer. */
  lemma MarkTracked(views: map<Viewer, View>, log: Log, e: SizingEvent, v: Viewer, view: View)
    requires Tracked(views, log) && Marks(e, v) && Tracks(view, Then(log, e), v)
    ensures Tracked(views[v := view], Then(log, e))
  {
    var other := views[v := view];
    forall u ensures TrackedAt(other, Then(log, e), u) {
      assert TrackedAt(views, log, u);
      if u != v {
        TracksOn(ViewOf(views, u), log, e, u);
      }
    }
  }

  lemma NewTracks(v: Viewer)
    ensures Tracks(NewView(), Empty, v)
  {
    forall id ensures TracksAt(NewView().pending, Empty, v, id) {
    }
  }

  lemma IntroducedTracks(view: View, log: Log, v: Viewer, surface: bool)
    requires Tracks(view, log, v)
    ensures Tracks(view.(active := surface, requestedActive := surface, initial := true, initialized := true),
                   Then(log, Introduced(v, surface)), v)
  {
    forall id ensures TracksAt(view.pending, Then(log, Introduced(v, surface)), v, id) {
      assert TracksAt(view.pending, log, v, id);
    }
  }

  lemma LitTracks(view: View, log: Log, v: Viewer, id: bytes)
    requires Tracks(view, log, v)
    ensures Tracks(Asked(view, id, true), Then(log, Lit(v)), v)
  {
    forall k ensures TracksAt(view.pending, Then(log, Lit(v)), v, k) {
      assert TracksAt(view.pending, log, v, k);
    }
  }

  lemma StartedTracks(view: View, log: Log, v: Viewer, id: bytes, tab: Tab)
    requires Tracks(view, log, v)
    ensures Tracks(Navigating(view, id, tab), Then(log, Started(v, id, tab, view.sequence + 1)), v)
  {
    var w, longer := Navigating(view, id, tab), Then(log, Started(v, id, tab, view.sequence + 1));
    forall k ensures TracksAt(w.pending, longer, v, k) {
      assert TracksAt(view.pending, log, v, k);
    }
  }

  lemma RepliedTracks(view: View, log: Log, v: Viewer, id: bytes, response: Response)
    requires Tracks(view, log, v)
    ensures Tracks(Responded(view, id, response), Then(log, Replied(v, id, response.Refused?)), v)
  {
    var w, longer := Responded(view, id, response), Then(log, Replied(v, id, response.Refused?));
    forall k ensures TracksAt(w.pending, longer, v, k) {
      assert TracksAt(view.pending, log, v, k);
    }
  }

  lemma ReachedTracks(view: View, log: Log, v: Viewer, sequence: nat, floor: nat)
    requires Tracks(view, log, v)
    ensures Tracks(Raised(view, sequence, floor), Then(log, Reached(v, sequence, floor)), v)
  {
    var w, longer := Raised(view, sequence, floor), Then(log, Reached(v, sequence, floor));
    forall k ensures TracksAt(w.pending, longer, v, k) {
      assert TracksAt(view.pending, log, v, k);
    }
  }

  lemma HidTracks(view: View, log: Log, v: Viewer)
    requires Tracks(view, log, v)
    ensures Tracks(view.(active := false, pending := map[]), Then(log, Hid(v)), v)
  {
    forall k ensures TracksAt(map[], Then(log, Hid(v)), v, k) {
    }
  }

  lemma ShowedTracks(view: View, log: Log, v: Viewer, s: Snapshot)
    requires Tracks(view, log, v)
    ensures Tracks(view.(snapshot := s, catalogSeen := false), Then(log, Showed(v, s)), v)
  {
    forall k ensures TracksAt(view.pending, Then(log, Showed(v, s)), v, k) {
      assert TracksAt(view.pending, log, v, k);
    }
  }

  lemma TalliedTracks(view: View, log: Log, v: Viewer)
    requires Tracks(view, log, v)
    ensures Tracks(Settled(view), Then(log, Tallied(v)), v)
  {
    forall k ensures TracksAt(Settled(view).pending, Then(log, Tallied(v)), v, k) {
      assert TracksAt(view.pending, log, v, k);
    }
  }

  lemma LeftTracks(view: View, log: Log, v: Viewer)
    requires Tracks(view, log, v)
    ensures Tracks(view.(active := false, gone := true), Then(log, Left(v)), v)
  {
    forall k ensures TracksAt(view.pending, Then(log, Left(v)), v, k) {
      assert TracksAt(view.pending, log, v, k);
    }
  }

  /** A navigation goes on, as far as it has come, until it ends. */
  lemma {:induction false} CourseUntilItEnds(log: Log, start: Log, v: Viewer, id: bytes, tab: Tab, sequence: nat)
    requires Guarded(log) && Prefix(Then(start, Started(v, id, tab, sequence)), log)
    ensures var base := Then(start, Started(v, id, tab, sequence));
            || EndedSince(log, base, v, id, tab, sequence)
            || Course(log, v, id)
               == Some(Navigation(tab, sequence, AnsweredSince(log, base, v, id), FloorSince(log, base, v, sequence)))
  {
    if log != Then(start, Started(v, id, tab, sequence)) {
      CourseUntilItEnds(log.earlier, start, v, id, tab, sequence);
    }
  }

  lemma {:induction false} GreetedSince(log: Log, base: Log, v: Viewer)
    requires Prefix(base, log) && Greeted(base, v)
    ensures Greeted(log, v)
  {
    if log != base {
      GreetedSince(log.earlier, base, v);
    }
  }

  /** And once the surface was on, it stays on until then. */
  lemma {:induction false} ShowingUntilItEnds(log: Log, start: Log, v: Viewer, id: bytes, tab: Tab, sequence: nat)
    requires Guarded(log) && Prefix(Then(start, Started(v, id, tab, sequence)), log)
    ensures var base := Then(start, Started(v, id, tab, sequence));
            ShowingSince(log, base, v) ==> Showing(log, v) || EndedSince(log, base, v, id, tab, sequence)
  {
    var base := Then(start, Started(v, id, tab, sequence));
    if log != base {
      ShowingUntilItEnds(log.earlier, start, v, id, tab, sequence);
      GuardedPrefix(base, log);
      GreetedSince(log.earlier, base, v);
    }
  }

  /** When a viewer that releases a pane decided not to keep it, or left; it has begun nothing since. */
  lemma {:induction false} ReleasedBy(log: Log, v: Viewer, pane: Pane, base: Log)
    returns (r: Log, e: SizingEvent)
    requires Guarded(log) && MayRelease(log, v, pane)
    requires Prefix(base, log) && base.Then? && base.last.Started? && base.last.viewer == v
    ensures Prefix(Then(r, e), log) && Prefix(base, r) && Guarded(Then(r, e))
    ensures e == Left(v) || (e.Keeping? && e.viewer == v && pane !in e.keep)
  {
    if (log.last.Keeping? && log.last.viewer == v) || Marks(log.last, v) {
      r, e := log.earlier, log.last;
    } else {
      r, e := ReleasedBy(log.earlier, v, pane, base);
    }
  }

  /** A viewer releases a pane that it may release. */
  lemma ReleaseRecorded(registry: map<Pane, Handle>, views: map<Viewer, View>, due: map<Viewer, Duty>, gone: set<Pane>,
                        log: Log, v: Viewer, pane: Pane)
    requires Logged(registry, views, log) && Witnessed(gone, log) && Guarded(log) && Ready(views, due, log)
    requires Tracked(views, log) && v in views && v !in due && pane in registry && MayRelease(log, v, pane)
    ensures var less, longer := Ungrip(views, v, pane), Then(log, Released(v, pane, registry[pane]));
            && Logged(registry, less, longer) && Witnessed(gone, longer) && Guarded(longer) && Ready(less, due, longer)
            && Tracked(less, longer)
  {
    var less, e := Ungrip(views, v, pane), Released(v, pane, registry[pane]);
    ReleaseLogged(registry, views, log, v, pane);
    StillWitnessed(gone, log, e);
    OthersReady(views, due, log, v, less[v]);
    StillReady(less, due, log, e);
    SetTracked(views, log, v, less[v]);
    StillTracked(less, log, e);
  }

  lemma ScheduleRecorded(registry: map<Pane, Handle>, views: map<Viewer, View>, due: map<Viewer, Duty>,
                         gone: set<Pane>, log: Log, h: Handle, epoch: nat)
    requires Logged(registry, views, log) && Witnessed(gone, log) && Guarded(log) && Ready(views, due, log)
    requires Tracked(views, log)
    ensures var longer := Then(log, Scheduled(h, epoch));
            && Logged(registry, views, longer) && Witnessed(gone, longer) && Guarded(longer)
            && Ready(views, due, longer) && Tracked(views, longer)
  {
    Continue(registry, views, gone, log, Scheduled(h, epoch));
    StillReady(views, due, log, Scheduled(h, epoch));
    StillTracked(views, log, Scheduled(h, epoch));
  }

  /** What is to be held is kept, but for what is gone. */
  lemma KeepingGuarded(gone: set<Pane>, log: Log, e: SizingEvent)
    requires Guarded(log) && Witnessed(gone, log) && e.Keeping? && Tracks(e.view, log, e.viewer)
    requires forall pane :: Wants(e.view, e.known, pane) ==> pane in e.keep || pane in gone
    ensures Guarded(Then(log, e))
  {
    forall pane ensures KeptAt(log, e, pane) {
      assert WitnessedAt(gone, log, pane);
    }
  }

  // What is still to be written -------------------------------------------------------------------

  /** What others do leaves a view as it was brought in line. */
  lemma StillReady(views: map<Viewer, View>, due: map<Viewer, Duty>, log: Log, e: SizingEvent)
    requires Ready(views, due, log)
    requires e.Acquired? || e.Released? || e.Reconciling? || e.Reconciled? ==> e.viewer !in due
    ensures Ready(views, due, Then(log, e))
  {
    forall u ensures ReadyAt(views, due, Then(log, e), u) {
      assert ReadyAt(views, due, log, u);
    }
  }

  /** The views of others may change. */
  lemma OthersReady(views: map<Viewer, View>, due: map<Viewer, Duty>, log: Log, v: Viewer, view: View)
    requires Ready(views, due, log) && v !in due
    ensures Ready(views[v := view], due, log)
  {
    var other := views[v := view];
    forall u ensures ReadyAt(other, due, log, u) {
      assert ReadyAt(views, due, log, u);
    }
  }

  lemma MoreReady(views: map<Viewer, View>, due: map<Viewer, Duty>, log: Log, v: Viewer, duty: Duty)
    requires Ready(views, due, log) && v in views
    requires duty.Pass? ==> Permitted(log, v, views[v], duty.sent)
    ensures Ready(views, due[v := duty], log)
  {
    var more := due[v := duty];
    forall u ensures ReadyAt(views, more, log, u) {
      assert ReadyAt(views, due, log, u);
    }
  }

  lemma LessReady(views: map<Viewer, View>, due: map<Viewer, Duty>, log: Log, v: Viewer)
    requires Ready(views, due, log)
    ensures Ready(views, due - {v}, log)
    ensures v in due ==> v in views && (due[v].Pass? ==> Permitted(log, v, views[v], due[v].sent))
  {
    forall u ensures ReadyAt(views, due - {v}, log, u) {
      assert ReadyAt(views, due, log, u);
    }
    assert ReadyAt(views, due, log, v);
  }

  /** When a view was last brought in line, what it was then, and that nothing of it was touched since. */
  lemma {:induction false} BroughtBy(log: Log, v: Viewer, view: View)
    returns (r: Log, w: View, known: Option<set<Pane>>)
    requires Guarded(log) && Brought(log, v, view)
    ensures Prefix(Then(r, Reconciled(v, w, known)), log) && Guarded(Then(r, Reconciled(v, w, known)))
    ensures w.(initial := view.initial) == view
    ensures forall pane, h :: HeldIn(r, v, pane, h) ==> HeldBy(log, v, pane, h)
  {
    if log.last.Reconciled? && log.last.viewer == v {
      r, w, known := log.earlier, log.last.view, log.last.known;
      forall pane, h | HeldIn(r, v, pane, h) ensures HeldBy(log, v, pane, h) {
        HeldInBy(r, v, pane, h);
      }
    } else {
      r, w, known := BroughtBy(log.earlier, v, view);
    }
  }

  lemma {:induction false} HeldInBy(log: Log, v: Viewer, pane: Pane, h: Handle)
    requires HeldIn(log, v, pane, h)
    ensures HeldBy(log, v, pane, h)
  {
    if log.Then? && HeldIn(log.earlier, v, pane, h) {
      HeldInBy(log.earlier, v, pane, h);
    }
  }

  // The environment -------------------------------------------------------------------------------

  /** The pool after a helper ended. */
  function Ended(p: Pool, h: Handle): Pool
    requires h in p.table
  {
    p.(table := p.table[h := p.table[h].(dead := true)], slots := p.slots - {h})
  }

  lemma EndPool(p: Pool, h: Handle)
    requires Pooled(p) && WithinCapacity(p) && h in p.table
    ensures Pooled(Ended(p, h)) && WithinCapacity(Ended(p, h)) && Interferes(p, Ended(p, h), true)
  {
    var q := Ended(p, h);
    forall g ensures PooledAt(q, g) {
      assert PooledAt(p, g);
    }
    Smaller(q.slots, p.slots);
    forall n ensures WithinCapacityOf(q, n) {
      assert WithinCapacityOf(p, n);
    }
    forall g ensures InterferesAt(p, q, true, g) {
      assert PooledAt(p, g);
    }
  }

  /** The pool after another publication changed one of its own controllers, or made one. */
  function Foreign(p: Pool, h: Handle, c: Controller, idle: bool): Pool {
    Pool(p.table[h := c], if idle then p.idle + {h} else p.idle - {h}, if c.dead then p.slots - {h} else p.slots + {h})
  }

  lemma ForeignPool(p: Pool, h: Handle, c: Controller, idle: bool)
    requires Pooled(p) && WithinCapacity(p) && !c.mine && (h in p.table ==> !p.table[h].mine)
    requires (idle ==> !c.retired) && (c.retired ==> c.dead)
    requires c.dead || h in p.slots || |p.slots| < CAPACITY
    ensures Pooled(Foreign(p, h, c, idle)) && WithinCapacity(Foreign(p, h, c, idle))
    ensures Interferes(p, Foreign(p, h, c, idle), true)
  {
    var q := Foreign(p, h, c, idle);
    assert PooledAt(p, h);
    forall g ensures PooledAt(q, g) {
      assert PooledAt(p, g);
    }
    CountOne(p.slots, h);
    if c.dead {
      Smaller(q.slots, p.slots);
    } else if h in p.slots {
      assert q.slots == p.slots;
    }
    forall n ensures WithinCapacityOf(q, n) {
      assert WithinCapacityOf(p, n);
    }
    forall g ensures InterferesAt(p, q, true, g) {
    }
  }

  // Views -----------------------------------------------------------------------------------------

  lemma UngripRequested(views: map<Viewer, View>, v: Viewer, pane: Pane)
    requires Requested(views) && v in views
    ensures Requested(Ungrip(views, v, pane))
  {
    forall u ensures RequestedAt(Ungrip(views, v, pane), u) {
      assert RequestedAt(views, u);
    }
  }

  lemma GripRequested(views: map<Viewer, View>, v: Viewer, pane: Pane, h: Handle)
    requires Requested(views) && v in views
    ensures Requested(Grip(views, v, pane, h))
  {
    forall u ensures RequestedAt(Grip(views, v, pane, h), u) {
      assert RequestedAt(views, u);
    }
  }

  /** Whatever else changes in a view, what it holds counts as before. */
  lemma ViewChanged(registry: map<Pane, Handle>, table: map<Handle, Controller>, views: map<Viewer, View>, v: Viewer,
                    view: View)
    requires Counted(registry, table, views) && Held(table, views) && v in views && view.held == views[v].held
    ensures Counted(registry, table, views[v := view]) && Held(table, views[v := view])
  {
    var other := views[v := view];
    forall k ensures CountedAt(registry, table, other, k) {
      assert CountedAt(registry, table, views, k);
      if k in registry {
        assert Holders(other, k, registry[k]) == Holders(views, k, registry[k]);
      }
    }
    forall u, k ensures HeldAt(table, other, u, k) {
      assert HeldAt(table, views, u, k);
    }
  }

  // Histories -------------------------------------------------------------------------------------

  lemma {:induction false} OnlyReleasesTransitive(c: Log, b: Log, a: Log)
    requires OnlyReleases(c, b) && OnlyReleases(b, a)
    ensures OnlyReleases(c, a)
  {
    if c != b {
      OnlyReleasesTransitive(c.earlier, b, a);
    }
  }

  lemma {:induction false} OnlyAcquiresTransitive(c: Log, b: Log, a: Log)
    requires OnlyAcquires(c, b) && OnlyAcquires(b, a)
    ensures OnlyAcquires(c, a)
  {
    if c != b {
      OnlyAcquiresTransitive(c.earlier, b, a);
    }
  }

  function Members(order: seq<Pane>): set<Pane> {
    set i | 0 <= i < |order| :: order[i]
  }

  /** A view that holds what was planned, but for what is gone, holds exactly what it is to hold. */
  lemma ExactNow(order: seq<Pane>, wanted: set<Pane>, was: View, now: View, known: Option<set<Pane>>)
    requires forall pane :: pane in order <==> Wants(was, known, pane)
    requires forall pane :: pane in wanted ==> pane in order
    requires now == was.(held := now.held) && now.held.Keys == wanted
    ensures forall pane :: pane in now.held <==> Wants(now, known, pane) && pane !in Members(order) - wanted
  {
    forall pane ensures pane in now.held <==> Wants(now, known, pane) && pane !in Members(order) - wanted {
      assert pane in order <==> pane in Members(order);
      assert Wants(now, known, pane) <==> Wants(was, known, pane);
    }
  }

  // What frames do to a view ----------------------------------------------------------------------

  lemma JoinCounted(registry: map<Pane, Handle>, table: map<Handle, Controller>, views: map<Viewer, View>, v: Viewer)
    requires Counted(registry, table, views) && Held(table, views) && Requested(views) && v !in views
    ensures Counted(registry, table, views[v := NewView()]) && Held(table, views[v := NewView()])
    ensures Requested(views[v := NewView()])
  {
    var more := views[v := NewView()];
    forall k ensures CountedAt(registry, table, more, k) {
      assert CountedAt(registry, table, views, k);
      if k in registry {
        assert Holders(more, k, registry[k]) == Holders(views, k, registry[k]);
      }
    }
    forall u, k ensures HeldAt(table, more, u, k) {
      assert HeldAt(table, views, u, k);
    }
    forall u ensures RequestedAt(more, u) {
      assert RequestedAt(views, u);
    }
  }

  lemma SetRequested(views: map<Viewer, View>, v: Viewer, view: View)
    requires Requested(views) && ViewSound(view)
    ensures Requested(views[v := view])
  {
    var other := views[v := view];
    forall u ensures RequestedAt(other, u) {
      assert RequestedAt(views, u);
    }
  }

  /** A view whose surface is asked for, or asked to be hidden. */
  function Asked(v: View, id: bytes, wanted: bool): View {
    var w := v.(activity := v.activity + 1, requestedActive := wanted);
    if wanted then w.(active := true) else w.(hide := w.hide[id := w.activity])
  }

  function Navigating(v: View, id: bytes, tab: Tab): View {
    v.(sequence := v.sequence + 1, pending := v.pending[id := Navigation(tab, v.sequence + 1, false, 0)])
  }

  /** A view once a request is taken into account; there may be too many, or the identifier in use. */
  function Requesting(v: View, id: bytes, op: Operation): Option<View> {
    var hiding := op.SetSurface? && op.wanted.Some?;
    var w := if hiding then Asked(v, id, op.wanted.value) else v;
    if hiding && |v.hide| >= MAX_NAVIGATIONS then None
    else if Destination(v.snapshot, op) == "" then Some(w)
    else if |v.pending| >= MAX_NAVIGATIONS || id in v.pending then None
    else Some(Navigating(w, id, Destination(v.snapshot, op)))
  }

  /** An operation leads to this tab: it names it, or the first pane or workspace of the name that it gives is on
      it. */
  ghost predicate LeadsTo(s: Snapshot, op: Operation, tab: Tab) {
    tab != "" &&
    match op
    case FocusTab(own) => own == tab
    case FocusPane(pane) => FirstOf(s.panes, pane, tab)
    case FocusWorkspace(workspace) => FirstOf(s.workspaces, workspace, tab)
    case _ => false
  }

  ghost predicate FirstOf(entries: seq<(string, Tab)>, name: string, tab: Tab) {
    exists i :: 0 <= i < |entries| && entries[i] == (name, tab) && forall j :: 0 <= j < i ==> entries[j].0 != name
  }

  lemma {:induction false} TabOfFirst(entries: seq<(string, Tab)>, name: string, tab: Tab)
    requires tab != ""
    ensures TabOf(entries, name) == tab <==> FirstOf(entries, name, tab)
  {
    if entries != [] && entries[0].0 != name {
      TabOfFirst(entries[1..], name, tab);
      if FirstOf(entries, name, tab) {
        var i :| 0 <= i < |entries| && entries[i] == (name, tab) && forall j :: 0 <= j < i ==> entries[j].0 != name;
        assert entries[1..][i - 1] == (name, tab);
        assert forall j :: 0 <= j < i - 1 ==> entries[1..][j] == entries[j + 1];
      }
      if FirstOf(entries[1..], name, tab) {
        var i :| 0 <= i < |entries[1..]| && entries[1..][i] == (name, tab)
                 && forall j :: 0 <= j < i ==> entries[1..][j].0 != name;
        assert entries[i + 1] == (name, tab);
        assert forall j :: 0 < j < i + 1 ==> entries[j] == entries[1..][j - 1];
      }
    }
  }

  lemma DestinationLeads(s: Snapshot, op: Operation, tab: Tab)
    requires tab != ""
    ensures Destination(s, op) == tab <==> LeadsTo(s, op, tab)
  {
    match op
    case FocusPane(pane) => TabOfFirst(s.panes, pane, tab);
    case FocusWorkspace(workspace) => TabOfFirst(s.workspaces, workspace, tab);
    case _ =>
  }

  /** A request that cannot be kept track of: too many of its kind wait for their answer, or a navigation goes by
      its identifier already. */
  ghost predicate Excessive(v: View, id: bytes, op: Operation) {
    || (op.SetSurface? && op.wanted.Some? && |v.hide| >= MAX_NAVIGATIONS)
    || (exists tab :: LeadsTo(v.snapshot, op, tab) && (|v.pending| >= MAX_NAVIGATIONS || id in v.pending))
  }

  /** What a request makes of a view, besides what it holds: whether its surface is asked for, or is to be hidden
      once that is answered; and what it navigates to, under the next sequence number. */
  ghost predicate Demands(v: View, w: View, id: bytes, op: Operation) {
    && w.snapshot == v.snapshot && w.gone == v.gone && w.initialized == v.initialized
    && (if op.SetSurface? && op.wanted.Some? then
          && w.activity == v.activity + 1 && w.requestedActive == op.wanted.value
          && w.active == (v.active || op.wanted.value)
          && w.hide == if op.wanted.value then v.hide else v.hide[id := v.activity + 1]
        else
          && w.activity == v.activity && w.requestedActive == v.requestedActive
          && w.active == v.active && w.hide == v.hide)
    && (forall tab :: LeadsTo(v.snapshot, op, tab) ==>
          w.sequence == v.sequence + 1 && w.pending == v.pending[id := Navigation(tab, v.sequence + 1, false, 0)])
    && ((forall tab :: !LeadsTo(v.snapshot, op, tab)) ==> w.sequence == v.sequence && w.pending == v.pending)
  }

  lemma LeadsWhere(s: Snapshot, op: Operation)
    ensures Destination(s, op) == "" ==> forall tab :: !LeadsTo(s, op, tab)
    ensures Destination(s, op) != "" ==> forall tab :: LeadsTo(s, op, tab) <==> tab == Destination(s, op)
  {
    forall tab | tab != "" ensures LeadsTo(s, op, tab) <==> Destination(s, op) == tab {
      DestinationLeads(s, op, tab);
    }
  }

  lemma RequestingDemands(v: View, id: bytes, op: Operation)
    ensures Requesting(v, id, op).None? <==> Excessive(v, id, op)
    ensures Requesting(v, id, op).Some? ==> Demands(v, Requesting(v, id, op).value, id, op)
  {
    LeadsWhere(v.snapshot, op);
    var tab := Destination(v.snapshot, op);
    if tab != "" {
      assert LeadsTo(v.snapshot, op, tab);
      NavigatingFields(v, id, tab);
    } else if op.SetSurface? && op.wanted.Some? {
      AskedFields(v, id, op.wanted.value);
    }
  }

  lemma AskedFields(v: View, id: bytes, wanted: bool)
    ensures var w := Asked(v, id, wanted);
            && w.snapshot == v.snapshot && w.gone == v.gone && w.initialized == v.initialized
            && w.sequence == v.sequence && w.pending == v.pending
            && w.activity == v.activity + 1 && w.requestedActive == wanted && w.active == (v.active || wanted)
            && w.hide == if wanted then v.hide else v.hide[id := v.activity + 1]
  {
  }

  lemma NavigatingFields(v: View, id: bytes, tab: Tab)
    ensures var w := Navigating(v, id, tab);
            && w.snapshot == v.snapshot && w.gone == v.gone && w.initialized == v.initialized
            && w.activity == v.activity && w.requestedActive == v.requestedActive && w.active == v.active
            && w.hide == v.hide && w.sequence == v.sequence + 1
            && w.pending == v.pending[id := Navigation(tab, v.sequence + 1, false, 0)]
  {
  }

  /** What is held may change besides. */
  lemma DemandsStill(v: View, w: View, id: bytes, op: Operation, held: map<Pane, Handle>, seen: bool)
    requires Demands(v, w, id, op)
    ensures Demands(v, w.(held := held, catalogSeen := seen), id, op)
  {
  }

  lemma AskedSound(v: View, id: bytes, wanted: bool)
    requires ViewSound(v) && v.initialized && !v.gone
    ensures ViewSound(Asked(v, id, wanted))
  {
  }

  lemma NavigatingSound(v: View, id: bytes, tab: Tab)
    requires ViewSound(v)
    ensures ViewSound(Navigating(v, id, tab))
  {
  }

  lemma RequestingSound(v: View, id: bytes, op: Operation)
    requires ViewSound(v) && v.initialized && !v.gone
    ensures Requesting(v, id, op).Some? ==> ViewSound(Requesting(v, id, op).value)
  {
    var hiding := op.SetSurface? && op.wanted.Some?;
    var w := if hiding then Asked(v, id, op.wanted.value) else v;
    if hiding {
      AskedSound(v, id, op.wanted.value);
    }
    NavigatingSound(w, id, Destination(v.snapshot, op));
  }

  lemma RequestingKeeps(v: View, id: bytes, op: Operation)
    requires Requesting(v, id, op).Some?
    ensures var w, tab := Requesting(v, id, op).value, Destination(v.snapshot, op);
            && w.held == v.held && w.snapshot == v.snapshot
            && (op.SetSurface? && op.wanted.Some? ==> w.requestedActive == op.wanted.value)
            && (tab != "" ==> id in w.pending && w.pending[id].tab == tab)
  {
    var w := if op.SetSurface? && op.wanted.Some? then Asked(v, id, op.wanted.value) else v;
    AskedKeeps(v, id, op.SetSurface? && op.wanted.Some? && op.wanted.value);
    NavigatingKeeps(w, id, Destination(v.snapshot, op));
  }

  lemma AskedKeeps(v: View, id: bytes, wanted: bool)
    ensures var w := Asked(v, id, wanted);
            w.held == v.held && w.snapshot == v.snapshot && w.requestedActive == wanted
  {
  }

  lemma NavigatingKeeps(v: View, id: bytes, tab: Tab)
    ensures var w := Navigating(v, id, tab);
            && w.held == v.held && w.snapshot == v.snapshot && w.requestedActive == v.requestedActive
            && id in w.pending && w.pending[id].tab == tab
  {
  }

  /** The barrier after a navigation was passed. */
  function Raised(v: View, sequence: nat, floor: nat): View {
    v.(pending := map id | id in v.pending :: if v.pending[id].sequence == sequence then v.pending[id].(floor := floor)
                                              else v.pending[id])
  }

  /** A navigation was answered. */
  function Responded(v: View, id: bytes, response: Response): View {
    if id !in v.pending then v
    else if response.Refused? then v.(pending := v.pending - {id})
    else v.(pending := v.pending[id := v.pending[id].(acknowledged := true)])
  }

  /** A request to hide the surface was answered. Only the latest request of all takes effect. */
  function Hidden(v: View, id: bytes, response: Response): View {
    if id !in v.hide then v
    else
      var w := if response.Done? && v.hide[id] == v.activity then v.(active := false, pending := map[]) else v;
      w.(hide := w.hide - {id})
  }

  lemma HiddenSound(v: View, id: bytes, response: Response)
    requires ViewSound(v)
    ensures var w := Hidden(v, id, response);
            ViewSound(w) && w.held == v.held && w.snapshot == v.snapshot && w.gone == v.gone
  {
  }

  /** What a response makes of a view; only the final one to a request of the viewer settles it. */
  function Answered(v: View, id: RequestId, final: bool, response: Response): View {
    match id
    case Activation => v
    case Barrier(sequence) => if response.Done? then Settled(Raised(v, sequence, response.revision)) else v
    case Own(text) =>
      if final && !response.Garbled? then Settled(Hidden(Responded(v, text, response), text, response)) else v
  }

  /** What a response does to the navigations of a view, one by one, while this is shown. The final answer to a
      request, and a barrier, make those that are over go. */
  ghost predicate Resolves(v: View, w: View, id: RequestId, final: bool, response: Response) {
    forall k :: ResolvesAt(v, w, id, final, response, k)
  }

  predicate ResolvesAt(v: View, w: View, id: RequestId, final: bool, response: Response, k: bytes) {
    var mine := id == Own(k) && final;
    var hides := id.Own? && final && response.Done? && id.text in v.hide && v.hide[id.text] == v.activity;
    var counts := (id.Own? && final && !response.Garbled?) || (id.Barrier? && response.Done?);
    if k !in v.pending || hides || (mine && response.Refused?) then k !in w.pending
    else
      var n := v.pending[k];
      var answered := n.acknowledged || (mine && response.Done?);
      var floor := if id.Barrier? && response.Done? && id.sequence == n.sequence then response.revision else n.floor;
      if counts && answered && (v.snapshot.tab == n.tab || 0 < floor <= v.snapshot.revision) then k !in w.pending
      else k in w.pending && w.pending[k] == Navigation(n.tab, n.sequence, answered, floor)
  }

  lemma RespondedAt(v: View, id: bytes, response: Response, k: bytes)
    ensures var u := Responded(v, id, response);
            && u.hide == v.hide && u.activity == v.activity && u.snapshot == v.snapshot
            && (k in u.pending <==> k in v.pending && !(k == id && response.Refused?))
            && (k in u.pending ==>
                  u.pending[k] == if k == id then v.pending[k].(acknowledged := true) else v.pending[k])
  {
    var u := Responded(v, id, response);
    assert u.pending == if id !in v.pending then v.pending
                        else if response.Refused? then v.pending - {id}
                        else v.pending[id := v.pending[id].(acknowledged := true)];
    assert u.hide == v.hide && u.activity == v.activity && u.snapshot == v.snapshot;
  }

  lemma HiddenAt(v: View, id: bytes, response: Response, k: bytes)
    ensures var w := Hidden(v, id, response);
            && w.snapshot == v.snapshot
            && w.pending == if id in v.hide && response.Done? && v.hide[id] == v.activity then map[] else v.pending
  {
  }

  lemma AnsweredResolves(v: View, id: RequestId, final: bool, response: Response)
    ensures Resolves(v, Answered(v, id, final, response), id, final, response)
  {
    var w := Answered(v, id, final, response);
    forall k ensures ResolvesAt(v, w, id, final, response, k) {
      if id.Own? && final && !response.Garbled? {
        var u := Responded(v, id.text, response);
        RespondedAt(v, id.text, response, k);
        HiddenAt(u, id.text, response, k);
        assert w.pending == Settled(Hidden(u, id.text, response)).pending;
      }
    }
  }

  /** What another snapshot does to them: those go that were answered and are now shown, or as old as what is
      shown. */
  ghost predicate Arrives(before: map<bytes, Navigation>, after: map<bytes, Navigation>, s: Snapshot) {
    forall k :: ArrivesAt(before, after, s, k)
  }

  predicate ArrivesAt(before: map<bytes, Navigation>, after: map<bytes, Navigation>, s: Snapshot, k: bytes) {
    if k !in before
       || (before[k].acknowledged && (s.tab == before[k].tab || 0 < before[k].floor <= s.revision))
    then k !in after
    else k in after && after[k] == before[k]
  }

  lemma ShowArrives(v: View, s: Snapshot)
    ensures Arrives(v.pending, Settled(v.(snapshot := s, catalogSeen := false)).pending, s)
  {
    forall k ensures ArrivesAt(v.pending, Settled(v.(snapshot := s, catalogSeen := false)).pending, s, k) {
    }
  }

  lemma AnsweredSound(v: View, id: bytes, response: Response)
    requires ViewSound(v) && !response.Garbled?
    ensures var w, u := Answered(v, Own(id), true, response), Responded(v, id, response);
            && ViewSound(w) && w.held == v.held && w.snapshot == v.snapshot && w.gone == v.gone
            && ViewSound(u) && u.held == v.held && u.snapshot == v.snapshot && u.gone == v.gone
  {
    var u := Responded(v, id, response);
    RespondedSound(v, id, response);
    HiddenSound(u, id, response);
    SettledSound(Hidden(u, id, response));
  }

  lemma RespondedSound(v: View, id: bytes, response: Response)
    requires ViewSound(v)
    ensures var u := Responded(v, id, response);
            ViewSound(u) && u.held == v.held && u.snapshot == v.snapshot && u.gone == v.gone
  {
  }

  lemma RaisedSound(v: View, sequence: nat, floor: nat)
    requires ViewSound(v)
    ensures ViewSound(Raised(v, sequence, floor))
  {
  }

  lemma SettledSound(v: View)
    requires ViewSound(v)
    ensures var w := Settled(v);
            ViewSound(w) && w.held == v.held && w.snapshot == v.snapshot && w.gone == v.gone
  {
  }

  /** A viewer that leaves while its surface is asked for leaves a view behind that is still asked for,
      and not active: `CloseView` makes just this of it. */
  lemma LeavesARequest(v: View)
    requires ViewSound(v) && v.requestedActive
    ensures var w := v.(active := false, gone := true, held := map[]);
            ViewSound(w) && w.requestedActive && !w.active
  {
  }
}
