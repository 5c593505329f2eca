/** How single changes keep the invariants of the gateway's state. */
module GatewayLaws {
  import opened Wire
  import opened Namespace
  import opened GatewayState
  import Screens
  import Endpoint
  import Surfaces
  import Grammar
  import Viewing
  import Retention

  // Maps ------------------------------------------------------------------------------------------

  ghost predicate Sub<K(!new), V>(m: map<K, V>, n: map<K, V>) {
    forall k :: SubAt(m, n, k)
  }

  ghost predicate SubAt<K(!new), V>(m: map<K, V>, n: map<K, V>, k: K) {
    k in m ==> k in n && m[k] == n[k]
  }

  lemma SubTransitive<K(!new), V>(m: map<K, V>, n: map<K, V>, o: map<K, V>)
    requires Sub(m, n) && Sub(n, o)
    ensures Sub(m, o)
  {
    forall k ensures SubAt(m, o, k) {
      assert SubAt(m, n, k) && SubAt(n, o, k);
    }
  }

  lemma SubSelf<K(!new), V>(m: map<K, V>)
    ensures Sub(m, m)
  {
    forall k ensures SubAt(m, m, k) {
    }
  }

  lemma SubLess<K(!new), V>(m: map<K, V>, k: K)
    ensures Sub(m - {k}, m)
  {
    forall j ensures SubAt(m - {k}, m, j) {
    }
  }

  lemma SubStill<K(!new), V>(m: map<K, V>, n: map<K, V>, k: K)
    requires Sub(m, n)
    ensures Sub(m - {k}, n)
  {
    SubLess(m, k);
    SubTransitive(m - {k}, m, n);
  }

  lemma SubSize<K(!new), V>(m: map<K, V>, n: map<K, V>)
    requires Sub(m, n)
    ensures |m| <= |n| && m.Keys <= n.Keys
  {
    forall k | k in m ensures k in n {
      assert SubAt(m, n, k);
    }
    SmallerSet(m.Keys, n.Keys);
  }

  lemma {:induction false} SmallerSet<K>(s: set<K>, t: set<K>)
    requires s <= t
    ensures |s| <= |t|
    decreases |s|
  {
    if s != {} {
      var k :| k in s;
      SmallerSet(s - {k}, t - {k});
    }
  }

  lemma Fewer<K, V>(m: map<K, V>, k: K)
    ensures |m - {k}| == if k in m then |m| - 1 else |m|
  {
    assert (m - {k}).Keys == m.Keys - {k};
    assert |(m - {k}).Keys| == |m - {k}| && |m.Keys| == |m|;
  }

  lemma OneMore<K, V>(m: map<K, V>, k: K, v: V)
    requires k !in m
    ensures |m[k := v]| == |m| + 1
  {
    assert m[k := v].Keys == m.Keys + {k};
    assert |m[k := v].Keys| == |m[k := v]| && |m.Keys| == |m|;
  }

  // Nested publication ----------------------------------------------------------------------------

  /** The part of the state that surrounds a nested publication. */
  datatype Moment = Moment(
    roster: Roster,
    active: Option<Handle>,
    surfaceOn: bool,
    requestIDs: map<WireId, bytes>,
    retired: map<WireId, Handle>,
    issued: map<WireId, Issue>,
    lost: set<WireId>,
    ordinary: nat,
    syncs: seq<bytes>,
    told: nat,
    history: Chronicle)

  predicate SameButFlags(b: Backend, c: Backend) {
    b == c.(surfaceActive := b.surfaceActive, renderReady := b.renderReady, stableSince := b.stableSince)
  }

  /** Publishing anew, however deeply it is nested: sources only leave, the active source stays active
      while it is there, and only the active source gains the layout. */
  ghost predicate Later(m: Moment, n: Moment) {
    var all :=
      && Sub(n.roster.sources, m.roster.sources)
      && (m.active.Some? && Live(n.roster, m.active.value) ==> n.active == m.active)
      && n.surfaceOn == m.surfaceOn
      && (forall h :: LaterAt(m, n, h))
      && Sub(n.requestIDs, m.requestIDs)
      && Sub(n.retired, m.retired)
      && n.issued == m.issued && n.lost == m.lost && n.ordinary == m.ordinary
      && n.syncs == m.syncs && n.told >= m.told
      && Continues(n.history, m.history) && Ticks(n.history) == Ticks(m.history);
    all
  }

  /** The chronicle is only added to. */
  ghost predicate Continues(c: Chronicle, start: Chronicle) {
    c == start || (c.And? && Continues(c.earlier, start))
  }

  lemma {:induction false} ContinuesTransitive(c: Chronicle, d: Chronicle, start: Chronicle)
    requires Continues(c, d) && Continues(d, start)
    ensures Continues(c, start)
  {
    if c != d {
      ContinuesTransitive(c.earlier, d, start);
    }
  }

  ghost predicate LaterAt(m: Moment, n: Moment, h: Handle) {
    && (h in n.roster.table <==> h in m.roster.table)
    && (h in m.roster.table ==> SameButFlags(m.roster.table[h], n.roster.table[h]))
    && (Live(n.roster, h) && n.roster.table[h].surfaceActive ==>
          m.roster.table[h].surfaceActive || (n.surfaceOn && n.active == Some(h)))
  }

  lemma LaterSelf(m: Moment)
    ensures Later(m, m)
  {
    forall h ensures LaterAt(m, m, h) {
    }
    SubSelf(m.roster.sources);
    SubSelf(m.requestIDs);
    SubSelf(m.retired);
  }

  lemma LaterLive(m: Moment, n: Moment, h: Handle)
    requires Later(m, n) && Live(n.roster, h)
    ensures Live(m.roster, h)
  {
    assert LaterAt(m, n, h);
    assert SubAt(n.roster.sources, m.roster.sources, n.roster.table[h].id);
  }

  lemma LaterTransitive(m: Moment, n: Moment, o: Moment)
    requires Later(m, n) && Later(n, o)
    ensures Later(m, o)
  {
    SubTransitive(o.roster.sources, n.roster.sources, m.roster.sources);
    SubTransitive(o.requestIDs, n.requestIDs, m.requestIDs);
    SubTransitive(o.retired, n.retired, m.retired);
    ContinuesTransitive(o.history, n.history, m.history);
    forall h ensures LaterAt(m, o, h) {
      assert LaterAt(m, n, h) && LaterAt(n, o, h);
      if Live(o.roster, h) {
        LaterLive(n, o, h);
      }
    }
    if m.active.Some? && Live(o.roster, m.active.value) {
      LaterLive(n, o, m.active.value);
    }
  }

  lemma StaysGone(m: Moment, n: Moment, h: Handle)
    requires Later(m, n) && !Live(m.roster, h)
    ensures !Live(n.roster, h)
  {
    if Live(n.roster, h) {
      LaterLive(m, n, h);
    }
  }

  // Beginnings ------------------------------------------------------------------------------------

  /** A failure is the last episode, and nothing else is new but that earlier failures may have been
      forgotten just before, after stable rendering. */
  ghost predicate Blaming(table: map<Handle, Backend>, before: Chronicle, after: Chronicle, clock: nat, h: Handle,
                          fault: Fault) {
    && h in table && after.And? && after.last == Lost(table[h].id, table[h].generation, clock, fault)
    && (|| after.earlier == before
        || (after.earlier.And? && after.earlier.earlier == before && after.earlier.last.Forgotten?
            && after.earlier.last.id == table[h].id && after.earlier.last.reason == Stable(clock)))
  }

  /** A failure is on record. */
  predicate Noting(table: map<Handle, Backend>, recovery: map<string, Record>, clock: nat, h: Handle, fault: Fault) {
    && h in table && table[h].id in recovery
    && var r := recovery[table[h].id];
    && r.generation == table[h].generation
    && (r.blocked <==> fault.Permanent?) && (fault.Transient? ==> r.retryAt > clock)
  }

  lemma NothingOnRecord(r: Roster, clock: nat)
    requires r.sources == map[]
    ensures Recovered(r, map[], Dawn, clock)
  {
    forall id ensures RecoveredAt(r, map[], Dawn, id) {
      assert RecoveredAs(r, map[], id, LifeOf(Dawn, id));
    }
  }

  lemma NothingYet(r: Roster, boot: bytes, n: nat, last: Rendered, viewer: Option<Screens.Screen>)
    requires last.source.None?
    ensures Authority(Roster(map[], map[]), Empty)
    ensures Shown(false, r, boot, 0, n, last, viewer)
  {
    forall h ensures HolderAt(Roster(map[], map[]), Empty, h) {
      assert HolderWith(Roster(map[], map[]), Empty, h, {});
    }
    forall h ensures ShownAt(false, r, boot, 0, n, last, viewer, h) {
      assert ShownAs(false, r, boot, 0, n, last, viewer, h, None);
    }
  }

  lemma NothingPoised(boot: bytes)
    ensures Poised(Roster(map[], map[]), Stage(None, false, 0, 0, 0, 0, false, Rendered(None, 0, 0, 0)),
                   Fence([], false, None, 0), Ledger(map[], map[], map[], map[], 0, 0), boot, false, None)
  {
    var r, s := Roster(map[], map[]), Stage(None, false, 0, 0, 0, 0, false, Rendered(None, 0, 0, 0));
    forall h ensures ElectedAt(false, r, None, h) {
    }
    forall h ensures CurrentAt(false, r, 0, s.rendered, false, None, h) {
    }
    forall x ensures DisplayedAt(false, r, boot, s, None, x) {
    }
    forall h ensures ArrangedAt(false, r, None, false, map[], map[], h) {
    }
  }

  // Requests end ----------------------------------------------------------------------------------

  lemma CloseBooks(pending: map<WireId, Handle>, deadlines: map<WireId, nat>, requestIDs: map<WireId, bytes>,
                   retired: map<WireId, Handle>, ordinary: nat, internal: nat, w: WireId)
    requires Books(pending, deadlines, requestIDs, retired, ordinary, internal)
    ensures Books(pending - {w}, deadlines - {w}, requestIDs - {w}, retired, ordinary, internal)
  {
    forall v ensures BookAt(pending - {w}, deadlines - {w}, requestIDs - {w}, retired, ordinary, internal, v) {
      assert BookAt(pending, deadlines, requestIDs, retired, ordinary, internal, v);
    }
  }

  lemma CloseBounds(pending: map<WireId, Handle>, deadlines: map<WireId, nat>, requestIDs: map<WireId, bytes>,
                    retired: map<WireId, Handle>, ordinary: nat, internal: nat, w: WireId)
    requires Books(pending, deadlines, requestIDs, retired, ordinary, internal)
    requires Bounded(pending, requestIDs, retired) && w in pending
    ensures Bounded(pending - {w}, requestIDs - {w}, retired)
  {
    Fewer(pending, w);
    Fewer(requestIDs, w);
    forall v | v in requestIDs ensures v in pending {
      assert BookAt(pending, deadlines, requestIDs, retired, ordinary, internal, v);
    }
    SmallerSet((requestIDs - {w}).Keys, (pending - {w}).Keys);
    forall n ensures BoundedBy(pending - {w}, requestIDs - {w}, retired, n) {
      assert BoundedBy(pending, requestIDs, retired, n);
    }
  }

  lemma CloseConsumers(requestIDs: map<WireId, bytes>, x: WireId)
    requires Consumers(requestIDs)
    ensures Consumers(requestIDs - {x})
  {
    forall v, w ensures ConsumerAt(requestIDs - {x}, v, w) {
      assert ConsumerAt(requestIDs, v, w);
    }
  }

  lemma CloseOutstanding(issued: map<WireId, Issue>, requestIDs: map<WireId, bytes>, pending: map<WireId, Handle>,
                         table: map<Handle, Backend>, received: map<WireId, seq<bytes>>, w: WireId)
    requires Outstanding(issued, requestIDs, pending, table, received)
    ensures Outstanding(issued, requestIDs - {w}, pending - {w}, table, received)
  {
    forall v ensures OutstandingAt(issued, requestIDs - {w}, pending - {w}, table, received, v) {
      assert OutstandingAt(issued, requestIDs, pending, table, received, v);
    }
  }

  lemma CloseAccounts(issued: map<WireId, Issue>, requestIDs: map<WireId, bytes>, lost: set<WireId>,
                      replied: set<WireId>, ordinary: nat, w: WireId)
    requires Accounts(issued, requestIDs, lost, replied, ordinary)
    ensures Accounts(issued, requestIDs - {w}, lost + (if w in requestIDs then {w} else {}), replied, ordinary)
  {
    var more := lost + (if w in requestIDs then {w} else {});
    forall v ensures AccountAt(issued, requestIDs - {w}, more, replied, ordinary, v) {
      assert AccountAt(issued, requestIDs, lost, replied, ordinary, v);
    }
  }

  /** The ledger without a request. */
  function Closed(l: Ledger, w: WireId): Ledger {
    l.(pending := l.pending - {w}, deadlines := l.deadlines - {w}, requestIDs := l.requestIDs - {w})
  }

  lemma CloseBalanced(l: Ledger, p: Past, table: map<Handle, Backend>, parse: bytes -> Option<Json>, w: WireId)
    requires Balanced(l, p, table, parse) && w in l.pending
    ensures Balanced(Closed(l, w), p.(lost := p.lost + (if w in l.requestIDs then {w} else {})), table, parse)
  {
    CloseBooks(l.pending, l.deadlines, l.requestIDs, l.retired, l.ordinary, l.internal, w);
    CloseBounds(l.pending, l.deadlines, l.requestIDs, l.retired, l.ordinary, l.internal, w);
    CloseConsumers(l.requestIDs, w);
    CloseOutstanding(p.issued, l.requestIDs, l.pending, table, p.received, w);
    CloseAccounts(p.issued, l.requestIDs, p.lost, Replied(p.answers), l.ordinary, w);
  }

  /** An outstanding operation is known, and not lost. */
  lemma Owing(l: Ledger, p: Past, table: map<Handle, Backend>, parse: bytes -> Option<Json>, w: WireId)
    requires Balanced(l, p, table, parse) && w in l.requestIDs
    ensures w in p.issued && p.issued[w].consumer == l.requestIDs[w] && p.lost + {w} - {w} == p.lost
  {
    assert AccountAt(p.issued, l.requestIDs, p.lost, Replied(p.answers), l.ordinary, w);
    assert OutstandingAt(p.issued, l.requestIDs, l.pending, table, p.received, w);
  }

  // Answers ---------------------------------------------------------------------------------------

  lemma RepliedMore(answers: seq<Answer>, a: Answer)
    ensures Replied(answers + [a]) == Replied(answers) + (if a.wire.Some? then {a.wire.value} else {})
  {
    var more := answers + [a];
    forall w | w in Replied(answers) ensures w in Replied(more) {
      var i :| 0 <= i < |answers| && answers[i].wire.Some? && answers[i].wire.value == w;
      assert more[i] == answers[i];
    }
    if a.wire.Some? {
      assert more[|answers|] == a;
    }
  }

  /** An answer moves an operation from the lost to the answered. */
  lemma AnswerAccounts(issued: map<WireId, Issue>, requestIDs: map<WireId, bytes>, lost: set<WireId>,
                       answers: seq<Answer>, ordinary: nat, a: Answer)
    requires Accounts(issued, requestIDs, lost, Replied(answers), ordinary)
    requires a.wire.Some? ==> a.wire.value in lost
    ensures Accounts(issued, requestIDs, lost - (if a.wire.Some? then {a.wire.value} else {}),
                     Replied(answers + [a]), ordinary)
  {
    RepliedMore(answers, a);
    var gone := if a.wire.Some? then {a.wire.value} else {};
    forall w ensures AccountAt(issued, requestIDs, lost - gone, Replied(answers + [a]), ordinary, w) {
      assert AccountAt(issued, requestIDs, lost, Replied(answers), ordinary, w);
    }
  }

  lemma AnswerOwn(issued: map<WireId, Issue>, answers: seq<Answer>, received: map<WireId, seq<bytes>>,
                  parse: bytes -> Option<Json>, a: Answer)
    requires Answers(issued, answers, received, parse) && Genuine(issued, a, received, parse)
    requires a.wire.Some? ==> a.wire.value in issued && issued[a.wire.value].consumer == a.consumer
    ensures Answers(issued, answers + [a], received, parse)
  {
    forall i ensures AnswerAt(issued, answers + [a], received, parse, i) {
      assert AnswerAt(issued, answers, received, parse, i);
    }
  }

  lemma AnswerOnce(answers: seq<Answer>, a: Answer)
    requires Once(answers) && (a.wire.Some? ==> a.wire.value !in Replied(answers))
    ensures Once(answers + [a])
  {
    forall i: int, j: int ensures OnceAt(answers + [a], i, j) {
      assert OnceAt(answers, i, j);
    }
  }

  /** An answer is owed for what was taken off the books, or it says nothing about the books. */
  ghost predicate Owed(p: Past, a: Answer) {
    a.wire.Some? ==> a.wire.value in p.lost && a.wire.value in p.issued && p.issued[a.wire.value].consumer == a.consumer
  }

  function Told(p: Past, a: Answer): Past {
    p.(lost := p.lost - (if a.wire.Some? then {a.wire.value} else {}), answers := p.answers + [a])
  }

  lemma TellBalanced(l: Ledger, p: Past, table: map<Handle, Backend>, parse: bytes -> Option<Json>, a: Answer)
    requires Balanced(l, p, table, parse) && Owed(p, a) && Genuine(p.issued, a, p.received, parse)
    ensures Balanced(l, Told(p, a), table, parse)
  {
    if a.wire.Some? {
      assert AccountAt(p.issued, l.requestIDs, p.lost, Replied(p.answers), l.ordinary, a.wire.value);
    }
    AnswerAccounts(p.issued, l.requestIDs, p.lost, p.answers, l.ordinary, a);
    AnswerOwn(p.issued, p.answers, p.received, parse, a);
    AnswerOnce(p.answers, a);
  }

  // Sources leave ---------------------------------------------------------------------------------

  /** What is left of `before` when the requests to `h` are gone, except those still to be done. */
  ghost predicate Partly(pending: map<WireId, Handle>, before: map<WireId, Handle>, h: Handle, todo: set<WireId>) {
    forall w :: PartlyAt(pending, before, h, todo, w)
  }

  ghost predicate PartlyAt(pending: map<WireId, Handle>, before: map<WireId, Handle>, h: Handle,
                           todo: set<WireId>, w: WireId) {
    && (w in pending <==> w in before && (w in todo || before[w] != h))
    && (w in pending ==> pending[w] == before[w])
  }

  lemma PartlyStart(pending: map<WireId, Handle>, h: Handle)
    ensures Partly(pending, pending, h, pending.Keys)
  {
    forall w ensures PartlyAt(pending, pending, h, pending.Keys, w) {
    }
  }

  lemma PartlyStep(pending: map<WireId, Handle>, before: map<WireId, Handle>, h: Handle, todo: set<WireId>, w: WireId)
    requires Partly(pending, before, h, todo) && w in todo && w in pending
    ensures Partly(if pending[w] == h then pending - {w} else pending, before, h, todo - {w})
  {
    var after := if pending[w] == h then pending - {w} else pending;
    forall v ensures PartlyAt(after, before, h, todo - {w}, v) {
      assert PartlyAt(pending, before, h, todo, v);
    }
  }

  function Without(r: Roster, h: Handle): Roster
    requires h in r.table
  {
    r.(sources := r.sources - {r.table[h].id})
  }

  lemma RemoveLive(r: Roster, h: Handle)
    requires Live(r, h)
    ensures forall x :: Live(Without(r, h), x) <==> Live(r, x) && x != h
  {
  }

  lemma RemovePresence(r: Roster, next: Handle, prefixOf: (string, string, bytes) -> bytes, active: Option<Handle>,
                       fence: Fence, h: Handle)
    requires Presence(r, next, prefixOf, active, fence) && Live(r, h) && fence.source != Some(h)
    ensures Presence(Without(r, h), next, prefixOf, if active == Some(h) then None else active, fence)
  {
    var less := Without(r, h);
    RemoveLive(r, h);
    Fewer(r.sources, r.table[h].id);
    forall id ensures SourceAt(less, prefixOf, id) {
      assert SourceAt(r, prefixOf, id);
    }
    forall n ensures FewerThan(less.sources, n) {
      assert FewerThan(r.sources, n);
    }
  }

  function Others(retired: map<WireId, Handle>, h: Handle): map<WireId, Handle> {
    map w | w in retired && retired[w] != h :: retired[w]
  }

  /** The requests that are left are to the sources that are left. */
  lemma RemoveRouting(r: Roster, before: map<WireId, Handle>, l: Ledger, h: Handle)
    requires Targets(r, before, l.retired) && Chunks(r, before) && Live(r, h)
    requires Partly(l.pending, before, h, {})
    ensures Routing(Without(r, h), l.(retired := Others(l.retired, h)))
  {
    var less := Without(r, h);
    forall w ensures TargetAt(less, l.pending, Others(l.retired, h), w) {
      assert TargetAt(r, before, l.retired, w);
      assert PartlyAt(l.pending, before, h, {}, w);
    }
    forall x, w ensures ChunkAt(less, l.pending, x, w) {
      assert ChunkAt(r, before, x, w);
      assert PartlyAt(l.pending, before, h, {}, w);
    }
  }

  lemma OthersLess(retired: map<WireId, Handle>, h: Handle)
    ensures Sub(Others(retired, h), retired)
  {
    forall w ensures SubAt(Others(retired, h), retired, w) {
    }
  }

  lemma RetireBalanced(l: Ledger, p: Past, table: map<Handle, Backend>, parse: bytes -> Option<Json>,
                       retired: map<WireId, Handle>)
    requires Balanced(l, p, table, parse) && Sub(retired, l.retired)
    ensures Balanced(l.(retired := retired), p, table, parse)
  {
    SubSize(retired, l.retired);
    forall w ensures BookAt(l.pending, l.deadlines, l.requestIDs, retired, l.ordinary, l.internal, w) {
      assert BookAt(l.pending, l.deadlines, l.requestIDs, l.retired, l.ordinary, l.internal, w);
      assert SubAt(retired, l.retired, w);
    }
    forall n ensures BoundedBy(l.pending, l.requestIDs, retired, n) {
      assert BoundedBy(l.pending, l.requestIDs, l.retired, n);
    }
  }

  lemma RemoveLayouts(r: Roster, fence: Fence, p: Past, h: Handle)
    requires Layouts(r, fence, p) && Live(r, h)
    ensures Layouts(Without(r, h), fence, p.(layout := Then(p.layout, Gone(h))))
  {
    var log := Then(p.layout, Gone(h));
    forall x ensures HolderAt(Without(r, h), log, x) {
      assert HolderAt(r, p.layout, x);
      assert HolderWith(Without(r, h), log, x, Holders(log));
    }
  }

  lemma RemoveShown(broken: bool, r: Roster, boot: bytes, revision: nat, n: nat, last: Rendered,
                    viewer: Option<Screens.Screen>, x: Handle)
    requires Shown(broken, r, boot, revision, n, last, viewer) && Live(r, x)
    ensures Shown(broken, Without(r, x), boot, revision, n, last, viewer)
  {
    forall h ensures ShownAt(broken, Without(r, x), boot, revision, n, last, viewer, h) {
      assert ShownAt(broken, r, boot, revision, n, last, viewer, h);
      var v :| ShownAs(broken, r, boot, revision, n, last, viewer, h, v);
      assert ShownAs(broken, Without(r, x), boot, revision, n, last, viewer, h, v);
    }
  }

  lemma RemovedLater(m: Moment, h: Handle, requestIDs: map<WireId, bytes>, retired: map<WireId, Handle>, told: nat,
                     history: Chronicle)
    requires Live(m.roster, h) && Sub(requestIDs, m.requestIDs) && Sub(retired, m.retired) && told >= m.told
    requires Continues(history, m.history) && Ticks(history) == Ticks(m.history)
    ensures Later(m, m.(roster := Without(m.roster, h), active := if m.active == Some(h) then None else m.active,
                        requestIDs := requestIDs, retired := retired, told := told, history := history))
  {
    SubLess(m.roster.sources, m.roster.table[h].id);
    var n := m.(roster := Without(m.roster, h), active := if m.active == Some(h) then None else m.active,
                requestIDs := requestIDs, retired := retired, told := told, history := history);
    forall x ensures LaterAt(m, n, x) {
    }
  }

  // The viewer may turn out to be gone ------------------------------------------------------------

  lemma BreakLayouts(r: Roster, fence: Fence, p: Past, q: Past)
    requires Layouts(r, fence, p) && (p.broken ==> q.broken)
    requires q.layout == p.layout && q.syncs == p.syncs && q.readies == p.readies
    ensures Layouts(r, fence, q)
  {
    forall owed ensures FencesOwe(q.broken, fence.pending, fence.token, q.syncs, q.readies, owed) {
      assert FencesOwe(p.broken, fence.pending, fence.token, p.syncs, p.readies, owed);
    }
  }

  /** Two pasts with the same requests and answers. */
  ghost predicate Alike(p: Past, q: Past) {
    var all :=
      && q.issued == p.issued && q.written == p.written && q.received == p.received && q.answers == p.answers
      && q.lost == p.lost;
    all
  }

  lemma StillBalanced(l: Ledger, p: Past, q: Past, table: map<Handle, Backend>, parse: bytes -> Option<Json>)
    requires Balanced(l, p, table, parse) && Alike(p, q)
    ensures Balanced(l, q, table, parse)
  {
  }

  lemma BreakShown(r: Roster, boot: bytes, revision: nat, n: nat, last: Rendered, viewer: Option<Screens.Screen>)
    ensures Shown(true, r, boot, revision, n, last, viewer)
  {
    forall h ensures ShownAt(true, r, boot, revision, n, last, viewer, h) {
      assert ShownAs(true, r, boot, revision, n, last, viewer, h, None);
    }
  }

  lemma StillShown(was: bool, broken: bool, r: Roster, boot: bytes, revision: nat, n: nat, last: Rendered,
                   viewer: Option<Screens.Screen>)
    requires Shown(was, r, boot, revision, n, last, viewer) && (was ==> broken)
    ensures Shown(broken, r, boot, revision, n, last, viewer)
  {
    if broken && !was {
      BreakShown(r, boot, revision, n, last, viewer);
    }
  }

  lemma BrokenQuiet(r: Roster, s: Stage, fence: Fence)
    ensures Quiet(r, s, fence, true)
  {
    forall h ensures ElectedAt(true, r, s.active, h) {
    }
    forall h ensures CurrentAt(true, r, s.revision, s.rendered, s.surfaceOn, s.active, h) {
    }
  }

  lemma BrokenPoised(r: Roster, s: Stage, fence: Fence, l: Ledger, boot: bytes, latest: Option<bytes>)
    ensures Poised(r, s, fence, l, boot, true, latest)
  {
    BrokenQuiet(r, s, fence);
    forall x ensures DisplayedAt(true, r, boot, s, latest, x) {
    }
    forall h ensures ArrangedAt(true, r, s.active, s.surfaceOn, l.pending, l.requestIDs, h) {
    }
  }

  // Recovery --------------------------------------------------------------------------------------

  lemma LaterClock(r: Roster, recovery: map<string, Record>, history: Chronicle, before: nat, clock: nat)
    requires Recovered(r, recovery, history, before) && before <= clock
    ensures Recovered(r, recovery, history, clock)
  {
  }

  /** What is on record of one publication. */
  lemma RecordOf(r: Roster, recovery: map<string, Record>, history: Chronicle, clock: nat, id: string)
    requires Recovered(r, recovery, history, clock)
    ensures RecoveredAs(r, recovery, id, LifeOf(history, id)) && LifeOf(history, id).begun <= clock
  {
    assert RecoveredAt(r, recovery, history, id);
    var life :| life == LifeOf(history, id) && RecoveredAs(r, recovery, id, life);
    BegunBefore(history, id);
  }

  lemma {:induction false} BegunBefore(c: Chronicle, id: string)
    ensures LifeOf(c, id).begun <= Latest(c)
  {
    if c.And? {
      BegunBefore(c.earlier, id);
    }
  }

  /** Another episode, of a publication for which it is admitted, and what is on record then. */
  lemma Chronicled(r: Roster, recovery: map<string, Record>, history: Chronicle, clock: nat, e: Episode, s: Roster,
                   more: map<string, Record>)
    requires Recovered(r, recovery, history, clock) && !e.Ticked? && TimeOf(e) <= clock
    requires Admitted(LifeOf(history, e.id), Ticks(history), Latest(history), e)
    requires RecoveredAs(s, more, e.id, LifeAfter(LifeOf(history, e.id), e))
    requires forall id :: id != e.id ==> Elsewhere(r, recovery, s, more, id)
    ensures Recovered(s, more, And(history, e), clock)
  {
    forall id ensures RecoveredAt(s, more, And(history, e), id) {
      if id == e.id {
        assert RecoveredAs(s, more, id, LifeOf(And(history, e), id));
      } else {
        RecordOf(r, recovery, history, clock, id);
        assert Elsewhere(r, recovery, s, more, id);
        assert RecoveredAs(s, more, id, LifeOf(And(history, e), id));
      }
    }
  }

  /** Nothing changes for a publication. */
  predicate Elsewhere(r: Roster, recovery: map<string, Record>, s: Roster, more: map<string, Record>, id: string) {
    && (id in more <==> id in recovery) && (id in more ==> more[id] == recovery[id])
    && (id in s.sources && s.sources[id] in s.table ==>
          && id in r.sources && r.sources[id] in r.table
          && SameStanding(s.table[s.sources[id]], r.table[r.sources[id]]))
  }

  /** The same incarnation, with the same flags and the same announced revision. */
  predicate SameStanding(b: Backend, c: Backend) {
    && b.generation == c.generation && b.stableSince == c.stableSince
    && b.surfaceActive == c.surfaceActive && b.renderReady == c.renderReady
    && RevisionOf(b.snapshot) == RevisionOf(c.snapshot)
  }

  lemma ForgetRecovery(r: Roster, recovery: map<string, Record>, history: Chronicle, clock: nat, k: string,
                       reason: Reason)
    requires Recovered(r, recovery, history, clock) && k in recovery
    requires reason.Stable? ==>
      && k in r.sources && r.sources[k] in r.table && reason.at <= clock
      && r.table[r.sources[k]].stableSince.Some?
      && r.table[r.sources[k]].stableSince.value + STABLE_INTERVAL <= reason.at
    requires reason.Unlisted? ==>
      Ticks(history) != [] && Missing(Ticks(history)[|Ticks(history)| - 1], k, recovery[k].generation)
    ensures Recovered(r, recovery - {k}, And(history, Forgotten(k, recovery[k].generation, reason)), clock)
  {
    RecordOf(r, recovery, history, clock, k);
    Chronicled(r, recovery, history, clock, Forgotten(k, recovery[k].generation, reason), r, recovery - {k});
  }

  /** The record after another failure. */
  function Failed(r: Record, fault: Fault, now: nat): Record {
    if fault.Permanent? then r.(blocked := true)
    else
      var attempts := if r.attempts < 5 then r.attempts + 1 else r.attempts;
      r.(attempts := attempts, retryAt := now + Delay(attempts), blocked := false)
  }

  /** What is recorded of a failure holds once its source is gone. */
  lemma RecordFailure(r: Roster, recovery: map<string, Record>, history: Chronicle, clock: nat, h: Handle, fault: Fault)
    requires Recovered(r, recovery, history, clock) && Live(r, h)
    ensures var id, generation := r.table[h].id, r.table[h].generation;
            var was := if id in recovery then recovery[id] else Record(generation, 0, 0, false);
            && was.generation == generation
            && Recovered(Without(r, h), recovery[id := Failed(was, fault, clock)],
                         And(history, Lost(id, generation, clock, fault)), clock)
  {
    var k, generation := r.table[h].id, r.table[h].generation;
    RecordOf(r, recovery, history, clock, k);
    var was := if k in recovery then recovery[k] else Record(generation, 0, 0, false);
    var life, e := LifeOf(history, k), Lost(k, generation, clock, fault);
    assert Faithful(Failed(was, fault, clock), TaleAfter(life.tale, generation, clock, fault));
    Chronicled(r, recovery, history, clock, e, Without(r, h), recovery[k := Failed(was, fault, clock)]);
  }

  lemma TickRecovered(r: Roster, recovery: map<string, Record>, history: Chronicle, clock: nat, list: seq<Publication>)
    requires Recovered(r, recovery, history, clock)
    ensures Recovered(r, recovery, And(history, Ticked(list)), clock)
  {
    forall id ensures RecoveredAt(r, recovery, And(history, Ticked(list)), id) {
      RecordOf(r, recovery, history, clock, id);
      assert RecoveredAs(r, recovery, id, LifeOf(And(history, Ticked(list)), id));
    }
  }

  // Sources change --------------------------------------------------------------------------------

  /** The same sources, of which one has another state. */
  function Put(r: Roster, h: Handle, b: Backend): Roster {
    r.(table := r.table[h := b])
  }

  /** The same publication, and the same connection to it. */
  predicate SamePlace(b: Backend, c: Backend) {
    b.id == c.id && b.generation == c.generation
  }

  /** The same names, for as long as there were any, and the same unfinished replies. */
  predicate SameNames(b: Backend, c: Backend) {
    && SamePlace(b, c) && c.chunks == b.chunks
    && (b.snapshot.Some? ==> c.snapshot.Some? && c.prefix == b.prefix)
  }

  lemma PutPresence(r: Roster, next: Handle, prefixOf: (string, string, bytes) -> bytes, active: Option<Handle>,
                    fence: Fence, h: Handle, b: Backend)
    requires Presence(r, next, prefixOf, active, fence) && Live(r, h) && SamePlace(r.table[h], b)
    requires Sound(b, prefixOf) && (r.table[h].snapshot.Some? ==> b.snapshot.Some?)
    ensures Presence(Put(r, h, b), next, prefixOf, active, fence)
  {
    var s := Put(r, h, b);
    forall id ensures SourceAt(s, prefixOf, id) {
      assert SourceAt(r, prefixOf, id);
    }
    forall k ensures HandleAt(s.table, next, k) {
      assert HandleAt(r.table, next, k);
    }
  }

  lemma PutBalanced(l: Ledger, p: Past, r: Roster, parse: bytes -> Option<Json>, h: Handle, b: Backend)
    requires Balanced(l, p, r.table, parse) && Live(r, h) && SameNames(r.table[h], b)
    ensures Balanced(l, p, Put(r, h, b).table, parse)
  {
    forall w ensures OutstandingAt(p.issued, l.requestIDs, l.pending, Put(r, h, b).table, p.received, w) {
      assert OutstandingAt(p.issued, l.requestIDs, l.pending, r.table, p.received, w);
    }
  }

  lemma PutRouting(r: Roster, l: Ledger, h: Handle, b: Backend)
    requires Routing(r, l) && Live(r, h) && SameNames(r.table[h], b)
    requires b.stableSince.Some? ==>
      r.table[h].stableSince.Some? || forall w :: w in l.pending && w.Internal? ==> l.pending[w] != h
    ensures Routing(Put(r, h, b), l)
  {
    var s := Put(r, h, b);
    forall w ensures TargetAt(s, l.pending, l.retired, w) {
      assert TargetAt(r, l.pending, l.retired, w);
    }
    forall x, w ensures ChunkAt(s, l.pending, x, w) {
      assert ChunkAt(r, l.pending, x, w);
    }
  }

  lemma PutLayouts(r: Roster, fence: Fence, p: Past, h: Handle, b: Backend)
    requires Layouts(r, fence, p) && Live(r, h) && SamePlace(r.table[h], b)
    requires b.surfaceActive == r.table[h].surfaceActive
    ensures Layouts(Put(r, h, b), fence, p)
  {
    forall x ensures HolderAt(Put(r, h, b), p.layout, x) {
      assert HolderAt(r, p.layout, x);
      assert HolderWith(Put(r, h, b), p.layout, x, Holders(p.layout));
    }
  }

  lemma PutShown(broken: bool, r: Roster, boot: bytes, revision: nat, n: nat, last: Rendered,
                 viewer: Option<Screens.Screen>, x: Handle, b: Backend)
    requires Shown(broken, r, boot, revision, n, last, viewer) && Live(r, x) && SamePlace(r.table[x], b)
    requires b.frame.Some? ==> b.frame == r.table[x].frame && b.prefix == r.table[x].prefix
    ensures Shown(broken, Put(r, x, b), boot, revision, n, last, viewer)
  {
    var s := Put(r, x, b);
    forall h ensures ShownAt(broken, s, boot, revision, n, last, viewer, h) {
      assert ShownAt(broken, r, boot, revision, n, last, viewer, h);
      var v :| ShownAs(broken, r, boot, revision, n, last, viewer, h, v);
      assert ShownAs(broken, s, boot, revision, n, last, viewer, h, v);
    }
  }

  lemma PutRecovered(r: Roster, recovery: map<string, Record>, history: Chronicle, clock: nat, h: Handle, b: Backend)
    requires Recovered(r, recovery, history, clock) && Live(r, h) && SamePlace(r.table[h], b)
    requires SameStanding(b, r.table[h])
    ensures Recovered(Put(r, h, b), recovery, history, clock)
  {
    forall id ensures RecoveredAt(Put(r, h, b), recovery, history, id) {
      RecordOf(r, recovery, history, clock, id);
      assert RecoveredAs(Put(r, h, b), recovery, id, LifeOf(history, id));
    }
  }

  /** What is on record of a source that is there is what its flags say. */
  lemma FlagsOf(r: Roster, recovery: map<string, Record>, history: Chronicle, clock: nat, h: Handle)
    requires Recovered(r, recovery, history, clock) && Live(r, h)
    ensures Reflects(LifeOf(history, r.table[h].id), r.table[h])
  {
    RecordOf(r, recovery, history, clock, r.table[h].id);
  }

  /** Something else is on record of a source, and its flags say so. */
  lemma PutEpisode(r: Roster, prefixOf: (string, string, bytes) -> bytes, recovery: map<string, Record>,
                   history: Chronicle, clock: nat, h: Handle, b: Backend, e: Episode)
    requires Recovered(r, recovery, history, clock) && Live(r, h) && SamePlace(r.table[h], b) && Sources(r, prefixOf)
    requires e.Declared? || e.Asked? || e.Painted? || e.Steadied?
    requires e.id == b.id && TimeOf(e) <= clock
    requires Admitted(LifeOf(history, b.id), Ticks(history), Latest(history), e)
    requires Reflects(LifeAfter(LifeOf(history, b.id), e), b)
    ensures Recovered(Put(r, h, b), recovery, And(history, e), clock)
  {
    RecordOf(r, recovery, history, clock, b.id);
    forall id | id != b.id ensures Elsewhere(r, recovery, Put(r, h, b), recovery, id) {
      assert SourceAt(r, prefixOf, id);
    }
    Chronicled(r, recovery, history, clock, e, Put(r, h, b), recovery);
  }

  // Transitions that are not acknowledged -----------------------------------------------------------

  /** Most of what happens asks nothing of a source, and is no acknowledgement. */
  lemma UnansweredKept(sources: map<string, Handle>, pending: map<WireId, Handle>, history: Chronicle, e: Episode)
    requires Unanswered(sources, pending, history) && !e.Begun? && !e.Asked? && !e.Agreed?
    ensures Unanswered(sources, pending, And(history, e))
  {
    forall id, w ensures UnansweredAt(sources, pending, And(history, e), id, w) {
      assert UnansweredAt(sources, pending, history, id, w);
    }
  }

  lemma SparedKept(sources: map<string, Handle>, pending: map<WireId, Handle>, history: Chronicle, e: Episode,
                   h: Handle)
    requires UnansweredBut(sources, pending, history, h) && !e.Begun? && !e.Asked? && !e.Agreed?
    ensures UnansweredBut(sources, pending, And(history, e), h)
  {
    forall id, w | id in sources && sources[id] != h ensures UnansweredAt(sources, pending, And(history, e), id, w) {
      assert UnansweredAt(sources, pending, history, id, w);
    }
  }

  lemma AskUnanswered(sources: map<string, Handle>, pending: map<WireId, Handle>, history: Chronicle, id: string,
                      w: WireId, wanted: bool, at: nat)
    requires Unanswered(sources, pending, history) && id in sources && w.Internal? && w !in pending
    ensures Unanswered(sources, pending[w := sources[id]], And(history, Asked(id, w, wanted, at)))
  {
    var more := pending[w := sources[id]];
    forall k, v ensures UnansweredAt(sources, more, And(history, Asked(id, w, wanted, at)), k, v) {
      assert UnansweredAt(sources, pending, history, k, v);
    }
  }

  /** An acknowledgement takes a transition off the books of the one source that was asked. */
  lemma AgreeUnanswered(r: Roster, prefixOf: (string, string, bytes) -> bytes, pending: map<WireId, Handle>,
                        history: Chronicle, h: Handle, w: WireId, reply: Json)
    requires Unanswered(r.sources, pending, history) && Sources(r, prefixOf) && Live(r, h)
    requires w in pending && pending[w] == h
    ensures Unanswered(r.sources, pending - {w}, And(history, Agreed(r.table[h].id, w, reply)))
  {
    var less := pending - {w};
    forall k, v ensures UnansweredAt(r.sources, less, And(history, Agreed(r.table[h].id, w, reply)), k, v) {
      assert UnansweredAt(r.sources, pending, history, k, v) && SourceAt(r, prefixOf, k);
    }
  }

  /** Whatever else ends a transition, its source is to go. */
  lemma RefuseUnanswered(sources: map<string, Handle>, pending: map<WireId, Handle>, history: Chronicle, w: WireId)
    requires Unanswered(sources, pending, history) && w in pending
    ensures UnansweredBut(sources, pending - {w}, history, pending[w])
  {
    var less, h := pending - {w}, pending[w];
    forall id, v | id in sources && sources[id] != h ensures UnansweredAt(sources, less, history, id, v) {
      assert UnansweredAt(sources, pending, history, id, v);
    }
  }

  lemma UnansweredSpare(sources: map<string, Handle>, pending: map<WireId, Handle>, history: Chronicle, h: Handle)
    requires Unanswered(sources, pending, history)
    ensures UnansweredBut(sources, pending, history, h)
  {
    forall id, v | id in sources && sources[id] != h ensures UnansweredAt(sources, pending, history, id, v) {
    }
  }

  /** Operations have nothing to do with it. */
  lemma OrdinaryUnanswered(sources: map<string, Handle>, pending: map<WireId, Handle>, history: Chronicle, w: WireId,
                           h: Handle)
    requires Unanswered(sources, pending, history) && !w.Internal?
    ensures Unanswered(sources, pending - {w}, history) && Unanswered(sources, pending[w := h], history)
  {
    var less, more := pending - {w}, pending[w := h];
    forall id, v ensures UnansweredAt(sources, less, history, id, v) && UnansweredAt(sources, more, history, id, v) {
      assert UnansweredAt(sources, pending, history, id, v);
    }
  }

  lemma RemoveUnanswered(r: Roster, prefixOf: (string, string, bytes) -> bytes, before: map<WireId, Handle>,
                         pending: map<WireId, Handle>, history: Chronicle, h: Handle)
    requires UnansweredBut(r.sources, before, history, h) && Partly(pending, before, h, {})
    requires Sources(r, prefixOf) && Live(r, h)
    ensures Unanswered(Without(r, h).sources, pending, history)
  {
    var less := Without(r, h).sources;
    forall id, w ensures UnansweredAt(less, pending, history, id, w) {
      if id in less {
        assert SourceAt(r, prefixOf, id);
        assert r.sources[id] != h;
        assert UnansweredAt(r.sources, before, history, id, w);
        assert PartlyAt(pending, before, h, {}, w);
      }
    }
  }

  lemma OpenUnanswered(sources: map<string, Handle>, pending: map<WireId, Handle>, history: Chronicle, id: string,
                       next: Handle, generation: string, at: nat)
    requires Unanswered(sources, pending, history)
    ensures Unanswered(sources[id := next], pending, And(history, Begun(id, generation, at)))
  {
    var more := sources[id := next];
    forall k, w ensures UnansweredAt(more, pending, And(history, Begun(id, generation, at)), k, w) {
      assert UnansweredAt(sources, pending, history, k, w);
    }
  }

  /** A source without an outstanding transition has acknowledged every one. */
  lemma IdleAgreed(sources: map<string, Handle>, pending: map<WireId, Handle>, history: Chronicle, id: string)
    requires Unanswered(sources, pending, history) && id in sources
    requires forall w :: w in pending && w.Internal? ==> pending[w] != sources[id]
    ensures LifeOf(history, id).asked == {}
  {
    forall w ensures w !in LifeOf(history, id).asked {
      assert UnansweredAt(sources, pending, history, id, w);
    }
  }

  /** What ended stays as it was received. */
  ghost predicate Endures(received: map<WireId, seq<bytes>>, pending: map<WireId, Handle>, internal: nat,
                          received': map<WireId, seq<bytes>>, pending': map<WireId, Handle>, internal': nat) {
    internal <= internal' && forall w :: EnduresAt(received, pending, internal, received', pending', w)
  }

  ghost predicate EnduresAt(received: map<WireId, seq<bytes>>, pending: map<WireId, Handle>, internal: nat,
                            received': map<WireId, seq<bytes>>, pending': map<WireId, Handle>, w: WireId) {
    w.Internal? && w.n <= internal && w !in pending && w in received ==>
      w !in pending' && w in received' && received'[w] == received[w]
  }

  lemma {:induction false} HeededOn(c: Chronicle, received: map<WireId, seq<bytes>>, pending: map<WireId, Handle>,
                                    internal: nat, received': map<WireId, seq<bytes>>, pending': map<WireId, Handle>,
                                    internal': nat, parse: bytes -> Option<Json>)
    requires Heeded(c, received, pending, internal, parse)
    requires Endures(received, pending, internal, received', pending', internal')
    ensures Heeded(c, received', pending', internal', parse)
  {
    if c.And? {
      HeededOn(c.earlier, received, pending, internal, received', pending', internal', parse);
      if c.last.Agreed? {
        assert EnduresAt(received, pending, internal, received', pending', c.last.wire);
      }
    }
  }

  lemma {:induction false} HeededThen(c: Chronicle, earlier: Chronicle, w: WireId, reply: Json,
                                      received: map<WireId, seq<bytes>>, pending: map<WireId, Handle>, internal: nat,
                                      parse: bytes -> Option<Json>, id: string)
    requires Heeded(c, received, pending, internal, parse) && Continues(c, And(earlier, Agreed(id, w, reply)))
    ensures HeededNow(w, reply, received, pending, internal, parse)
  {
    if c != And(earlier, Agreed(id, w, reply)) {
      HeededThen(c.earlier, earlier, w, reply, received, pending, internal, parse, id);
    }
  }

  /** A part of a reply is received. */
  lemma ReceiveHeeded(c: Chronicle, l: Ledger, p: Past, w: WireId, data: bytes, parse: bytes -> Option<Json>)
    requires Heeded(c, p.received, l.pending, l.internal, parse) && w in l.pending
    ensures Heeded(c, Heard(p, l, w, data).received, l.pending, l.internal, parse)
  {
    var q := Heard(p, l, w, data).received;
    forall v ensures EnduresAt(p.received, l.pending, l.internal, q, l.pending, v) {
    }
    HeededOn(c, p.received, l.pending, l.internal, q, l.pending, l.internal, parse);
  }

  /** Requests end. */
  lemma EndHeeded(c: Chronicle, received: map<WireId, seq<bytes>>, pending: map<WireId, Handle>, internal: nat,
                  less: map<WireId, Handle>, parse: bytes -> Option<Json>)
    requires Heeded(c, received, pending, internal, parse) && less.Keys <= pending.Keys
    ensures Heeded(c, received, less, internal, parse)
  {
    forall v ensures EnduresAt(received, pending, internal, received, less, v) {
    }
    HeededOn(c, received, pending, internal, received, less, internal, parse);
  }

  lemma RemoveHeeded(c: Chronicle, received: map<WireId, seq<bytes>>, pending: map<WireId, Handle>, internal: nat,
                     less: map<WireId, Handle>, parse: bytes -> Option<Json>, h: Handle)
    requires Heeded(c, received, pending, internal, parse) && Partly(less, pending, h, {})
    ensures Heeded(c, received, less, internal, parse)
  {
    forall w | w in less ensures w in pending {
      assert PartlyAt(less, pending, h, {}, w);
    }
    EndHeeded(c, received, pending, internal, less, parse);
  }

  /** An operation, or the next transition, is expected to be replied to. */
  lemma ExpectHeeded(c: Chronicle, received: map<WireId, seq<bytes>>, pending: map<WireId, Handle>, internal: nat,
                     w: WireId, h: Handle, internal': nat, parse: bytes -> Option<Json>)
    requires Heeded(c, received, pending, internal, parse) && internal <= internal'
    requires w.Internal? ==> w.n > internal
    ensures Heeded(c, received[w := []], pending[w := h], internal', parse)
  {
    var more, pending' := received[w := []], pending[w := h];
    forall v ensures EnduresAt(received, pending, internal, more, pending', v) {
    }
    HeededOn(c, received, pending, internal, more, pending', internal', parse);
  }

  /** What was received of a reply that is outstanding is what its source keeps. */
  lemma ReceivedSoFar(l: Ledger, p: Past, table: map<Handle, Backend>, parse: bytes -> Option<Json>, w: WireId)
    requires Balanced(l, p, table, parse) && w in l.pending
    ensures l.pending[w] in table && ReplyTo(p.received, w, parse) == parse(ChunkOf(table[l.pending[w]], w))
    ensures w.Internal? ==> w.n <= l.internal
  {
    assert OutstandingAt(p.issued, l.requestIDs, l.pending, table, p.received, w);
    assert BookAt(l.pending, l.deadlines, l.requestIDs, l.retired, l.ordinary, l.internal, w);
  }

  /** The next transition spoils no excuse. */
  lemma ExpectExcused(l: Ledger, p: Past, table: map<Handle, Backend>, parse: bytes -> Option<Json>, w: WireId)
    requires Balanced(l, p, table, parse) && Excused(p.lost, p.received, parse) && w.Internal?
    ensures Excused(p.lost, Expecting(p, w).received, parse)
  {
    var received := Expecting(p, w).received;
    assert AccountAt(p.issued, l.requestIDs, p.lost, Replied(p.answers), l.ordinary, w);
    forall v ensures ExcusedAt(p.lost, received, parse, v) {
      assert ExcusedAt(p.lost, p.received, parse, v);
    }
  }

  /** A transition is acknowledged. */
  lemma AgreeRecovered(r: Roster, recovery: map<string, Record>, history: Chronicle, clock: nat, h: Handle, w: WireId,
                       reply: Json)
    requires Recovered(r, recovery, history, clock) && Live(r, h) && w.Internal? && Agrees(reply)
    ensures Recovered(r, recovery, And(history, Agreed(r.table[h].id, w, reply)), clock)
  {
    RecordOf(r, recovery, history, clock, r.table[h].id);
    Chronicled(r, recovery, history, clock, Agreed(r.table[h].id, w, reply), r, recovery);
  }

  /** What holds between events still does, if neither what a source announces nor its layout changes. */
  lemma PutCalm(r: Roster, s: Stage, fence: Fence, broken: bool, x: Handle, b: Backend)
    requires Live(r, x) && SamePlace(r.table[x], b) && b.snapshot == r.table[x].snapshot
    ensures Elected(broken, r, s.active) ==> Elected(broken, Put(r, x, b), s.active)
    ensures Current(broken, r, s.revision, s.rendered, s.surfaceOn, s.active)
            ==> Current(broken, Put(r, x, b), s.revision, s.rendered, s.surfaceOn, s.active)
    ensures b.surfaceActive == r.table[x].surfaceActive ==>
      Quiet(r, s, fence, broken) ==> Quiet(Put(r, x, b), s, fence, broken)
  {
    var t := Put(r, x, b);
    if Elected(broken, r, s.active) {
      forall h ensures ElectedAt(broken, t, s.active, h) {
        assert ElectedAt(broken, r, s.active, h);
      }
    }
    if Current(broken, r, s.revision, s.rendered, s.surfaceOn, s.active) {
      forall h ensures CurrentAt(broken, t, s.revision, s.rendered, s.surfaceOn, s.active, h) {
        assert CurrentAt(broken, r, s.revision, s.rendered, s.surfaceOn, s.active, h);
      }
    }
  }

  lemma PutArranged(broken: bool, r: Roster, active: Option<Handle>, surfaceOn: bool, pending: map<WireId, Handle>,
                    requestIDs: map<WireId, bytes>, x: Handle, b: Backend)
    requires Arranged(broken, r, active, surfaceOn, pending, requestIDs) && Live(r, x) && b.id == r.table[x].id
    requires b.surfaceActive == r.table[x].surfaceActive
    ensures Arranged(broken, Put(r, x, b), active, surfaceOn, pending, requestIDs)
  {
    var t := Put(r, x, b);
    forall h ensures ArrangedAt(broken, t, active, surfaceOn, pending, requestIDs, h) {
      assert ArrangedAt(broken, r, active, surfaceOn, pending, requestIDs, h);
    }
  }

  /** What is displayed still is if a source changes that is not active, or neither in its scene nor in what it
      announces. */
  lemma PutDisplayed(broken: bool, r: Roster, boot: bytes, s: Stage, latest: Option<bytes>, x: Handle, b: Backend)
    requires Displayed(broken, r, boot, s, latest) && Live(r, x)
    requires s.active == Some(x) ==> b.frame == r.table[x].frame && b.snapshot == r.table[x].snapshot
    ensures Displayed(broken, Put(r, x, b), boot, s, latest)
  {
    var t := Put(r, x, b);
    forall y ensures DisplayedAt(broken, t, boot, s, latest, y) {
      assert DisplayedAt(broken, r, boot, s, latest, y);
    }
  }

  lemma PutPoised(r: Roster, s: Stage, fence: Fence, l: Ledger, boot: bytes, broken: bool, latest: Option<bytes>,
                  x: Handle, b: Backend)
    requires Poised(r, s, fence, l, boot, broken, latest) && Live(r, x) && SamePlace(r.table[x], b)
    requires b.snapshot == r.table[x].snapshot && b.surfaceActive == r.table[x].surfaceActive
    requires b.frame == r.table[x].frame
    ensures Poised(Put(r, x, b), s, fence, l, boot, broken, latest)
  {
    PutCalm(r, s, fence, broken, x, b);
    PutArranged(broken, r, s.active, s.surfaceOn, l.pending, l.requestIDs, x, b);
    PutDisplayed(broken, r, boot, s, latest, x, b);
  }

  /** The same with other books of as many transitions. */
  lemma SlotsPoised(r: Roster, s: Stage, fence: Fence, l: Ledger, m: Ledger, boot: bytes, broken: bool,
                    latest: Option<bytes>)
    requires Poised(r, s, fence, l, boot, broken, latest)
    requires |m.pending| - |m.requestIDs| == |l.pending| - |l.requestIDs|
    ensures Poised(r, s, fence, m, boot, broken, latest)
  {
    forall h ensures ArrangedAt(broken, r, s.active, s.surfaceOn, m.pending, m.requestIDs, h) {
      assert ArrangedAt(broken, r, s.active, s.surfaceOn, l.pending, l.requestIDs, h);
    }
  }

  /** Every slot is taken. */
  lemma FullArranged(broken: bool, r: Roster, active: Option<Handle>, surfaceOn: bool, pending: map<WireId, Handle>,
                     requestIDs: map<WireId, bytes>)
    requires |pending| >= |requestIDs| + MAX_INTERNAL
    ensures Arranged(broken, r, active, surfaceOn, pending, requestIDs)
  {
    forall h ensures ArrangedAt(broken, r, active, surfaceOn, pending, requestIDs, h) {
    }
  }

  /** Every other source has given the layout up, and the active one has it if it is wanted. */
  lemma ReleasedArranged(broken: bool, r: Roster, active: Option<Handle>, surfaceOn: bool,
                         pending: map<WireId, Handle>, requestIDs: map<WireId, bytes>)
    requires Released(r, active, surfaceOn, {})
    requires surfaceOn && active.Some? && Live(r, active.value) ==> r.table[active.value].surfaceActive
    ensures Arranged(broken, r, active, surfaceOn, pending, requestIDs)
  {
    forall h ensures ArrangedAt(broken, r, active, surfaceOn, pending, requestIDs, h) {
      assert ReleasedAt(r, active, surfaceOn, {}, h);
    }
  }

  /** Nobody has the layout, and then the active source is given it. */
  lemma HandedArranged(broken: bool, r: Roster, h: Handle, pending: map<WireId, Handle>, requestIDs: map<WireId, bytes>)
    requires Released(r, Some(h), true, {}) && Live(r, h)
    ensures Arranged(broken, Put(r, h, Wanted(r.table[h], true)), Some(h), true, pending, requestIDs)
  {
    var t := Put(r, h, Wanted(r.table[h], true));
    forall x ensures ArrangedAt(broken, t, Some(h), true, pending, requestIDs, x) {
      assert ReleasedAt(r, Some(h), true, {}, x);
    }
  }

  lemma PutLater(m: Moment, h: Handle, b: Backend, history: Chronicle)
    requires Live(m.roster, h) && SameButFlags(m.roster.table[h], b)
    requires b.surfaceActive ==> m.roster.table[h].surfaceActive || (m.surfaceOn && m.active == Some(h))
    requires Continues(history, m.history) && Ticks(history) == Ticks(m.history)
    ensures Later(m, m.(roster := Put(m.roster, h, b), history := history))
  {
    LaterSelf(m);
    var n := m.(roster := Put(m.roster, h, b), history := history);
    forall x ensures LaterAt(m, n, x) {
      assert LaterAt(m, m, x);
    }
  }

  // Transitions of interest -----------------------------------------------------------------------

  /** The ledger with an internal request. */
  function Booked(l: Ledger, h: Handle, until: nat): Ledger {
    var w := Internal(l.internal + 1);
    l.(internal := l.internal + 1, pending := l.pending[w := h], deadlines := l.deadlines[w := until])
  }

  /** What has been received once a reply to `w` is expected. */
  function Expecting(p: Past, w: WireId): Past {
    p.(received := p.received[w := []])
  }

  lemma BookBalanced(l: Ledger, p: Past, table: map<Handle, Backend>, parse: bytes -> Option<Json>, h: Handle,
                     until: nat)
    requires Balanced(l, p, table, parse) && |l.pending| < |l.requestIDs| + MAX_INTERNAL
    requires h in table && Internal(l.internal + 1) !in table[h].chunks
    ensures Internal(l.internal + 1) !in l.pending
    ensures Balanced(Booked(l, h, until), Expecting(p, Internal(l.internal + 1)), table, parse)
    ensures Novel(p.written, Internal(l.internal + 1))
  {
    var w, more := Internal(l.internal + 1), Booked(l, h, until);
    var q := Expecting(p, w);
    assert BookAt(l.pending, l.deadlines, l.requestIDs, l.retired, l.ordinary, l.internal, w);
    OneMore(l.pending, w, h);
    forall v ensures BookAt(more.pending, more.deadlines, l.requestIDs, l.retired, l.ordinary, more.internal, v) {
      assert BookAt(l.pending, l.deadlines, l.requestIDs, l.retired, l.ordinary, l.internal, v);
    }
    forall n ensures BoundedBy(more.pending, l.requestIDs, l.retired, n) {
      assert BoundedBy(l.pending, l.requestIDs, l.retired, n);
    }
    forall v ensures OutstandingAt(p.issued, l.requestIDs, more.pending, table, q.received, v) {
      assert OutstandingAt(p.issued, l.requestIDs, l.pending, table, p.received, v);
    }
    assert AccountAt(p.issued, l.requestIDs, p.lost, Replied(p.answers), l.ordinary, w);
    forall i ensures AnswerAt(p.issued, p.answers, q.received, parse, i) {
      assert AnswerAt(p.issued, p.answers, p.received, parse, i);
    }
    BookForwards(p.issued, l.internal, p.written);
  }

  /** The next transition's identity is not outstanding. */
  lemma NextInternal(l: Ledger, p: Past, table: map<Handle, Backend>, parse: bytes -> Option<Json>)
    requires Balanced(l, p, table, parse)
    ensures Internal(l.internal + 1) !in l.pending
  {
    assert BookAt(l.pending, l.deadlines, l.requestIDs, l.retired, l.ordinary, l.internal, Internal(l.internal + 1));
  }

  /** The next transition's identity was not used yet. */
  lemma BookForwards(issued: map<WireId, Issue>, internal: nat, written: seq<Sending>)
    requires Forwards(issued, internal, written)
    ensures Forwards(issued, internal + 1, written) && Novel(written, Internal(internal + 1))
  {
    var w, last := Internal(internal + 1), internal + 1;
    forall i ensures ForwardAt(issued, last, written, i) && NovelAt(written, w, i) {
      if 0 <= i < |written| && written[i].frame.Request? {
        assert ForwardAt(issued, internal, written, i);
        var v :| ForwardAs(issued, internal, written[i], v);
        assert ForwardAs(issued, last, written[i], v);
        if IdOf(written[i].frame) == Name(w) {
          NamesDistinct(v, w);
        }
      }
    }
  }

  // Writing to sources ------------------------------------------------------------------------------

  /** What has happened once the session has tried to write a frame to a source, connected or not, while
      a surface was wanted or not. */
  function Attempted(p: Past, h: Handle, frame: Frame, wanted: bool, connected: bool): Past {
    p.(written := if connected then p.written + [Sending(h, frame)] else p.written,
       layout := LayoutAfter(p.layout, Meaning(h, frame, wanted)))
  }

  function LayoutAfter(log: Log, e: Option<LayoutEvent>): Log {
    if e.Some? then Then(log, e.value) else log
  }

  /** Another frame for a source. A request comes with an identity that was issued for it, and not used
      yet. */
  lemma AttemptForwards(issued: map<WireId, Issue>, internal: nat, written: seq<Sending>, x: Sending, w: WireId)
    requires Forwards(issued, internal, written) && SentOnce(written)
    requires x.frame.Request? ==> Novel(written, w) && ForwardAs(issued, internal, x, w)
    ensures Forwards(issued, internal, written + [x]) && SentOnce(written + [x])
  {
    var more := written + [x];
    forall i ensures ForwardAt(issued, internal, more, i) {
      if 0 <= i < |written| && written[i].frame.Request? {
        assert ForwardAt(issued, internal, written, i);
        var v :| ForwardAs(issued, internal, written[i], v);
        assert ForwardAs(issued, internal, more[i], v);
      }
      assert i == |written| && x.frame.Request? ==> ForwardAs(issued, internal, more[i], w);
    }
    forall i: int, j: int ensures SentOnceAt(more, i, j) {
      assert SentOnceAt(written, i, j);
      assert x.frame.Request? ==> NovelAt(written, w, i);
    }
  }

  lemma AttemptBalanced(l: Ledger, p: Past, table: map<Handle, Backend>, parse: bytes -> Option<Json>, h: Handle,
                        frame: Frame, wanted: bool, connected: bool, w: WireId)
    requires Balanced(l, p, table, parse)
    requires frame.Request? ==> Novel(p.written, w) && ForwardAs(p.issued, l.internal, Sending(h, frame), w)
    ensures Balanced(l, Attempted(p, h, frame, wanted, connected), table, parse)
  {
    AttemptForwards(p.issued, l.internal, p.written, Sending(h, frame), w);
  }

  /** The request that tells a source whether its surface is wanted means just that. */
  lemma SurfaceMeans(boot: bytes, h: Handle, w: WireId, wanted: bool, surfaceOn: bool)
    ensures Meaning(h, Request(boot, SurfaceRequest(w, wanted)), surfaceOn) == Some(Interest(h, wanted))
    ensures IdOf(Request(boot, SurfaceRequest(w, wanted))) == Name(w)
  {
  }

  /** A transition, from the request for it to what is known once it was tried. */
  lemma TransitAll(l: Ledger, p: Past, r: Roster, next: Handle, prefixOf: (string, string, bytes) -> bytes, s: Stage,
                   fence: Fence, parse: bytes -> Option<Json>, h: Handle, wanted: bool, until: nat)
    requires Balanced(l, p, r.table, parse) && Presence(r, next, prefixOf, s.active, fence)
    requires Routing(r, l) && Layouts(r, fence, p) && Live(r, h) && (wanted ==> Unheld(r))
    requires wanted ==> r.table[h].snapshot.Some?
    requires |l.pending| < |l.requestIDs| + MAX_INTERNAL
    ensures var b, m := Wanted(r.table[h], wanted), Booked(l, h, until);
            var q := Attempted(Expecting(p, Internal(m.internal)), h,
                               Request(b.boot, SurfaceRequest(Internal(m.internal), wanted)), s.surfaceOn, b.open);
            && Balanced(m, q, Put(r, h, b).table, parse) && Presence(Put(r, h, b), next, prefixOf, s.active, fence)
            && Routing(Put(r, h, b), m) && Layouts(Put(r, h, b), fence, q)
  {
    var b, m, w := Wanted(r.table[h], wanted), Booked(l, h, until), Internal(l.internal + 1);
    var t := Put(r, h, b);
    WantedSound(r, prefixOf, h, wanted);
    PutPresence(r, next, prefixOf, s.active, fence, h, b);
    PutBalanced(l, p, r, parse, h, b);
    NextInternal(l, p, r.table, parse);
    assert ChunkAt(r, l.pending, h, w);
    TransitBalanced(l, p, t.table, s.surfaceOn, parse, h, b, wanted, until);
    PutRouting(r, l, h, b);
    BookRouting(t, l, h, until);
    WantLayouts(r, fence, p, h, b);
    TransitLayouts(t, fence, p, h, b, w, wanted, s.surfaceOn);
  }

  /** What a transition of a source leaves alone. */
  /** A new transition is outstanding, and nothing was received of it. */
  lemma AskRecalls(sources: map<string, Handle>, l: Ledger, p: Past, table: map<Handle, Backend>, history: Chronicle,
                   parse: bytes -> Option<Json>, id: string, wanted: bool, at: nat, until: nat)
    requires Balanced(l, p, table, parse) && Excused(p.lost, p.received, parse)
    requires Unanswered(sources, l.pending, history) && Heeded(history, p.received, l.pending, l.internal, parse)
    requires id in sources
    ensures var m := Booked(l, sources[id], until);
            var w := Internal(m.internal);
            var q, c := Expecting(p, w), And(history, Asked(id, w, wanted, at));
            && Excused(q.lost, q.received, parse) && Unanswered(sources, m.pending, c)
            && Heeded(c, q.received, m.pending, m.internal, parse)
  {
    var w := Internal(l.internal + 1);
    NextInternal(l, p, table, parse);
    AskUnanswered(sources, l.pending, history, id, w, wanted, at);
    ExpectExcused(l, p, table, parse, w);
    ExpectHeeded(history, p.received, l.pending, l.internal, w, sources[id], l.internal + 1, parse);
  }

  lemma AskRecovered(r: Roster, prefixOf: (string, string, bytes) -> bytes, recovery: map<string, Record>,
                     history: Chronicle, clock: nat, h: Handle, wanted: bool, w: WireId)
    requires Recovered(r, recovery, history, clock) && Live(r, h) && Sources(r, prefixOf) && w.Internal?
    ensures var b := Wanted(r.table[h], wanted);
            Recovered(Put(r, h, b), recovery, And(history, Asked(b.id, w, wanted, clock)), clock)
  {
    var b := Wanted(r.table[h], wanted);
    FlagsOf(r, recovery, history, clock, h);
    PutEpisode(r, prefixOf, recovery, history, clock, h, b, Asked(b.id, w, wanted, clock));
  }

  /** What is remembered of the past, once a source was told whether its surface is wanted. */
  lemma AskAll(r: Roster, prefixOf: (string, string, bytes) -> bytes, l: Ledger, p: Past, recovery: map<string, Record>,
               history: Chronicle, clock: nat, parse: bytes -> Option<Json>, h: Handle, wanted: bool, until: nat)
    requires Sources(r, prefixOf) && Balanced(l, p, r.table, parse) && Live(r, h)
    requires Excused(p.lost, p.received, parse) && Recovered(r, recovery, history, clock)
    requires Unanswered(r.sources, l.pending, history) && Heeded(history, p.received, l.pending, l.internal, parse)
    ensures var m := Booked(l, h, until);
            var w := Internal(m.internal);
            var q, c := Expecting(p, w), And(history, Asked(r.table[h].id, w, wanted, clock));
            && Excused(q.lost, q.received, parse)
            && Recovered(Put(r, h, Wanted(r.table[h], wanted)), recovery, c, clock)
            && Unanswered(r.sources, m.pending, c) && Heeded(c, q.received, m.pending, m.internal, parse)
  {
    var id := r.table[h].id;
    AskRecovered(r, prefixOf, recovery, history, clock, h, wanted, Internal(l.internal + 1));
    AskRecalls(r.sources, l, p, r.table, history, parse, id, wanted, clock, until);
  }

  lemma TransitRest(r: Roster, s: Stage, broken: bool, boot: bytes, viewer: Option<Screens.Screen>,
                    latest: Option<bytes>, h: Handle, wanted: bool)
    requires Live(r, h) && Elected(broken, r, s.active)
    requires Shown(broken, r, boot, s.revision, s.surfaceRevision, s.rendered, viewer)
    ensures var b := Wanted(r.table[h], wanted);
            && Elected(broken, Put(r, h, b), s.active)
            && (Current(broken, r, s.revision, s.rendered, s.surfaceOn, s.active)
                ==> Current(broken, Put(r, h, b), s.revision, s.rendered, s.surfaceOn, s.active))
            && Shown(broken, Put(r, h, b), boot, s.revision, s.surfaceRevision, s.rendered, viewer)
            && (Displayed(broken, r, boot, s, latest) ==> Displayed(broken, Put(r, h, b), boot, s, latest))
  {
    var b := Wanted(r.table[h], wanted);
    if Displayed(broken, r, boot, s, latest) {
      PutDisplayed(broken, r, boot, s, latest, h, b);
    }
    PutCalm(r, s, Fence([], false, None, 0), broken, h, b);
    PutShown(broken, r, boot, s.revision, s.surfaceRevision, s.rendered, viewer, h, b);
  }

  lemma WantedSound(r: Roster, prefixOf: (string, string, bytes) -> bytes, h: Handle, wanted: bool)
    requires Sources(r, prefixOf) && Live(r, h) && (wanted ==> r.table[h].snapshot.Some?)
    ensures Sound(Wanted(r.table[h], wanted), prefixOf)
  {
    assert SourceAt(r, prefixOf, r.table[h].id);
  }

  lemma TransitBalanced(l: Ledger, p: Past, table: map<Handle, Backend>, surfaceOn: bool, parse: bytes -> Option<Json>,
                        h: Handle, b: Backend, wanted: bool, until: nat)
    requires Balanced(l, p, table, parse) && |l.pending| < |l.requestIDs| + MAX_INTERNAL
    requires h in table && Internal(l.internal + 1) !in table[h].chunks
    ensures Internal(l.internal + 1) !in l.pending
    ensures var m := Booked(l, h, until);
            Balanced(m, Attempted(Expecting(p, Internal(m.internal)), h,
                                  Request(b.boot, SurfaceRequest(Internal(m.internal), wanted)), surfaceOn, b.open),
                     table, parse)
  {
    var m, w := Booked(l, h, until), Internal(l.internal + 1);
    BookBalanced(l, p, table, parse, h, until);
    SurfaceMeans(b.boot, h, w, wanted, surfaceOn);
    AttemptBalanced(m, Expecting(p, w), table, parse, h, Request(b.boot, SurfaceRequest(w, wanted)), surfaceOn, b.open,
                    w);
  }

  lemma TransitLayouts(r: Roster, fence: Fence, p: Past, h: Handle, b: Backend, w: WireId, wanted: bool,
                       surfaceOn: bool)
    requires Layouts(r, fence, p.(layout := Then(p.layout, Interest(h, wanted))))
    ensures Layouts(r, fence,
                    Attempted(Expecting(p, w), h, Request(b.boot, SurfaceRequest(w, wanted)), surfaceOn, b.open))
  {
    SurfaceMeans(b.boot, h, w, wanted, surfaceOn);
    BreakLayouts(r, fence, p.(layout := Then(p.layout, Interest(h, wanted))),
                 Attempted(Expecting(p, w), h, Request(b.boot, SurfaceRequest(w, wanted)), surfaceOn, b.open));
  }

  lemma BookRouting(r: Roster, l: Ledger, h: Handle, until: nat)
    requires Routing(r, l) && Live(r, h) && r.table[h].stableSince.None? && Internal(l.internal + 1) !in l.pending
    ensures Routing(r, Booked(l, h, until))
  {
    var more := Booked(l, h, until);
    forall v ensures TargetAt(r, more.pending, l.retired, v) {
      assert TargetAt(r, l.pending, l.retired, v);
    }
    forall x, v ensures ChunkAt(r, more.pending, x, v) {
      assert ChunkAt(r, l.pending, x, v);
    }
  }

  /** No source has the layout. */
  ghost predicate Unheld(r: Roster) {
    forall h :: UnheldAt(r, h)
  }

  ghost predicate UnheldAt(r: Roster, h: Handle) {
    Live(r, h) ==> !r.table[h].surfaceActive
  }

  /** The source once its surface is wanted, or no longer. */
  function Wanted(b: Backend, wanted: bool): Backend {
    b.(surfaceActive := wanted, renderReady := false, stableSince := None)
  }

  /** Of the sources that are done, only the active one has the layout, and only if it is wanted. */
  ghost predicate Released(r: Roster, active: Option<Handle>, surfaceOn: bool, todo: set<string>) {
    forall h :: ReleasedAt(r, active, surfaceOn, todo, h)
  }

  ghost predicate ReleasedAt(r: Roster, active: Option<Handle>, surfaceOn: bool, todo: set<string>, h: Handle) {
    Live(r, h) && r.table[h].id !in todo && r.table[h].surfaceActive ==> surfaceOn && active == Some(h)
  }

  lemma ReleasedStart(r: Roster, active: Option<Handle>, surfaceOn: bool)
    ensures Released(r, active, surfaceOn, r.sources.Keys)
  {
    forall h ensures ReleasedAt(r, active, surfaceOn, r.sources.Keys, h) {
    }
  }

  lemma ReleasedStep(r: Roster, active: Option<Handle>, surfaceOn: bool, todo: set<string>, id: string)
    requires Released(r, active, surfaceOn, todo)
    requires id in r.sources && r.sources[id] in r.table && r.table[r.sources[id]].surfaceActive ==>
      surfaceOn && active == Some(r.sources[id])
    ensures Released(r, active, surfaceOn, todo - {id})
  {
    forall h ensures ReleasedAt(r, active, surfaceOn, todo - {id}, h) {
      assert ReleasedAt(r, active, surfaceOn, todo, h);
    }
  }

  lemma ReleasedLater(m: Moment, n: Moment, todo: set<string>, id: string, x: Handle)
    requires Later(m, n) && Released(m.roster, m.active, m.surfaceOn, todo)
    requires id in m.roster.sources && m.roster.sources[id] == x
    requires x in n.roster.table && !n.roster.table[x].surfaceActive
    ensures Released(n.roster, n.active, n.surfaceOn, todo - {id})
  {
    forall h ensures ReleasedAt(n.roster, n.active, n.surfaceOn, todo - {id}, h) {
      if Live(n.roster, h) {
        assert LaterAt(m, n, h);
        LaterLive(m, n, h);
        assert ReleasedAt(m.roster, m.active, m.surfaceOn, todo, h);
      }
    }
  }

  lemma ReleasedAll(r: Roster, active: Option<Handle>, surfaceOn: bool)
    requires Released(r, active, surfaceOn, {})
    requires active.Some? && active.value in r.table && !r.table[active.value].surfaceActive
    ensures Unheld(r)
  {
    forall h ensures UnheldAt(r, h) {
      assert ReleasedAt(r, active, surfaceOn, {}, h);
    }
  }

  lemma LaterKeys(m: Moment, n: Moment)
    requires Later(m, n)
    ensures n.roster.sources.Keys <= m.roster.sources.Keys
  {
    SubSize(n.roster.sources, m.roster.sources);
  }

  lemma WantLayouts(r: Roster, fence: Fence, p: Past, h: Handle, b: Backend)
    requires Layouts(r, fence, p) && Live(r, h) && SameButFlags(r.table[h], b)
    requires b.surfaceActive ==> Unheld(r)
    ensures Layouts(Put(r, h, b), fence, p.(layout := Then(p.layout, Interest(h, b.surfaceActive))))
  {
    var e := Interest(h, b.surfaceActive);
    if b.surfaceActive {
      forall x ensures x !in Holders(p.layout) {
        assert UnheldAt(r, x) && HolderAt(r, p.layout, x);
      }
    }
    var log := Then(p.layout, e);
    forall x ensures HolderAt(Put(r, h, b), log, x) {
      assert HolderAt(r, p.layout, x);
      assert HolderWith(Put(r, h, b), log, x, Holders(log));
    }
  }

  // Publication -----------------------------------------------------------------------------------

  /** A new revision has not been rendered yet. */
  lemma RevisedShown(broken: bool, r: Roster, boot: bytes, revision: nat, n: nat, last: Rendered,
                     viewer: Option<Screens.Screen>)
    requires last.revision < revision
    ensures Shown(broken, r, boot, revision, n, last, viewer)
  {
    forall h ensures ShownAt(broken, r, boot, revision, n, last, viewer, h) {
      assert ShownAs(broken, r, boot, revision, n, last, viewer, h, None);
    }
  }

  lemma RevisedCurrent(broken: bool, r: Roster, revision: nat, last: Rendered, surfaceOn: bool, active: Option<Handle>)
    requires last.revision < revision
    ensures Current(broken, r, revision, last, surfaceOn, active)
  {
    forall h ensures CurrentAt(broken, r, revision, last, surfaceOn, active, h) {
    }
  }

  lemma ElectedActive(broken: bool, r: Roster, active: Option<Handle>)
    ensures broken || active.Some? ==> Elected(broken, r, active)
  {
    forall h | broken || active.Some? ensures ElectedAt(broken, r, active, h) {
    }
  }

  lemma ElectedAnyway(broken: bool, r: Roster, active: Option<Handle>)
    requires Elected(false, r, active)
    ensures Elected(broken, r, active)
  {
    forall h ensures ElectedAt(broken, r, active, h) {
      assert ElectedAt(false, r, active, h);
    }
  }

  lemma ElectLater(m: Moment, active: Option<Handle>)
    requires m.active.None?
    ensures Later(m, m.(active := active))
  {
    LaterSelf(m);
    forall h ensures LaterAt(m, m.(active := active), h) {
      assert LaterAt(m, m, h);
    }
  }

  // Election --------------------------------------------------------------------------------------

  /** `a` comes before `b` in the order of texts, or is the same. */
  predicate Precedes(a: string, b: string) {
    a == "" || (b != "" && (a[0] < b[0] || (a[0] == b[0] && Precedes(a[1..], b[1..]))))
  }

  lemma {:induction false} PrecedesTotal(a: string, b: string)
    ensures Precedes(a, b) || Precedes(b, a)
  {
    if a != "" && b != "" && a[0] == b[0] {
      PrecedesTotal(a[1..], b[1..]);
    }
  }

  lemma {:induction false} PrecedesTransitive(a: string, b: string, c: string)
    requires Precedes(a, b) && Precedes(b, c)
    ensures Precedes(a, c)
  {
    if a != "" && a[0] == b[0] && b[0] == c[0] {
      PrecedesTransitive(a[1..], b[1..], c[1..]);
    }
  }

  /** No announced source that is not still to do comes before `h`. */
  ghost predicate LeastOf(r: Roster, todo: set<string>, h: Option<Handle>) {
    forall id :: LeastOfAt(r, todo, h, id)
  }

  ghost predicate LeastOfAt(r: Roster, todo: set<string>, h: Option<Handle>, id: string) {
    id in r.sources && id !in todo && r.sources[id] in r.table && r.table[r.sources[id]].snapshot.Some?
    ==> h.Some? && h.value in r.table && Precedes(r.table[h.value].id, id)
  }

  /** `h` comes before every other announced source. */
  ghost predicate Least(r: Roster, h: Handle) {
    LeastOf(r, {}, Some(h))
  }

  lemma LeastStart(r: Roster)
    ensures LeastOf(r, r.sources.Keys, None)
  {
    forall id ensures LeastOfAt(r, r.sources.Keys, None, id) {
    }
  }

  lemma LeastStep(r: Roster, todo: set<string>, h: Option<Handle>, id: string)
    requires LeastOf(r, todo, h) && id in r.sources && r.sources[id] in r.table && r.table[r.sources[id]].id == id
    requires h.Some? ==> h.value in r.table
    ensures var x := r.sources[id];
            LeastOf(r, todo - {id},
                    if r.table[x].snapshot.Some? && (h.None? || Precedes(id, r.table[h.value].id)) then Some(x) else h)
  {
    var x := r.sources[id];
    var g := if r.table[x].snapshot.Some? && (h.None? || Precedes(id, r.table[h.value].id)) then Some(x) else h;
    if h.Some? {
      PrecedesTotal(id, r.table[h.value].id);
    }
    PrecedesTotal(id, id);
    forall k ensures LeastOfAt(r, todo - {id}, g, k) {
      assert LeastOfAt(r, todo, h, k);
      if h.Some? && g == Some(x) && Precedes(r.table[h.value].id, k) {
        PrecedesTransitive(id, r.table[h.value].id, k);
      }
    }
  }

  lemma LeastEnd(r: Roster, h: Option<Handle>)
    requires LeastOf(r, {}, h)
    ensures Elected(false, r, h)
  {
    forall x ensures ElectedAt(false, r, h, x) {
      if Live(r, x) {
        assert LeastOfAt(r, {}, h, r.table[x].id);
      }
    }
  }

  // Rendering -------------------------------------------------------------------------------------

  lemma UnrenderedShown(broken: bool, r: Roster, boot: bytes, revision: nat, n: nat, last: Rendered,
                        viewer: Option<Screens.Screen>)
    requires last.source.None?
    ensures Shown(broken, r, boot, revision, n, last, viewer)
  {
    forall h ensures ShownAt(broken, r, boot, revision, n, last, viewer, h) {
      assert ShownAs(broken, r, boot, revision, n, last, viewer, h, None);
    }
  }

  lemma UnrenderedCurrent(broken: bool, r: Roster, revision: nat, last: Rendered, surfaceOn: bool,
                          active: Option<Handle>)
    requires last.source.None?
    ensures Current(broken, r, revision, last, surfaceOn, active)
  {
    forall h ensures CurrentAt(broken, r, revision, last, surfaceOn, active, h) {
    }
  }

  lemma RenderedCurrent(broken: bool, r: Roster, s: Stage, h: Handle)
    requires s.surfaceOn && s.active == Some(h) && s.rendered.source == Some(h) && h in r.table
    requires r.table[h].snapshot.Some? && r.table[h].snapshot.value.revision == s.rendered.project
    ensures Current(broken, r, s.revision, s.rendered, s.surfaceOn, s.active)
  {
    forall x ensures CurrentAt(broken, r, s.revision, s.rendered, s.surfaceOn, s.active, x) {
    }
  }

  lemma WireLayout()
    ensures OnTheWire(Screens.Native())
  {
    forall m ensures SameLayout(Screens.Native(), m) {
    }
  }

  lemma WireLayoutIs(l: Screens.Layout)
    requires OnTheWire(l)
    ensures l == Screens.Native()
  {
    assert SameLayout(l, Screens.Native());
  }

  lemma WireSound(l: Screens.Layout)
    requires OnTheWire(l)
    ensures l.Sound()
  {
    WireLayoutIs(l);
    Screens.NativeSound();
  }

  lemma SeesSomething(before: Option<Screens.Screen>, p: bytes)
    ensures exists v :: Sees(before, p, v)
  {
    var v := Screens.Apply(Screens.Native(), before, p);
    forall l ensures SeesIn(l, before, p, v) {
      if OnTheWire(l) {
        WireLayoutIs(l);
        assert SeesAs(l, before, p, v, v);
      }
    }
    assert Sees(before, p, v);
  }

  lemma SeesApplied(before: Option<Screens.Screen>, p: bytes, after: Option<Screens.Screen>)
    requires Sees(before, p, after)
    ensures after == Screens.Apply(Screens.Native(), before, p)
  {
    WireLayout();
    SeesUnder(Screens.Native(), before, p, after);
  }

  lemma SeesUnder(l: Screens.Layout, before: Option<Screens.Screen>, p: bytes, after: Option<Screens.Screen>)
    requires Sees(before, p, after) && OnTheWire(l)
    ensures after == Screens.Apply(l, before, p)
  {
    assert SeesIn(l, before, p, after);
    var v :| SeesAs(l, before, p, after, v);
  }

  lemma ComposedSo(s: Screens.Screen, prefix: bytes, boot: bytes, revision: nat, n: nat, p: bytes)
    requires Endpoint.FullFrameFor(s, Endpoint.ViewerEnv(boot, revision, prefix), n) == Some(p)
    ensures Composed(s, prefix, boot, revision, n, p)
  {
    forall e ensures ComposedIn(e, s, prefix, boot, revision, n, p) {
      assert e == Endpoint.ViewerEnv(boot, revision, prefix) ==> ComposedAs(e, s, n, p, Some(p));
    }
  }

  lemma ComposedFrame(s: Screens.Screen, prefix: bytes, boot: bytes, revision: nat, n: nat, p: bytes)
    requires Composed(s, prefix, boot, revision, n, p)
    ensures Endpoint.FullFrameFor(s, Endpoint.ViewerEnv(boot, revision, prefix), n) == Some(p)
  {
    var e := Endpoint.ViewerEnv(boot, revision, prefix);
    assert ComposedIn(e, s, prefix, boot, revision, n, p);
    var f :| ComposedAs(e, s, n, p, f);
  }

  lemma DepictsView(s: Screens.Screen, prefix: bytes, boot: bytes, revision: nat, n: nat, v: Option<Screens.Screen>)
    requires v.Some? && v == Viewing.View(Screens.Native(), s, Endpoint.ViewerEnv(boot, revision, prefix), n)
    requires Viewing.Showable(Screens.Native(), s, Endpoint.ViewerEnv(boot, revision, prefix))
    ensures Depicts(s, prefix, boot, revision, n, v)
  {
    forall l ensures DepictsIn(l, s, prefix, boot, revision, n, v) {
      if OnTheWire(l) {
        WireLayoutIs(l);
        assert DepictsAs(l, s, Endpoint.ViewerEnv(boot, revision, prefix), n, v, v);
      }
    }
  }

  lemma DepictedView(s: Screens.Screen, prefix: bytes, boot: bytes, revision: nat, n: nat, v: Option<Screens.Screen>)
    requires Depicts(s, prefix, boot, revision, n, v)
    ensures v.Some? && v == Viewing.View(Screens.Native(), s, Endpoint.ViewerEnv(boot, revision, prefix), n)
    ensures Viewing.Showable(Screens.Native(), s, Endpoint.ViewerEnv(boot, revision, prefix))
  {
    WireLayout();
    DepictedUnder(Screens.Native(), s, prefix, boot, revision, n, v, Endpoint.ViewerEnv(boot, revision, prefix));
  }

  lemma DepictedUnder(l: Screens.Layout, s: Screens.Screen, prefix: bytes, boot: bytes, revision: nat, n: nat,
                      v: Option<Screens.Screen>, e: Grammar.Env)
    requires Depicts(s, prefix, boot, revision, n, v) && OnTheWire(l)
    requires e == Endpoint.ViewerEnv(boot, revision, prefix)
    ensures v.Some? && v == Viewing.View(l, s, e, n) && Viewing.Showable(l, s, e)
  {
    assert DepictsIn(l, s, prefix, boot, revision, n, v);
    var w :| DepictsAs(l, s, e, n, v, w);
  }

  lemma ContentsAre(frame: Option<Screens.Screen>, boot: bytes, chunks: map<WireId, bytes>)
    requires Contents(frame, boot, chunks)
    ensures Total(chunks) <= MAX_FRAME
    ensures frame.Some? ==> Retention.Good(Screens.Native(), frame.value) && From(frame.value, boot)
  {
    WireLayout();
    ContentsUnder(Screens.Native(), frame, boot, chunks);
  }

  lemma ContentsUnder(l: Screens.Layout, frame: Option<Screens.Screen>, boot: bytes, chunks: map<WireId, bytes>)
    requires Contents(frame, boot, chunks) && OnTheWire(l)
    ensures Total(chunks) <= MAX_FRAME
    ensures frame.Some? ==> Retention.Good(l, frame.value) && From(frame.value, boot)
  {
    assert ContentsIn(l, frame, boot, chunks);
    var t :| ContentsWith(l, frame, boot, chunks, t);
  }

  lemma ContentsNow(frame: Option<Screens.Screen>, boot: bytes, chunks: map<WireId, bytes>)
    requires Total(chunks) <= MAX_FRAME
    requires frame.Some? ==> Retention.Good(Screens.Native(), frame.value) && From(frame.value, boot)
    ensures Contents(frame, boot, chunks)
  {
    forall l ensures ContentsIn(l, frame, boot, chunks) {
      if OnTheWire(l) {
        WireLayoutIs(l);
        assert ContentsWith(l, frame, boot, chunks, Total(chunks));
      }
    }
  }

  lemma ContentsJoin(was: Option<Screens.Screen>, frame: Option<Screens.Screen>, boot: bytes,
                     chunks: map<WireId, bytes>)
    requires Contents(was, boot, chunks) && Contents(frame, boot, map[])
    ensures Contents(frame, boot, chunks)
  {
    forall l ensures ContentsIn(l, frame, boot, chunks) {
      assert ContentsIn(l, was, boot, chunks) && ContentsIn(l, frame, boot, map[]);
      if OnTheWire(l) {
        var t :| ContentsWith(l, was, boot, chunks, t);
        var u :| ContentsWith(l, frame, boot, map[], u);
        assert ContentsWith(l, frame, boot, chunks, t);
      }
    }
  }

  lemma FullDepicts(s: Screens.Screen, prefix: bytes, boot: bytes, revision: nat, n: nat, p: bytes,
                    was: Option<Screens.Screen>, viewer: Option<Screens.Screen>)
    requires Retention.Good(Screens.Native(), s)
    requires Composed(s, prefix, boot, revision, n, p) && Sees(was, p, viewer) && |boot| <= MAX_FRAME
            && |p| <= MAX_FRAME
    requires revision < UINT64 && n < UINT64
    ensures Depicts(s, prefix, boot, revision, n, viewer)
  {
    ComposedFrame(s, prefix, boot, revision, n, p);
    SeesApplied(was, p, viewer);
    Endpoint.FullFrameShows(s, Endpoint.ViewerEnv(boot, revision, prefix), n, was);
    DepictsView(s, prefix, boot, revision, n, viewer);
  }

  lemma SurfacedCurrent(broken: bool, r: Roster, s: Stage, t: Stage)
    requires Current(broken, r, s.revision, s.rendered, s.surfaceOn, s.active)
    requires t == s.(surfaceRevision := t.surfaceRevision, rendered := s.rendered.(surface := t.rendered.surface))
    ensures Current(broken, r, t.revision, t.rendered, t.surfaceOn, t.active)
  {
    forall h ensures CurrentAt(broken, r, t.revision, t.rendered, t.surfaceOn, t.active, h) {
      assert CurrentAt(broken, r, s.revision, s.rendered, s.surfaceOn, s.active, h);
    }
  }

  /** A scene written in full is what the viewer has then. */
  lemma FullShown(broken: bool, r: Roster, prefixOf: (string, string, bytes) -> bytes, boot: bytes, s: Stage, h: Handle,
                  p: bytes, was: Option<Screens.Screen>, viewer: Option<Screens.Screen>)
    requires Sources(r, prefixOf) && Live(r, h) && |boot| <= MAX_FRAME && |p| <= MAX_FRAME && r.table[h].frame.Some?
    requires s.rendered.source == Some(h) && Sees(was, p, viewer)
    requires Composed(r.table[h].frame.value, r.table[h].prefix, boot, s.revision, s.surfaceRevision, p)
    ensures Shown(broken, r, boot, s.revision, s.surfaceRevision, s.rendered, viewer)
  {
    var n, b := s.surfaceRevision, r.table[h];
    assert SourceAt(r, prefixOf, b.id);
    ContentsAre(b.frame, b.boot, b.chunks);
    if s.revision < UINT64 && n < UINT64 {
      FullDepicts(b.frame.value, b.prefix, boot, s.revision, n, p, was, viewer);
    }
    forall x ensures ShownAt(broken, r, boot, s.revision, n, s.rendered, viewer, x) {
      assert ShownAs(broken, r, boot, s.revision, n, s.rendered, viewer, x, viewer);
    }
  }

  // Fences ----------------------------------------------------------------------------------------

  lemma ConfirmLayouts(r: Roster, fence: Fence, p: Past)
    requires Layouts(r, fence, p) && fence.pending
    ensures Layouts(r, Fence([], false, None, fence.until), p.(readies := p.readies + [fence.token]))
  {
    var readies := p.readies + [fence.token];
    forall owed ensures FencesOwe(p.broken, false, [], p.syncs, readies, owed) {
      assert FencesOwe(p.broken, true, fence.token, p.syncs, p.readies, [fence.token]);
    }
  }

  lemma EngageLayouts(r: Roster, fence: Fence, p: Past, h: Handle, until: nat, wanted: bool)
    requires Layouts(r, fence, p)
    requires wanted ==> Live(r, h) && r.table[h].surfaceActive
    ensures Layouts(r, fence.(source := Some(h), until := until),
                    p.(layout := Then(p.layout, Fenced(h, fence.token, wanted))))
  {
    var e := Fenced(h, fence.token, wanted);
    assert HolderAt(r, p.layout, h);
    var log := Then(p.layout, e);
    forall x ensures HolderAt(r, log, x) {
      assert HolderAt(r, p.layout, x);
      assert HolderWith(r, log, x, Holders(log));
    }
  }

  /** A source's new screen is what the viewer is to see next, or has nothing to do with the viewer. */
  lemma RetainShown(broken: bool, r: Roster, boot: bytes, s: Stage, viewer: Option<Screens.Screen>, h: Handle,
                    screen: Screens.Screen)
    requires Shown(broken, r, boot, s.revision, s.surfaceRevision, s.rendered, viewer) && Live(r, h)
    requires Current(broken, r, s.revision, s.rendered, s.surfaceOn, s.active)
    requires r.table[h].snapshot.Some?
    ensures var t := Put(r, h, r.table[h].(frame := Some(screen)));
            || Shown(broken, t, boot, s.revision, s.surfaceRevision, s.rendered, viewer)
            || (s.surfaceOn && s.active == Some(h) && At(screen, r.table[h].snapshot.value.revision, screen.revision))
  {
    var t := Put(r, h, r.table[h].(frame := Some(screen)));
    if !(s.surfaceOn && s.active == Some(h) && At(screen, r.table[h].snapshot.value.revision, screen.revision)) {
      assert CurrentAt(broken, r, s.revision, s.rendered, s.surfaceOn, s.active, h);
      forall x ensures ShownAt(broken, t, boot, s.revision, s.surfaceRevision, s.rendered, viewer, x) {
        assert ShownAt(broken, r, boot, s.revision, s.surfaceRevision, s.rendered, viewer, x);
        var v :| ShownAs(broken, r, boot, s.revision, s.surfaceRevision, s.rendered, viewer, x, v);
        assert ShownAs(broken, t, boot, s.revision, s.surfaceRevision, s.rendered, viewer, x, v);
      }
    }
  }

  lemma OpensSo(p: bytes, header: Screens.Header)
    requires Screens.ReadHeader(p) == Some(header)
    ensures Opens(p, header)
  {
    forall read ensures OpensAs(p, header, read) {
    }
  }

  lemma OpensHeader(p: bytes, header: Screens.Header)
    requires Opens(p, header)
    ensures Screens.ReadHeader(p) == Some(header)
  {
    assert OpensAs(p, header, Screens.ReadHeader(p));
  }

  lemma AdvancedSo(before: Option<Screens.Screen>, p: bytes, after: Screens.Screen, e: Grammar.Env)
    requires Screens.Update(Screens.Native(), before, p) == Some(after) && Surfaces.Surface(p, e).Some?
    ensures Advanced(before, p, after)
  {
    Endpoint.SurfaceAnyway(p, e, Grammar.IDENTITY);
    forall l ensures AdvancedIn(l, before, p, after) {
      if OnTheWire(l) {
        WireLayoutIs(l);
        assert AdvancedAs(l, before, p, after, Some(after));
      }
    }
  }

  lemma AdvancedUpdate(before: Option<Screens.Screen>, p: bytes, after: Screens.Screen)
    requires Advanced(before, p, after)
    ensures Screens.Update(Screens.Native(), before, p) == Some(after)
    ensures Surfaces.Surface(p, Grammar.IDENTITY).Some?
  {
    WireLayout();
    AdvancedUnder(Screens.Native(), before, p, after);
  }

  lemma AdvancedUnder(l: Screens.Layout, before: Option<Screens.Screen>, p: bytes, after: Screens.Screen)
    requires Advanced(before, p, after) && OnTheWire(l)
    ensures Screens.Update(l, before, p) == Some(after) && Surfaces.Surface(p, Grammar.IDENTITY).Some?
  {
    assert AdvancedIn(l, before, p, after);
    var u :| AdvancedAs(l, before, p, after, u);
  }

  /** The new screen is complete, and from the same source. */
  lemma NoOpening(p: bytes, b: Backend)
    requires Screens.ReadHeader(p).None? || Screens.ReadHeader(p).value.boot != b.boot
    ensures !Continued(b, p)
  {
    forall header, after ensures !ContinuedBy(b, p, header, after) {
      assert OpensAs(p, header, Screens.ReadHeader(p)) ==> Screens.ReadHeader(p) == Some(header);
    }
  }

  /** What can be retained is well formed, whatever is written into it. */
  lemma AdvancedNeeds(before: Option<Screens.Screen>, p: bytes, after: Screens.Screen, e: Grammar.Env)
    requires Advanced(before, p, after)
    ensures Screens.Update(Screens.Native(), before, p) == Some(after) && Surfaces.Surface(p, e).Some?
  {
    AdvancedUpdate(before, p, after);
    Endpoint.SurfaceAnyway(p, Grammar.IDENTITY, e);
  }

  lemma AdvancedContents(before: Option<Screens.Screen>, boot: bytes, chunks: map<WireId, bytes>, p: bytes,
                         after: Screens.Screen, header: Screens.Header)
    requires Contents(before, boot, chunks) && Advanced(before, p, after)
    requires Opens(p, header) && header.boot == boot
    ensures Contents(Some(after), boot, map[])
    ensures At(after, header.projection, after.revision)
  {
    WireLayout();
    AdvancedContentsUnder(Screens.Native(), before, boot, chunks, p, after, header);
    ContentsNow(Some(after), boot, map[]);
  }

  lemma AdvancedContentsUnder(l: Screens.Layout, before: Option<Screens.Screen>, boot: bytes,
                              chunks: map<WireId, bytes>, p: bytes, after: Screens.Screen, header: Screens.Header)
    requires Contents(before, boot, chunks) && Advanced(before, p, after) && OnTheWire(l)
    requires Opens(p, header) && header.boot == boot
    ensures Retention.Good(l, after) && From(after, boot) && At(after, header.projection, after.revision)
  {
    WireSound(l);
    ContentsUnder(l, before, boot, chunks);
    AdvancedUnder(l, before, p, after);
    OpensHeader(p, header);
    Retention.UpdateGood(l, before, p);
    Retention.UpdateHeader(l, before, p);
  }

  lemma RelayedSo(p: bytes, prefix: bytes, boot: bytes, revision: nat, n: nat, q: bytes)
    requires Endpoint.PatchFrameFor(p, Endpoint.ViewerEnv(boot, revision, prefix), n) == Some(q)
    ensures Relayed(p, prefix, boot, revision, n, q)
  {
    forall e ensures RelayedIn(e, p, prefix, boot, revision, n, q) {
      assert e == Endpoint.ViewerEnv(boot, revision, prefix) ==> RelayedAs(e, p, n, q, Some(q));
    }
  }

  lemma RelayedFrame(p: bytes, prefix: bytes, boot: bytes, revision: nat, n: nat, q: bytes)
    requires Relayed(p, prefix, boot, revision, n, q)
    ensures Endpoint.PatchFrameFor(p, Endpoint.ViewerEnv(boot, revision, prefix), n) == Some(q)
  {
    var e := Endpoint.ViewerEnv(boot, revision, prefix);
    assert RelayedIn(e, p, prefix, boot, revision, n, q);
    var f :| RelayedAs(e, p, n, q, f);
  }

  lemma UpdatePatch(l: Screens.Layout, before: Option<Screens.Screen>, p: bytes, after: Screens.Screen)
    requires l.Sound() && Screens.Update(l, before, p) == Some(after)
    requires Screens.ReadHeader(p).Some? && Screens.ReadHeader(p).value.tag == Surfaces.PATCH_TAG
    ensures before.Some? && Screens.Patch(l, before.value, p) == Some(after)
  {
    Retention.HeaderTag(p);
  }

  /** A frame that opens as a patch continues the screen that was there. */
  lemma AdvancedPatch(before: Option<Screens.Screen>, p: bytes, after: Screens.Screen, header: Screens.Header)
    requires Advanced(before, p, after) && Opens(p, header) && header.tag == Surfaces.PATCH_TAG
    ensures before.Some? && Screens.Patch(Screens.Native(), before.value, p) == Some(after)
    ensures At(before.value, header.projection, header.revision) && after.revision == header.revision + 1
  {
    WireLayout();
    AdvancedPatchUnder(Screens.Native(), before, p, after, header);
  }

  lemma AdvancedPatchUnder(l: Screens.Layout, before: Option<Screens.Screen>, p: bytes, after: Screens.Screen,
                           header: Screens.Header)
    requires Advanced(before, p, after) && Opens(p, header) && header.tag == Surfaces.PATCH_TAG && OnTheWire(l)
    ensures before.Some? && Screens.Patch(l, before.value, p) == Some(after)
    ensures At(before.value, header.projection, header.revision) && after.revision == header.revision + 1
  {
    WireSound(l);
    AdvancedUnder(l, before, p, after);
    OpensHeader(p, header);
    UpdatePatch(l, before, p, after);
    Retention.PatchHeader(l, before.value, p);
  }

  lemma AdvancedFrom(before: Option<Screens.Screen>, p: bytes, after: Screens.Screen, header: Screens.Header)
    requires Advanced(before, p, after) && Opens(p, header) && header.tag == Surfaces.PATCH_TAG
    ensures before.Some? && At(before.value, header.projection, header.revision)
    ensures after.revision == header.revision + 1
  {
    AdvancedPatch(before, p, after, header);
  }

  /** A relayed patch leaves the viewer with the view of the screen after it. */
  lemma PatchDepicts(before: Screens.Screen, after: Screens.Screen, p: bytes, header: Screens.Header, prefix: bytes,
                     boot: bytes, revision: nat, n: nat, q: bytes, was: Option<Screens.Screen>,
                     viewer: Option<Screens.Screen>, source: bytes, chunks: map<WireId, bytes>)
    requires Depicts(before, prefix, boot, revision, n, was) && Contents(Some(before), source, chunks)
    requires Advanced(Some(before), p, after) && Opens(p, header) && header.tag == Surfaces.PATCH_TAG
    requires Relayed(p, prefix, boot, revision, n, q) && Sees(was, q, viewer) && |q| <= MAX_FRAME
    requires n + 1 < UINT64
    ensures Depicts(after, prefix, boot, revision, n + 1, viewer)
  {
    var e := Endpoint.ViewerEnv(boot, revision, prefix);
    ContentsAre(Some(before), source, chunks);
    DepictedView(before, prefix, boot, revision, n, was);
    AdvancedUpdate(Some(before), p, after);
    Endpoint.SurfaceAnyway(p, Grammar.IDENTITY, e);
    AdvancedPatch(Some(before), p, after, header);
    RelayedFrame(p, prefix, boot, revision, n, q);
    SeesApplied(was, q, viewer);
    Endpoint.PrefixInjective(boot, revision, prefix);
    Endpoint.PatchFrameShows(before, p, e, n);
    DepictsView(after, prefix, boot, revision, n + 1, viewer);
  }

  /** What the viewer has, if a patch is for what was last rendered. */
  lemma BaseDepicted(broken: bool, was: Roster, boot: bytes, s: Stage, h: Handle, after: Screens.Screen, p: bytes,
                     header: Screens.Header, had: Option<Screens.Screen>)
    requires Shown(broken, was, boot, s.revision, s.surfaceRevision, s.rendered, had) && Live(was, h)
    requires s.rendered == Rendered(Some(h), s.revision, header.projection, header.revision)
    requires Advanced(was.table[h].frame, p, after) && Opens(p, header) && header.tag == Surfaces.PATCH_TAG
    ensures was.table[h].frame.Some?
    ensures !broken && s.revision < UINT64 && s.surfaceRevision < UINT64 ==>
      Depicts(was.table[h].frame.value, was.table[h].prefix, boot, s.revision, s.surfaceRevision, had)
  {
    AdvancedFrom(was.table[h].frame, p, after, header);
    assert ShownAt(broken, was, boot, s.revision, s.surfaceRevision, s.rendered, had, h);
    var v :| ShownAs(broken, was, boot, s.revision, s.surfaceRevision, s.rendered, had, h, v);
  }

  lemma ShownDepicts(r: Roster, boot: bytes, revision: nat, n: nat, last: Rendered, viewer: Option<Screens.Screen>,
                     h: Handle)
    requires Shown(false, r, boot, revision, n, last, viewer) && Live(r, h) && revision < UINT64 && n < UINT64
    requires last.source == Some(h) && last.revision == revision
    requires r.table[h].frame.Some? && At(r.table[h].frame.value, last.project, last.surface)
    ensures Depicts(r.table[h].frame.value, r.table[h].prefix, boot, revision, n, viewer)
  {
    assert ShownAt(false, r, boot, revision, n, last, viewer, h);
    var v :| ShownAs(false, r, boot, revision, n, last, viewer, h, v);
  }

  lemma DepictedShown(broken: bool, r: Roster, boot: bytes, revision: nat, n: nat, last: Rendered, h: Handle,
                      viewer: Option<Screens.Screen>)
    requires last.source == Some(h) && h in r.table && r.table[h].frame.Some?
    requires !broken && revision < UINT64 && n < UINT64 ==>
      Depicts(r.table[h].frame.value, r.table[h].prefix, boot, revision, n, viewer)
    ensures Shown(broken, r, boot, revision, n, last, viewer)
  {
    forall x ensures ShownAt(broken, r, boot, revision, n, last, viewer, x) {
      assert ShownAs(broken, r, boot, revision, n, last, viewer, x, viewer);
    }
  }

  /** What the viewer has after a patch, if it had what the patch is for. */
  lemma PatchNext(counts: bool, was: Backend, after: Screens.Screen, p: bytes, header: Screens.Header, prefix: bytes,
                  boot: bytes, revision: nat, n: nat, q: bytes, had: Option<Screens.Screen>,
                  viewer: Option<Screens.Screen>)
    requires was.frame.Some? && (counts ==> Depicts(was.frame.value, prefix, boot, revision, n, had))
    requires Contents(was.frame, was.boot, was.chunks) && Advanced(was.frame, p, after)
    requires Opens(p, header) && header.tag == Surfaces.PATCH_TAG
    requires Relayed(p, prefix, boot, revision, n, q) && Sees(had, q, viewer) && |q| <= MAX_FRAME
    requires counts ==> n + 1 < UINT64
    ensures counts ==> Depicts(after, prefix, boot, revision, n + 1, viewer)
  {
    if counts {
      assert was.frame == Some(was.frame.value);
      PatchDepicts(was.frame.value, after, p, header, prefix, boot, revision, n, q, had, viewer, was.boot, was.chunks);
    }
  }

  /** A patch relayed to a viewer that has what it is based on keeps the viewer up to date. */
  lemma PatchShown(broken: bool, was: Roster, r: Roster, boot: bytes, s: Stage, h: Handle, after: Screens.Screen,
                   p: bytes, header: Screens.Header, q: bytes, had: Option<Screens.Screen>,
                   viewer: Option<Screens.Screen>)
    requires Shown(broken, was, boot, s.revision, s.surfaceRevision, s.rendered, had)
    requires Live(was, h) && Live(r, h) && was.table[h].prefix == r.table[h].prefix
    requires s.rendered == Rendered(Some(h), s.revision, header.projection, header.revision)
    requires Contents(was.table[h].frame, was.table[h].boot, was.table[h].chunks)
    requires Advanced(was.table[h].frame, p, after) && r.table[h].frame == Some(after)
    requires Opens(p, header) && header.tag == Surfaces.PATCH_TAG
    requires Relayed(p, r.table[h].prefix, boot, s.revision, s.surfaceRevision, q) && Sees(had, q, viewer)
    requires |q| <= MAX_FRAME
    ensures Shown(broken, r, boot, s.revision, s.surfaceRevision + 1, s.rendered.(surface := header.revision + 1),
                  viewer)
  {
    BaseDepicted(broken, was, boot, s, h, after, p, header, had);
    PatchNext(!broken && s.revision < UINT64 && s.surfaceRevision + 1 < UINT64, was.table[h], after, p, header,
              r.table[h].prefix, boot, s.revision, s.surfaceRevision, q, had, viewer);
    DepictedShown(broken, r, boot, s.revision, s.surfaceRevision + 1, s.rendered.(surface := header.revision + 1), h,
                  viewer);
  }

  // Replies ---------------------------------------------------------------------------------------

  lemma {:induction false} TotalLess(m: map<WireId, bytes>, k: WireId)
    requires k in m
    ensures Total(m) == |m[k]| + Total(m - {k})
    decreases |m|
  {
    var w :| w in m && Total(m) == |m[w]| + Total(m - {w});
    if w != k {
      Fewer(m, w);
      Fewer(m, k);
      TotalLess(m - {w}, k);
      TotalLess(m - {k}, w);
      assert m - {w} - {k} == m - {k} - {w};
    }
  }

  lemma TotalMore(m: map<WireId, bytes>, k: WireId, v: bytes)
    ensures Total(m[k := v]) == |v| + Total(m - {k})
    ensures Total(m) == Total(m - {k}) + (if k in m then |m[k]| else 0)
  {
    TotalLess(m[k := v], k);
    assert m[k := v] - {k} == m - {k};
    if k in m {
      TotalLess(m, k);
    } else {
      assert m - {k} == m;
    }
  }

  /** A source after another part of a reply. */
  function Received(r: Roster, h: Handle, w: WireId, data: bytes): Roster
    requires h in r.table
  {
    Put(r, h, r.table[h].(chunks := r.table[h].chunks[w := ChunkOf(r.table[h], w) + data]))
  }

  /** What was received after another part of a reply. */
  function Heard(p: Past, l: Ledger, w: WireId, data: bytes): Past {
    if w in l.pending && w in p.received then p.(received := p.received[w := p.received[w] + [data]]) else p
  }

  lemma FlattenMore(parts: seq<bytes>, data: bytes)
    ensures Flatten(parts + [data]) == Flatten(parts) + data
  {
    assert (parts + [data])[..|parts|] == parts;
  }

  lemma ReceiveContents(frame: Option<Screens.Screen>, boot: bytes, chunks: map<WireId, bytes>, w: WireId, data: bytes)
    requires Contents(frame, boot, chunks) && |data| + Total(chunks) <= MAX_FRAME
    ensures Contents(frame, boot, chunks[w := (if w in chunks then chunks[w] else []) + data])
  {
    var longer := (if w in chunks then chunks[w] else []) + data;
    var more := chunks[w := longer];
    TotalMore(chunks, w, longer);
    forall l ensures ContentsIn(l, frame, boot, more) {
      assert ContentsIn(l, frame, boot, chunks);
      if OnTheWire(l) {
        var t :| ContentsWith(l, frame, boot, chunks, t);
        assert ContentsWith(l, frame, boot, more, Total(more));
      }
    }
  }

  /** A source that has no screen yet may take any name. */
  lemma ContentsNamed(frame: Option<Screens.Screen>, boot: bytes, named: bytes, chunks: map<WireId, bytes>)
    requires Contents(frame, boot, chunks) && (boot == named || frame.None?)
    ensures Contents(frame, named, chunks)
  {
    forall l ensures ContentsIn(l, frame, named, chunks) {
      assert ContentsIn(l, frame, boot, chunks);
      if OnTheWire(l) {
        var t :| ContentsWith(l, frame, boot, chunks, t);
        assert ContentsWith(l, frame, named, chunks, t);
      }
    }
  }

  lemma ReceiveOutstanding(l: Ledger, p: Past, r: Roster, h: Handle, w: WireId, data: bytes)
    requires Outstanding(p.issued, l.requestIDs, l.pending, r.table, p.received)
    requires Live(r, h) && w in l.pending && l.pending[w] == h
    ensures Outstanding(p.issued, l.requestIDs, l.pending, Received(r, h, w, data).table, Heard(p, l, w, data).received)
  {
    var t, q := Received(r, h, w, data).table, Heard(p, l, w, data).received;
    assert OutstandingAt(p.issued, l.requestIDs, l.pending, r.table, p.received, w);
    FlattenMore(p.received[w], data);
    forall v ensures OutstandingAt(p.issued, l.requestIDs, l.pending, t, q, v) {
      assert OutstandingAt(p.issued, l.requestIDs, l.pending, r.table, p.received, v);
    }
  }

  lemma ReceiveBalanced(l: Ledger, p: Past, r: Roster, parse: bytes -> Option<Json>, h: Handle, w: WireId, data: bytes)
    requires Balanced(l, p, r.table, parse) && Live(r, h) && w in l.pending && l.pending[w] == h
    ensures Balanced(l, Heard(p, l, w, data), Received(r, h, w, data).table, parse)
  {
    var q := Heard(p, l, w, data);
    ReceiveOutstanding(l, p, r, h, w, data);
    assert AccountAt(p.issued, l.requestIDs, p.lost, Replied(p.answers), l.ordinary, w);
    assert BookAt(l.pending, l.deadlines, l.requestIDs, l.retired, l.ordinary, l.internal, w);
    forall i ensures AnswerAt(q.issued, q.answers, q.received, parse, i) {
      assert AnswerAt(p.issued, p.answers, p.received, parse, i);
      assert 0 <= i < |p.answers| && p.answers[i].wire.Some? ==> p.answers[i].wire.value in Replied(p.answers);
    }
  }

  lemma ReceiveRouting(r: Roster, l: Ledger, h: Handle, w: WireId, data: bytes)
    requires Routing(r, l) && Live(r, h) && w in l.pending && l.pending[w] == h
    ensures Routing(Received(r, h, w, data), l)
  {
    var s := Received(r, h, w, data);
    forall v ensures TargetAt(s, l.pending, l.retired, v) {
      assert TargetAt(r, l.pending, l.retired, v);
    }
    forall x, v ensures ChunkAt(s, l.pending, x, v) {
      assert ChunkAt(r, l.pending, x, v);
    }
  }

  lemma ReceiveExcused(l: Ledger, p: Past, table: map<Handle, Backend>, parse: bytes -> Option<Json>, w: WireId,
                       data: bytes)
    requires Balanced(l, p, table, parse) && Excused(p.lost, p.received, parse) && w in l.pending
    ensures Excused(p.lost, Heard(p, l, w, data).received, parse)
  {
    assert AccountAt(p.issued, l.requestIDs, p.lost, Replied(p.answers), l.ordinary, w);
    assert BookAt(l.pending, l.deadlines, l.requestIDs, l.retired, l.ordinary, l.internal, w);
    var received := Heard(p, l, w, data).received;
    forall v ensures ExcusedAt(p.lost, received, parse, v) {
      assert ExcusedAt(p.lost, p.received, parse, v);
    }
  }

  /** A source without an unfinished reply. */
  function Cleared(r: Roster, h: Handle, w: WireId): Roster
    requires h in r.table
  {
    Put(r, h, r.table[h].(chunks := r.table[h].chunks - {w}))
  }

  lemma ClearContents(frame: Option<Screens.Screen>, boot: bytes, chunks: map<WireId, bytes>, w: WireId)
    requires Contents(frame, boot, chunks)
    ensures Contents(frame, boot, chunks - {w})
  {
    TotalMore(chunks, w, []);
    forall l ensures ContentsIn(l, frame, boot, chunks - {w}) {
      assert ContentsIn(l, frame, boot, chunks);
      if OnTheWire(l) {
        var t :| ContentsWith(l, frame, boot, chunks, t);
        assert ContentsWith(l, frame, boot, chunks - {w}, Total(chunks - {w}));
      }
    }
  }

  /** Once a request is off the books, nothing depends on what was kept of its reply. */
  lemma ClearBalanced(l: Ledger, p: Past, r: Roster, parse: bytes -> Option<Json>, h: Handle, w: WireId)
    requires Balanced(l, p, r.table, parse) && Live(r, h) && w !in l.pending
    ensures Balanced(l, p, Cleared(r, h, w).table, parse)
  {
    var t := Cleared(r, h, w).table;
    forall v ensures OutstandingAt(p.issued, l.requestIDs, l.pending, t, p.received, v) {
      assert OutstandingAt(p.issued, l.requestIDs, l.pending, r.table, p.received, v);
    }
  }

  lemma ClearRouting(r: Roster, l: Ledger, h: Handle, w: WireId)
    requires Routing(r, l) && Live(r, h) && w in l.pending && l.pending[w] == h
    ensures Routing(Cleared(r, h, w), Closed(l, w))
  {
    var s, m := Cleared(r, h, w), Closed(l, w);
    forall v ensures TargetAt(s, m.pending, m.retired, v) {
      assert TargetAt(r, l.pending, l.retired, v);
    }
    forall x, v ensures ChunkAt(s, m.pending, x, v) {
      assert ChunkAt(r, l.pending, x, v);
    }
  }

  lemma RetireRouting(r: Roster, l: Ledger, retired: map<WireId, Handle>)
    requires Routing(r, l) && Sub(retired, l.retired)
    ensures Routing(r, l.(retired := retired))
  {
    forall v ensures TargetAt(r, l.pending, retired, v) {
      assert TargetAt(r, l.pending, l.retired, v) && SubAt(retired, l.retired, v);
    }
  }

  /** What was received of an outstanding operation's reply is what its source keeps. */
  lemma ReceivedWhole(l: Ledger, p: Past, table: map<Handle, Backend>, parse: bytes -> Option<Json>, w: WireId)
    requires Balanced(l, p, table, parse) && w in l.requestIDs
    ensures w in l.pending && l.pending[w] in table && w in p.issued && w in p.received && w !in p.lost
    ensures p.issued[w].consumer == l.requestIDs[w] && p.issued[w].prefix == table[l.pending[w]].prefix
    ensures ChunkOf(table[l.pending[w]], w) == Flatten(p.received[w])
  {
    assert OutstandingAt(p.issued, l.requestIDs, l.pending, table, p.received, w);
    assert AccountAt(p.issued, l.requestIDs, p.lost, Replied(p.answers), l.ordinary, w);
  }

  /** A reply that is not an object is lost. */
  lemma LoseExcused(p: Past, parse: bytes -> Option<Json>, w: WireId)
    requires Excused(p.lost - {w}, p.received, parse)
    requires w in p.received && (ReplyTo(p.received, w, parse).None? || !ReplyTo(p.received, w, parse).value.Object?)
    ensures Excused(p.lost, p.received, parse)
  {
    forall v ensures ExcusedAt(p.lost, p.received, parse, v) {
      assert ExcusedAt(p.lost - {w}, p.received, parse, v);
    }
  }

  // Operations ------------------------------------------------------------------------------------

  /** An identifier belongs to a source if it begins with the source's prefix. */
  predicate Names(r: Roster, h: Handle, id: bytes) {
    Live(r, h) && r.table[h].prefix != [] && r.table[h].prefix <= id
  }

  /** A source owns the identifier, which it calls `local`; or no source owns it. */
  ghost predicate Belongs(r: Roster, id: bytes, h: Option<Handle>, local: bytes) {
    match h
    case Some(x) => Names(r, x, id) && local == Strip(r.table[x].prefix)(id)
    case None => forall x :: !Names(r, x, id)
  }

  /** A source owns all identifiers of a request, and nobody else owns any. */
  ghost predicate SoleOwner(r: Roster, h: Handle, request: Json) {
    forall id, x :: SoleOwnerAt(r, h, request, id, x)
  }

  ghost predicate SoleOwnerAt(r: Roster, h: Handle, request: Json, id: bytes, x: Handle) {
    id in Ids(request) ==> (Names(r, x, id) <==> x == h)
  }

  lemma OneOwner(r: Roster, x: Handle, request: Json, id: bytes, h: Handle)
    requires SoleOwner(r, x, request) && id in Ids(request)
    ensures Names(r, h, id) <==> h == x
  {
    assert SoleOwnerAt(r, x, request, id, h);
  }

  /** An operation is what the viewer named it, and has nothing to do with layouts. */
  lemma OperationMeans(request: Json, prefix: bytes, w: WireId, boot: bytes, h: Handle, wanted: bool)
    requires request.Object? && TextOf(FieldOf(request, "method")) != SURFACE_SET
    ensures Meaning(h, Request(boot, Forwarded(request, prefix, w)), wanted).None?
    ensures IdOf(Request(boot, Forwarded(request, prefix, w))) == Name(w)
  {
    var own, body := Transform(request, Strip(prefix)), Forwarded(request, prefix, w);
    assert "method" != "id" && !IsId("method");
    assert FieldOf(body, "id") == Text(Name(w));
    assert FieldOf(body, "method") == FieldOf(own, "method");
    if "method" in request.fields {
      assert own.fields["method"] == Field("method", request.fields["method"], Strip(prefix));
      assert own.fields["method"] == Transform(request.fields["method"], Strip(prefix));
    }
    assert TextOf(FieldOf(own, "method")) == TextOf(FieldOf(request, "method"));
  }

  /** What replaces identifiers by the names that were found for them. */
  function Localize(locals: map<bytes, bytes>): bytes -> bytes {
    id => if id in locals then locals[id] else []
  }

  /** The identifiers that are done all belong to `target`, and `locals` is what it calls them. Without a
      target none is done. */
  ghost predicate Gathered(r: Roster, ids: set<bytes>, todo: set<bytes>, target: Option<Handle>,
                           locals: map<bytes, bytes>) {
    && todo <= ids && (target.None? ==> todo == ids) && (target.Some? ==> Live(r, target.value))
    && forall id :: GatheredAt(r, ids, todo, target, locals, id)
  }

  ghost predicate GatheredAt(r: Roster, ids: set<bytes>, todo: set<bytes>, target: Option<Handle>,
                             locals: map<bytes, bytes>, id: bytes) {
    id in ids && id !in todo ==>
      && target.Some? && Names(r, target.value, id)
      && Localize(locals)(id) == Strip(r.table[target.value].prefix)(id)
  }

  lemma GatheredStart(r: Roster, ids: set<bytes>)
    ensures Gathered(r, ids, ids, None, map[])
  {
    forall id ensures GatheredAt(r, ids, ids, None, map[], id) {
    }
  }

  lemma GatheredMore(r: Roster, ids: set<bytes>, todo: set<bytes>, target: Option<Handle>, locals: map<bytes, bytes>,
                     h: Handle, id: bytes, local: bytes)
    requires Gathered(r, ids, todo, target, locals) && id in todo && (target.Some? ==> target == Some(h))
    requires Names(r, h, id) && local == Strip(r.table[h].prefix)(id)
    ensures Gathered(r, ids, todo - {id}, Some(h), locals[id := local])
  {
    var less, more, found := todo - {id}, locals[id := local], Some(h);
    forall k ensures GatheredAt(r, ids, less, found, more, k) {
      assert GatheredAt(r, ids, todo, target, locals, k);
    }
  }

  /** A request with its identifiers replaced is the request as its source knows it. */
  lemma Owned(r: Roster, request: Json, target: Option<Handle>, locals: map<bytes, bytes>)
    requires Gathered(r, Ids(request), {}, target, locals)
    ensures target.Some? ==> Within(request, r.table[target.value].prefix)
    ensures target.Some? ==> forall id :: MeantAt(r, request, target.value, id)
    ensures target.None? ==> Ids(request) == {}
    ensures Transform(request, Localize(locals))
            == Transform(request, Strip(if target.Some? then r.table[target.value].prefix else []))
  {
    var prefix := if target.Some? then r.table[target.value].prefix else [];
    forall x | x in Ids(request) ensures prefix <= x && Localize(locals)(x) == Strip(prefix)(x) {
      assert GatheredAt(r, Ids(request), {}, target, locals, x);
    }
    if target.Some? {
      forall x ensures MeantAt(r, request, target.value, x) {
        assert GatheredAt(r, Ids(request), {}, target, locals, x);
      }
    }
    TransformAgrees(request, Localize(locals), Strip(prefix));
  }

  /** A request with an identifier that belongs to nobody, or to another source than one before, has no
      single owner. */
  lemma Mixed(r: Roster, request: Json, todo: set<bytes>, target: Option<Handle>, locals: map<bytes, bytes>, id: bytes,
              h: Option<Handle>)
    requires Gathered(r, Ids(request), todo, target, locals) && id in todo
    requires target.Some? ==> todo != Ids(request)
    requires if h.Some? then Names(r, h.value, id) && target.Some? && target != h else forall x :: !Names(r, x, id)
    ensures forall x :: !SoleOwner(r, x, request)
  {
    forall x ensures !SoleOwner(r, x, request) {
      if SoleOwner(r, x, request) {
        OneOwner(r, x, request, id, x);
        if h.Some? {
          var other :| other in Ids(request) && other !in todo;
          assert GatheredAt(r, Ids(request), todo, target, locals, other);
          OneOwner(r, x, request, id, h.value);
          OneOwner(r, x, request, other, target.value);
        }
      }
    }
  }

  /** The ledger with another operation. */
  function Accepted(l: Ledger, h: Handle, consumer: bytes, until: nat): Ledger {
    var w := Ordinary(l.ordinary + 1);
    l.(ordinary := l.ordinary + 1, pending := l.pending[w := h], deadlines := l.deadlines[w := until],
       requestIDs := l.requestIDs[w := consumer])
  }

  /** What has happened once an operation is accepted. */
  function Accepting(p: Past, w: WireId, issue: Issue): Past {
    p.(issued := p.issued[w := issue], received := p.received[w := []])
  }

  lemma AcceptBooks(l: Ledger, h: Handle, consumer: bytes, until: nat)
    requires Books(l.pending, l.deadlines, l.requestIDs, l.retired, l.ordinary, l.internal)
    requires Consumers(l.requestIDs) && Bounded(l.pending, l.requestIDs, l.retired)
    requires consumer != [] && |l.requestIDs| + |l.retired| < MAX_REQUESTS
    requires forall w :: w in l.requestIDs ==> l.requestIDs[w] != consumer
    ensures var m := Accepted(l, h, consumer, until);
            && Ordinary(m.ordinary) !in l.pending && Ordinary(m.ordinary) !in l.requestIDs
            && Books(m.pending, m.deadlines, m.requestIDs, m.retired, m.ordinary, m.internal)
            && Consumers(m.requestIDs) && Bounded(m.pending, m.requestIDs, m.retired)
  {
    var w, m := Ordinary(l.ordinary + 1), Accepted(l, h, consumer, until);
    assert BookAt(l.pending, l.deadlines, l.requestIDs, l.retired, l.ordinary, l.internal, w);
    OneMore(l.pending, w, h);
    OneMore(l.requestIDs, w, consumer);
    forall v ensures BookAt(m.pending, m.deadlines, m.requestIDs, m.retired, m.ordinary, m.internal, v) {
      assert BookAt(l.pending, l.deadlines, l.requestIDs, l.retired, l.ordinary, l.internal, v);
    }
    forall v, u ensures ConsumerAt(m.requestIDs, v, u) {
      assert ConsumerAt(l.requestIDs, v, u);
    }
    forall n ensures BoundedBy(m.pending, m.requestIDs, m.retired, n) {
      assert BoundedBy(l.pending, l.requestIDs, l.retired, n);
    }
  }

  lemma AcceptHistory(l: Ledger, p: Past, parse: bytes -> Option<Json>, issue: Issue)
    requires Accounts(p.issued, l.requestIDs, p.lost, Replied(p.answers), l.ordinary)
    requires Answers(p.issued, p.answers, p.received, parse) && Forwards(p.issued, l.internal, p.written)
    ensures var w := Ordinary(l.ordinary + 1);
            var q := Accepting(p, w, issue);
            && Accounts(q.issued, l.requestIDs[w := issue.consumer], p.lost, Replied(p.answers), l.ordinary + 1)
            && Answers(q.issued, p.answers, q.received, parse) && Forwards(q.issued, l.internal, p.written)
  {
    var w, last := Ordinary(l.ordinary + 1), l.ordinary + 1;
    var q := Accepting(p, w, issue);
    var asked := l.requestIDs[w := issue.consumer];
    assert AccountAt(p.issued, l.requestIDs, p.lost, Replied(p.answers), l.ordinary, w);
    forall v ensures AccountAt(q.issued, asked, p.lost, Replied(p.answers), last, v) {
      assert AccountAt(p.issued, l.requestIDs, p.lost, Replied(p.answers), l.ordinary, v);
    }
    forall i ensures AnswerAt(q.issued, p.answers, q.received, parse, i) {
      assert AnswerAt(p.issued, p.answers, p.received, parse, i);
    }
    forall i ensures ForwardAt(q.issued, l.internal, p.written, i) {
      if 0 <= i < |p.written| && p.written[i].frame.Request? {
        assert ForwardAt(p.issued, l.internal, p.written, i);
        var v :| ForwardAs(p.issued, l.internal, p.written[i], v);
        assert ForwardAs(q.issued, l.internal, p.written[i], v);
      }
    }
  }

  lemma AcceptOutstanding(l: Ledger, p: Past, r: Roster, h: Handle, issue: Issue)
    requires Outstanding(p.issued, l.requestIDs, l.pending, r.table, p.received)
    requires Live(r, h) && r.table[h].snapshot.Some? && issue.target == h && issue.prefix == r.table[h].prefix
    requires Ordinary(l.ordinary + 1) !in l.requestIDs
    requires Ordinary(l.ordinary + 1) !in r.table[h].chunks
    ensures var w := Ordinary(l.ordinary + 1);
            Outstanding(Accepting(p, w, issue).issued, l.requestIDs[w := issue.consumer], l.pending[w := h],
                        r.table, Accepting(p, w, issue).received)
  {
    var w := Ordinary(l.ordinary + 1);
    var q, asked, more := Accepting(p, w, issue), l.requestIDs[w := issue.consumer], l.pending[w := h];
    forall v ensures OutstandingAt(q.issued, asked, more, r.table, q.received, v) {
      assert OutstandingAt(p.issued, l.requestIDs, l.pending, r.table, p.received, v);
    }
  }

  lemma AcceptBalanced(l: Ledger, p: Past, r: Roster, parse: bytes -> Option<Json>, h: Handle, issue: Issue,
                       until: nat)
    requires Balanced(l, p, r.table, parse) && Routing(r, l)
    requires Live(r, h) && r.table[h].snapshot.Some? && issue.target == h && issue.prefix == r.table[h].prefix
    requires issue.consumer != [] && |l.requestIDs| + |l.retired| < MAX_REQUESTS
    requires forall w :: w in l.requestIDs ==> l.requestIDs[w] != issue.consumer
    ensures Balanced(Accepted(l, h, issue.consumer, until), Accepting(p, Ordinary(l.ordinary + 1), issue),
                     r.table, parse)
    ensures Ordinary(l.ordinary + 1) !in l.pending
  {
    AcceptBooks(l, h, issue.consumer, until);
    assert ChunkAt(r, l.pending, h, Ordinary(l.ordinary + 1));
    AcceptOutstanding(l, p, r, h, issue);
    AcceptHistory(l, p, parse, issue);
  }

  lemma AcceptRouting(r: Roster, l: Ledger, h: Handle, consumer: bytes, until: nat)
    requires Routing(r, l) && Live(r, h) && Ordinary(l.ordinary + 1) !in l.pending
    ensures Routing(r, Accepted(l, h, consumer, until))
  {
    var m := Accepted(l, h, consumer, until);
    forall v ensures TargetAt(r, m.pending, m.retired, v) {
      assert TargetAt(r, l.pending, l.retired, v);
    }
    forall x, v ensures ChunkAt(r, m.pending, x, v) {
      assert ChunkAt(r, l.pending, x, v);
    }
  }

  lemma AcceptExcused(l: Ledger, p: Past, table: map<Handle, Backend>, parse: bytes -> Option<Json>, issue: Issue)
    requires Balanced(l, p, table, parse) && Excused(p.lost, p.received, parse)
    ensures Excused(p.lost, Accepting(p, Ordinary(l.ordinary + 1), issue).received, parse)
  {
    var w := Ordinary(l.ordinary + 1);
    var received := Accepting(p, w, issue).received;
    assert AccountAt(p.issued, l.requestIDs, p.lost, Replied(p.answers), l.ordinary, w);
    forall v ensures ExcusedAt(p.lost, received, parse, v) {
      assert ExcusedAt(p.lost, p.received, parse, v);
    }
  }

  lemma AcceptAll(l: Ledger, p: Past, r: Roster, fence: Fence, parse: bytes -> Option<Json>, h: Handle, issue: Issue,
                  until: nat, m: Ledger, q: Past)
    requires Balanced(l, p, r.table, parse) && Routing(r, l) && Layouts(r, fence, p)
            && Excused(p.lost, p.received, parse)
    requires Live(r, h) && r.table[h].snapshot.Some? && issue.target == h && issue.prefix == r.table[h].prefix
    requires issue.consumer != [] && |l.requestIDs| + |l.retired| < MAX_REQUESTS
    requires Unused(l.requestIDs, issue.consumer)
    requires m == Accepted(l, h, issue.consumer, until) && q == Accepting(p, Ordinary(l.ordinary + 1), issue)
    ensures Balanced(m, q, r.table, parse) && Routing(r, m) && Layouts(r, fence, q)
            && Excused(q.lost, q.received, parse)
  {
    forall w | w in l.requestIDs ensures l.requestIDs[w] != issue.consumer {
      assert UnusedAt(l.requestIDs, issue.consumer, w);
    }
    AcceptBalanced(l, p, r, parse, h, issue, until);
    AcceptRouting(r, l, h, issue.consumer, until);
    AcceptExcused(l, p, r.table, parse, issue);
    BreakLayouts(r, fence, p, q);
  }

  /** If every slot for transitions is taken, some transition is outstanding. */
  lemma SomeTransition(l: Ledger, p: Past, table: map<Handle, Backend>, parse: bytes -> Option<Json>)
    requires Balanced(l, p, table, parse) && |l.pending| > |l.requestIDs|
    ensures exists w :: w in l.pending && w.Internal? && w in l.deadlines
  {
    if forall w :: w in l.pending ==> w in l.requestIDs {
      FewerKeys(l.pending, l.requestIDs);
    }
    var w :| w in l.pending && w !in l.requestIDs;
    assert BookAt(l.pending, l.deadlines, l.requestIDs, l.retired, l.ordinary, l.internal, w);
  }

  lemma FewerKeys<K, V, W>(m: map<K, V>, n: map<K, W>)
    requires forall k :: k in m ==> k in n
    ensures |m| <= |n|
  {
    assert m.Keys <= n.Keys;
    SmallerSet(m.Keys, n.Keys);
    assert |m.Keys| == |m| && |n.Keys| == |n|;
  }

  /** The next identity is not on the books. */
  lemma NextUnused(l: Ledger, p: Past, table: map<Handle, Backend>, parse: bytes -> Option<Json>)
    requires Balanced(l, p, table, parse)
    ensures Ordinary(l.ordinary + 1) !in l.pending && Ordinary(l.ordinary + 1) !in l.requestIDs
  {
    assert BookAt(l.pending, l.deadlines, l.requestIDs, l.retired, l.ordinary, l.internal, Ordinary(l.ordinary + 1));
  }

  /** The next identity was not used yet. */
  lemma NextNovel(l: Ledger, p: Past, table: map<Handle, Backend>, parse: bytes -> Option<Json>)
    requires Balanced(l, p, table, parse)
    ensures Novel(p.written, Ordinary(l.ordinary + 1))
  {
    AcceptNovel(p.issued, l.requestIDs, p.lost, Replied(p.answers), l.ordinary, l.internal, p.written);
  }

  lemma AcceptNovel(issued: map<WireId, Issue>, ids: map<WireId, bytes>, lost: set<WireId>, replied: set<WireId>,
                    ordinary: nat, internal: nat, written: seq<Sending>)
    requires Accounts(issued, ids, lost, replied, ordinary) && Forwards(issued, internal, written)
    ensures Novel(written, Ordinary(ordinary + 1))
  {
    var w := Ordinary(ordinary + 1);
    assert AccountAt(issued, ids, lost, replied, ordinary, w);
    forall i ensures NovelAt(written, w, i) {
      if 0 <= i < |written| && written[i].frame.Request? {
        assert ForwardAt(issued, internal, written, i);
        var v :| ForwardAs(issued, internal, written[i], v);
        if IdOf(written[i].frame) == Name(w) {
          NamesDistinct(v, w);
        }
      }
    }
  }

  lemma StillNew(before: map<WireId, bytes>, after: map<WireId, bytes>, consumer: bytes)
    requires Sub(after, before) && Unused(before, consumer)
    ensures Unused(after, consumer)
  {
    forall w ensures UnusedAt(after, consumer, w) {
      assert SubAt(after, before, w) && UnusedAt(before, consumer, w);
    }
  }

  /** The source that a request is for: it owns every identifier in it; without any, it is the active one. */
  ghost predicate Meant(r: Roster, active: Option<Handle>, request: Json, h: Handle) {
    if Ids(request) == {} then active == Some(h) else forall id :: MeantAt(r, request, h, id)
  }

  ghost predicate MeantAt(r: Roster, request: Json, h: Handle, id: bytes) {
    id in Ids(request) ==> Names(r, h, id)
  }

  /** A request is for this source, or there is none that it could be for. */
  ghost predicate Sought(r: Roster, active: Option<Handle>, request: Json, target: Option<Handle>) {
    match target
    case Some(h) => Live(r, h) && Meant(r, active, request, h)
    case None => if Ids(request) == {} then active.None? else forall h :: !SoleOwner(r, h, request)
  }

  /** A request was answered with a refusal, the last answer so far, and nothing was issued. */
  ghost predicate Declined(before: Past, after: Past, consumer: bytes, message: string) {
    && after.issued == before.issued && |after.answers| > |before.answers|
    && after.answers[|after.answers| - 1] == Reply(None, consumer, Refused(message))
  }

  /** What becomes of an operation: it is issued to the source that it is for, unless there is none, that
      does not offer it, there is no slot left, the source is gone after the focus was moved to it, or there
      are no more identities; then it is refused. */
  ghost predicate Decided(r: Roster, active: Option<Handle>, l: Ledger, before: Past, target: Option<Handle>,
                          left: Roster, onStage: Option<Handle>, after: Past, consumer: bytes, operation: bytes,
                          request: Json) {
    if target.None? && Ids(request) != {} then
      Declined(before, after, consumer, "unknown or mixed sharing targets")
    else if target.None? || target.value !in r.table || operation !in r.table[target.value].methods then
      Declined(before, after, consumer, "operation unavailable on this sharing")
    else if |l.requestIDs| + |l.retired| >= MAX_REQUESTS then
      Declined(before, after, consumer, "too many outstanding or expired operations")
    else
      && Committed(r, active, l, before, target.value, left, after, consumer, operation, request)
      && (Live(left, target.value) ==> onStage == if IsFocus(operation) then target else active)
  }

  /** The operation was issued, and if its source is still there, it was the last that was written. */
  ghost predicate Committed(r: Roster, active: Option<Handle>, l: Ledger, before: Past, h: Handle, left: Roster,
                            after: Past, consumer: bytes, operation: bytes, request: Json) {
    || (&& l.ordinary != UINT64 - 1
        && IssuedTo(before.issued, after.issued, r, h, Ordinary(l.ordinary + 1), consumer, operation, request)
        && (Live(left, h) ==> WrittenLast(after.written, Asking(r, h, consumer, request), Ordinary(l.ordinary + 1))))
    || (l.ordinary == UINT64 - 1 && Declined(before, after, consumer, "request identity space exhausted"))
    || (IsFocus(operation) && active != Some(h) && !Live(left, h)
        && Declined(before, after, consumer, "sharing disconnected"))
  }

  /** A source was told whether its surface is wanted, and before that what size it is to have, if there is a size. */
  ghost predicate ToldInterest(before: seq<Sending>, after: seq<Sending>, h: Handle, size: Option<Frame>, boot: bytes,
                               w: WireId, wanted: bool) {
    forall last :: ToldAs(before, after, h, size, boot, w, wanted, last)
  }

  ghost predicate ToldAs(before: seq<Sending>, after: seq<Sending>, h: Handle, size: Option<Frame>, boot: bytes,
                         w: WireId, wanted: bool, last: Sending) {
    last == Sending(h, Request(boot, SurfaceRequest(w, wanted))) ==>
      after == if size.Some? then before + [Sending(h, size.value), last] else before + [last]
  }

  lemma TransitionTold(p: Past, h: Handle, boot: bytes, w: WireId, wanted: bool, surfaceOn: bool, open: bool)
    ensures open ==> ToldInterest(p.written, Attempted(Expecting(p, w), h, Request(boot, SurfaceRequest(w, wanted)),
                                                       surfaceOn, open).written, h, None, boot, w, wanted)
  {
    var q := Attempted(Expecting(p, w), h, Request(boot, SurfaceRequest(w, wanted)), surfaceOn, open);
    forall last | open ensures ToldAs(p.written, q.written, h, None, boot, w, wanted, last) {
    }
  }

  lemma TransitTold(p: Past, q: Past, l: Ledger, m: Ledger, r: Roster, t: Roster, h: Handle, wanted: bool, until: nat,
                    surfaceOn: bool)
    requires h in r.table && t == Put(r, h, Wanted(r.table[h], wanted)) && m == Booked(l, h, until)
    requires q == Attempted(Expecting(p, Internal(m.internal)), h,
                            Request(t.table[h].boot, SurfaceRequest(Internal(m.internal), wanted)), surfaceOn,
                            t.table[h].open)
    ensures t.table[h].open ==>
              ToldInterest(p.written, q.written, h, None, r.table[h].boot, Internal(l.internal + 1), wanted)
  {
    TransitionTold(p, h, r.table[h].boot, Internal(l.internal + 1), wanted, surfaceOn, t.table[h].open);
  }

  lemma ToldWithSize(before: seq<Sending>, told: seq<Sending>, after: seq<Sending>, h: Handle, size: Frame, boot: bytes,
                     w: WireId, wanted: bool)
    requires told == before + [Sending(h, size)] && ToldInterest(told, after, h, None, boot, w, wanted)
    ensures ToldInterest(before, after, h, Some(size), boot, w, wanted)
  {
    forall last ensures ToldAs(before, after, h, Some(size), boot, w, wanted, last) {
      assert ToldAs(told, after, h, None, boot, w, wanted, last);
      assert told + [last] == before + [Sending(h, size), last];
    }
  }

  /** This operation was written, as its source knows it, and nothing else. */
  ghost predicate WrittenNext(before: seq<Sending>, after: seq<Sending>, issue: Issue, w: WireId) {
    && issue.request.Object?
    && after == before + [Sending(issue.target, Request(issue.boot, Forwarded(issue.request, issue.prefix, w)))]
  }

  lemma WrittenNextLast(before: seq<Sending>, after: seq<Sending>, issue: Issue, w: WireId)
    requires WrittenNext(before, after, issue, w)
    ensures WrittenLast(after, issue, w)
  {
  }

  /** The last frame that was written is this operation, as its source knows it. */
  ghost predicate WrittenLast(written: seq<Sending>, issue: Issue, w: WireId) {
    && written != [] && issue.request.Object?
    && written[|written| - 1]
       == Sending(issue.target, Request(issue.boot, Forwarded(issue.request, issue.prefix, w)))
  }

  /** Operations that move the focus make their source the active one. */
  predicate IsFocus(m: bytes) {
    |m| >= 6 && m[|m| - 6..] == Ascii(".focus")
  }

  /** What a request was checked for still holds after a nested publication. */
  lemma LaterRequests(m: Moment, n: Moment, h: Handle, consumer: bytes)
    requires Later(m, n) && h in m.roster.table
    requires Unused(m.requestIDs, consumer)
    ensures Unused(n.requestIDs, consumer)
    ensures |n.requestIDs| + |n.retired| <= |m.requestIDs| + |m.retired|
    ensures h in n.roster.table && SameButFlags(m.roster.table[h], n.roster.table[h])
  {
    StillNew(m.requestIDs, n.requestIDs, consumer);
    SubSize(n.requestIDs, m.requestIDs);
    SubSize(n.retired, m.retired);
    assert LaterAt(m, n, h);
  }

  lemma AskLayouts(r: Roster, fence: Fence, p: Past, token: bytes)
    requires Layouts(r, fence, p) && !fence.pending
    ensures Layouts(r, Fence(token, true, None, fence.until), p.(syncs := p.syncs + [token]))
  {
    var syncs := p.syncs + [token];
    forall owed ensures FencesOwe(p.broken, true, token, syncs, p.readies, owed) {
      assert FencesOwe(p.broken, false, fence.token, p.syncs, p.readies, []);
    }
  }

  /** A source that is not announced. */
  lemma Unannounced(broken: bool, r: Roster, active: Option<Handle>, h: Handle)
    requires Elected(broken, r, active) && !broken && active.None?
    ensures Live(r, h) ==> r.table[h].snapshot.None?
  {
    assert ElectedAt(broken, r, active, h);
  }

  /** Between events, no fence is pending without an active source. */
  lemma NoFence(r: Roster, next: Handle, prefixOf: (string, string, bytes) -> bytes, s: Stage, fence: Fence,
                broken: bool)
    requires Presence(r, next, prefixOf, s.active, fence) && Quiet(r, s, fence, broken)
    requires s.active.None? && !broken
    ensures !fence.pending
  {
    if fence.source.Some? {
      Unannounced(broken, r, s.active, fence.source.value);
    }
  }

  lemma EchoLayouts(r: Roster, fence: Fence, p: Past, token: bytes)
    requires Layouts(r, fence, p) && (p.broken || !fence.pending)
    ensures Layouts(r, fence, p.(syncs := p.syncs + [token], readies := p.readies + [token]))
  {
    var syncs, readies := p.syncs + [token], p.readies + [token];
    forall owed ensures FencesOwe(p.broken, fence.pending, fence.token, syncs, readies, owed) {
      assert FencesOwe(p.broken, fence.pending, fence.token, p.syncs, p.readies, owed);
    }
  }

  /** There is room for another operation, on the books or off them. */
  ghost predicate Roomy(l: Ledger) {
    forall n :: RoomyFor(l, n)
  }

  ghost predicate RoomyFor(l: Ledger, n: nat) {
    MAX_REQUESTS <= n ==> |l.requestIDs| + |l.retired| < n
  }

  /** An operation that may be retired. */
  predicate Retirable(l: Ledger, w: WireId) {
    w.Ordinary? && 1 <= w.n <= l.ordinary && w !in l.retired && w !in l.pending
  }

  /** A request that comes off the books leaves room. */
  lemma RoomFor(l: Ledger, p: Past, table: map<Handle, Backend>, parse: bytes -> Option<Json>, w: WireId)
    requires Balanced(l, p, table, parse)
    ensures w in l.requestIDs ==> Roomy(Closed(l, w)) && Retirable(Closed(l, w), w)
  {
    assert BookAt(l.pending, l.deadlines, l.requestIDs, l.retired, l.ordinary, l.internal, w);
    Fewer(l.requestIDs, w);
    forall n | w in l.requestIDs ensures RoomyFor(Closed(l, w), n) {
      assert BoundedBy(l.pending, l.requestIDs, l.retired, n);
    }
  }

  /** What the viewer was told. */
  function Uttered(p: Past, m: Message): Past {
    if m.Confirmed? then p.(readies := p.readies + [m.token]) else p
  }

  /** What is lost once a request is off the books without an answer. */
  function Losing(p: Past, l: Ledger, w: WireId): Past {
    p.(lost := p.lost + (if w in l.requestIDs then {w} else {}))
  }

  lemma FinishAll(l: Ledger, p: Past, r: Roster, fence: Fence, parse: bytes -> Option<Json>, h: Handle, w: WireId)
    requires Balanced(l, p, r.table, parse) && Routing(r, l) && Layouts(r, fence, p)
    requires Live(r, h) && w in l.pending && l.pending[w] == h
    ensures Balanced(Closed(l, w), Losing(p, l, w), Cleared(r, h, w).table, parse)
    ensures Routing(Cleared(r, h, w), Closed(l, w)) && Layouts(Cleared(r, h, w), fence, Losing(p, l, w))
    ensures w in l.requestIDs ==> Roomy(Closed(l, w)) && Retirable(Closed(l, w), w)
  {
    RoomFor(l, p, r.table, parse, w);
    CloseBalanced(l, p, r.table, parse, w);
    ClearBalanced(Closed(l, w), Losing(p, l, w), r, parse, h, w);
    ClearRouting(r, l, h, w);
    PutLayouts(r, fence, p, h, Cleared(r, h, w).table[h]);
    BreakLayouts(Cleared(r, h, w), fence, p, Losing(p, l, w));
  }

  /** The rest of the state, when a source changes only in what it keeps of replies. */
  lemma FinishRest(r: Roster, next: Handle, prefixOf: (string, string, bytes) -> bytes, s: Stage, fence: Fence,
                   h: Handle, w: WireId)
    requires Presence(r, next, prefixOf, s.active, fence) && Live(r, h)
    ensures Presence(Cleared(r, h, w), next, prefixOf, s.active, fence)
  {
    var b := Cleared(r, h, w).table[h];
    assert SourceAt(r, prefixOf, b.id);
    ClearContents(b.frame, b.boot, r.table[h].chunks, w);
    PutPresence(r, next, prefixOf, s.active, fence, h, b);
  }

  lemma RemoveRecovered(r: Roster, recovery: map<string, Record>, history: Chronicle, clock: nat, h: Handle)
    requires Recovered(r, recovery, history, clock) && Live(r, h)
    ensures Recovered(Without(r, h), recovery, history, clock)
  {
    forall id ensures RecoveredAt(Without(r, h), recovery, history, id) {
      RecordOf(r, recovery, history, clock, id);
      assert RecoveredAs(Without(r, h), recovery, id, LifeOf(history, id));
    }
  }

  lemma RetireMore(l: Ledger, p: Past, r: Roster, parse: bytes -> Option<Json>, h: Handle, w: WireId)
    requires Balanced(l, p, r.table, parse) && Routing(r, l) && Live(r, h) && Roomy(l) && Retirable(l, w)
    ensures var m := l.(retired := l.retired[w := h]); Balanced(m, p, r.table, parse) && Routing(r, m)
  {
    var retired := l.retired[w := h];
    OneMore(l.retired, w, h);
    forall v ensures BookAt(l.pending, l.deadlines, l.requestIDs, retired, l.ordinary, l.internal, v) {
      assert BookAt(l.pending, l.deadlines, l.requestIDs, l.retired, l.ordinary, l.internal, v);
    }
    forall n ensures BoundedBy(l.pending, l.requestIDs, retired, n) {
      assert BoundedBy(l.pending, l.requestIDs, l.retired, n) && RoomyFor(l, n);
    }
    forall v ensures TargetAt(r, l.pending, retired, v) {
      assert TargetAt(r, l.pending, l.retired, v);
    }
  }

  // Sources arrive --------------------------------------------------------------------------------

  /** There is room for another source. */
  ghost predicate Spare(sources: map<string, Handle>) {
    forall n :: SpareFor(sources, n)
  }

  ghost predicate SpareFor(sources: map<string, Handle>, n: nat) {
    MAX_SOURCES <= n ==> |sources| < n
  }

  /** A source that is being opened. */
  function Opened(id: string, generation: string, title: string, now: nat): Backend {
    Backend(id, generation, title, false, false, {}, [], [], None, None, map[], Some(now + INITIALIZATION_TIMEOUT),
            false, false, None)
  }

  function WithNew(r: Roster, next: Handle, id: string, generation: string, title: string, now: nat): Roster {
    Roster(r.sources[id := next], r.table[next := Opened(id, generation, title, now)])
  }

  lemma NewContents()
    ensures Contents(None, [], map[])
  {
    forall l ensures ContentsIn(l, None, [], map[]) {
      assert ContentsWith(l, None, [], map[], 0);
    }
  }

  lemma OpenPresence(r: Roster, next: Handle, prefixOf: (string, string, bytes) -> bytes, active: Option<Handle>,
                     fence: Fence, id: string, generation: string, title: string, now: nat)
    requires Presence(r, next, prefixOf, active, fence) && id !in r.sources && Spare(r.sources)
    ensures next !in r.table
    ensures Presence(WithNew(r, next, id, generation, title, now), next + 1, prefixOf, active, fence)
  {
    var s, following := WithNew(r, next, id, generation, title, now), next + 1;
    assert HandleAt(r.table, next, next);
    NewContents();
    OneMore(r.sources, id, next);
    forall k ensures SourceAt(s, prefixOf, k) {
      assert SourceAt(r, prefixOf, k);
    }
    forall h ensures HandleAt(s.table, following, h) {
      assert HandleAt(r.table, next, h);
    }
    forall n ensures FewerThan(s.sources, n) {
      assert SpareFor(r.sources, n);
    }
  }

  lemma OpenRequests(r: Roster, next: Handle, l: Ledger, p: Past, parse: bytes -> Option<Json>, id: string,
                     generation: string, title: string, now: nat)
    requires Balanced(l, p, r.table, parse) && Routing(r, l) && next !in r.table && id !in r.sources
    ensures var s := WithNew(r, next, id, generation, title, now);
            Balanced(l, p, s.table, parse) && Routing(s, l)
  {
    var s := WithNew(r, next, id, generation, title, now);
    forall w ensures OutstandingAt(p.issued, l.requestIDs, l.pending, s.table, p.received, w) {
      assert OutstandingAt(p.issued, l.requestIDs, l.pending, r.table, p.received, w);
    }
    forall w ensures TargetAt(s, l.pending, l.retired, w) {
      assert TargetAt(r, l.pending, l.retired, w);
    }
    forall h, w ensures ChunkAt(s, l.pending, h, w) {
      assert ChunkAt(r, l.pending, h, w);
    }
  }

  lemma OpenLayouts(r: Roster, next: Handle, fence: Fence, p: Past, id: string, generation: string, title: string,
                    now: nat)
    requires Layouts(r, fence, p) && next !in r.table && id !in r.sources
    ensures Layouts(WithNew(r, next, id, generation, title, now), fence, p)
  {
    var s := WithNew(r, next, id, generation, title, now);
    forall h ensures HolderAt(s, p.layout, h) {
      assert HolderAt(r, p.layout, h);
      assert HolderWith(s, p.layout, h, Holders(p.layout));
    }
  }

  lemma OpenCalm(r: Roster, next: Handle, s: Stage, fence: Fence, broken: bool, id: string, generation: string,
                 title: string, now: nat)
    requires next !in r.table && id !in r.sources && (s.rendered.source.Some? ==> s.rendered.source.value in r.table)
    ensures Quiet(r, s, fence, broken) ==> Quiet(WithNew(r, next, id, generation, title, now), s, fence, broken)
  {
    var t := WithNew(r, next, id, generation, title, now);
    if Quiet(r, s, fence, broken) {
      forall h ensures ElectedAt(broken, t, s.active, h) {
        assert ElectedAt(broken, r, s.active, h);
      }
      forall h ensures CurrentAt(broken, t, s.revision, s.rendered, s.surfaceOn, s.active, h) {
        assert CurrentAt(broken, r, s.revision, s.rendered, s.surfaceOn, s.active, h);
      }
    }
  }

  lemma OpenPoised(r: Roster, next: Handle, s: Stage, fence: Fence, l: Ledger, boot: bytes, broken: bool,
                   latest: Option<bytes>, id: string, generation: string, title: string, now: nat)
    requires next !in r.table && id !in r.sources && (s.rendered.source.Some? ==> s.rendered.source.value in r.table)
    requires Aimed(r, s.active)
    ensures Poised(r, s, fence, l, boot, broken, latest)
            ==> Poised(WithNew(r, next, id, generation, title, now), s, fence, l, boot, broken, latest)
  {
    var t := WithNew(r, next, id, generation, title, now);
    OpenCalm(r, next, s, fence, broken, id, generation, title, now);
    if Poised(r, s, fence, l, boot, broken, latest) {
      forall x ensures DisplayedAt(broken, t, boot, s, latest, x) {
        assert DisplayedAt(broken, r, boot, s, latest, x);
      }
      forall h ensures ArrangedAt(broken, t, s.active, s.surfaceOn, l.pending, l.requestIDs, h) {
        assert ArrangedAt(broken, r, s.active, s.surfaceOn, l.pending, l.requestIDs, h);
      }
    }
  }

  lemma OpenShown(r: Roster, next: Handle, broken: bool, boot: bytes, revision: nat, n: nat, last: Rendered,
                  viewer: Option<Screens.Screen>, id: string, generation: string, title: string, now: nat)
    requires Shown(broken, r, boot, revision, n, last, viewer) && next !in r.table && id !in r.sources
    ensures Shown(broken, WithNew(r, next, id, generation, title, now), boot, revision, n, last, viewer)
  {
    var s := WithNew(r, next, id, generation, title, now);
    forall h ensures ShownAt(broken, s, boot, revision, n, last, viewer, h) {
      assert ShownAt(broken, r, boot, revision, n, last, viewer, h);
      var v :| ShownAs(broken, r, boot, revision, n, last, viewer, h, v);
      assert ShownAs(broken, s, boot, revision, n, last, viewer, h, v);
    }
  }

  lemma OpenAll(r: Roster, next: Handle, l: Ledger, p: Past, prefixOf: (string, string, bytes) -> bytes,
                parse: bytes -> Option<Json>, s: Stage, fence: Fence, boot: bytes, id: string, generation: string,
                title: string, now: nat)
    requires Presence(r, next, prefixOf, s.active, fence) && Balanced(l, p, r.table, parse) && Routing(r, l)
    requires Layouts(r, fence, p) && id !in r.sources && Spare(r.sources)
    requires Shown(p.broken, r, boot, s.revision, s.surfaceRevision, s.rendered, p.viewer)
    requires s.rendered.source.Some? ==> s.rendered.source.value in r.table
    ensures var t := WithNew(r, next, id, generation, title, now);
            && Presence(t, next + 1, prefixOf, s.active, fence) && Balanced(l, p, t.table, parse) && Routing(t, l)
            && Layouts(t, fence, p)
            && Shown(p.broken, t, boot, s.revision, s.surfaceRevision, s.rendered, p.viewer)
            && (Poised(r, s, fence, l, boot, p.broken, p.latest) ==> Poised(t, s, fence, l, boot, p.broken, p.latest))
  {
    OpenPresence(r, next, prefixOf, s.active, fence, id, generation, title, now);
    OpenRequests(r, next, l, p, parse, id, generation, title, now);
    OpenLayouts(r, next, fence, p, id, generation, title, now);
    OpenPoised(r, next, s, fence, l, boot, p.broken, p.latest, id, generation, title, now);
    OpenShown(r, next, p.broken, boot, s.revision, s.surfaceRevision, s.rendered, p.viewer, id, generation, title, now);
  }

  /** A source is opened only when its record allows it. */
  lemma OpenRecovered(r: Roster, next: Handle, prefixOf: (string, string, bytes) -> bytes,
                      recovery: map<string, Record>, history: Chronicle, clock: nat, id: string, generation: string,
                      title: string, now: nat)
    requires Recovered(r, recovery, history, clock) && Handles(r.table, next) && now <= clock
    requires Sources(r, prefixOf)
    requires id in recovery ==>
      !recovery[id].blocked && recovery[id].retryAt <= now && recovery[id].generation == generation
    ensures Recovered(WithNew(r, next, id, generation, title, now), recovery,
                      And(history, Begun(id, generation, now)), clock)
  {
    var s := WithNew(r, next, id, generation, title, now);
    assert HandleAt(r.table, next, next);
    RecordOf(r, recovery, history, clock, id);
    forall k | k != id ensures Elsewhere(r, recovery, s, recovery, k) {
      assert SourceAt(r, prefixOf, k);
    }
    Chronicled(r, recovery, history, clock, Begun(id, generation, now), s, recovery);
  }

  // What is shared --------------------------------------------------------------------------------

  lemma SubForgotten(before: map<string, Record>, m: map<string, Record>, id: string, r: Record)
    requires m == before || m == before - {id}
    ensures Sub(m[id := r] - {id}, before)
  {
    var rest := m[id := r] - {id};
    forall k ensures SubAt(rest, before, k) {
    }
  }

  /** Of the records there were, exactly those are left whose incarnation is in the list, or that are
      still to be looked at. */
  ghost predicate Pruned(m: map<string, Record>, before: map<string, Record>, list: seq<Publication>,
                         todo: set<string>) {
    forall id :: PrunedAt(m, before, list, todo, id)
  }

  ghost predicate PrunedAt(m: map<string, Record>, before: map<string, Record>, list: seq<Publication>,
                           todo: set<string>, id: string) {
    && (id in m <==> id in before && (id in todo || !Missing(list, id, before[id].generation)))
    && (id in m ==> m[id] == before[id])
  }

  lemma PrunedStart(m: map<string, Record>, list: seq<Publication>)
    ensures Pruned(m, m, list, m.Keys)
  {
    forall id ensures PrunedAt(m, m, list, m.Keys, id) {
    }
  }

  lemma PrunedStep(m: map<string, Record>, before: map<string, Record>, list: seq<Publication>, todo: set<string>,
                   id: string)
    requires Pruned(m, before, list, todo) && id in todo
    ensures id in m && Missing(list, id, m[id].generation) ==> Pruned(m - {id}, before, list, todo - {id})
    ensures id in m && !Missing(list, id, m[id].generation) ==> Pruned(m, before, list, todo - {id})
    ensures id in m <==> id in before
  {
    var less := if id in m && Missing(list, id, m[id].generation) then m - {id} else m;
    assert PrunedAt(m, before, list, todo, id);
    if id in m {
      forall k ensures PrunedAt(less, before, list, todo - {id}, k) {
        assert PrunedAt(m, before, list, todo, k);
      }
    }
  }

  lemma PrunedMatches(r: Roster, m: map<string, Record>, before: map<string, Record>, list: seq<Publication>)
    requires Pruned(m, before, list, {})
    requires forall id :: id in r.sources ==>
            r.sources[id] in r.table && !Missing(list, id, r.table[r.sources[id]].generation)
    ensures Matches(r, m, list)
  {
    forall id ensures MatchAt(r, m, list, id) {
      assert PrunedAt(m, before, list, {}, id);
    }
  }

  lemma MatchLess(r: Roster, before: map<string, Record>, m: map<string, Record>, list: seq<Publication>, id: string)
    requires Matches(r, before, list) && (m == before || m == before - {id})
    ensures Matches(r, m, list)
  {
    forall k ensures MatchAt(r, m, list, k) {
      assert MatchAt(r, before, list, k);
    }
  }

  lemma MatchPut(r: Roster, m: map<string, Record>, list: seq<Publication>, h: Handle, b: Backend)
    requires Matches(r, m, list) && Live(r, h) && SamePlace(r.table[h], b)
    ensures Matches(Put(r, h, b), m, list)
  {
    forall k ensures MatchAt(Put(r, h, b), m, list, k) {
      assert MatchAt(r, m, list, k);
    }
  }

  lemma MatchFail(r: Roster, before: map<string, Record>, m: map<string, Record>, list: seq<Publication>, h: Handle)
    requires Matches(r, before, list) && Live(r, h)
    requires var id := r.table[h].id;
             Sub(m - {id}, before) && (id in m ==> m[id].generation == r.table[h].generation)
    ensures Matches(Without(r, h), m, list)
  {
    var id := r.table[h].id;
    forall k ensures MatchAt(Without(r, h), m, list, k) {
      assert MatchAt(r, before, list, k) && SubAt(m - {id}, before, k);
    }
  }

  lemma MatchKeys(r: Roster, m: map<string, Record>, list: seq<Publication>)
    requires Matches(r, m, list)
    ensures r.sources.Keys <= IdsOf(list)
  {
    forall id | id in r.sources ensures id in IdsOf(list) {
      assert MatchAt(r, m, list, id);
    }
  }

  lemma {:induction false} FewIds(list: seq<Publication>)
    ensures |IdsOf(list)| <= |list|
  {
    if list != [] {
      var rest, p := list[..|list| - 1], list[|list| - 1];
      FewIds(rest);
      forall x | x in IdsOf(list) ensures x in IdsOf(rest) + {p.id} {
        var i :| 0 <= i < |list| && list[i].id == x;
        assert i < |rest| ==> rest[i] == list[i];
      }
      SmallerSet(IdsOf(list), IdsOf(rest) + {p.id});
    }
  }

  lemma OfferStart(list: seq<Publication>, open: set<string>, recovery: map<string, Record>, now: nat)
    requires open <= IdsOf(list)
    ensures Offered(list, 0, open, open, recovery, now)
  {
    forall i ensures OfferedAt(list, 0, open, open, recovery, now, i) {
    }
  }

  lemma OfferStep(list: seq<Publication>, k: nat, was: set<string>, open: set<string>, more: set<string>,
                  recovery: map<string, Record>, now: nat)
    requires Offered(list, k, was, open, recovery, now) && k < |list|
    requires open <= more <= open + {list[k].id}
    requires list[k].id in more || Withheld(recovery, list[k].id, now)
    requires list[k].id in more && list[k].id !in open ==> !Withheld(recovery, list[k].id, now)
    ensures Offered(list, k + 1, was, more, recovery, now)
  {
    var next := k + 1;
    forall i ensures OfferedAt(list, next, was, more, recovery, now, i) {
      assert OfferedAt(list, k, was, open, recovery, now, i);
    }
  }

  lemma RoomToOpen(list: seq<Publication>, sources: map<string, Handle>, id: string)
    requires sources.Keys <= IdsOf(list) && id in IdsOf(list) && id !in sources && |list| <= MAX_SOURCES
    ensures Spare(sources)
  {
    FewIds(list);
    SmallerSet(sources.Keys + {id}, IdsOf(list));
    assert |sources.Keys + {id}| == |sources| + 1;
    forall n ensures SpareFor(sources, n) {
    }
  }

  // What follows ----------------------------------------------------------------------------------

  /** Whoever has the layout has it alone, after any orderly history. */
  lemma {:induction false} OneHolder(log: Log)
    requires Orderly(log)
    ensures forall a, b :: a in Holders(log) && b in Holders(log) ==> a == b
  {
    if log.Then? {
      OneHolder(log.earlier);
    }
  }

  /** `earlier` is how the history began. */
  predicate Began(log: Log, earlier: Log) {
    log == earlier || (log.Then? && Began(log.earlier, earlier))
  }

  /** Every event of an orderly history was in order when it happened: nobody had the layout when it
      was given away, and a fence went to a source that had the wanted layout. */
  lemma {:induction false} EventInOrder(log: Log, earlier: Log, e: LayoutEvent)
    requires Orderly(log) && Began(log, Then(earlier, e))
    ensures Orderly(earlier) && InOrder(Holders(earlier), e)
  {
    if log != Then(earlier, e) {
      EventInOrder(log.earlier, earlier, e);
    }
  }

  /** The `k`-th failure comes no earlier than the delays before it allow. */
  function Waited(k: nat): nat {
    if k == 0 then 0 else Waited(k - 1) + Delay(k)
  }

  /** The waits are 1, 2, 4, 8 and then 16 seconds, over and over. */
  lemma {:induction false} WaitedIs(k: nat)
    ensures Waited(k) == if k < 5 then [0, 1, 3, 7, 15][k] else 31 + 16 * (k - 5)
    ensures Waited(k + 1) - Waited(k) == if k < 4 then [1, 2, 4, 8][k] else 16
  {
    if k > 0 {
      WaitedIs(k - 1);
    }
  }

  /** Every episode was admitted when it happened. */
  lemma {:induction false} EpisodeAdmitted(c: Chronicle, earlier: Chronicle, e: Episode)
    requires Patient(c) && Continues(c, And(earlier, e)) && !e.Ticked?
    ensures Patient(earlier) && Admitted(LifeOf(earlier, e.id), Ticks(earlier), Latest(earlier), e)
  {
    if c != And(earlier, e) {
      EpisodeAdmitted(c.earlier, earlier, e);
    }
  }

  lemma {:induction false} PatientBefore(c: Chronicle, start: Chronicle)
    requires Patient(c) && Continues(c, start)
    ensures Patient(start)
  {
    if c != start {
      PatientBefore(c.earlier, start);
    }
  }

  /** The failures of a publication were not forgotten since `start`. */
  ghost predicate Kept(c: Chronicle, start: Chronicle, id: string)
    requires Continues(c, start)
  {
    c == start || (!(c.last.Forgotten? && c.last.id == id) && Kept(c.earlier, start, id))
  }

  /** How often a publication failed for the moment since `start`. */
  ghost function Failures(c: Chronicle, start: Chronicle, id: string): nat
    requires Continues(c, start)
  {
    if c == start then 0
    else
      Failures(c.earlier, start, id) +
      if c.last.Lost? && c.last.id == id && c.last.fault.Transient? then 1 else 0
  }

  /** After a failure and `k - 1` more that were not forgotten, the delays of `k` failures in a row are
      still to be waited for, or were. */
  lemma {:induction false} FailuresWait(c: Chronicle, early: Chronicle, id: string, generation: string, at: nat)
    requires Patient(c) && Continues(c, And(early, Lost(id, generation, at, Transient)))
    requires Kept(c, And(early, Lost(id, generation, at, Transient)), id)
    ensures var k := 1 + Failures(c, And(early, Lost(id, generation, at, Transient)), id);
            var tale := LifeOf(c, id).tale;
            tale.Some? && tale.value.generation == generation && |tale.value.times| >= k
            && Due(tale.value) >= at + Waited(k)
  {
    var start := And(early, Lost(id, generation, at, Transient));
    if c == start {
      assert Waited(1) == Waited(0) + Delay(1);
    } else {
      FailuresWait(c.earlier, early, id, generation, at);
    }
  }

  /** After a failure for good, a publication stays blocked until its failures are forgotten. */
  lemma {:induction false} StaysBlocked(c: Chronicle, early: Chronicle, id: string, generation: string, at: nat)
    requires Patient(c) && Continues(c, And(early, Lost(id, generation, at, Permanent)))
    requires Kept(c, And(early, Lost(id, generation, at, Permanent)), id)
    ensures var tale := LifeOf(c, id).tale;
            tale.Some? && tale.value.generation == generation && tale.value.blocked
  {
    if c != And(early, Lost(id, generation, at, Permanent)) {
      StaysBlocked(c.earlier, early, id, generation, at);
    }
  }

  /** When the failures of a publication were first forgotten since `start`. */
  lemma {:induction false} FirstForgotten(c: Chronicle, start: Chronicle, id: string)
    returns (x: Chronicle, generation: string, reason: Reason)
    requires Continues(c, start) && !Kept(c, start, id)
    ensures Continues(c, And(x, Forgotten(id, generation, reason))) && Continues(x, start) && Kept(x, start, id)
  {
    if !Kept(c.earlier, start, id) {
      x, generation, reason := FirstForgotten(c.earlier, start, id);
    } else {
      x, generation, reason := c.earlier, c.last.generation, c.last.reason;
    }
  }

  /** What was asked of a source, prefixed again, is what the viewer asked. */
  lemma AskedAgain(request: Json, prefix: bytes, w: WireId)
    requires request.Object? && Within(request, prefix)
    ensures Transform(Forwarded(request, prefix, w), Add(prefix)).fields - {"id"}
            == Transform(request, Same()).fields - {"id"}
  {
    StripRoundTrip(request, prefix);
    var own := Transform(request, Strip(prefix));
    var asked := Forwarded(request, prefix, w);
    forall k | k in own.fields && k != "id"
      ensures Transform(asked, Add(prefix)).fields[k] == Transform(own, Add(prefix)).fields[k]
    {
    }
    assert Transform(asked, Add(prefix)).fields - {"id"} == Transform(own, Add(prefix)).fields - {"id"};
  }

  /** What a consumer is told, stripped again, is what the source replied; and it goes by the consumer's name. */
  lemma AnsweredAgain(reply: Json, prefix: bytes, consumer: bytes)
    requires reply.Object?
    ensures var told := Delivered(reply, prefix, consumer);
            && told.Object? && FieldOf(told, "id") == Text(consumer)
            && told.fields - {"id"} == Transform(reply, Add(prefix)).fields - {"id"}
            && Transform(told, Strip(prefix)).fields - {"id"} == Transform(reply, Same()).fields - {"id"}
  {
    PrefixRoundTrip(reply, prefix);
    var added, told := Transform(reply, Add(prefix)), Delivered(reply, prefix, consumer);
    forall k | k in added.fields && k != "id"
      ensures Transform(told, Strip(prefix)).fields[k] == Transform(added, Strip(prefix)).fields[k]
    {
    }
    assert Transform(told, Strip(prefix)).fields - {"id"} == Transform(added, Strip(prefix)).fields - {"id"};
  }

  lemma {:induction false} AllOf<K>(s: set<K>, t: set<K>)
    requires s <= t && |t| <= |s|
    ensures s == t
  {
    if s != t {
      var k :| k in t && k !in s;
      SmallerSet(s, t - {k});
    }
  }

  // Stable rendering over a run -------------------------------------------------------------------

  /** The same connection to a publication throughout. */
  predicate SameSource(c: Chronicle, start: Chronicle, id: string) {
    c == start || (c.And? && SameSource(c.earlier, start, id)
                   && !(Concerns(c.last, id) && (c.last.Begun? || c.last.Lost?)))
  }

  /** And its surface was neither wanted nor given up anew. */
  predicate Untold(c: Chronicle, start: Chronicle, id: string) {
    c == start || (c.And? && Untold(c.earlier, start, id)
                   && !(Concerns(c.last, id) && (c.last.Begun? || c.last.Lost? || c.last.Asked?)))
  }

  lemma {:induction false} UntoldContinues(c: Chronicle, start: Chronicle, id: string)
    requires Untold(c, start, id)
    ensures Continues(c, start)
  {
    if c != start {
      UntoldContinues(c.earlier, start, id);
    }
  }

  /** A wanted surface was asked for, and that was the last the source was told of it. */
  lemma {:induction false} LastAsked(c: Chronicle, id: string) returns (x: Chronicle, w: WireId, at: nat)
    requires LifeOf(c, id).wanted
    ensures Untold(c, And(x, Asked(id, w, true, at)), id)
  {
    if Concerns(c.last, id) && c.last.Asked? {
      x, w, at := c.earlier, c.last.wire, c.last.at;
    } else {
      x, w, at := LastAsked(c.earlier, id);
    }
  }

  /** A surface that was drawn since then was drawn by a frame of what was announced. */
  lemma {:induction false} DrawnSince(c: Chronicle, id: string)
    returns (x: Chronicle, w: WireId, at: nat, y: Chronicle, p: bytes, n: nat)
    requires Patient(c) && LifeOf(c, id).wanted && LifeOf(c, id).drawn
    ensures Untold(c, And(y, Painted(id, p, n)), id) && Untold(y, And(x, Asked(id, w, true, at)), id)
    ensures Projects(p, n) && LifeOf(y, id).announced == Some(n)
  {
    if Concerns(c.last, id) && c.last.Painted? {
      y, p, n := c.earlier, c.last.frame, c.last.projection;
      x, w, at := LastAsked(y, id);
    } else {
      x, w, at, y, p, n := DrawnSince(c.earlier, id);
    }
  }

  /** A transition that is not owed any more was acknowledged, by a reply that reports no error. */
  lemma {:induction false} AgreedSince(c: Chronicle, x: Chronicle, id: string, w: WireId, wanted: bool, at: nat)
    returns (z: Chronicle, reply: Json)
    requires Patient(c) && SameSource(c, And(x, Asked(id, w, wanted, at)), id) && w !in LifeOf(c, id).asked
    ensures Continues(c, And(z, Agreed(id, w, reply))) && Continues(z, And(x, Asked(id, w, wanted, at)))
    ensures Agrees(reply)
  {
    var start := And(x, Asked(id, w, wanted, at));
    assert c != start;
    if Concerns(c.last, id) && c.last.Agreed? && c.last.wire == w {
      z, reply := c.earlier, c.last.reply;
      SameContinues(z, start, id);
    } else {
      z, reply := AgreedSince(c.earlier, x, id, w, wanted, at);
    }
  }

  lemma {:induction false} SameContinues(c: Chronicle, start: Chronicle, id: string)
    requires SameSource(c, start, id)
    ensures Continues(c, start)
  {
    if c != start {
      SameContinues(c.earlier, start, id);
    }
  }

  /** Rendering that counts as stable was found to be so, and the source was told nothing since. */
  lemma {:induction false} LastSteadied(c: Chronicle, id: string) returns (x: Chronicle)
    requires LifeOf(c, id).since.Some?
    ensures Untold(c, And(x, Steadied(id, LifeOf(c, id).since.value)), id)
  {
    if Concerns(c.last, id) && c.last.Steadied? {
      x := c.earlier;
    } else {
      x := LastSteadied(c.earlier, id);
    }
  }

  // A tick ----------------------------------------------------------------------------------------

  /** A source is still shared, in the same incarnation. */
  predicate StillShared(r: Roster, list: seq<Publication>, id: string) {
    && id in r.sources && r.sources[id] in r.table
    && Find(list, id).Some? && Find(list, id).value.generation == r.table[r.sources[id]].generation
  }

  /** The sources that are no longer shared have left, but for those `todo`. */
  ghost predicate Sifted(r: Roster, list: seq<Publication>, todo: set<string>, r': Roster) {
    forall id :: SiftedAt(r, list, todo, r', id)
  }

  ghost predicate SiftedAt(r: Roster, list: seq<Publication>, todo: set<string>, r': Roster, id: string) {
    id in r'.sources <==> id in r.sources && (id in todo || StillShared(r, list, id))
  }

  /** A source has not announced itself in time. */
  ghost predicate LateAt(r: Roster, now: nat, id: string) {
    && id in r.sources && r.sources[id] in r.table
    && r.table[r.sources[id]].initializeBy.Some? && now >= r.table[r.sources[id]].initializeBy.value
  }

  /** The late sources have left, but for those `todo`. */
  ghost predicate Timely(r: Roster, now: nat, todo: set<string>, r': Roster) {
    forall id :: TimelyAt(r, now, todo, r', id)
  }

  ghost predicate TimelyAt(r: Roster, now: nat, todo: set<string>, r': Roster, id: string) {
    id in r'.sources <==> id in r.sources && (id in todo || !LateAt(r, now, id))
  }

  /** The source that has not confirmed the fence in time. */
  ghost function UnpresentedIds(r: Roster, f: Fence, now: nat): set<string> {
    if f.source.Some? && f.source.value in r.table && now >= f.until then {r.table[f.source.value].id} else {}
  }

  /** A transition has not been acknowledged in time by this source. */
  ghost predicate OwesAt(r: Roster, l: Ledger, now: nat, w: WireId, id: string) {
    && w.Internal? && w in l.deadlines && now >= l.deadlines[w] && w in l.pending && l.pending[w] in r.table
    && r.table[l.pending[w]].id == id
  }

  ghost predicate Owes(r: Roster, l: Ledger, now: nat, todo: set<WireId>, id: string) {
    exists w :: w !in todo && OwesAt(r, l, now, w, id)
  }

  /** Sources have left, with the requests that they were to reply to, and a fence that waited for one waits
      for none. */
  ghost predicate Thinned(r: Roster, l: Ledger, f: Fence, r': Roster, l': Ledger, f': Fence) {
    && Sub(r'.sources, r.sources) && r'.table == r.table
    && (forall w :: ThinnedAt(l, r', l', w))
    && f' == Unwaiting(f, r')
  }

  ghost predicate ThinnedAt(l: Ledger, r': Roster, l': Ledger, w: WireId) {
    && (w in l'.pending <==> w in l.pending && Live(r', l.pending[w]))
    && (w in l'.pending ==> l'.pending[w] == l.pending[w])
    && SubAt(l'.deadlines, l.deadlines, w)
  }

  ghost function Unwaiting(f: Fence, r: Roster): Fence {
    f.(source := if f.source.Some? && Live(r, f.source.value) then f.source else None)
  }

  lemma ThinnedSelf(r: Roster, l: Ledger, f: Fence)
    requires Routing(r, l) && Aimed(r, f.source)
    ensures Thinned(r, l, f, r, l, f)
  {
    SubSelf(r.sources);
    forall w ensures ThinnedAt(l, r, l, w) {
      assert TargetAt(r, l.pending, l.retired, w);
    }
  }

  lemma ThinnedTransitive(r: Roster, l: Ledger, f: Fence, r': Roster, l': Ledger, f': Fence, s: Roster, m: Ledger,
                          g: Fence)
    requires Thinned(r, l, f, r', l', f') && Thinned(r', l', f', s, m, g)
    ensures Thinned(r, l, f, s, m, g)
  {
    SubTransitive(s.sources, r'.sources, r.sources);
    forall h | Live(s, h) ensures Live(r', h) {
      assert SubAt(s.sources, r'.sources, s.table[h].id);
    }
    forall w ensures ThinnedAt(l, s, m, w) {
      assert ThinnedAt(l, r', l', w) && ThinnedAt(l', s, m, w);
    }
  }

  lemma ThinnedOne(r: Roster, l: Ledger, f: Fence, h: Handle, l': Ledger, f': Fence)
    requires Routing(r, l) && Aimed(r, f.source) && Live(r, h)
    requires Partly(l'.pending, l.pending, h, {}) && Sub(l'.deadlines, l.deadlines)
    requires f' == f.(source := if f.source == Some(h) then None else f.source)
    ensures Thinned(r, l, f, Without(r, h), l', f')
  {
    SubLess(r.sources, r.table[h].id);
    forall w ensures ThinnedAt(l, Without(r, h), l', w) {
      assert TargetAt(r, l.pending, l.retired, w) && PartlyAt(l'.pending, l.pending, h, {}, w);
      assert SubAt(l'.deadlines, l.deadlines, w);
    }
  }

  lemma SiftedStart(r: Roster, list: seq<Publication>)
    ensures Sifted(r, list, r.sources.Keys, r)
  {
    forall id ensures SiftedAt(r, list, r.sources.Keys, r, id) {
    }
  }

  lemma SiftedStep(r: Roster, list: seq<Publication>, todo: set<string>, r1: Roster, r2: Roster, id: string)
    requires Sub(r1.sources, r.sources) && r1.table == r.table && id in todo && id in r1.sources
    requires Sifted(r, list, todo, r1)
    requires r2 == if StillShared(r1, list, id) then r1 else r1.(sources := r1.sources - {id})
    ensures Sifted(r, list, todo - {id}, r2)
  {
    assert SubAt(r1.sources, r.sources, id);
    forall k ensures SiftedAt(r, list, todo - {id}, r2, k) {
      assert SiftedAt(r, list, todo, r1, k);
    }
  }

  lemma SiftedTodo(r: Roster, list: seq<Publication>, todo: set<string>, r': Roster, id: string)
    requires Sifted(r, list, todo, r') && id in todo && id in r.sources
    ensures id in r'.sources
  {
    assert SiftedAt(r, list, todo, r', id);
  }

  lemma SiftedAll(r: Roster, list: seq<Publication>, r': Roster)
    requires Sub(r'.sources, r.sources) && r'.table == r.table && Sifted(r, list, {}, r')
    ensures forall id :: id in r'.sources ==> StillShared(r', list, id)
  {
    forall id | id in r'.sources ensures StillShared(r', list, id) {
      assert SiftedAt(r, list, {}, r', id) && SubAt(r'.sources, r.sources, id);
    }
  }

  lemma TimelyStart(r: Roster, now: nat)
    ensures Timely(r, now, r.sources.Keys, r)
  {
    forall id ensures TimelyAt(r, now, r.sources.Keys, r, id) {
    }
  }

  lemma TimelyTodo(r: Roster, now: nat, todo: set<string>, r': Roster, id: string)
    requires Timely(r, now, todo, r') && id in todo && id in r.sources
    ensures id in r'.sources
  {
    assert TimelyAt(r, now, todo, r', id);
  }

  lemma TimelyStep(r: Roster, now: nat, todo: set<string>, r1: Roster, r2: Roster, id: string)
    requires Sub(r1.sources, r.sources) && r1.table == r.table && id in todo && id in r1.sources
    requires Timely(r, now, todo, r1)
    requires r2 == if LateAt(r1, now, id) then r1.(sources := r1.sources - {id}) else r1
    ensures Timely(r, now, todo - {id}, r2)
  {
    assert SubAt(r1.sources, r.sources, id);
    forall k ensures TimelyAt(r, now, todo - {id}, r2, k) {
      assert TimelyAt(r, now, todo, r1, k);
    }
  }

  /** Every request that is outstanding has a deadline. */
  ghost predicate Dated(l: Ledger) {
    forall w :: DatedAt(l, w)
  }

  ghost predicate DatedAt(l: Ledger, w: WireId) {
    w in l.deadlines <==> w in l.pending
  }

  lemma BooksDated(l: Ledger)
    requires Books(l.pending, l.deadlines, l.requestIDs, l.retired, l.ordinary, l.internal)
    ensures Dated(l)
  {
    forall w ensures DatedAt(l, w) {
      assert BookAt(l.pending, l.deadlines, l.requestIDs, l.retired, l.ordinary, l.internal, w);
    }
  }

  ghost predicate SameIds(t: map<Handle, Backend>, u: map<Handle, Backend>) {
    forall h :: SameIdAt(t, u, h)
  }

  ghost predicate SameIdAt(t: map<Handle, Backend>, u: map<Handle, Backend>, h: Handle) {
    (h in t <==> h in u) && (h in t ==> u[h].id == t[h].id)
  }

  /** The requests that were not replied to in time are off the books, but for those `todo`, and so are the
      sources that have not acknowledged a transition in time, with all requests to them. */
  ghost predicate Chased(r: Roster, l: Ledger, f: Fence, now: nat, todo: set<WireId>, r': Roster, l': Ledger,
                         f': Fence) {
    && SameIds(r.table, r'.table) && Sub(r'.sources, r.sources)
    && (forall id :: ChasedId(r, l, now, todo, r', id))
    && (forall w :: ChasedAt(l, now, todo, r', l', w))
    && f' == Unwaiting(f, r')
  }

  ghost predicate ChasedId(r: Roster, l: Ledger, now: nat, todo: set<WireId>, r': Roster, id: string) {
    id in r'.sources <==> id in r.sources && !Owes(r, l, now, todo, id)
  }

  ghost predicate ChasedAt(l: Ledger, now: nat, todo: set<WireId>, r': Roster, l': Ledger, w: WireId) {
    && (w in l'.pending <==>
          && w in l.pending && w in l.deadlines && (w in todo || l.deadlines[w] > now)
          && Live(r', l.pending[w]))
    && (w in l'.pending ==> l'.pending[w] == l.pending[w])
    && SubAt(l'.deadlines, l.deadlines, w)
  }

  lemma ChasedStart(r: Roster, l: Ledger, f: Fence, now: nat)
    requires Routing(r, l) && Aimed(r, f.source) && Dated(l)
    ensures Chased(r, l, f, now, l.deadlines.Keys, r, l, f)
  {
    var todo := l.deadlines.Keys;
    SubSelf(r.sources);
    forall h ensures SameIdAt(r.table, r.table, h) {
    }
    forall id ensures ChasedId(r, l, now, todo, r, id) {
    }
    forall w ensures ChasedAt(l, now, todo, r, l, w) {
      assert TargetAt(r, l.pending, l.retired, w) && DatedAt(l, w);
    }
  }

  /** One request was not replied to in time. */
  ghost predicate Caught(r: Roster, l: Ledger, f: Fence, w: WireId, r': Roster, l': Ledger, f': Fence)
    requires w in l.pending
  {
    var h := l.pending[w];
    && SameIds(r.table, r'.table) && h in r.table
    && r'.sources == (if w.Internal? then r.sources - {r.table[h].id} else r.sources)
    && (forall v :: CaughtAt(l, w, l', v))
    && f' == f.(source := if w.Internal? && f.source == Some(h) then None else f.source)
  }

  ghost predicate CaughtAt(l: Ledger, w: WireId, l': Ledger, v: WireId)
    requires w in l.pending
  {
    && (v in l'.pending <==> v in l.pending && v != w && (w.Internal? ==> l.pending[v] != l.pending[w]))
    && (v in l'.pending ==> l'.pending[v] == l.pending[v])
    && SubAt(l'.deadlines, l.deadlines, v)
  }

  lemma CaughtAlone(r: Roster, l: Ledger, f: Fence, h: Handle, w: WireId, l': Ledger)
    requires w in l.pending && l.pending[w] == h && h in r.table && w.Ordinary?
    requires l' == Closed(l, w).(retired := l'.retired)
    ensures Caught(r, l, f, w, Cleared(r, h, w), l', f)
  {
    forall v ensures CaughtAt(l, w, l', v) {
    }
    forall x ensures SameIdAt(r.table, Cleared(r, h, w).table, x) {
    }
  }

  lemma CaughtWith(r: Roster, l: Ledger, f: Fence, h: Handle, w: WireId, l': Ledger, f': Fence)
    requires w in l.pending && l.pending[w] == h && Live(r, h) && w.Internal? && Aimed(r, f.source)
    requires Partly(l'.pending, l.pending - {w}, h, {})
    requires Thinned(Cleared(r, h, w), Closed(l, w), f, Without(Cleared(r, h, w), h), l', f')
    ensures Caught(r, l, f, w, Without(Cleared(r, h, w), h), l', f')
  {
    var r' := Without(Cleared(r, h, w), h);
    forall v ensures CaughtAt(l, w, l', v) {
      assert ThinnedAt(Closed(l, w), r', l', v) && PartlyAt(l'.pending, l.pending - {w}, h, {}, v);
      assert SubAt(l'.deadlines, l.deadlines - {w}, v);
    }
    forall x ensures SameIdAt(r.table, r'.table, x) {
    }
  }

  /** The state that chasing goes on from. */
  ghost predicate Chasing(r: Roster, l: Ledger, f: Fence) {
    Routing(r, l) && Dated(l) && Aimed(r, f.source)
  }

  lemma ChasedStep(r: Roster, l: Ledger, f: Fence, now: nat, todo: set<WireId>, r1: Roster, l1: Ledger, f1: Fence,
                   w: WireId, r2: Roster, l2: Ledger, f2: Fence)
    requires Chasing(r, l, f) && Chased(r, l, f, now, todo, r1, l1, f1) && w in todo
    requires w in l1.pending && w in l1.deadlines && now >= l1.deadlines[w] && Caught(r1, l1, f1, w, r2, l2, f2)
    ensures Chased(r, l, f, now, todo - {w}, r2, l2, f2)
  {
    var h := l.pending[w];
    assert ChasedAt(l, now, todo, r1, l1, w) && SameIdAt(r.table, r1.table, h);
    ChasedRest(r, l, f, now, todo, r1, l1, w, r2);
    forall id ensures ChasedId(r, l, now, todo - {w}, r2, id) {
      assert ChasedId(r, l, now, todo, r1, id);
      OwesMore(r, l, now, todo, w, id);
    }
    forall v ensures ChasedAt(l, now, todo - {w}, r2, l2, v) {
      assert ChasedAt(l, now, todo, r1, l1, v) && CaughtAt(l1, w, l2, v) && DatedAt(l, v);
      assert v in l.pending ==> SameIdAt(r1.table, r2.table, l.pending[v]);
    }
    if f.source.Some? {
      assert SameIdAt(r1.table, r2.table, f.source.value);
    }
  }

  lemma ChasedRest(r: Roster, l: Ledger, f: Fence, now: nat, todo: set<WireId>, r1: Roster, l1: Ledger, w: WireId,
                   r2: Roster)
    requires SameIds(r.table, r1.table) && SameIds(r1.table, r2.table) && Sub(r1.sources, r.sources)
    requires w in l1.pending && l1.pending[w] in r1.table
    requires r2.sources == (if w.Internal? then r1.sources - {r1.table[l1.pending[w]].id} else r1.sources)
    ensures SameIds(r.table, r2.table) && Sub(r2.sources, r.sources)
  {
    forall h ensures SameIdAt(r.table, r2.table, h) {
      assert SameIdAt(r.table, r1.table, h) && SameIdAt(r1.table, r2.table, h);
    }
    if w.Internal? {
      SubStill(r1.sources, r.sources, r1.table[l1.pending[w]].id);
    }
  }

  lemma OwesMore(r: Roster, l: Ledger, now: nat, todo: set<WireId>, w: WireId, id: string)
    ensures Owes(r, l, now, todo - {w}, id) <==> Owes(r, l, now, todo, id) || OwesAt(r, l, now, w, id)
  {
    if Owes(r, l, now, todo, id) {
      var v :| v !in todo && OwesAt(r, l, now, v, id);
      assert v !in todo - {w};
    }
    if OwesAt(r, l, now, w, id) {
      assert w !in todo - {w};
    }
  }

  /** A request that was replied to, or closed otherwise, or is not overdue. */
  lemma ChasedPast(r: Roster, l: Ledger, f: Fence, now: nat, todo: set<WireId>, r1: Roster, l1: Ledger, f1: Fence,
                   w: WireId)
    requires Chasing(r, l, f) && Chased(r, l, f, now, todo, r1, l1, f1) && w in todo && DatedAt(l1, w)
    requires w in l1.deadlines ==> l1.deadlines[w] > now
    ensures Chased(r, l, f, now, todo - {w}, r1, l1, f1)
  {
    assert ChasedAt(l, now, todo, r1, l1, w);
    forall id ensures ChasedId(r, l, now, todo - {w}, r1, id) {
      assert ChasedId(r, l, now, todo, r1, id);
      OwesMore(r, l, now, todo, w, id);
      if OwesAt(r, l, now, w, id) {
        assert TargetAt(r, l.pending, l.retired, w) && SubAt(r1.sources, r.sources, id);
        assert SameIdAt(r.table, r1.table, l.pending[w]);
      }
    }
    forall v ensures ChasedAt(l, now, todo - {w}, r1, l1, v) {
      assert ChasedAt(l, now, todo, r1, l1, v);
    }
  }

  /** What a tick leaves: exactly the sources that are shared still, have announced themselves in time, have
      confirmed a fence in time, and have acknowledged every transition in time; and exactly the requests to
      them whose time is not over. */
  ghost predicate Swept(r: Roster, l: Ledger, f: Fence, list: seq<Publication>, now: nat, r': Roster, l': Ledger,
                        f': Fence) {
    && Sub(r'.sources, r.sources)
    && (forall id :: SweptAt(r, l, f, list, now, r', id))
    && (forall w :: ChasedAt(l, now, {}, r', l', w))
    && f' == Unwaiting(f, r')
  }

  ghost predicate SweptAt(r: Roster, l: Ledger, f: Fence, list: seq<Publication>, now: nat, r': Roster, id: string) {
    id in r'.sources <==>
      && id in r.sources && StillShared(r, list, id) && !LateAt(r, now, id)
      && id !in UnpresentedIds(r, f, now) && !Owes(r, l, now, {}, id)
  }

  lemma SweptBy(r: Roster, l: Ledger, f: Fence, r1: Roster, r2: Roster, r3: Roster, l3: Ledger, f2: Fence, f3: Fence,
                list: seq<Publication>, now: nat, r': Roster, l': Ledger, f': Fence)
    requires Chasing(r, l, f) && Dated(l3) && Thinned(r, l, f, r3, l3, f3)
    requires Sub(r1.sources, r.sources) && r1.table == r.table && Sifted(r, list, {}, r1)
    requires Sub(r2.sources, r1.sources) && r2.table == r.table && f2 == Unwaiting(f, r2)
    requires Timely(r1, now, {}, r2)
    requires r3.sources.Keys == r2.sources.Keys - UnpresentedIds(r2, f2, now)
    requires Chased(r3, l3, f3, now, {}, r', l', f')
    ensures Swept(r, l, f, list, now, r', l', f')
  {
    SubTransitive(r'.sources, r3.sources, r.sources);
    forall h | Live(r', h) ensures Live(r3, h) {
      assert SameIdAt(r3.table, r'.table, h) && SubAt(r'.sources, r3.sources, r'.table[h].id);
    }
    forall id ensures SweptAt(r, l, f, list, now, r', id) {
      assert ChasedId(r3, l3, now, {}, r', id) && SubAt(r3.sources, r.sources, id);
      assert SubAt(r1.sources, r.sources, id) && SubAt(r2.sources, r1.sources, id);
      assert SiftedAt(r, list, {}, r1, id) && TimelyAt(r1, now, {}, r2, id);
      if id in r3.sources {
        OwesThinned(r, l, f, r3, l3, f3, now, id);
      }
    }
    forall w ensures ChasedAt(l, now, {}, r', l', w) {
      assert ThinnedAt(l, r3, l3, w) && ChasedAt(l3, now, {}, r', l', w) && DatedAt(l, w) && DatedAt(l3, w);
    }
  }

  /** A source that is there still owes what it owed. */
  lemma OwesThinned(r: Roster, l: Ledger, f: Fence, r3: Roster, l3: Ledger, f3: Fence, now: nat, id: string)
    requires Chasing(r, l, f) && Dated(l3) && Thinned(r, l, f, r3, l3, f3) && id in r3.sources
    ensures Owes(r3, l3, now, {}, id) <==> Owes(r, l, now, {}, id)
  {
    forall w ensures OwesAt(r3, l3, now, w, id) <==> OwesAt(r, l, now, w, id) {
      assert ThinnedAt(l, r3, l3, w) && DatedAt(l, w) && DatedAt(l3, w);
      assert TargetAt(r, l.pending, l.retired, w) && SubAt(r3.sources, r.sources, id);
    }
  }

  /** What a tick comes to before it is published: when it is, which sources, requests and fence it leaves,
      what is open then, and on record of failures. */
  datatype Round = Round(now: nat, left: Roster, books: Ledger, wait: Fence, open: Roster, records: map<string, Record>,
                         history: Chronicle, clock: nat)

  /** A tick sweeps, then everything that is shared is open or withheld by its failures, which are what the
      chronicle says; and by being published, no other source comes. */
  ghost predicate Ticking(r: Roster, l: Ledger, f: Fence, c: Chronicle, list: seq<Publication>, x: Round, r': Roster,
                          c': Chronicle) {
    && Swept(r, l, f, list, x.now, x.left, x.books, x.wait)
    && Offered(list, |list|, x.left.sources.Keys, x.open.sources.Keys, x.records, x.now)
    && Recovered(x.open, x.records, x.history, x.clock)
    && Continues(x.history, And(c, Ticked(list))) && Continues(c', x.history)
    && Sub(r'.sources, x.open.sources)
  }
}
