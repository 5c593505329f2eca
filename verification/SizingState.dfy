/** The state of shared terminal sizing and what is always true of it. One controller per pane keeps a
    terminal's size for all viewers of a publication. Controllers are counted, linger for a while when
    nobody uses them, and share a process-wide budget with those of other publications. */
module SizingState {
  import opened Wire

  const CAPACITY := 32
  const MAX_NAVIGATIONS := 64

  type Handle = nat
  type Viewer = nat
  type Pane = string
  type Tab = string

  /** A controller: how many viewers use it, how often its idling began or ended, whether it was retired
      or its helper has ended, and whether it belongs to this publication. */
  datatype Controller = Controller(pane: Pane, refs: nat, epoch: nat, retired: bool, dead: bool, mine: bool)

  /** What all publications of the process share: the controllers, those that are idle, and those whose
      helpers occupy a slot. */
  datatype Pool = Pool(table: map<Handle, Controller>, idle: set<Handle>, slots: set<Handle>)

  /** A navigation that the terminal program has not been seen to complete. */
  datatype Navigation = Navigation(tab: Tab, sequence: nat, acknowledged: bool, floor: nat)

  /** What a viewer's own shell shows: its displayed tab, and the tabs of workspaces and panes. */
  datatype Snapshot = Snapshot(boot: bytes, revision: nat, tab: Tab, workspaces: seq<(string, Tab)>,
                               panes: seq<(Pane, Tab)>)

  datatype View = View(
    active: bool,
    requestedActive: bool,
    gone: bool,
    snapshot: Snapshot,
    catalogSeen: bool,
    held: map<Pane, Handle>,
    pending: map<bytes, Navigation>,
    sequence: nat,
    initial: bool,
    initialized: bool,
    activity: nat,
    hide: map<bytes, nat>)

  /** A scheduled retirement. It may come arbitrarily late. */
  datatype Timer = Timer(pane: Pane, controller: Handle, epoch: nat)

  /** What is written to the terminal program for a viewer: its introduction, its requests, and the
      requests to show the surface that sizing makes of its own. */
  datatype Upward =
    | Hello
    | Request(boot: bytes, id: bytes, op: Operation)
    | Activate
    | Raise(sequence: nat)

  /** What a viewer's handler has left to do while it holds only the viewer's own lock: to pass something on,
      or to bring the view in line. Other viewers go on meanwhile. */
  datatype Duty =
    | Pass(sent: Upward)
    | Align

  /** What happens, in order: among it every view that was brought in line, with what it was then and the
      panes that were known; every write to the terminal program, with the view at that moment; every
      answer of the terminal program that a pane is gone; what a viewer says and is told, as far as its
      surface and its navigations go; every moment when navigations were gone through for those that are
      over; and what a viewer keeps before it lets go of everything else. */
  datatype SizingEvent =
    | Acquired(viewer: Viewer, pane: Pane, controller: Handle)
    | Released(viewer: Viewer, pane: Pane, controller: Handle)
    | Scheduled(controller: Handle, epoch: nat)
    | Stopped(controller: Handle)
    | Reconciling(viewer: Viewer)
    | Missing(pane: Pane)
    | Reconciled(viewer: Viewer, view: View, known: Option<set<Pane>>)
    | SentUp(viewer: Viewer, sent: Upward, view: View)
    | Introduced(viewer: Viewer, surface: bool)
    | Lit(viewer: Viewer)
    | Started(viewer: Viewer, id: bytes, tab: Tab, sequence: nat)
    | Replied(viewer: Viewer, id: bytes, refused: bool)
    | Reached(viewer: Viewer, sequence: nat, floor: nat)
    | Hid(viewer: Viewer)
    | Showed(viewer: Viewer, snapshot: Snapshot)
    | Tallied(viewer: Viewer)
    | Left(viewer: Viewer)
    | Keeping(viewer: Viewer, view: View, known: Option<set<Pane>>, keep: set<Pane>)

  /** Events, oldest first. */
  datatype Log = Empty | Then(earlier: Log, last: SizingEvent)

  /** The controller was not acquired since its retirement was scheduled in this epoch. */
  predicate QuietSince(log: Log, h: Handle, epoch: nat) {
    match log
    case Empty => false
    case Then(_, Scheduled(g, e)) => (g == h && e == epoch) || QuietSince(log.earlier, h, epoch)
    case Then(_, Acquired(_, _, g)) => g != h && QuietSince(log.earlier, h, epoch)
    case Then(_, _) => QuietSince(log.earlier, h, epoch)
  }

  predicate Prefix(earlier: Log, log: Log) {
    earlier == log || (log.Then? && Prefix(earlier, log.earlier))
  }

  /** Nothing was released since `base`. */
  predicate OnlyAcquires(log: Log, base: Log) {
    log == base || (log.Then? && !log.last.Released? && OnlyAcquires(log.earlier, base))
  }

  /** Nothing was acquired since `base`. */
  predicate OnlyReleases(log: Log, base: Log) {
    log == base || (log.Then? && !log.last.Acquired? && OnlyReleases(log.earlier, base))
  }

  // What was written --------------------------------------------------------------------------------

  /** The viewer acquired the pane by this controller, and since then has not released it, nor was the
      controller stopped. */
  predicate HeldIn(log: Log, v: Viewer, pane: Pane, h: Handle) {
    match log
    case Empty => false
    case Then(_, Acquired(u, k, g)) => (u == v && k == pane && g == h) || HeldIn(log.earlier, v, pane, h)
    case Then(_, Released(u, k, g)) => !(u == v && k == pane && g == h) && HeldIn(log.earlier, v, pane, h)
    case Then(_, Stopped(g)) => g != h && HeldIn(log.earlier, v, pane, h)
    case Then(_, _) => HeldIn(log.earlier, v, pane, h)
  }

  /** The terminal program said that the pane is gone since a view was last brought in line. */
  predicate GoneIn(log: Log, pane: Pane) {
    match log
    case Empty => false
    case Then(_, Missing(k)) => k == pane || GoneIn(log.earlier, pane)
    case Then(_, Reconciling(_)) => false
    case Then(_, _) => GoneIn(log.earlier, pane)
  }

  /** A write of an active view needs a pane: a navigation needs those of the tab that it leads to, and
      the first activation needs those of the displayed tab. */
  predicate Needs(view: View, known: Option<set<Pane>>, sent: Upward, pane: Pane) {
    && view.active && (known.Some? ==> pane in known.value)
    && Target(view.snapshot, sent) != ""
    && Listed(view.snapshot.panes, {Target(view.snapshot, sent)}, pane)
  }

  /** The tab that a write is about; none if it is for another boot, or about no tab. */
  function Target(s: Snapshot, sent: Upward): Tab {
    match sent
    case Request(boot, _, op) => if s.boot != [] && boot != s.boot then "" else Destination(s, op)
    case Activate => s.tab
    case _ => ""
  }

  /** The viewer acquired the pane by this controller, and since then has not released it. */
  predicate HeldBy(log: Log, v: Viewer, pane: Pane, h: Handle) {
    match log
    case Empty => false
    case Then(_, Acquired(u, k, g)) => (u == v && k == pane && g == h) || HeldBy(log.earlier, v, pane, h)
    case Then(_, Released(u, k, g)) => !(u == v && k == pane && g == h) && HeldBy(log.earlier, v, pane, h)
    case Then(_, _) => HeldBy(log.earlier, v, pane, h)
  }

  /** The viewer's handler begins to change, or changes, what the viewer holds. */
  predicate Touches(e: SizingEvent, v: Viewer) {
    (e.Acquired? || e.Released? || e.Reconciling?) && e.viewer == v
  }

  /** The view is as it was when it was last brought in line, but for the mark of its first snapshot, and
      what it holds has not been touched since. */
  ghost predicate Brought(log: Log, v: Viewer, view: View) {
    && log.Then?
    && if log.last.Reconciled? && log.last.viewer == v then log.last.view.(initial := view.initial) == view
       else !Touches(log.last, v) && Brought(log.earlier, v, view)
  }

  /** What is written for an active view about a tab is about one whose panes are to keep their size, and
      the view was brought in line before. */
  ghost predicate Permitted(log: Log, v: Viewer, view: View, sent: Upward) {
    view.active && Target(view.snapshot, sent) != "" ==>
      Target(view.snapshot, sent) in Tabs(view.snapshot.tab, view.pending) && Brought(log, v, view)
  }

  /** What is still to be written is permitted. */
  ghost predicate Ready(views: map<Viewer, View>, due: map<Viewer, Duty>, log: Log) {
    forall v :: ReadyAt(views, due, log, v)
  }

  ghost predicate ReadyAt(views: map<Viewer, View>, due: map<Viewer, Duty>, log: Log, v: Viewer) {
    v in due ==> v in views && (due[v].Pass? ==> Permitted(log, v, views[v], due[v].sent))
  }

  /** Every write was permitted, and every view that was brought in line held exactly what it was to hold, but
      for what was said to be gone. */
  ghost predicate Guarded(log: Log) {
    log.Then? ==> Guarded(log.earlier) && GuardedNow(log.earlier, log.last)
  }

  ghost predicate GuardedNow(before: Log, e: SizingEvent) {
    && (e.SentUp? ==> Permitted(before, e.viewer, e.view, e.sent))
    && (e.Reconciled? ==> forall pane :: GuardedAt(before, e, pane))
    && (e.Keeping? ==> Tracks(e.view, before, e.viewer) && forall pane :: KeptAt(before, e, pane))
    && (e.Released? ==> MayRelease(before, e.viewer, e.pane))
    && (e.Started? ==> Greeted(before, e.viewer) && Course(before, e.viewer, e.id).None?)
    && (e.Introduced? ==> !Greeted(before, e.viewer))
  }

  /** What a view is to hold is kept, but for what was said to be gone. */
  ghost predicate KeptAt(before: Log, e: SizingEvent, pane: Pane)
    requires e.Keeping?
  {
    Wants(e.view, e.known, pane) ==> pane in e.keep || GoneIn(before, pane)
  }

  ghost predicate GuardedAt(before: Log, e: SizingEvent, pane: Pane)
    requires e.Reconciled?
  {
    && (Wants(e.view, e.known, pane) ==>
          GoneIn(before, pane) || (pane in e.view.held && HeldIn(before, e.viewer, pane, e.view.held[pane])))
    && (pane in e.view.held ==> Wants(e.view, e.known, pane))
  }

  /** What a viewer holds by the registered controller, it acquired and did not release. */
  ghost predicate Logged(registry: map<Pane, Handle>, views: map<Viewer, View>, log: Log) {
    forall v, pane :: LoggedAt(registry, views, log, v, pane)
  }

  ghost predicate LoggedAt(registry: map<Pane, Handle>, views: map<Viewer, View>, log: Log, v: Viewer, pane: Pane) {
    v in views && Pins(registry, views[v], pane) ==> HeldIn(log, v, pane, registry[pane])
  }

  /** What counts as gone, the terminal program said to be gone. */
  ghost predicate Witnessed(gone: set<Pane>, log: Log) {
    forall pane :: WitnessedAt(gone, log, pane)
  }

  ghost predicate WitnessedAt(gone: set<Pane>, log: Log, pane: Pane) {
    pane in gone ==> GoneIn(log, pane)
  }

  // What became of a viewer -----------------------------------------------------------------------

  /** It changes what a viewer shows, or where it is going. */
  predicate Marks(e: SizingEvent, v: Viewer) {
    && (e.Introduced? || e.Lit? || e.Started? || e.Replied? || e.Reached? || e.Hid? || e.Showed? || e.Tallied?
        || e.Left?)
    && e.viewer == v
  }

  const NOTHING := Snapshot([], 0, "", [], [])

  /** What the viewer's shell showed last. */
  function Shown(log: Log, v: Viewer): Snapshot {
    match log
    case Empty => NOTHING
    case Then(_, e) => if e.Showed? && e.viewer == v then e.snapshot else Shown(log.earlier, v)
  }

  /** The viewer's surface is on. */
  predicate Showing(log: Log, v: Viewer) {
    log.Then? &&
    if Marks(log.last, v) && log.last.Introduced? then log.last.surface
    else if Marks(log.last, v) && log.last.Lit? then true
    else if Marks(log.last, v) && (log.last.Hid? || log.last.Left?) then false
    else Showing(log.earlier, v)
  }

  predicate Greeted(log: Log, v: Viewer) {
    log.Then? && ((log.last.Introduced? && log.last.viewer == v) || Greeted(log.earlier, v))
  }

  /** The navigation that goes by this identifier, if one does. */
  function Course(log: Log, v: Viewer, id: bytes): Option<Navigation> {
    match log
    case Empty => None
    case Then(_, e) =>
      if Marks(e, v) then Passed(Course(log.earlier, v, id), e, id, Shown(log.earlier, v))
      else Course(log.earlier, v, id)
  }

  /** What an event of its viewer makes of a navigation, while this is shown. */
  function Passed(n: Option<Navigation>, e: SizingEvent, id: bytes, shown: Snapshot): Option<Navigation> {
    if e.Started? && e.id == id then Some(Navigation(e.tab, e.sequence, false, 0))
    else if n.None? || e.Hid? then None
    else if e.Replied? && e.id == id then if e.refused then None else Some(n.value.(acknowledged := true))
    else if e.Reached? && e.sequence == n.value.sequence then Some(n.value.(floor := e.floor))
    else if e.Tallied? && n.value.acknowledged && (shown.tab == n.value.tab || 0 < n.value.floor <= shown.revision) then
      None
    else n
  }

  /** A view shows and navigates as the log has it. */
  ghost predicate Tracks(view: View, log: Log, v: Viewer) {
    && view.snapshot == Shown(log, v) && view.active == Showing(log, v) && view.initialized == Greeted(log, v)
    && forall id :: TracksAt(view.pending, log, v, id)
  }

  ghost predicate TracksAt(pending: map<bytes, Navigation>, log: Log, v: Viewer, id: bytes) {
    Course(log, v, id) == if id in pending then Some(pending[id]) else None
  }

  function NewView(): View {
    View(false, false, false, NOTHING, false, map[], map[], 0, false, false, 0, map[])
  }

  ghost predicate Tracked(views: map<Viewer, View>, log: Log) {
    forall v :: TrackedAt(views, log, v)
  }

  ghost predicate TrackedAt(views: map<Viewer, View>, log: Log, v: Viewer) {
    Tracks(ViewOf(views, v), log, v)
  }

  /** The view of a viewer, that of a new one if there is none yet. */
  function ViewOf(views: map<Viewer, View>, v: Viewer): View {
    if v in views then views[v] else NewView()
  }

  /** The viewer has left, or it has decided what to keep, and this is not part of it; and nothing has changed
      for it since. */
  ghost predicate MayRelease(log: Log, v: Viewer, pane: Pane) {
    && log.Then?
    && if log.last.Keeping? && log.last.viewer == v then pane !in log.last.keep
       else if Marks(log.last, v) then log.last.Left?
       else MayRelease(log.earlier, v, pane)
  }

  // The end of a navigation -----------------------------------------------------------------------

  /** Since `base`, the navigation was answered without an error. */
  predicate AnsweredSince(log: Log, base: Log, v: Viewer, id: bytes) {
    log != base && log.Then? && (log.last == Replied(v, id, false) || AnsweredSince(log.earlier, base, v, id))
  }

  /** The revision that the last barrier of this sequence since `base` came back with, 0 if none did. */
  function FloorSince(log: Log, base: Log, v: Viewer, sequence: nat): nat {
    if log == base || log.Empty? then 0
    else if log.last.Reached? && log.last.viewer == v && log.last.sequence == sequence then log.last.floor
    else FloorSince(log.earlier, base, v, sequence)
  }

  /** The event ends the navigation that began at `base`: the viewer leaves or its surface is hidden; the
      navigation is refused; or it was answered, and its tab or a state as new as its barrier is shown. */
  predicate Ends(before: Log, e: SizingEvent, base: Log, v: Viewer, id: bytes, tab: Tab, sequence: nat) {
    || e == Left(v) || e == Hid(v) || e == Replied(v, id, true)
    || (&& e == Tallied(v) && AnsweredSince(before, base, v, id)
        && (Shown(before, v).tab == tab || 0 < FloorSince(before, base, v, sequence) <= Shown(before, v).revision))
  }

  predicate EndedSince(log: Log, base: Log, v: Viewer, id: bytes, tab: Tab, sequence: nat) {
    && log != base && log.Then?
    && (Ends(log.earlier, log.last, base, v, id, tab, sequence) || EndedSince(log.earlier, base, v, id, tab, sequence))
  }

  /** At some moment since `base`, that one included, the viewer's surface was on. */
  predicate ShowingSince(log: Log, base: Log, v: Viewer) {
    Showing(log, v) || (log != base && log.Then? && ShowingSince(log.earlier, base, v))
  }

  // The pool --------------------------------------------------------------------------------------

  /** Exactly the controllers whose helpers run occupy slots. */
  ghost predicate Pooled(p: Pool) {
    forall h :: PooledAt(p, h)
  }

  ghost predicate PooledAt(p: Pool, h: Handle) {
    && (h in p.slots <==> h in p.table && !p.table[h].dead)
    && (h in p.idle ==> h in p.table && !p.table[h].retired)
    && (h in p.table && p.table[h].retired ==> p.table[h].dead)
  }

  ghost predicate WithinCapacity(p: Pool) {
    forall n :: WithinCapacityOf(p, n)
  }

  ghost predicate WithinCapacityOf(p: Pool, n: nat) {
    CAPACITY <= n ==> |p.slots| <= n
  }

  /** How a controller may change while others act: its helper may end, and if it is idle, it may be
      retired for good. */
  predicate Evolves(b: Controller, c: Controller) {
    c.pane == b.pane && c.refs == b.refs && c.epoch == b.epoch && c.mine == b.mine && (b.dead ==> c.dead)
  }

  /** What one side may do to the controllers of the other: take idle ones out of the pool, which retires
      them and ends their helpers. */
  ghost predicate Interferes(p: Pool, q: Pool, mine: bool) {
    forall h :: InterferesAt(p, q, mine, h)
  }

  ghost predicate InterferesAt(p: Pool, q: Pool, mine: bool, h: Handle) {
    && (h in p.table && p.table[h].mine == mine ==>
          && h in q.table && Evolves(p.table[h], q.table[h])
          && (h in q.idle ==> h in p.idle)
          && (q.table[h].retired <==> p.table[h].retired || (h in p.idle && h !in q.idle)))
    && (h in p.table ==> h in q.table && q.table[h].mine == p.table[h].mine)
    && (h in q.table && h !in p.table ==> q.table[h].mine != mine)
  }

  // References ------------------------------------------------------------------------------------

  /** The viewers that hold a controller for a pane. */
  ghost function Holders(views: map<Viewer, View>, pane: Pane, h: Handle): set<Viewer> {
    set v | v in views && pane in views[v].held && views[v].held[pane] == h
  }

  /** Every registered controller counts exactly the viewers that hold it, and is not retired while any
      does. */
  ghost predicate Counted(registry: map<Pane, Handle>, table: map<Handle, Controller>, views: map<Viewer, View>) {
    forall pane :: CountedAt(registry, table, views, pane)
  }

  ghost predicate CountedAt(registry: map<Pane, Handle>, table: map<Handle, Controller>, views: map<Viewer, View>,
                            pane: Pane) {
    pane in registry ==>
      && registry[pane] in table
      && table[registry[pane]].pane == pane && table[registry[pane]].mine
      && table[registry[pane]].refs == |Holders(views, pane, registry[pane])|
      && (table[registry[pane]].refs > 0 ==> !table[registry[pane]].retired)
  }

  /** Our idle controllers are registered, and nobody uses them. */
  ghost predicate Idle(registry: map<Pane, Handle>, p: Pool) {
    forall h :: IdleAt(registry, p, h)
  }

  ghost predicate IdleAt(registry: map<Pane, Handle>, p: Pool, h: Handle) {
    h in p.idle && h in p.table && p.table[h].mine ==>
      p.table[h].refs == 0 && p.table[h].pane in registry && registry[p.table[h].pane] == h
  }

  /** A viewer holds only controllers that were made for the pane. */
  ghost predicate Held(table: map<Handle, Controller>, views: map<Viewer, View>) {
    forall v, pane :: HeldAt(table, views, v, pane)
  }

  ghost predicate HeldAt(table: map<Handle, Controller>, views: map<Viewer, View>, v: Viewer, pane: Pane) {
    v in views && pane in views[v].held ==>
      views[v].held[pane] in table && table[views[v].held[pane]].pane == pane && table[views[v].held[pane]].mine
  }

  /** A registered controller that nobody uses has been quiet since its retirement was scheduled. */
  ghost predicate Lingering(registry: map<Pane, Handle>, table: map<Handle, Controller>, log: Log) {
    forall pane :: LingeringAt(registry, table, log, pane)
  }

  ghost predicate LingeringAt(registry: map<Pane, Handle>, table: map<Handle, Controller>, log: Log, pane: Pane) {
    pane in registry && registry[pane] in table && table[registry[pane]].refs == 0 ==>
      QuietSince(log, registry[pane], table[registry[pane]].epoch)
  }

  // Views -----------------------------------------------------------------------------------------

  /** A view whose surface was last requested is active, until it is gone. Only the latest request to
      hide it can end that. */
  ghost predicate Requested(views: map<Viewer, View>) {
    forall v :: RequestedAt(views, v)
  }

  ghost predicate RequestedAt(views: map<Viewer, View>, v: Viewer) {
    v in views ==> ViewSound(views[v])
  }

  ghost predicate ViewSound(v: View) {
    && (v.requestedActive && !v.gone ==> v.active)
    && (v.gone ==> !v.active)
    && (!v.initialized ==> v.hide == map[])
    && (forall id :: id in v.hide ==> v.hide[id] <= v.activity && (v.hide[id] == v.activity ==> !v.requestedActive))
  }

  /** The tabs whose panes are to keep their size: the displayed one and those being navigated to. */
  function Tabs(displayed: Tab, pending: map<bytes, Navigation>): set<Tab> {
    {displayed} + set id | id in pending :: pending[id].tab
  }

  /** A pane is to keep its size for a view. */
  predicate Wants(v: View, known: Option<set<Pane>>, pane: Pane) {
    && v.active
    && (known.Some? ==> pane in known.value)
    && Listed(v.snapshot.panes, Tabs(v.snapshot.tab, v.pending), pane)
  }

  /** A pane is on one of the tabs. */
  predicate Listed(panes: seq<(Pane, Tab)>, tabs: set<Tab>, pane: Pane) {
    exists i :: 0 <= i < |panes| && panes[i].0 == pane && panes[i].1 in tabs
  }

  /** What a viewer asks of its shell, as far as sizing has to know. */
  datatype Operation =
    | SetSurface(wanted: Option<bool>)
    | FocusTab(tab: Tab)
    | FocusPane(pane: Pane)
    | FocusWorkspace(workspace: string)
    | Plain

  /** The tab of the first entry with this name; no tab if there is none. */
  function TabOf(entries: seq<(string, Tab)>, name: string): Tab {
    if entries == [] then "" else if entries[0].0 == name then entries[0].1 else TabOf(entries[1..], name)
  }

  /** The tab that an operation navigates to; no tab if it does not navigate. */
  function Destination(s: Snapshot, op: Operation): Tab {
    match op
    case FocusTab(tab) => tab
    case FocusPane(pane) => TabOf(s.panes, pane)
    case FocusWorkspace(workspace) => TabOf(s.workspaces, workspace)
    case _ => ""
  }

  /** A navigation is over once it was acknowledged and the displayed state is as new as the response, or
      shows its tab. */
  predicate Over(n: Navigation, s: Snapshot) {
    n.acknowledged && ((n.floor > 0 && s.revision >= n.floor) || s.tab == n.tab)
  }

  /** A snapshot of the same shell that is older than the one shown. */
  predicate Stale(shown: Snapshot, s: Snapshot) {
    shown.boot == s.boot && s.revision < shown.revision
  }

  /** A view without the navigations that are over. */
  function Settled(v: View): View {
    v.(pending := map id | id in v.pending && !Over(v.pending[id], v.snapshot) :: v.pending[id])
  }

  /** Who a response is for: a request of the viewer, or one of the sizing's own. */
  datatype RequestId = Own(text: bytes) | Activation | Barrier(sequence: nat)

  datatype Response = Garbled | Refused | Done(revision: nat)

  /** A view holds a pane by its registered controller. */
  predicate Pins(registry: map<Pane, Handle>, v: View, pane: Pane) {
    pane in v.held && pane in registry && v.held[pane] == registry[pane]
  }
}
