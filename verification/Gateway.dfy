/** The session of the aggregate gateway: several sources behind one virtual endpoint. One loop owns
    all of its state, and every write may fail. A failed write to a source drops the source and
    publishes again, in the middle of whatever was being done. */
module Gateway {
  import opened Wire
  import opened Namespace
  import opened GatewayState
  import opened GatewayLaws
  import opened Catalogs
  import Grammar
  import Surfaces
  import Screens
  import Endpoint
  import Viewing

  /** How handling a message ended: normally, with the end of the session, or with a failure of the
      source that it came from. */
  datatype Result =
    | Fine
    | Ended
    | Upstream(fault: Fault)

  /** A message from a source, as decoded. A screen frame is still in bytes. */
  datatype ServerFrame =
    | Garbled
    | Closing
    | Ignored
    | Effect
    | Welcome(methods: set<bytes>)
    | Announcement(boot: bytes, revision: nat, body: Json)
    | Ready(token: bytes)
    | Scene(frame: bytes)
    | Chunk(boot: bytes, id: bytes, final: bool, data: bytes)

  /** A message from the viewer, as decoded. */
  datatype ViewerFrame =
    | Malformed
    | Bye
    | Silent
    | Sync(token: bytes)
    | Ping(data: bytes)
    | Input(tag: nat, id: bytes, rest: bytes)
    | Call(boot: bytes, request: Json)
    | Resize(columns: nat, rows: nat)
    | Broadcast(payload: bytes)
    | ToActive(payload: bytes)

  /** What the loop of the session takes in, one at a time. */
  datatype Event =
    | Tick(catalog: seq<Publication>)
    | FromViewer(frame: ViewerFrame)
    | ViewerGone
    | FromSource(source: Handle, message: ServerFrame)
    | SourceOpened(source: Handle)
    | SourceFailed(source: Handle, fault: Fault)

  /** A tick brings everything that is shared, in any order. It comes from a map by identifier, and so without
      doubles. */
  predicate Proper(e: Event) {
    e.Tick? ==> Distinct(e.catalog)
  }

  class Session {
    const boot: bytes
    const parse: bytes -> Option<Json>
    const prefixOf: (string, string, bytes) -> bytes

    var roster: Roster
    var next: Handle
    var recovery: map<string, Record>
    var stage: Stage
    var ledger: Ledger
    var fence: Fence
    var clock: nat
    var cancelled: bool

    ghost var past: Past
    ghost var history: Chronicle

    // Invariants ----------------------------------------------------------------------------------

    /** All but what the viewer sees. */
    ghost predicate Base()
      reads this`roster, this`next, this`stage, this`ledger, this`fence, this`past
    {
      var all :=
        && Balanced(ledger, past, roster.table, parse)
        && Presence(roster, next, prefixOf, stage.active, fence)
        && Routing(roster, ledger)
        && Layouts(roster, fence, past)
        && Framed();
      all
    }

    ghost predicate Framed()
      reads this`roster, this`stage
    {
      && |boot| <= MAX_FRAME
      && stage.rendered.revision <= stage.revision
      && (stage.rendered.source.Some? ==> stage.rendered.source.value in roster.table)
    }

    /** The viewer has the view of what was last rendered, while its source still stands there. */
    ghost predicate Shows()
      reads this`roster, this`stage, this`past
    {
      var all := Shown(past.broken, roster, boot, stage.revision, stage.surfaceRevision, stage.rendered, past.viewer);
      all
    }

    /** What is recorded of the past of operations, of failures and of transitions. */
    ghost predicate Recalls()
      reads this`roster, this`ledger, this`past, this`recovery, this`history, this`clock
    {
      var all :=
        && Excused(past.lost, past.received, parse)
        && Recovered(roster, recovery, history, clock)
        && Unanswered(roster.sources, ledger.pending, history)
        && Heeded(history, past.received, ledger.pending, ledger.internal, parse);
      all
    }

    /** What holds after every step, even within a nested publication. */
    ghost predicate Valid()
      reads this
    {
      var all := Base() && Shows() && Recalls();
      all
    }

    /** The same, but that a source which is about to be dropped may owe acknowledgements that are not
        waited for any more. */
    ghost predicate ValidBut(h: Handle)
      reads this
    {
      var all :=
        && Base() && Shows()
        && Excused(past.lost, past.received, parse)
        && Recovered(roster, recovery, history, clock)
        && UnansweredBut(roster.sources, ledger.pending, history, h)
        && Heeded(history, past.received, ledger.pending, ledger.internal, parse);
      all
    }

    lemma SparesOne(h: Handle)
      requires Valid()
      ensures ValidBut(h)
    {
      UnansweredSpare(roster.sources, ledger.pending, history, h);
    }

    ghost predicate Electing()
      reads this`roster, this`stage, this`past
    {
      var all := Elected(past.broken, roster, stage.active);
      all
    }

    /** What also holds between events. */
    ghost predicate Calm()
      reads this`roster, this`stage, this`fence, this`ledger, this`past
    {
      Poised(roster, stage, fence, ledger, boot, past.broken, past.latest)
    }

    /** Of that, what holds even while something is still to be presented. */
    ghost predicate Resting()
      reads this`roster, this`stage, this`fence, this`past
    {
      Quiet(roster, stage, fence, past.broken)
    }

    /** The viewer is shown what there is to show. */
    ghost predicate Displays()
      reads this`roster, this`stage, this`past
    {
      Displayed(past.broken, roster, boot, stage, past.latest)
    }

    /** The layout is where it should be, unless every slot for transitions is taken. */
    ghost predicate Synced()
      reads this`roster, this`stage, this`ledger, this`past
    {
      Arranged(past.broken, roster, stage.active, stage.surfaceOn, ledger.pending, ledger.requestIDs)
    }

    /** When the viewer is gone, nothing is to be presented any more. */
    lemma BrokenCalm()
      requires past.broken
      ensures Calm()
    {
      BrokenPoised(roster, stage, fence, ledger, boot, past.latest);
    }

    ghost predicate Following()
      reads this`roster, this`stage, this`past
    {
      var all := Current(past.broken, roster, stage.revision, stage.rendered, stage.surfaceOn, stage.active);
      all
    }

    /** The active source's scene is the one that its snapshot announces, and is wanted. */
    ghost predicate Fresh()
      reads this`roster, this`stage
    {
      && stage.surfaceOn && stage.active.Some? && stage.active.value in roster.table
      && Announces(roster.table[stage.active.value])
    }

    /** What was rendered last is the active source's scene as it is now. */
    ghost predicate UpToDate()
      reads this`roster, this`stage
    {
      && stage.active.Some? && stage.active.value in roster.table
      && Follows(stage, stage.active.value, roster.table[stage.active.value])
    }

    /** Whether what there is to show is shown comes down to what there is to show. */
    lemma DisplaysIf()
      ensures Displays() <==>
                past.broken || !stage.surfaceOn
                || (if stage.active.None? then Blanked(boot, stage, past.latest) else Fresh() ==> UpToDate())
    {
      if Displays() {
        assert DisplayedAt(past.broken, roster, boot, stage, past.latest, stage.active);
      } else {
        var x :| !DisplayedAt(past.broken, roster, boot, stage, past.latest, x);
      }
    }

    ghost function Here(): Moment
      reads this`roster, this`stage, this`ledger, this`past, this`history
    {
      Moment(roster, stage.active, stage.surfaceOn, ledger.requestIDs, ledger.retired, past.issued, past.lost,
             ledger.ordinary, past.syncs, |past.answers|, history)
    }

    /** What counted of everything shared, whenever the clock ticked. */
    ghost function Listings(): seq<seq<Publication>>
      reads this`history
    {
      Ticks(history)
    }

    constructor (boot: bytes, parse: bytes -> Option<Json>, prefixOf: (string, string, bytes) -> bytes)
      requires |boot| <= MAX_FRAME
      ensures Valid() && Calm()
      ensures this.boot == boot && this.parse == parse && this.prefixOf == prefixOf
      ensures roster == Roster(map[], map[])
      ensures past == Past(map[], [], map[], [], {}, [], [], Empty, None, None, false)
    {
      this.boot, this.parse, this.prefixOf := boot, parse, prefixOf;
      roster, next, recovery := Roster(map[], map[]), 0, map[];
      stage := Stage(None, false, 0, 0, 0, 0, false, Rendered(None, 0, 0, 0));
      ledger := Ledger(map[], map[], map[], map[], 0, 0);
      fence := Fence([], false, None, 0);
      clock, cancelled := 0, false;
      past, history := Past(map[], [], map[], [], {}, [], [], Empty, None, None, false), Dawn;
      NothingOnRecord(Roster(map[], map[]), 0);
      NothingYet(Roster(map[], map[]), boot, 0, Rendered(None, 0, 0, 0), None);
      NothingPoised(boot);
    }

    // Clock and viewer ------------------------------------------------------------------------------

    method Now() returns (t: nat)
      modifies this`clock
      ensures t == clock >= old(clock)
    {
      t :| t >= clock;
      clock := t;
    }

    method Clock() returns (now: nat)
      requires Valid()
      modifies this`clock
      ensures Valid() && now == clock >= old(clock)
    {
      now := Now();
      LaterClock(roster, recovery, history, old(clock), clock);
    }

    /** A write to the viewer, who may turn out to be gone. */
    method Utter(m: Message) returns (ok: bool)
      modifies this`past
      ensures past == Uttered(old(past), m).(broken := old(past).broken || !ok)
    {
      ok := *;
      past := Uttered(past, m).(broken := past.broken || !ok);
    }

    /** Tells the viewer something other than that a fence is confirmed. */
    method Write(m: Message) returns (ok: bool)
      requires Valid() && !m.Confirmed?
      modifies this`past
      ensures Valid()
      ensures past == if ok then old(past) else old(past).(broken := true)
    {
      ghost var was := past;
      ok := Utter(m);
      StillBalanced(ledger, was, past, roster.table, parse);
      Spoken(was);
    }

    /** The viewer is gone. */
    ghost method Break()
      requires Base()
      modifies this`past
      ensures Base() && Shows() && past == old(past).(broken := true)
      ensures old(Recalls()) ==> Recalls()
    {
      StillBalanced(ledger, past, past.(broken := true), roster.table, parse);
      BreakLayouts(roster, fence, past, past.(broken := true));
      BreakShown(roster, boot, stage.revision, stage.surfaceRevision, stage.rendered, past.viewer);
      past := past.(broken := true);
    }

    // Answers -------------------------------------------------------------------------------------

    method Tell(a: Answer) returns (ok: bool)
      requires Balanced(ledger, past, roster.table, parse) && Owed(past, a)
      requires Genuine(past.issued, a, past.received, parse)
      modifies this`past
      ensures past == Told(old(past), a).(broken := old(past).broken || !ok)
      ensures Balanced(ledger, past, roster.table, parse)
    {
      ok := *;
      TellBalanced(ledger, past, roster.table, parse, a);
      StillBalanced(ledger, Told(past, a), Told(past, a).(broken := past.broken || !ok), roster.table, parse);
      past := Told(past, a).(broken := past.broken || !ok);
    }

    // Sources leave -------------------------------------------------------------------------------

    /** Takes a request off the books. An operation counts as lost until it is answered. */
    method Close(w: WireId)
      requires Balanced(ledger, past, roster.table, parse) && w in ledger.pending
      modifies this`ledger, this`past
      ensures ledger == Closed(old(ledger), w)
      ensures past == old(past).(lost := old(past).lost + (if w in old(ledger).requestIDs then {w} else {}))
      ensures Balanced(ledger, past, roster.table, parse)
    {
      CloseBalanced(ledger, past, roster.table, parse, w);
      past := past.(lost := past.lost + (if w in ledger.requestIDs then {w} else {}));
      ledger := Closed(ledger, w);
    }

    /** The past with more answers, none of them for what is outstanding or lost. */
    ghost predicate Since(p: Past)
      reads this`past
    {
      && past == p.(answers := past.answers, broken := past.broken) && (p.broken ==> past.broken)
      && |past.answers| >= |p.answers|
    }

    /** No identity was taken since. */
    ghost predicate SameCounts(l: Ledger)
      reads this`ledger
    {
      ledger.ordinary == l.ordinary && ledger.internal == l.internal
    }

    /** Takes a request off the books because its source is gone, and tells whoever asked. */
    method Disconnect(w: WireId)
      requires Balanced(ledger, past, roster.table, parse) && w in ledger.pending
      modifies this`ledger, this`past, this`cancelled
      ensures ledger == Closed(old(ledger), w) && Since(old(past))
      ensures Balanced(ledger, past, roster.table, parse)
    {
      if w in ledger.requestIDs {
        Owing(ledger, past, roster.table, parse, w);
        var consumer := ledger.requestIDs[w];
        Close(w);
        var ok := Tell(Reply(Some(w), consumer, Refused("sharing disconnected")));
        if !ok {
          cancelled := true;
        }
      } else {
        Close(w);
        assert past.lost == old(past).lost;
      }
    }

    /** Takes every request to a source off the books. */
    method Abandon(h: Handle)
      requires Balanced(ledger, past, roster.table, parse)
      modifies this`ledger, this`past, this`cancelled
      ensures Partly(ledger.pending, old(ledger).pending, h, {}) && Sub(ledger.requestIDs, old(ledger).requestIDs)
      ensures Sub(ledger.deadlines, old(ledger).deadlines)
      ensures ledger.retired == old(ledger).retired && SameCounts(old(ledger)) && Since(old(past))
      ensures Balanced(ledger, past, roster.table, parse)
    {
      var todo := ledger.pending.Keys;
      PartlyStart(ledger.pending, h);
      SubSelf(ledger.requestIDs);
      SubSelf(ledger.deadlines);
      while todo != {}
        invariant todo <= ledger.pending.Keys
        invariant Partly(ledger.pending, old(ledger).pending, h, todo)
        invariant Sub(ledger.requestIDs, old(ledger).requestIDs) && Sub(ledger.deadlines, old(ledger).deadlines)
        invariant ledger.retired == old(ledger).retired && SameCounts(old(ledger))
        invariant Since(old(past))
        invariant Balanced(ledger, past, roster.table, parse)
        decreases |todo|
      {
        var w :| w in todo;
        PartlyStep(ledger.pending, old(ledger).pending, h, todo, w);
        todo := todo - {w};
        if ledger.pending[w] == h {
          SubStill(ledger.requestIDs, old(ledger).requestIDs, w);
          SubStill(ledger.deadlines, old(ledger).deadlines, w);
          Disconnect(w);
        }
      }
    }

    /** Forgets everything that a source was to reply to. */
    method Discard(h: Handle)
      requires Base() && Live(roster, h)
      modifies this`ledger, this`past, this`cancelled
      ensures Sub(ledger.requestIDs, old(ledger).requestIDs) && Sub(ledger.retired, old(ledger).retired)
      ensures Sub(ledger.deadlines, old(ledger).deadlines)
      ensures Partly(ledger.pending, old(ledger).pending, h, {})
      ensures SameCounts(old(ledger)) && Since(old(past))
      ensures Balanced(ledger, past, roster.table, parse)
      ensures Routing(Without(roster, h), ledger) && Layouts(roster, fence, past)
    {
      Abandon(h);
      BreakLayouts(roster, fence, old(past), past);
      RemoveRouting(roster, old(ledger).pending, ledger, h);
      OthersLess(ledger.retired, h);
      RetireBalanced(ledger, past, roster.table, parse, Others(ledger.retired, h));
      ledger := ledger.(retired := Others(ledger.retired, h));
    }

    /** Takes a source off the list of sources. */
    method Detach(h: Handle)
      requires Live(roster, h) && fence.source != Some(h)
      requires Balanced(ledger, past, roster.table, parse) && Presence(roster, next, prefixOf, stage.active, fence)
      requires Routing(Without(roster, h), ledger) && Layouts(roster, fence, past)
      requires Framed()
      modifies this`roster, this`stage, this`past
      ensures roster == Without(old(roster), h)
      ensures stage == old(stage).(active := if old(stage).active == Some(h) then None else old(stage).active)
      ensures past == old(past).(layout := Then(old(past).layout, Gone(h)))
      ensures Base()
    {
      RemovePresence(roster, next, prefixOf, stage.active, fence, h);
      RemoveLayouts(roster, fence, past, h);
      StillBalanced(ledger, past, past.(layout := Then(past.layout, Gone(h))), roster.table, parse);
      past := past.(layout := Then(past.layout, Gone(h)));
      roster := Without(roster, h);
      stage := stage.(active := if stage.active == Some(h) then None else stage.active);
    }

    /** Takes a source out. Its requests end, and a fence that waits for it has to be sent anew. */
    method Remove(h: Handle)
      requires Base() && Shows() && Live(roster, h)
      modifies this`roster, this`stage, this`ledger, this`fence, this`past, this`cancelled
      ensures roster == Without(old(roster), h)
      ensures stage == old(stage).(active := if old(stage).active == Some(h) then None else old(stage).active)
      ensures fence == old(fence).(source := if old(fence).source == Some(h) then None else old(fence).source)
      ensures Sub(ledger.requestIDs, old(ledger).requestIDs) && Sub(ledger.retired, old(ledger).retired)
      ensures Sub(ledger.deadlines, old(ledger).deadlines)
      ensures Partly(ledger.pending, old(ledger).pending, h, {})
      ensures SameCounts(old(ledger))
      ensures past == old(past).(answers := past.answers, broken := past.broken,
                                 layout := Then(old(past).layout, Gone(h)))
      ensures (old(past).broken ==> past.broken) && |past.answers| >= |old(past).answers|
      ensures Base() && Shows()
    {
      ghost var r := roster;
      Unfence(h);
      Discard(h);
      Detach(h);
      RemoveShown(old(past).broken, r, boot, stage.revision, stage.surfaceRevision, stage.rendered, past.viewer, h);
      StillShown(old(past).broken, past.broken, roster, boot, stage.revision, stage.surfaceRevision, stage.rendered,
                 past.viewer);
    }

    /** A fence that waits for a source that leaves has to be sent anew. */
    method Unfence(h: Handle)
      requires Base()
      modifies this`fence
      ensures fence == old(fence).(source := if old(fence).source == Some(h) then None else old(fence).source)
      ensures Base()
    {
      fence := fence.(source := if fence.source == Some(h) then None else fence.source);
    }

    // Recovery ------------------------------------------------------------------------------------

    /** Rendering that was stable for long enough ends the history of failures. */
    method ResetRecovery(h: Handle, now: nat)
      requires Live(roster, h) && Recovered(roster, recovery, history, clock) && now <= clock
      modifies this`recovery, this`history
      ensures var id, since := roster.table[h].id, roster.table[h].stableSince;
              if since.Some? && since.value + STABLE_INTERVAL <= now && id in old(recovery)
              then recovery == old(recovery) - {id}
                   && history == And(old(history), Forgotten(id, old(recovery)[id].generation, Stable(now)))
              else recovery == old(recovery) && history == old(history)
      ensures Recovered(roster, recovery, history, clock)
      ensures old(Unanswered(roster.sources, ledger.pending, history)) ==>
                Unanswered(roster.sources, ledger.pending, history)
      ensures old(UnansweredBut(roster.sources, ledger.pending, history, h)) ==>
                UnansweredBut(roster.sources, ledger.pending, history, h)
    {
      var id, since := roster.table[h].id, roster.table[h].stableSince;
      if since.Some? && since.value + STABLE_INTERVAL <= now && id in recovery {
        ghost var e := Forgotten(id, recovery[id].generation, Stable(now));
        ForgetRecovery(roster, recovery, history, clock, id, Stable(now));
        if Unanswered(roster.sources, ledger.pending, history) {
          UnansweredKept(roster.sources, ledger.pending, history, e);
        }
        if UnansweredBut(roster.sources, ledger.pending, history, h) {
          SparedKept(roster.sources, ledger.pending, history, e, h);
        }
        history := And(history, e);
        recovery := recovery - {id};
      }
    }

    /** Records a failure, before its source is taken out. */
    method Note(h: Handle, fault: Fault)
      requires Live(roster, h) && Recovered(roster, recovery, history, clock)
      requires UnansweredBut(roster.sources, ledger.pending, history, h)
      modifies this`recovery, this`history, this`clock
      ensures clock >= old(clock) && UnansweredBut(roster.sources, ledger.pending, history, h)
      ensures Noted(h, fault) && Blames(old(history), h, fault)
      ensures Recovered(Without(roster, h), recovery, history, clock)
      ensures Sub(recovery - {roster.table[h].id}, old(recovery))
    {
      var id, generation := roster.table[h].id, roster.table[h].generation;
      var now := Now();
      LaterClock(roster, recovery, history, old(clock), clock);
      ResetRecovery(h, now);
      var r := Record(generation, 0, 0, false);
      RecordFailure(roster, recovery, history, clock, h, fault);
      if id in recovery && recovery[id].generation == generation {
        r := recovery[id];
      }
      SubForgotten(old(recovery), recovery, id, Failed(r, fault, now));
      SparedKept(roster.sources, ledger.pending, history, Lost(id, generation, now, fault), h);
      history := And(history, Lost(id, generation, now, fault));
      recovery := recovery[id := Failed(r, fault, now)];
    }

    /** The failure is in the chronicle, and nothing else is, but that earlier failures may have been
        forgotten just before, after stable rendering. */
    ghost predicate Blames(before: Chronicle, h: Handle, fault: Fault)
      reads this`roster, this`history, this`clock
    {
      Blaming(roster.table, before, history, clock, h, fault)
    }

    /** The failure is on record for this generation: blocked for good, or until later. */
    predicate Noted(h: Handle, fault: Fault)
      reads this`roster, this`recovery, this`clock
    {
      Noting(roster.table, recovery, clock, h, fault)
    }

    /** Takes a source out, whose failures are as they should be without it. What it owes is not waited for
        any more. */
    method Depart(h: Handle)
      requires Base() && Shows() && Live(roster, h) && Excused(past.lost, past.received, parse)
      requires Recovered(Without(roster, h), recovery, history, clock)
      requires UnansweredBut(roster.sources, ledger.pending, history, h)
      requires Heeded(history, past.received, ledger.pending, ledger.internal, parse)
      modifies this`roster, this`stage, this`ledger, this`fence, this`past, this`cancelled
      ensures Valid() && roster == Without(old(roster), h)
      ensures stage == old(stage).(active := if old(stage).active == Some(h) then None else old(stage).active)
      ensures fence == old(fence).(source := if old(fence).source == Some(h) then None else old(fence).source)
      ensures Sub(ledger.requestIDs, old(ledger).requestIDs) && Sub(ledger.retired, old(ledger).retired)
      ensures Sub(ledger.deadlines, old(ledger).deadlines) && Partly(ledger.pending, old(ledger).pending, h, {})
      ensures SameCounts(old(ledger))
      ensures past == old(past).(answers := past.answers, broken := past.broken,
                                 layout := Then(old(past).layout, Gone(h)))
      ensures (old(past).broken ==> past.broken) && |past.answers| >= |old(past).answers|
    {
      ghost var r, pending := roster, ledger.pending;
      Remove(h);
      RemoveUnanswered(r, prefixOf, pending, ledger.pending, history, h);
      RemoveHeeded(history, past.received, pending, ledger.internal, ledger.pending, parse, h);
    }

    /** A moment without a source comes after one with it. */
    lemma Leaves(m: Moment, h: Handle)
      requires Live(m.roster, h) && roster == Without(m.roster, h)
      requires stage.active == (if m.active == Some(h) then None else m.active) && stage.surfaceOn == m.surfaceOn
      requires Sub(ledger.requestIDs, m.requestIDs) && Sub(ledger.retired, m.retired)
      requires past.issued == m.issued && past.lost == m.lost && ledger.ordinary == m.ordinary
      requires past.syncs == m.syncs && |past.answers| >= m.told
      requires Continues(history, m.history) && Ticks(history) == Ticks(m.history)
      ensures Later(m, Here())
    {
      RemovedLater(m, h, ledger.requestIDs, ledger.retired, |past.answers|, history);
    }

    /** Records a failure, and then takes the source out. */
    method Fail(h: Handle, fault: Fault)
      requires ValidBut(h) && Live(roster, h)
      modifies this
      ensures Valid() && Noted(h, fault) && Blames(old(history), h, fault) && clock >= old(clock)
      ensures roster == Without(old(roster), h) && roster.sources.Keys < old(roster).sources.Keys
      ensures Later(old(Here()), Here()) && Partly(ledger.pending, old(ledger).pending, h, {})
      ensures Sub(ledger.deadlines, old(ledger).deadlines)
      ensures fence == old(fence).(source := if old(fence).source == Some(h) then None else old(fence).source)
      ensures old(past).broken ==> past.broken
      ensures past.syncs == old(past).syncs && past.issued == old(past).issued
      ensures Sub(recovery - {roster.table[h].id}, old(recovery))
    {
      NoteAndDepart(h, fault);
      Leaves(old(Here()), h);
    }

    method NoteAndDepart(h: Handle, fault: Fault)
      requires ValidBut(h) && Live(roster, h)
      modifies this
      ensures Valid() && Noted(h, fault) && Blames(old(history), h, fault) && clock >= old(clock)
      ensures roster == Without(old(roster), h) && Sub(recovery - {roster.table[h].id}, old(recovery))
      ensures stage == old(stage).(active := if old(stage).active == Some(h) then None else old(stage).active)
      ensures fence == old(fence).(source := if old(fence).source == Some(h) then None else old(fence).source)
      ensures Sub(ledger.requestIDs, old(ledger).requestIDs) && Sub(ledger.retired, old(ledger).retired)
      ensures Sub(ledger.deadlines, old(ledger).deadlines) && Partly(ledger.pending, old(ledger).pending, h, {})
      ensures SameCounts(old(ledger))
      ensures past == old(past).(answers := past.answers, broken := past.broken,
                                 layout := Then(old(past).layout, Gone(h)))
      ensures (old(past).broken ==> past.broken) && |past.answers| >= |old(past).answers|
    {
      Note(h, fault);
      Depart(h);
    }

    // Publication, all the way through failing sources ----------------------------------------------

    /** Tries to write a frame to a source. Nothing is written to a source that is not connected. */
    method Attempt(h: Handle, frame: Frame) returns (written: bool)
      requires h in roster.table
      modifies this`past
      ensures past == Attempted(old(past), h, frame, stage.surfaceOn, roster.table[h].open)
      ensures written ==> roster.table[h].open
    {
      written := *;
      written := written && roster.table[h].open;
      past := Attempted(past, h, frame, stage.surfaceOn, roster.table[h].open);
    }

    /** If a write to a source failed, the source is dropped, and everything is published anew. */
    method Conclude(h: Handle, written: bool) returns (ok: bool)
      requires Valid() && Electing() && Live(roster, h)
      modifies this
      ensures Valid() && Electing() && Later(old(Here()), Here())
      ensures old(Following()) ==> Following()
      ensures old(Displays()) ==> Displays()
      ensures written ==> ok && Live(roster, h) && unchanged(this)
      ensures !written ==> !Live(roster, h) && Calm()
      ensures ok || past.broken
      decreases roster.sources.Keys, 1
    {
      if written {
        LaterSelf(Here());
        return true;
      }
      var fault: Fault := *;
      if !roster.table[h].open {
        fault := Transient;
      }
      SparesOne(h);
      Fail(h, fault);
      ghost var there := Here();
      ok := Publish();
      LaterTransitive(old(Here()), there, Here());
      StaysGone(there, Here(), h);
    }

    /** Writes something to a source that is neither a request nor a fence. */
    method Send(h: Handle, frame: Frame) returns (ok: bool)
      requires Valid() && Electing() && Live(roster, h) && !frame.Request? && !frame.Presentation?
      modifies this
      ensures Valid() && Electing() && Later(old(Here()), Here())
      ensures old(Following()) ==> Following()
      ensures Live(roster, h) ==> ok && SentTo(old(past), h, frame)
                                  && unchanged(`roster, `next, `recovery, `stage, `ledger, `fence, `clock, `cancelled,
                                               `history)
      ensures !Live(roster, h) ==> Calm()
      ensures old(Displays()) ==> Displays()
      ensures ok || past.broken
      decreases roster.sources.Keys, 2
    {
      var written := Tried(h, frame);
      ok := Conclude(h, written);
    }

    /** A frame was written to a source, and nothing else. */
    ghost predicate SentTo(before: Past, h: Handle, frame: Frame)
      reads this`past
    {
      past == before.(written := before.written + [Sending(h, frame)])
    }

    method Tried(h: Handle, frame: Frame) returns (written: bool)
      requires Valid() && Electing() && Live(roster, h) && !frame.Request? && !frame.Presentation?
      modifies this`past
      ensures Valid() && Electing() && (old(Following()) ==> Following()) && (old(Calm()) ==> Calm())
      ensures old(Displays()) ==> Displays()
      ensures written ==> SentTo(old(past), h, frame)
      ensures past == old(past).(written := past.written)
    {
      ghost var was := past;
      written := Attempt(h, frame);
      AttemptBalanced(ledger, was, roster.table, parse, h, frame, stage.surfaceOn, roster.table[h].open, Foreign([]));
      BreakLayouts(roster, fence, was, past);
    }

    lemma SourceLive(id: string)
      requires Base() && id in roster.sources
      ensures Live(roster, roster.sources[id]) && roster.table[roster.sources[id]].id == id
    {
      assert SourceAt(roster, prefixOf, id);
    }

    /** Tells a source that its surface is wanted, or no longer: its rendering counts anew. The request
        goes on the books first. */
    method Transit(h: Handle, wanted: bool, now: nat) returns (written: bool)
      requires Valid() && Electing() && Live(roster, h) && |ledger.pending| < |ledger.requestIDs| + MAX_INTERNAL
      requires wanted ==> stage.surfaceOn && stage.active == Some(h) && Unheld(roster)
      requires now == clock
      modifies this`roster, this`past, this`ledger, this`history
      ensures Valid() && Electing() && Live(roster, h)
      ensures (old(Following()) ==> Following()) && (old(Displays()) ==> Displays())
      ensures roster == Put(old(roster), h, Wanted(old(roster).table[h], wanted))
      ensures ledger == Booked(old(ledger), h, now + OPERATION_TIMEOUT)
      ensures past == Attempted(Expecting(old(past), Internal(ledger.internal)), h,
                                Request(roster.table[h].boot, SurfaceRequest(Internal(ledger.internal), wanted)),
                                stage.surfaceOn, roster.table[h].open)
      ensures history == And(old(history), Asked(roster.table[h].id, Internal(ledger.internal), wanted, now))
      ensures written ==> roster.table[h].open
    {
      AskAll(roster, prefixOf, ledger, past, recovery, history, clock, parse, h, wanted, now + OPERATION_TIMEOUT);
      written := Demand(h, wanted, now + OPERATION_TIMEOUT);
      history := And(history, Asked(roster.table[h].id, Internal(ledger.internal), wanted, now));
    }

    /** Puts a transition on the books and tries to write it, whatever has happened before. */
    method Demand(h: Handle, wanted: bool, until: nat) returns (written: bool)
      requires Base() && Shows() && Electing() && Live(roster, h)
      requires |ledger.pending| < |ledger.requestIDs| + MAX_INTERNAL
      requires wanted ==> stage.active == Some(h) && Unheld(roster)
      modifies this`roster, this`past, this`ledger
      ensures Base() && Shows() && Electing()
      ensures (old(Following()) ==> Following()) && (old(Displays()) ==> Displays())
      ensures roster == Put(old(roster), h, Wanted(old(roster).table[h], wanted))
      ensures ledger == Booked(old(ledger), h, until)
      ensures past == Attempted(Expecting(old(past), Internal(ledger.internal)), h,
                                Request(roster.table[h].boot, SurfaceRequest(Internal(ledger.internal), wanted)),
                                stage.surfaceOn, roster.table[h].open)
      ensures written ==> roster.table[h].open
    {
      TransitRest(roster, stage, past.broken, boot, past.viewer, past.latest, h, wanted);
      written := Book(h, wanted, until);
    }

    /** Puts a transition on the books and tries to write it. */
    method Book(h: Handle, wanted: bool, until: nat) returns (written: bool)
      requires Base() && Live(roster, h) && |ledger.pending| < |ledger.requestIDs| + MAX_INTERNAL
      requires wanted ==> roster.table[h].snapshot.Some? && Unheld(roster)
      modifies this`roster, this`past, this`ledger
      ensures Base()
      ensures roster == Put(old(roster), h, Wanted(old(roster).table[h], wanted))
      ensures ledger == Booked(old(ledger), h, until)
      ensures past == Attempted(Expecting(old(past), Internal(ledger.internal)), h,
                                Request(roster.table[h].boot, SurfaceRequest(Internal(ledger.internal), wanted)),
                                stage.surfaceOn, roster.table[h].open)
      ensures written ==> roster.table[h].open
    {
      ghost var r, l, p := roster, ledger, past;
      var b := Wanted(roster.table[h], wanted);
      ledger, roster := Booked(ledger, h, until), Put(roster, h, b);
      past := Expecting(past, Internal(ledger.internal));
      written := Attempt(h, Request(b.boot, SurfaceRequest(Internal(ledger.internal), wanted)));
      TransitAll(l, p, r, next, prefixOf, stage, fence, parse, h, wanted, until);
    }

    /** Tells a source that its surface is wanted, or no longer. `told` is what was written before. */
    method SendTransition(h: Handle, wanted: bool, ghost told: seq<Sending>, ghost boot: bytes, ghost w: WireId)
      returns (ok: bool)
      requires Valid() && Electing() && Live(roster, h) && |ledger.pending| < |ledger.requestIDs| + MAX_INTERNAL
      requires wanted ==> stage.surfaceOn && stage.active == Some(h) && Unheld(roster)
      requires told == past.written && boot == roster.table[h].boot && w == Internal(ledger.internal + 1)
      modifies this
      ensures Valid() && Electing() && Later(old(Here()), Here())
      ensures (old(Following()) ==> Following()) && (old(Displays()) ==> Displays())
      ensures Synced() || Handed(old(roster), old(stage), h, wanted)
      ensures Live(roster, h) ==> ToldInterest(told, past.written, h, None, boot, w, wanted)
      ensures ok || past.broken
      decreases roster.sources.Keys, 2
    {
      var now := Clock();
      var written := TransitAs(h, wanted, now, told, boot, w);
      PutLater(old(Here()), h, roster.table[h], history);
      ghost var there := Here();
      ok := Conclude(h, written);
      LaterTransitive(old(Here()), there, Here());
    }

    /** The transition itself: what is written is the request, under the next identity. */
    method TransitAs(h: Handle, wanted: bool, now: nat, ghost told: seq<Sending>, ghost boot: bytes, ghost w: WireId)
      returns (written: bool)
      requires Valid() && Electing() && Live(roster, h) && |ledger.pending| < |ledger.requestIDs| + MAX_INTERNAL
      requires wanted ==> stage.surfaceOn && stage.active == Some(h) && Unheld(roster)
      requires told == past.written && boot == roster.table[h].boot && w == Internal(ledger.internal + 1)
      requires now == clock
      modifies this`roster, this`past, this`ledger, this`history
      ensures Valid() && Electing() && Live(roster, h)
      ensures (old(Following()) ==> Following()) && (old(Displays()) ==> Displays())
      ensures Handed(old(roster), old(stage), h, wanted) && Onward(old(history))
      ensures past.issued == old(past).issued && past.lost == old(past).lost && past.syncs == old(past).syncs
      ensures past.answers == old(past).answers && past.broken == old(past).broken
      ensures ledger.requestIDs == old(ledger).requestIDs && ledger.retired == old(ledger).retired
      ensures ledger.ordinary == old(ledger).ordinary
      ensures written ==> ToldInterest(told, past.written, h, None, boot, w, wanted)
    {
      ghost var p, l, r := past, ledger, roster;
      written := Transit(h, wanted, now);
      TransitTold(p, past, l, ledger, r, roster, h, wanted, now + OPERATION_TIMEOUT, stage.surfaceOn);
    }

    /** A source was told that its surface is wanted, or no longer, and nothing else has changed of who is there
        and what is presented. */
    ghost predicate Handed(r: Roster, s: Stage, h: Handle, wanted: bool)
      reads this`roster, this`stage
    {
      h in r.table && roster == Put(r, h, Wanted(r.table[h], wanted)) && stage == s
    }

    /** Asks a source to present its surface to the viewer, or to stop. The source has to know how; with
        too many transitions unacknowledged, the request waits until one of them is. */
    method SetInterest(h: Handle, wanted: bool) returns (ok: bool)
      requires Valid() && Electing() && Live(roster, h)
      requires wanted ==> stage.surfaceOn && stage.active == Some(h) && Unheld(roster)
      modifies this
      ensures Valid() && Electing() && Later(old(Here()), Here())
      ensures (old(Following()) ==> Following()) && (old(Displays()) ==> Displays())
      ensures Synced() || Handed(old(roster), old(stage), h, wanted)
      ensures Live(roster, h) && |old(ledger).pending| < |old(ledger).requestIDs| + MAX_INTERNAL ==>
                ToldInterest(old(past).written, past.written, h,
                             if wanted && old(stage).resized then Some(Size(old(stage).columns, old(stage).rows))
                             else None, old(roster).table[h].boot, Internal(old(ledger).internal + 1), wanted)
      ensures ok || past.broken
      decreases roster.sources.Keys, 4
    {
      LaterSelf(Here());
      if SURFACE_SET !in roster.table[h].methods {
        SparesOne(h);
        Fail(h, Permanent);
        ghost var there := Here();
        ok := Publish();
        LaterTransitive(old(Here()), there, Here());
        StaysGone(there, Here(), h);
        return;
      }
      if |ledger.pending| - |ledger.requestIDs| >= MAX_INTERNAL {
        FullArranged(past.broken, roster, stage.active, stage.surfaceOn, ledger.pending, ledger.requestIDs);
        return true;
      }
      ok := Instruct(h, wanted, past.written, roster.table[h].boot, Internal(ledger.internal + 1));
    }

    /** Tells a source that its surface is wanted, or no longer. What is wanted gets the viewer's latest size
        first, while its surface is still inactive. */
    method Instruct(h: Handle, wanted: bool, ghost told: seq<Sending>, ghost boot: bytes, ghost w: WireId)
      returns (ok: bool)
      requires Valid() && Electing() && Live(roster, h) && |ledger.pending| < |ledger.requestIDs| + MAX_INTERNAL
      requires wanted ==> stage.surfaceOn && stage.active == Some(h) && Unheld(roster)
      requires told == past.written && boot == roster.table[h].boot && w == Internal(ledger.internal + 1)
      modifies this
      ensures Valid() && Electing() && Later(old(Here()), Here())
      ensures (old(Following()) ==> Following()) && (old(Displays()) ==> Displays())
      ensures Synced() || Handed(old(roster), old(stage), h, wanted)
      ensures Live(roster, h) ==>
                ToldInterest(told, past.written, h,
                             if wanted && old(stage).resized then Some(Size(old(stage).columns, old(stage).rows))
                             else None, boot, w, wanted)
      ensures ok || past.broken
      decreases roster.sources.Keys, 3
    {
      if wanted && stage.resized {
        LaterSelf(Here());
        ok := Send(h, Size(stage.columns, stage.rows));
        if !ok || !Live(roster, h) {
          return;
        }
        ghost var there, sized := Here(), past.written;
        ok := SendTransition(h, wanted, sized, boot, w);
        LaterTransitive(old(Here()), there, Here());
        if Live(roster, h) {
          ToldWithSize(told, sized, past.written, h, Size(old(stage).columns, old(stage).rows), boot, w, wanted);
        }
      } else {
        ok := SendTransition(h, wanted, told, boot, w);
      }
    }

    /** Brings the sources' layouts in line with the active source: every other one gives its layout up
        before the active one gets it. What cannot be brought about now waits for a slot. */
    method SyncInterest() returns (ok: bool)
      requires Valid() && Electing()
      modifies this
      ensures Valid() && Electing() && Later(old(Here()), Here())
      ensures (old(Following()) ==> Following()) && (old(Displays()) ==> Displays())
      ensures Synced()
      ensures ok || past.broken
      decreases roster.sources.Keys, 7
    {
      var released: bool;
      ok, released := Relinquish();
      if !ok || !released {
        return;
      }
      if stage.active.Some? && stage.surfaceOn {
        var h := stage.active.value;
        Ready(h);
        if !roster.table[h].surfaceActive && roster.table[h].boot != [] && roster.table[h].open {
          ghost var before, r := Here(), roster;
          LaterKeys(old(Here()), Here());
          ok := SetInterest(h, true);
          LaterTransitive(old(Here()), before, Here());
          HandedArranged(past.broken, r, h, ledger.pending, ledger.requestIDs);
          return;
        }
      }
      ReleasedArranged(past.broken, roster, stage.active, stage.surfaceOn, ledger.pending, ledger.requestIDs);
    }

    /** The active source has introduced itself over its connection. */
    lemma Ready(h: Handle)
      requires Base() && stage.active == Some(h)
      ensures Live(roster, h) && roster.table[h].boot != [] && roster.table[h].open
    {
      assert SourceAt(roster, prefixOf, roster.table[h].id);
    }

    /** Every source but the active one gives its layout up, unless there is no slot to ask it to. */
    method Relinquish() returns (ok: bool, released: bool)
      requires Valid() && Electing()
      modifies this
      ensures Valid() && Electing() && Later(old(Here()), Here())
      ensures (old(Following()) ==> Following()) && (old(Displays()) ==> Displays())
      ensures ok || past.broken
      ensures if ok && released then Released(roster, stage.active, stage.surfaceOn, {}) else Synced()
      ensures ok && released && stage.active.Some? && stage.surfaceOn ==>
                !roster.table[stage.active.value].surfaceActive ==> Unheld(roster)
      decreases roster.sources.Keys, 6
    {
      var todo := roster.sources.Keys;
      LaterSelf(Here());
      ReleasedStart(roster, stage.active, stage.surfaceOn);
      while todo != {}
        invariant Valid() && Electing() && Later(old(Here()), Here())
        invariant (old(Following()) ==> Following()) && (old(Displays()) ==> Displays())
        invariant roster.sources.Keys <= old(roster).sources.Keys
        invariant Released(roster, stage.active, stage.surfaceOn, todo)
        decreases |todo|
      {
        var id :| id in todo;
        ghost var before := Here();
        ok, released := GiveUp(id, todo);
        LaterTransitive(old(Here()), before, Here());
        if !ok || !released {
          return;
        }
        todo := todo - {id};
      }
      ok, released := true, true;
      if stage.active.Some? && stage.surfaceOn && !roster.table[stage.active.value].surfaceActive {
        ReleasedAll(roster, stage.active, stage.surfaceOn);
      }
    }

    /** A source gives its layout up, if it should not have it and there is a slot to ask it to. */
    method GiveUp(id: string, ghost todo: set<string>) returns (ok: bool, released: bool)
      requires Valid() && Electing() && Released(roster, stage.active, stage.surfaceOn, todo) && id in todo
      modifies this
      ensures Valid() && Electing() && Later(old(Here()), Here())
      ensures (old(Following()) ==> Following()) && (old(Displays()) ==> Displays())
      ensures roster.sources.Keys <= old(roster).sources.Keys
      ensures ok || past.broken
      ensures if ok && released then Released(roster, stage.active, stage.surfaceOn, todo - {id}) else Synced()
      decreases roster.sources.Keys, 5
    {
      ok, released := true, true;
      LaterSelf(Here());
      if id in roster.sources && Holding(id) {
        SourceLive(id);
        var h := roster.sources[id];
        ghost var before := Here();
        ok := SetInterest(h, false);
        LaterKeys(before, Here());
        assert LaterAt(before, Here(), h);
        released := !roster.table[h].surfaceActive;
        if ok && released {
          ReleasedLater(before, Here(), todo, id, h);
        }
      } else {
        ReleasedStep(roster, stage.active, stage.surfaceOn, todo, id);
      }
    }

    /** A source has the layout although it should not. */
    predicate Holding(id: string)
      requires id in roster.sources
      reads this`roster, this`stage
    {
      var h := roster.sources[id];
      h in roster.table && roster.table[h].surfaceActive && (stage.active != Some(h) || !stage.surfaceOn)
    }

    /** The first source by identifier that has announced itself. */
    method First() returns (h: Option<Handle>)
      requires Base()
      ensures Aimed(roster, h) && Elected(false, roster, h)
      ensures h.Some? ==> Least(roster, h.value)
    {
      var todo := roster.sources.Keys;
      h := None;
      LeastStart(roster);
      while todo != {}
        invariant Aimed(roster, h) && todo <= roster.sources.Keys
        invariant LeastOf(roster, todo, h)
        decreases |todo|
      {
        var id :| id in todo;
        SourceLive(id);
        var x := roster.sources[id];
        LeastStep(roster, todo, h, id);
        if roster.table[x].snapshot.Some? && (h.None? || Precedes(id, roster.table[h.value].id)) {
          h := Some(x);
        }
        todo := todo - {id};
      }
      LeastEnd(roster, h);
    }

    /** Sends the active source's lasting effects to the viewer again. */
    method ReplayEffects() returns (ok: bool)
      requires Valid()
      modifies this`past
      ensures Valid() && past == if ok then old(past) else old(past).(broken := true)
    {
      ok := true;
      if stage.surfaceOn {
        ok := Write(Effects);
      }
    }

    /** Makes the first announced source active if none is. */
    method Elect() returns (ok: bool)
      requires Valid()
      modifies this`stage, this`past
      ensures Valid() && Electing() && Later(old(Here()), Here()) && (ok || past.broken)
      ensures stage == old(stage).(active := stage.active)
      ensures if old(stage).active.Some? then stage.active == old(stage).active
              else stage.active.Some? ==> Least(roster, stage.active.value)
    {
      ok := true;
      LaterSelf(Here());
      ElectedActive(past.broken, roster, stage.active);
      if stage.active.None? {
        var first := First();
        ElectedAnyway(past.broken, roster, first);
        stage := stage.(active := first);
        ElectLater(old(Here()), first);
        if first.Some? {
          ok := ReplayEffects();
          ElectedActive(past.broken, roster, stage.active);
        }
      }
    }

    /** Writes the combined snapshot, as a new revision. */
    method Announce() returns (ok: bool)
      requires Valid() && Electing()
      modifies this`stage, this`past
      ensures Valid() && Following() && Later(old(Here()), Here()) && (ok || past.broken)
      ensures ok ==> Electing()
      ensures stage == old(stage).(revision := old(stage).revision + 1)
      ensures roster == old(roster) && (ok && old(Synced()) ==> Synced())
    {
      LaterSelf(Here());
      stage := stage.(revision := stage.revision + 1);
      RevisedShown(past.broken, roster, boot, stage.revision, stage.surfaceRevision, stage.rendered, past.viewer);
      ok := Write(Snapshots(stage.revision));
      RevisedCurrent(past.broken, roster, stage.revision, stage.rendered, stage.surfaceOn, stage.active);
    }

    // Surfaces --------------------------------------------------------------------------------------

    /** Writes a surface frame to the viewer. */
    method Show(p: bytes) returns (ok: bool)
      requires Base()
      modifies this`past
      ensures Base() && (old(Recalls()) ==> Recalls())
      ensures ok ==> 0 < |p| <= MAX_FRAME
      ensures ok ==> past == old(past).(viewer := past.viewer, latest := Some(p))
      ensures ok ==> Sees(old(past).viewer, p, past.viewer)
      ensures !ok ==> Shows() && past == old(past).(broken := true)
    {
      ok := *;
      if !ok || !(0 < |p| <= MAX_FRAME) {
        Break();
        return false;
      }
      See(p);
    }

    /** The viewer takes a surface frame in. */
    ghost method See(p: bytes)
      requires Base()
      modifies this`past
      ensures Base() && (old(Recalls()) ==> Recalls())
      ensures past == old(past).(viewer := past.viewer, latest := Some(p)) && Sees(old(past).viewer, p, past.viewer)
    {
      SeesSomething(past.viewer, p);
      var v :| Sees(past.viewer, p, v);
      StillBalanced(ledger, past, past.(viewer := v, latest := Some(p)), roster.table, parse);
      BreakLayouts(roster, fence, past, past.(viewer := v, latest := Some(p)));
      past := past.(viewer := v, latest := Some(p));
    }

    /** Blanks the viewer's surface: nothing is rendered any more. */
    method BlankSurface() returns (ok: bool)
      requires Base() && Recalls()
      modifies this`stage, this`past
      ensures Valid() && Following() && (ok || past.broken)
      ensures stage == old(stage).(rendered := stage.rendered, surfaceRevision := old(stage).surfaceRevision + 1)
      ensures past == old(past).(viewer := past.viewer, latest := past.latest, broken := past.broken)
      ensures ok ==> past.broken == old(past).broken
      ensures stage.rendered.source.None?
      ensures ok ==> Blanked(boot, stage, past.latest)
      ensures stage.active.None? || !stage.surfaceOn ==> Displays()
    {
      stage := stage.(rendered := stage.rendered.(source := None), surfaceRevision := stage.surfaceRevision + 1);
      var p := Endpoint.BlankFrame(boot, stage.revision, stage.surfaceRevision, stage.columns, stage.rows);
      ok := Show(p);
      UnrenderedShown(past.broken, roster, boot, stage.revision, stage.surfaceRevision, stage.rendered, past.viewer);
      UnrenderedCurrent(past.broken, roster, stage.revision, stage.rendered, stage.surfaceOn, stage.active);
      DisplaysIf();
    }

    /** Renders the active source's scene in full, if it is wanted and the one that was announced. */
    method SendSurface() returns (ok: bool)
      requires Base() && Recalls() && Following() && (Shows() || Fresh())
      modifies this`stage, this`past
      ensures Valid() && Following() && (ok || past.broken)
      ensures stage == old(stage).(rendered := stage.rendered, surfaceRevision := stage.surfaceRevision)
      ensures past == old(past).(viewer := past.viewer, latest := past.latest, broken := past.broken)
      ensures ok ==> past.broken == old(past).broken
      ensures ok && !past.broken && Fresh() ==> UpToDate()
      ensures Displays()
    {
      ok := true;
      DisplaysIf();
      if !stage.surfaceOn {
        return;
      }
      if stage.active.None? {
        ok := BlankSurface();
        return;
      }
      var h := stage.active.value;
      var b := roster.table[h];
      if b.frame.None? || b.snapshot.None? {
        return;
      }
      assert SourceAt(roster, prefixOf, b.id);
      ContentsAre(b.frame, b.boot, b.chunks);
      var header := Screens.ReadHeader(b.frame.value.header).value;
      if header.boot != b.boot || header.projection != b.snapshot.value.revision {
        return;
      }
      ok := Render(h, header.projection);
      DisplaysIf();
    }

    /** The active source's scene, as a frame for the viewer. */
    method Compose(h: Handle) returns (p: Option<bytes>)
      requires h in roster.table && roster.table[h].frame.Some?
      ensures p.Some? ==> Composed(roster.table[h].frame.value, roster.table[h].prefix, boot, stage.revision,
                                   stage.surfaceRevision, p.value)
    {
      var b := roster.table[h];
      p := Endpoint.FullFrameFor(b.frame.value, Endpoint.ViewerEnv(boot, stage.revision, b.prefix),
                                 stage.surfaceRevision);
      if p.Some? {
        ComposedSo(b.frame.value, b.prefix, boot, stage.revision, stage.surfaceRevision, p.value);
      }
    }

    method Render(h: Handle, project: nat) returns (ok: bool)
      requires Base() && Recalls() && stage.surfaceOn && stage.active == Some(h) && Live(roster, h)
      requires roster.table[h].frame.Some? && roster.table[h].snapshot.Some?
      requires roster.table[h].snapshot.value.revision == project
      modifies this`stage, this`past
      ensures Valid() && Following() && (ok || past.broken)
      ensures stage == old(stage).(rendered := stage.rendered, surfaceRevision := stage.surfaceRevision)
      ensures past == old(past).(viewer := past.viewer, latest := past.latest, broken := past.broken)
      ensures ok ==> past.broken == old(past).broken
      ensures ok ==> UpToDate()
    {
      stage := stage.(surfaceRevision := stage.surfaceRevision + 1);
      var p := Compose(h);
      ok := false;
      if p.Some? {
        ok := Show(p.value);
      } else {
        Break();
      }
      if ok {
        Rendering(h, project, p.value, old(past).viewer);
      } else {
        BrokenCalm();
      }
    }

    /** Notes that a source's scene was rendered. */
    method Rendering(h: Handle, project: nat, p: bytes, ghost was: Option<Screens.Screen>)
      requires Base() && Recalls() && stage.surfaceOn && stage.active == Some(h) && Live(roster, h)
      requires roster.table[h].frame.Some? && roster.table[h].snapshot.Some? && |p| <= MAX_FRAME
      requires roster.table[h].snapshot.value.revision == project
      requires Sees(was, p, past.viewer)
      requires Composed(roster.table[h].frame.value, roster.table[h].prefix, boot, stage.revision,
                        stage.surfaceRevision, p)
      modifies this`stage
      ensures Valid() && Following()
      ensures stage == old(stage).(rendered := stage.rendered)
      ensures UpToDate()
    {
      stage := stage.(rendered := Rendered(Some(h), stage.revision, project, roster.table[h].frame.value.revision));
      FullShown(past.broken, roster, prefixOf, boot, stage, h, p, was, past.viewer);
      RenderedCurrent(past.broken, roster, stage, h);
    }

    // Fences ----------------------------------------------------------------------------------------

    /** Confirms the fence to the viewer. */
    method Confirm() returns (ok: bool)
      requires Valid() && Electing() && Following() && Displays() && Synced() && fence.pending
      modifies this`fence, this`past
      ensures Valid() && Calm() && (ok || past.broken)
      ensures fence == Fence([], false, None, old(fence).until)
      ensures past == old(past).(readies := old(past).readies + [old(fence).token], broken := past.broken)
      ensures ok ==> past.broken == old(past).broken
    {
      ghost var f, was := fence, past;
      var token := fence.token;
      fence := Fence([], false, None, fence.until);
      ok := Utter(Confirmed(token));
      ConfirmLayouts(roster, f, was);
      BreakLayouts(roster, fence, Uttered(was, Confirmed(token)), past);
      StillBalanced(ledger, was, past, roster.table, parse);
      StillShown(was.broken, past.broken, roster, boot, stage.revision, stage.surfaceRevision, stage.rendered,
                 past.viewer);
      if !ok {
        BrokenCalm();
      }
    }

    /** Asks the active source to confirm the fence. */
    method Engage(until: nat) returns (written: bool)
      requires Valid() && Electing() && Following() && Displays() && Synced()
      requires fence.pending && fence.source.None? && stage.active.Some?
      requires stage.surfaceOn ==> Live(roster, stage.active.value) && roster.table[stage.active.value].surfaceActive
      modifies this`fence, this`past
      ensures Valid() && Electing() && Calm() && Live(roster, stage.active.value)
      ensures fence == old(fence).(source := stage.active, until := until)
      ensures past == Attempted(old(past), stage.active.value, Presentation(fence.token), stage.surfaceOn,
                                roster.table[stage.active.value].open)
      ensures written ==> roster.table[stage.active.value].open
    {
      ghost var f, was := fence, past;
      var h := stage.active.value;
      fence := fence.(source := stage.active, until := until);
      written := Attempt(h, Presentation(fence.token));
      EngageLayouts(roster, f, was, h, until, stage.surfaceOn);
      BreakLayouts(roster, fence, was.(layout := past.layout), past);
      AttemptBalanced(ledger, was, roster.table, parse, h, Presentation(fence.token), stage.surfaceOn,
                      roster.table[h].open, Foreign([]));
    }

    /** A fence can be sent: its surface is active, if one is wanted. */
    ghost predicate Fenceable()
      reads this`roster, this`stage
    {
      && stage.active.Some? && stage.active.value in roster.table
      && (stage.surfaceOn ==> roster.table[stage.active.value].surfaceActive)
    }

    /** Sends the viewer's fence on to the active source, as soon as its wanted surface is active. */
    method ResumeFence() returns (ok: bool)
      requires Valid() && Electing() && Following() && Displays() && Synced()
      modifies this
      ensures Valid() && Calm() && Later(old(Here()), Here())
      ensures ok || past.broken
      ensures old(fence.pending && fence.source.None? && Fenceable()) && Live(roster, old(stage).active.value) ==>
                fence == Fence(old(fence).token, true, old(stage).active, clock + FENCE_TIMEOUT)
      decreases roster.sources.Keys, 2
    {
      ok := true;
      LaterSelf(Here());
      if !fence.pending || fence.source.Some? {
        return;
      }
      if stage.active.None? {
        ok := Confirm();
        return;
      }
      if stage.surfaceOn && !roster.table[stage.active.value].surfaceActive {
        return;
      }
      var now := Now();
      LaterClock(roster, recovery, history, old(clock), clock);
      var h := stage.active.value;
      var written := Engage(now + FENCE_TIMEOUT);
      ok := Conclude(h, written);
    }

    /** Presents the sources to the viewer: elects, hands the layout over, writes the snapshot and the
        scene, and resumes a fence. Every write to a source may fail, and then starts this over with
        fewer sources. */
    method Publish() returns (ok: bool)
      requires Valid()
      modifies this
      ensures Valid() && Calm() && Later(old(Here()), Here())
      ensures ok || past.broken
      decreases roster.sources.Keys, 8
    {
      ok := Elect();
      ghost var elected := Here();
      if ok {
        ok := SyncInterest();
        LaterTransitive(old(Here()), elected, Here());
        LaterKeys(old(Here()), Here());
      }
      if ok {
        ghost var there := Here();
        ok := PublishAll();
        LaterTransitive(old(Here()), there, Here());
        return;
      }
      BrokenCalm();
    }

    method PublishAll() returns (ok: bool)
      requires Valid() && Electing() && Synced()
      modifies this
      ensures Valid() && Calm() && Later(old(Here()), Here())
      ensures ok || past.broken
      decreases roster.sources.Keys, 3
    {
      ok := Announce();
      if ok {
        ok := SendSurface();
      }
      if !ok {
        BrokenCalm();
        return;
      }
      ghost var there := Here();
      ok := ResumeFence();
      LaterTransitive(old(Here()), there, Here());
    }

    // Rendering by patches --------------------------------------------------------------------------

    /** Replaces what is known of a source, without touching its identity, names, replies or flags. */
    method Change(h: Handle, b: Backend)
      requires Base() && Recalls() && Live(roster, h)
      requires SameNames(roster.table[h], b) && Sound(b, prefixOf)
      requires b.snapshot == roster.table[h].snapshot && b.surfaceActive == roster.table[h].surfaceActive
      requires b.stableSince == roster.table[h].stableSince && b.renderReady == roster.table[h].renderReady
      modifies this`roster
      ensures roster == Put(old(roster), h, b)
      ensures Base() && Recalls() && Live(roster, h)
      ensures b.frame == old(roster).table[h].frame && old(Calm()) ==> Calm()
      ensures (old(Resting()) ==> Resting()) && (old(Synced()) ==> Synced())
      ensures (old(Following()) ==> Following()) && (old(Electing()) ==> Electing())
      ensures old(stage).active != Some(h) && old(Displays()) ==> Displays()
    {
      PutPresence(roster, next, prefixOf, stage.active, fence, h, b);
      PutBalanced(ledger, past, roster, parse, h, b);
      PutRouting(roster, ledger, h, b);
      PutLayouts(roster, fence, past, h, b);
      PutRecovered(roster, recovery, history, clock, h, b);
      PutCalm(roster, stage, fence, past.broken, h, b);
      PutParts(h, b);
      roster := Put(roster, h, b);
    }

    /** What holds between events, or a part of it, still does. */
    lemma PutParts(h: Handle, b: Backend)
      requires Live(roster, h) && SamePlace(roster.table[h], b) && b.snapshot == roster.table[h].snapshot
      requires b.surfaceActive == roster.table[h].surfaceActive
      ensures Synced() ==> Arranged(past.broken, Put(roster, h, b), stage.active, stage.surfaceOn, ledger.pending,
                                    ledger.requestIDs)
      ensures (b.frame == roster.table[h].frame || stage.active != Some(h)) && Displays() ==>
                Displayed(past.broken, Put(roster, h, b), boot, stage, past.latest)
      ensures b.frame == roster.table[h].frame && Calm() ==>
                Poised(Put(roster, h, b), stage, fence, ledger, boot, past.broken, past.latest)
    {
      if Synced() {
        PutArranged(past.broken, roster, stage.active, stage.surfaceOn, ledger.pending, ledger.requestIDs, h, b);
      }
      if Displays() && (b.frame == roster.table[h].frame || stage.active != Some(h)) {
        PutDisplayed(past.broken, roster, boot, stage, past.latest, h, b);
      }
      if Calm() && b.frame == roster.table[h].frame {
        PutPoised(roster, stage, fence, ledger, boot, past.broken, past.latest, h, b);
      }
    }

    /** No transition of this source is unacknowledged. */
    ghost predicate Idle(h: Handle)
      reads this`ledger
    {
      forall w :: w in ledger.pending && w.Internal? ==> ledger.pending[w] != h
    }

    /** Whether some transition of a source is unacknowledged. */
    method Awaits(h: Handle) returns (awaits: bool)
      ensures awaits <==> !Idle(h)
    {
      var todo := ledger.pending.Keys;
      while todo != {}
        invariant todo <= ledger.pending.Keys
        invariant forall w :: w in ledger.pending && w !in todo && w.Internal? ==> ledger.pending[w] != h
        decreases |todo|
      {
        var w :| w in todo;
        if ledger.pending[w] == h && w.Internal? {
          return true;
        }
        todo := todo - {w};
      }
      return false;
    }

    /** Rendering counts as stable from the first screen on that was rendered after every transition of
        the source was acknowledged. */
    method RenderProgress(h: Handle)
      requires Base() && Recalls() && Following() && Electing() && Live(roster, h)
      modifies this`roster, this`clock, this`history
      ensures Base() && Recalls() && Following() && Electing() && Live(roster, h) && clock >= old(clock)
      ensures roster == Put(old(roster), h, old(roster).table[h].(stableSince := roster.table[h].stableSince))
      ensures if roster.table[h].stableSince == old(roster).table[h].stableSince then history == old(history)
              else Idle(h) && roster.table[h].renderReady && old(roster).table[h].stableSince.None?
                   && roster.table[h].stableSince == Some(clock)
                   && history == And(old(history), Steadied(roster.table[h].id, clock))
      ensures roster.table[h].stableSince.Some? <==>
                var b := old(roster).table[h];
                b.stableSince.Some? || (b.surfaceActive && b.renderReady && b.snapshot.Some? && Idle(h))
      ensures (old(Resting()) ==> Resting()) && (old(Synced()) ==> Synced()) && (old(Displays()) ==> Displays())
      ensures old(Shows()) ==> Shows()
    {
      var b := roster.table[h];
      assert roster.table[h := b] == roster.table;
      if !b.surfaceActive || !b.renderReady || b.snapshot.None? {
        return;
      }
      var awaits := Awaits(h);
      if !awaits && b.stableSince.None? {
        var now := Now();
        LaterClock(roster, recovery, history, old(clock), clock);
        Steady(h, now);
      }
    }

    /** A source's rendering counts as stable from now on. */
    method Steady(h: Handle, now: nat)
      requires Base() && Recalls() && Following() && Electing() && Live(roster, h) && Idle(h) && now == clock
      requires roster.table[h].renderReady && roster.table[h].stableSince.None?
      modifies this`roster, this`history
      ensures Base() && Recalls() && Following() && Electing()
      ensures roster == Put(old(roster), h, old(roster).table[h].(stableSince := Some(now)))
      ensures history == And(old(history), Steadied(roster.table[h].id, now))
      ensures (old(Resting()) ==> Resting()) && (old(Synced()) ==> Synced()) && (old(Displays()) ==> Displays())
      ensures old(Shows()) ==> Shows()
    {
      var b := roster.table[h].(stableSince := Some(now));
      assert SourceAt(roster, prefixOf, b.id);
      PutShownHere(h, b);
      PutPresence(roster, next, prefixOf, stage.active, fence, h, b);
      PutBalanced(ledger, past, roster, parse, h, b);
      PutRouting(roster, ledger, h, b);
      PutLayouts(roster, fence, past, h, b);
      FlagsOf(roster, recovery, history, clock, h);
      IdleAgreed(roster.sources, ledger.pending, history, b.id);
      PutEpisode(roster, prefixOf, recovery, history, clock, h, b, Steadied(b.id, now));
      UnansweredKept(roster.sources, ledger.pending, history, Steadied(b.id, now));
      PutCalm(roster, stage, fence, past.broken, h, b);
      PutParts(h, b);
      history := And(history, Steadied(b.id, now));
      roster := Put(roster, h, b);
    }

    /** The viewer still has what it had when a source changes, but for its screen and names. */
    lemma PutShownHere(h: Handle, b: Backend)
      requires Live(roster, h) && SamePlace(roster.table[h], b)
      requires b.frame == roster.table[h].frame && b.prefix == roster.table[h].prefix
      ensures Shows() ==> Shown(past.broken, Put(roster, h, b), boot, stage.revision, stage.surfaceRevision,
                                stage.rendered, past.viewer)
    {
      if Shows() {
        PutShown(past.broken, roster, boot, stage.revision, stage.surfaceRevision, stage.rendered, past.viewer, h, b);
      }
    }

    /** Retains a source's new screen. The viewer has the old one until it is rendered. */
    method Retain(h: Handle, screen: Screens.Screen)
      requires Valid() && Calm() && Live(roster, h) && roster.table[h].snapshot.Some?
      requires Contents(Some(screen), roster.table[h].boot, map[])
      modifies this`roster
      ensures roster == Put(old(roster), h, old(roster).table[h].(frame := Some(screen)))
      ensures Base() && Recalls() && Following() && Electing() && Resting() && Synced() && Live(roster, h)
      ensures stage.active == Some(h) || Displays()
      ensures Shows() || (stage.active == Some(h) && Fresh())
    {
      var b := roster.table[h].(frame := Some(screen));
      assert SourceAt(roster, prefixOf, b.id);
      ContentsJoin(roster.table[h].frame, b.frame, b.boot, b.chunks);
      RetainShown(past.broken, roster, boot, stage, past.viewer, h, screen);
      Change(h, b);
    }

    /** Applies a frame to what is retained of its source, if it is well formed and from there. */
    method Advance(h: Handle, p: bytes) returns (screen: Option<Screens.Screen>, header: Screens.Header)
      requires Base() && Live(roster, h)
      ensures screen.Some? ==>
                && Opens(p, header) && header.boot == roster.table[h].boot
                && Advanced(roster.table[h].frame, p, screen.value)
                && Contents(screen, roster.table[h].boot, map[])
                && At(screen.value, header.projection, screen.value.revision)
      ensures screen.Some? <==> Continued(roster.table[h], p)
    {
      var b := roster.table[h];
      var read := Screens.ReadHeader(p);
      if read.None? || read.value.boot != b.boot {
        NoOpening(p, b);
        return None, Screens.Header(0, [], 0, 0, 0);
      }
      header := read.value;
      screen := Examine(b.frame, p);
      if screen.Some? {
        OpensSo(p, header);
        assert SourceAt(roster, prefixOf, b.id);
        AdvancedContents(b.frame, b.boot, b.chunks, p, screen.value, header);
        assert ContinuedBy(b, p, header, screen.value);
      }
    }

    /** Validates a whole frame before anything of it is retained. */
    method Examine(frame: Option<Screens.Screen>, p: bytes) returns (screen: Option<Screens.Screen>)
      ensures screen.Some? ==> Advanced(frame, p, screen.value)
      ensures screen.None? ==> forall after :: !Advanced(frame, p, after)
    {
      var e := Grammar.Env(boot, stage.revision, id => id);
      forall after | Advanced(frame, p, after)
        ensures Surfaces.Surface(p, e).Some? && Screens.Update(Screens.Native(), frame, p).Some?
      {
        AdvancedNeeds(frame, p, after, e);
      }
      if Surfaces.Surface(p, e).None? {
        return None;
      }
      screen := Screens.Update(Screens.Native(), frame, p);
      if screen.Some? {
        AdvancedSo(frame, p, screen.value, e);
      }
    }

    /** The source has rendered the scene that its snapshot announces. */
    method MarkReady(h: Handle, ghost p: bytes, header: Screens.Header)
      requires Base() && Recalls() && Following() && Electing() && Resting() && Synced() && Live(roster, h)
      requires roster.table[h].frame.Some? && roster.table[h].surfaceActive && Opens(p, header)
      requires RevisionOf(roster.table[h].snapshot) == Some(header.projection)
      modifies this`roster, this`clock, this`history
      ensures Base() && Recalls() && Following() && Electing() && Resting() && Synced() && Live(roster, h)
      ensures old(Displays()) ==> Displays()
      ensures h in old(roster).table && old(roster).sources == roster.sources
      ensures SameButFlags(old(roster).table[h], roster.table[h]) && Listings() == old(Listings())
      ensures Draws(old(history), h, p, header.projection)
      ensures old(Shows()) ==> Shows()
      ensures old(Fresh()) ==> Fresh()
    {
      MarkDrawn(h, p, header);
      RenderProgress(h);
    }

    /** A frame is in the chronicle, and nothing else is, but that rendering may count as stable from then
        on. */
    ghost predicate Draws(before: Chronicle, h: Handle, p: bytes, projection: nat)
      reads this`roster, this`history, this`clock
    {
      && h in roster.table
      && var drawn := And(before, Painted(roster.table[h].id, p, projection));
      (history == drawn || history == And(drawn, Steadied(roster.table[h].id, clock)))
    }

    /** A frame of projection `n` is in the chronicle exactly if its source, as it was, presented its surface
        and had announced this projection. */
    ghost predicate Paints(before: Chronicle, was: Backend, h: Handle, p: bytes, n: nat)
      reads this`roster, this`history, this`clock
    {
      && Projects(p, n)
      && if was.surfaceActive && RevisionOf(was.snapshot) == Some(n) then Draws(before, h, p, n) else history == before
    }

    method MarkDrawn(h: Handle, ghost p: bytes, header: Screens.Header)
      requires Base() && Recalls() && Following() && Electing() && Resting() && Synced() && Live(roster, h)
      requires roster.table[h].frame.Some? && roster.table[h].surfaceActive && Opens(p, header)
      requires RevisionOf(roster.table[h].snapshot) == Some(header.projection)
      modifies this`roster, this`history
      ensures Base() && Recalls() && Following() && Electing() && Resting() && Synced() && Live(roster, h)
      ensures old(Displays()) ==> Displays()
      ensures roster == Put(old(roster), h, old(roster).table[h].(renderReady := true))
      ensures history == And(old(history), Painted(roster.table[h].id, p, header.projection))
      ensures old(Shows()) ==> Shows()
    {
      var b := roster.table[h].(renderReady := true);
      ghost var e := Painted(b.id, p, header.projection);
      assert SourceAt(roster, prefixOf, b.id);
      assert Projects(p, header.projection);
      PutShownHere(h, b);
      PutPresence(roster, next, prefixOf, stage.active, fence, h, b);
      PutBalanced(ledger, past, roster, parse, h, b);
      PutRouting(roster, ledger, h, b);
      PutLayouts(roster, fence, past, h, b);
      FlagsOf(roster, recovery, history, clock, h);
      PutEpisode(roster, prefixOf, recovery, history, clock, h, b, e);
      UnansweredKept(roster.sources, ledger.pending, history, e);
      PutCalm(roster, stage, fence, past.broken, h, b);
      PutParts(h, b);
      history := And(history, e);
      roster := Put(roster, h, b);
    }

    /** A patch, translated for the viewer. */
    method Translate(h: Handle, p: bytes) returns (q: Option<bytes>)
      requires h in roster.table
      ensures q.Some? ==> Relayed(p, roster.table[h].prefix, boot, stage.revision, stage.surfaceRevision, q.value)
    {
      var prefix := roster.table[h].prefix;
      q := Endpoint.PatchFrameFor(p, Endpoint.ViewerEnv(boot, stage.revision, prefix), stage.surfaceRevision);
      if q.Some? {
        RelayedSo(p, prefix, boot, stage.revision, stage.surfaceRevision, q.value);
      }
    }

    /** A patch of the active source, for a viewer that had what the source had: `was` is how the source
        was then, and `after` its screen now. */
    ghost predicate Patches(h: Handle, p: bytes, header: Screens.Header, was: Roster, after: Screens.Screen)
      reads this`roster, this`stage, this`past
    {
      var all :=
        && Live(was, h) && Live(roster, h) && was.table[h].prefix == roster.table[h].prefix
        && Shown(past.broken, was, boot, stage.revision, stage.surfaceRevision, stage.rendered, past.viewer)
        && Contents(was.table[h].frame, was.table[h].boot, was.table[h].chunks)
        && Advanced(was.table[h].frame, p, after) && roster.table[h].frame == Some(after)
        && Opens(p, header) && header.tag == Surfaces.PATCH_TAG;
      all
    }

    /** Passes a patch on if the viewer has exactly what it is for; renders in full otherwise. */
    method SendPatch(h: Handle, p: bytes, header: Screens.Header, ghost was: Roster, ghost after: Screens.Screen)
      returns (ok: bool)
      requires Base() && Recalls() && Following() && (Shows() || Fresh())
      requires Patches(h, p, header, was, after)
      modifies this`stage, this`past
      ensures Valid() && Following() && (ok || past.broken)
      ensures stage == old(stage).(rendered := stage.rendered, surfaceRevision := stage.surfaceRevision)
      ensures past == old(past).(viewer := past.viewer, latest := past.latest, broken := past.broken)
      ensures ok ==> past.broken == old(past).broken
      ensures ok && !past.broken && Fresh() ==> UpToDate()
    {
      if stage.surfaceOn && stage.rendered == Rendered(Some(h), stage.revision, header.projection, header.revision) {
        ok := Relay(h, p, header, was, after);
      } else {
        ok := SendSurface();
      }
    }

    method Relay(h: Handle, p: bytes, header: Screens.Header, ghost was: Roster, ghost after: Screens.Screen)
      returns (ok: bool)
      requires Base() && Recalls() && Following()
      requires Patches(h, p, header, was, after)
      requires stage.rendered == Rendered(Some(h), stage.revision, header.projection, header.revision)
      modifies this`stage, this`past
      ensures Valid() && Following() && (ok || past.broken)
      ensures stage == old(stage).(rendered := stage.rendered, surfaceRevision := old(stage).surfaceRevision + 1)
      ensures past == old(past).(viewer := past.viewer, latest := past.latest, broken := past.broken)
      ensures ok ==> past.broken == old(past).broken
      ensures ok && !past.broken && Fresh() ==> UpToDate()
    {
      var q := Translate(h, p);
      ok := false;
      if q.Some? {
        ok := Show(q.value);
      } else {
        Break();
      }
      if ok {
        Patched(h, p, header, was, after, q.value, old(past).viewer);
      } else {
        Unpatched();
      }
    }

    /** The viewer took a patch in. */
    method Patched(h: Handle, p: bytes, header: Screens.Header, ghost was: Roster, ghost after: Screens.Screen,
                   ghost q: bytes, ghost had: Option<Screens.Screen>)
      requires Base() && Recalls() && Following()
      requires Live(was, h) && Live(roster, h) && was.table[h].prefix == roster.table[h].prefix
      requires Shown(past.broken, was, boot, stage.revision, stage.surfaceRevision, stage.rendered, had)
      requires Contents(was.table[h].frame, was.table[h].boot, was.table[h].chunks)
      requires Advanced(was.table[h].frame, p, after) && roster.table[h].frame == Some(after)
      requires Opens(p, header) && header.tag == Surfaces.PATCH_TAG
      requires stage.rendered == Rendered(Some(h), stage.revision, header.projection, header.revision)
      requires Relayed(p, roster.table[h].prefix, boot, stage.revision, stage.surfaceRevision, q)
      requires Sees(had, q, past.viewer) && |q| <= MAX_FRAME
      modifies this`stage
      ensures Valid() && Following()
      ensures stage == old(stage).(rendered := stage.rendered, surfaceRevision := old(stage).surfaceRevision + 1)
      ensures !past.broken ==> UpToDate()
    {
      PatchShown(past.broken, was, roster, boot, stage, h, after, p, header, q, had, past.viewer);
      stage := stage.(rendered := stage.rendered.(surface := header.revision + 1),
                      surfaceRevision := stage.surfaceRevision + 1);
      SurfacedCurrent(past.broken, roster, old(stage), stage);
      RelayUpToDate(h, p, header, was, after);
    }

    /** The viewer did not take a patch in, and is gone. */
    method Unpatched()
      requires Base() && Recalls() && past.broken
      modifies this`stage
      ensures Valid() && Following()
      ensures stage == old(stage).(surfaceRevision := old(stage).surfaceRevision + 1)
    {
      stage := stage.(surfaceRevision := stage.surfaceRevision + 1);
      BrokenCalm();
      BreakShown(roster, boot, stage.revision, stage.surfaceRevision, stage.rendered, past.viewer);
    }

    lemma RelayUpToDate(h: Handle, p: bytes, header: Screens.Header, was: Roster, after: Screens.Screen)
      requires Following() && Live(was, h) && Live(roster, h) && roster.table[h].frame == Some(after)
      requires Advanced(was.table[h].frame, p, after) && Opens(p, header) && header.tag == Surfaces.PATCH_TAG
      requires stage.rendered == Rendered(Some(h), stage.revision, header.projection, header.revision + 1)
      ensures !past.broken ==> UpToDate()
    {
      AdvancedFrom(was.table[h].frame, p, after, header);
      assert CurrentAt(past.broken, roster, stage.revision, stage.rendered, stage.surfaceOn, stage.active, h);
    }

    // Messages from sources -------------------------------------------------------------------------

    /** Handles a scene or a patch: validates it, retains it, and renders it if its source is active. A
        frame that cannot be retained fails its source. */
    method TakeScene(h: Handle, p: bytes) returns (result: Result)
      requires Valid() && Calm() && Live(roster, h)
      modifies this
      ensures Listings() == old(Listings())
      ensures Valid()
      ensures result.Upstream? ==> unchanged(this)
      ensures result.Upstream? <==>
                var b := old(roster).table[h]; !b.welcomed || b.snapshot.None? || !Continued(b, p)
      ensures result.Fine? ==> Calm() && (!past.broken && Fresh() && stage.active == Some(h) ==> UpToDate())
      ensures result.Fine? ==> Live(roster, h) && roster.table[h].frame.Some?
                               && Advanced(old(roster).table[h].frame, p, roster.table[h].frame.value)
      ensures !result.Upstream? ==> exists n :: Paints(old(history), old(roster).table[h], h, p, n)
      ensures result.Ended? ==> past.broken
    {
      var b := roster.table[h];
      if !b.welcomed || b.snapshot.None? {
        return Upstream(Permanent);
      }
      var screen, header := Advance(h, p);
      if screen.None? {
        return Upstream(Permanent);
      }
      var ok := Present(h, p, header, screen.value);
      return if ok then Fine else Ended;
    }

    method Present(h: Handle, p: bytes, header: Screens.Header, screen: Screens.Screen) returns (ok: bool)
      requires Valid() && Calm() && Live(roster, h) && roster.table[h].snapshot.Some?
      requires Opens(p, header) && Advanced(roster.table[h].frame, p, screen)
      requires Contents(Some(screen), roster.table[h].boot, map[])
      modifies this
      ensures Listings() == old(Listings())
      ensures Valid() && Calm() && (ok || past.broken)
      ensures Live(roster, h) && roster.table[h].frame == Some(screen)
      ensures Paints(old(history), old(roster).table[h], h, p, header.projection)
      ensures ok && !past.broken && Fresh() && stage.active == Some(h) ==> UpToDate()
    {
      ghost var was := roster;
      assert SourceAt(was, prefixOf, was.table[h].id);
      assert Projects(p, header.projection);
      Retain(h, screen);
      if roster.table[h].surfaceActive && header.projection == roster.table[h].snapshot.value.revision {
        MarkReady(h, p, header);
      }
      ok := Answering(h, p, header, was, screen);
    }

    /** What the viewer is sent once a screen was taken over. */
    method Answering(h: Handle, p: bytes, header: Screens.Header, ghost was: Roster, ghost screen: Screens.Screen)
      returns (ok: bool)
      requires Base() && Recalls() && Following() && Resting() && Synced() && (stage.active == Some(h) || Displays())
      requires Shows() || (stage.active == Some(h) && Fresh())
      requires header.tag == Surfaces.PATCH_TAG ==> Patches(h, p, header, was, screen)
      modifies this`stage, this`past
      ensures Valid() && Calm() && (ok || past.broken)
      ensures ok && !past.broken && Fresh() && stage.active == Some(h) ==> UpToDate()
    {
      if header.tag == Surfaces.PATCH_TAG && stage.active == Some(h) {
        ok := SendPatch(h, p, header, was, screen);
      } else if stage.active == Some(h) {
        ok := SendSurface();
      } else if stage.active.None? {
        ok := BlankSurface();
      } else {
        ok := true;
      }
      DisplaysIf();
      if !ok {
        BrokenCalm();
      }
    }

    /** A source introduces itself, once. Only operations that can be routed are kept. */
    method TakeWelcome(h: Handle, methods: set<bytes>) returns (result: Result)
      requires Valid() && Calm() && Live(roster, h)
      modifies this`roster
      ensures Valid() && Calm() && Live(roster, h)
      ensures Welcomed(h, methods, result)
    {
      var b := roster.table[h];
      if b.welcomed {
        return Upstream(Permanent);
      }
      assert SourceAt(roster, prefixOf, b.id);
      PutShownHere(h, b.(welcomed := true, methods := methods * SUPPORTED));
      Change(h, b.(welcomed := true, methods := methods * SUPPORTED));
      return Fine;
    }

    /** A source announces its state. Its boot identity must not change while it is connected. */
    method TakeAnnouncement(h: Handle, named: bytes, revision: nat, body: Json) returns (result: Result)
      requires Valid() && Calm() && Live(roster, h) && roster.table[h].open
      modifies this
      ensures Listings() == old(Listings())
      ensures Valid()
      ensures result.Upstream? ==> unchanged(this)
      ensures result.Fine? ==> Calm()
      ensures result.Ended? ==> past.broken
      ensures result.Upstream? <==> var b := old(roster).table[h];
                !b.welcomed || named == [] || |named| > 128 || (b.boot != [] && b.boot != named)
      ensures !result.Upstream? ==>
                Continues(history, And(old(history), Declared(old(roster).table[h].id, revision)))
    {
      var b := roster.table[h];
      if !b.welcomed || named == [] || |named| > 128 || (b.boot != [] && b.boot != named) {
        return Upstream(Permanent);
      }
      var ok := Renew(h, named, Snapshot(revision, body));
      return if ok then Fine else Ended;
    }

    /** Takes an announcement over, and publishes it. */
    method Renew(h: Handle, named: bytes, snapshot: Snapshot) returns (ok: bool)
      requires Valid() && Live(roster, h) && roster.table[h].welcomed && roster.table[h].open && named != []
      requires roster.table[h].boot == [] || roster.table[h].boot == named
      modifies this
      ensures Valid() && Calm() && (ok || past.broken) && Listings() == old(Listings())
      ensures Continues(history, And(old(history), Declared(old(roster).table[h].id, snapshot.revision)))
    {
      Announced(h, named, snapshot);
      ok := Publish();
    }

    method Announced(h: Handle, named: bytes, snapshot: Snapshot)
      requires Valid() && Live(roster, h) && roster.table[h].welcomed && roster.table[h].open && named != []
      requires roster.table[h].boot == [] || roster.table[h].boot == named
      modifies this`roster, this`history
      ensures Valid() && Live(roster, h)
      ensures history == And(old(history), Declared(roster.table[h].id, snapshot.revision))
      ensures var b := old(roster).table[h];
              roster == Put(old(roster), h, b.(boot := named, prefix := prefixOf(b.id, b.generation, named),
                                               snapshot := Some(snapshot), initializeBy := None))
    {
      var c := roster.table[h];
      var b := c.(boot := named, prefix := prefixOf(c.id, c.generation, named), snapshot := Some(snapshot),
                  initializeBy := None);
      assert SourceAt(roster, prefixOf, b.id);
      ContentsNamed(c.frame, c.boot, named, c.chunks);
      PutPresence(roster, next, prefixOf, stage.active, fence, h, b);
      PutBalanced(ledger, past, roster, parse, h, b);
      PutRouting(roster, ledger, h, b);
      PutLayouts(roster, fence, past, h, b);
      PutShown(past.broken, roster, boot, stage.revision, stage.surfaceRevision, stage.rendered, past.viewer, h, b);
      FlagsOf(roster, recovery, history, clock, h);
      PutEpisode(roster, prefixOf, recovery, history, clock, h, b, Declared(b.id, snapshot.revision));
      UnansweredKept(roster.sources, ledger.pending, history, Declared(b.id, snapshot.revision));
      history := And(history, Declared(b.id, snapshot.revision));
      roster := Put(roster, h, b);
    }

    /** A source has presented: the fence is confirmed, if this is the source and the fence. */
    method TakeReady(h: Handle, token: bytes) returns (result: Result)
      requires Valid() && Calm() && Live(roster, h)
      modifies this`fence, this`past
      ensures Valid() && Calm()
      ensures result == Fine || (result == Ended && past.broken)
      ensures past.readies == if old(fence).source == Some(h) && token == old(fence).token
                              then old(past).readies + [token] else old(past).readies
    {
      if fence.source == Some(h) && token == fence.token {
        var ok := Confirm();
        return if ok then Fine else Ended;
      }
      return Fine;
    }

    /** A lasting effect of the active source is shown. */
    method TakeEffect(h: Handle) returns (result: Result)
      requires Valid() && Calm()
      modifies this`past
      ensures Valid() && Calm() && past == old(past).(broken := past.broken)
      ensures result == Fine || (result == Ended && past.broken)
    {
      if stage.active == Some(h) && stage.surfaceOn {
        var ok := Write(Effects);
        if !ok {
          BrokenCalm();
          return Ended;
        }
      }
      return Fine;
    }

    // Replies ---------------------------------------------------------------------------------------

    /** The bytes of all unfinished replies. */
    method TotalOf(chunks: map<WireId, bytes>) returns (total: nat)
      ensures total == Total(chunks)
    {
      var todo := chunks;
      total := 0;
      while todo != map[]
        invariant total + Total(todo) == Total(chunks)
        decreases |todo|
      {
        var w :| w in todo;
        TotalLess(todo, w);
        Fewer(todo, w);
        total := total + |todo[w]|;
        todo := todo - {w};
      }
    }

    /** Keeps another part of a reply. */
    method Receive(h: Handle, w: WireId, data: bytes)
      requires Valid() && Calm() && Live(roster, h) && w in ledger.pending && ledger.pending[w] == h
      requires |data| + Total(roster.table[h].chunks) <= MAX_FRAME
      modifies this`roster, this`past
      ensures Valid() && Calm() && Live(roster, h)
      ensures roster == Received(old(roster), h, w, data) && past == Heard(old(past), ledger, w, data)
    {
      var b := Received(roster, h, w, data).table[h];
      assert SourceAt(roster, prefixOf, b.id);
      ReceiveContents(roster.table[h].frame, roster.table[h].boot, roster.table[h].chunks, w, data);
      PutPresence(roster, next, prefixOf, stage.active, fence, h, b);
      ReceiveBalanced(ledger, past, roster, parse, h, w, data);
      ReceiveRouting(roster, ledger, h, w, data);
      PutLayouts(roster, fence, past, h, b);
      BreakLayouts(Put(roster, h, b), fence, past, Heard(past, ledger, w, data));
      ReceiveExcused(ledger, past, roster.table, parse, w, data);
      ReceiveHeeded(history, ledger, past, w, data, parse);
      PutShown(past.broken, roster, boot, stage.revision, stage.surfaceRevision, stage.rendered, past.viewer, h, b);
      PutRecovered(roster, recovery, history, clock, h, b);
      PutParts(h, b);
      roster, past := Put(roster, h, b), Heard(past, ledger, w, data);
    }

    /** A reply is complete: takes its request off the books, and hands over what was received. */
    method Finish(h: Handle, w: WireId) returns (data: bytes)
      requires Valid() && Live(roster, h) && w in ledger.pending && ledger.pending[w] == h
      modifies this`roster, this`ledger, this`past
      ensures data == ChunkOf(old(roster).table[h], w)
      ensures roster == Cleared(old(roster), h, w) && ledger == Closed(old(ledger), w)
      ensures past == Losing(old(past), old(ledger), w)
      ensures Base() && Shows() && Live(roster, h)
      ensures (old(Resting()) ==> Resting()) && (old(Displays()) ==> Displays())
      ensures w in old(ledger).requestIDs && old(Calm()) ==> Calm()
      ensures Recovered(roster, recovery, history, clock)
      ensures Heeded(history, past.received, ledger.pending, ledger.internal, parse)
      ensures w in old(ledger).requestIDs ==> Roomy(ledger) && Retirable(ledger, w)
    {
      ghost var b := Cleared(roster, h, w).table[h];
      data := ChunkOf(roster.table[h], w);
      FinishAll(ledger, past, roster, fence, parse, h, w);
      FinishRest(roster, next, prefixOf, stage, fence, h, w);
      EndHeeded(history, past.received, ledger.pending, ledger.internal, ledger.pending - {w}, parse);
      PutShown(past.broken, roster, boot, stage.revision, stage.surfaceRevision, stage.rendered, past.viewer, h, b);
      PutRecovered(roster, recovery, history, clock, h, b);
      FinishParts(h, w);
      past := Losing(past, ledger, w);
      ledger := Closed(ledger, w);
      roster := Cleared(roster, h, w);
    }

    /** What holds between events, or a part of it, holds without a request. The end of an operation neither takes
        nor frees a slot for transitions. */
    lemma FinishParts(h: Handle, w: WireId)
      requires Live(roster, h) && w in ledger.pending
      ensures var r := Cleared(roster, h, w);
              && (Resting() ==> Quiet(r, stage, fence, past.broken))
              && (Displays() ==> Displayed(past.broken, r, boot, stage, past.latest))
              && (w in ledger.requestIDs && Calm() ==>
                    Poised(r, stage, fence, Closed(ledger, w), boot, past.broken, past.latest))
    {
      ghost var r, b := Cleared(roster, h, w), Cleared(roster, h, w).table[h];
      PutCalm(roster, stage, fence, past.broken, h, b);
      PutParts(h, b);
      if w in ledger.requestIDs && Calm() {
        Fewer(ledger.pending, w);
        Fewer(ledger.requestIDs, w);
        SlotsPoised(r, stage, fence, ledger, Closed(ledger, w), boot, past.broken, past.latest);
      }
    }

    /** The late reply to an operation that timed out is drained. */
    method Drain(w: WireId)
      requires Valid() && Calm()
      modifies this`ledger
      ensures Valid() && Calm() && ledger == old(ledger).(retired := old(ledger).retired - {w})
    {
      SubLess(ledger.retired, w);
      RetireBalanced(ledger, past, roster.table, parse, ledger.retired - {w});
      RetireRouting(roster, ledger, ledger.retired - {w});
      ledger := ledger.(retired := ledger.retired - {w});
    }

    /** Handles a part of a reply. Parts are kept per request and bounded in all; the whole is delivered
        to whoever asked, under the name they asked with and with the source's names prefixed. */
    method TakeChunk(h: Handle, named: bytes, id: bytes, final: bool, data: bytes) returns (result: Result)
      requires Valid() && Calm() && Live(roster, h)
      modifies this
      ensures Listings() == old(Listings())
      ensures ValidBut(h) && Electing() && (!result.Upstream? ==> Valid())
      ensures result.Upstream? ==> Live(roster, h)
      ensures result.Fine? ==> Calm()
      ensures result.Ended? ==> past.broken
      ensures var w := Identify(id);
              match old(FateOf(roster, ledger, h, named, Identify(id), data))
              case Turned => result == Upstream(Permanent) && unchanged(this)
              case Drained =>
                && result == Fine && unchanged(`roster, `past)
                && ledger == old(ledger).(retired := if final then old(ledger).retired - {w} else old(ledger).retired)
              case Taken =>
                && (!final ==>
                      && result == Fine && roster == Received(old(roster), h, w, data)
                      && ledger == old(ledger) && past == Heard(old(past), old(ledger), w, data))
                && (final && w in old(ledger).requestIDs ==>
                      && w !in ledger.pending
                      && Concludes(parse(old(ChunkOf(roster.table[h], Identify(id))) + data), old(past), past, w,
                                   old(ledger).requestIDs[w], old(roster).table[h].prefix))
                && (final && w !in old(ledger).requestIDs ==>
                      Heeds(parse(old(ChunkOf(roster.table[h], Identify(id))) + data), old(history), history,
                            old(roster).table[h].id, w, result))
    {
      SparesOne(h);
      if named != roster.table[h].boot {
        return Upstream(Permanent);
      }
      var w := Identify(id);
      if w in ledger.retired {
        if ledger.retired[w] != h {
          return Upstream(Permanent);
        }
        if final {
          Drain(w);
        }
        return Fine;
      }
      if w !in ledger.pending || ledger.pending[w] != h {
        return Upstream(Permanent);
      }
      var total := TotalOf(roster.table[h].chunks);
      if |data| + total > MAX_FRAME
         || (ChunkOf(roster.table[h], w) == [] && |roster.table[h].chunks| >= MAX_REQUESTS + MAX_INTERNAL) {
        return Upstream(Permanent);
      }
      result := TakePart(h, w, final, data);
    }

    /** Keeps a part of a reply, and finishes the reply with the last part. */
    method TakePart(h: Handle, w: WireId, final: bool, data: bytes) returns (result: Result)
      requires Valid() && Calm() && Live(roster, h) && w in ledger.pending && ledger.pending[w] == h
      requires |data| + Total(roster.table[h].chunks) <= MAX_FRAME
      modifies this
      ensures Listings() == old(Listings())
      ensures ValidBut(h) && Electing() && (!result.Upstream? ==> Valid())
      ensures result.Upstream? ==> Live(roster, h)
      ensures result.Fine? ==> Calm()
      ensures result.Ended? ==> past.broken
      ensures !final ==>
                && result == Fine && roster == Received(old(roster), h, w, data)
                && ledger == old(ledger) && past == Heard(old(past), old(ledger), w, data)
      ensures final && w in old(ledger).requestIDs ==>
                && w !in ledger.pending
                && Concludes(parse(old(ChunkOf(roster.table[h], w)) + data), old(past), past, w,
                             old(ledger).requestIDs[w], old(roster).table[h].prefix)
      ensures final && w !in old(ledger).requestIDs ==>
                Heeds(parse(old(ChunkOf(roster.table[h], w)) + data), old(history), history, old(roster).table[h].id,
                      w, result)
    {
      Receive(h, w, data);
      if !final {
        SparesOne(h);
        return Fine;
      }
      if w in ledger.requestIDs {
        result := Deliver(h, w);
        SparesOne(h);
      } else {
        result := Acknowledge(h, w);
      }
    }

    /** Delivers a complete reply. */
    method Deliver(h: Handle, w: WireId) returns (result: Result)
      requires Valid() && Calm() && Live(roster, h) && w in ledger.requestIDs && w in ledger.pending
      requires ledger.pending[w] == h
      modifies this`roster, this`ledger, this`past
      ensures Valid() && Calm() && Live(roster, h)
      ensures result == Fine || result == Upstream(Permanent) || (result == Ended && past.broken)
      ensures w !in ledger.pending
      ensures var reply := parse(ChunkOf(old(roster).table[h], w));
              && Concludes(reply, old(past), past, w, old(ledger).requestIDs[w], old(roster).table[h].prefix)
              && (result == Upstream(Permanent) <==> !(reply.Some? && reply.value.Object?))
    {
      ReceivedWhole(ledger, past, roster.table, parse, w);
      var consumer, prefix := ledger.requestIDs[w], roster.table[h].prefix;
      ghost var was := past;
      OperationPending(w);
      OrdinaryUnanswered(roster.sources, ledger.pending, history, w, h);
      var data := Finish(h, w);
      var reply := parse(data);
      if reply.None? || !reply.value.Object? {
        assert past.lost - {w} == was.lost;
        LoseExcused(past, parse, w);
        return Upstream(Permanent);
      }
      var ok := TellBody(w, consumer, Delivered(reply.value, prefix, consumer));
      assert past.lost == was.lost;
      return if ok then Fine else Ended;
    }

    method TellBody(w: WireId, consumer: bytes, body: Json) returns (ok: bool)
      requires Base() && Shows() && Calm() && w in past.lost && w in past.issued && past.issued[w].consumer == consumer
      requires Genuine(past.issued, Reply(Some(w), consumer, Payload(body)), past.received, parse)
      modifies this`past
      ensures Base() && Shows() && Calm()
      ensures past == Told(old(past), Reply(Some(w), consumer, Payload(body))).(broken := old(past).broken || !ok)
    {
      ok := Tell(Reply(Some(w), consumer, Payload(body)));
      Spoken(old(past));
    }

    /** Saying something changes nothing else. */
    lemma Spoken(was: Past)
      requires Balanced(ledger, past, roster.table, parse) && Presence(roster, next, prefixOf, stage.active, fence)
      requires Routing(roster, ledger) && Layouts(roster, fence, was)
      requires Framed()
      requires past == was.(answers := past.answers, lost := past.lost, broken := past.broken)
      requires was.broken ==> past.broken
      ensures Base()
      ensures Shown(was.broken, roster, boot, stage.revision, stage.surfaceRevision, stage.rendered, was.viewer) ==>
              Shows()
      ensures Poised(roster, stage, fence, ledger, boot, was.broken, was.latest) ==> Calm()
      ensures Elected(was.broken, roster, stage.active) ==> Electing()
    {
      BreakLayouts(roster, fence, was, past);
      if past.broken {
        BrokenCalm();
        BreakShown(roster, boot, stage.revision, stage.surfaceRevision, stage.rendered, past.viewer);
      }
    }

    /** A transition is acknowledged: its source may count as stable, and what waited can go on. Any other
        reply fails the source. */
    method Acknowledge(h: Handle, w: WireId) returns (result: Result)
      requires Valid() && Calm() && Live(roster, h) && w !in ledger.requestIDs && w in ledger.pending
      requires ledger.pending[w] == h
      modifies this
      ensures Listings() == old(Listings())
      ensures ValidBut(h) && Electing() && (!result.Upstream? ==> Valid())
      ensures result.Upstream? ==> Live(roster, h)
      ensures result.Fine? ==> Calm()
      ensures result.Ended? ==> past.broken
      ensures Heeds(parse(ChunkOf(old(roster).table[h], w)), old(history), history, old(roster).table[h].id, w, result)
    {
      ghost var was, before, r, id := past, ledger.pending, roster, roster.table[h].id;
      assert w.Internal? && SourceAt(roster, prefixOf, id) by {
        InternalPending(w);
      }
      RefuseUnanswered(roster.sources, ledger.pending, history, w);
      ReceivedSoFar(ledger, past, roster.table, parse, w);
      var data := Finish(h, w);
      assert past.lost == was.lost;
      var reply := parse(data);
      if reply.None? {
        return Upstream(Permanent);
      }
      if !Agrees(reply.value) {
        return Upstream(Transient);
      }
      AgreeUnanswered(r, prefixOf, before, history, h, w, reply.value);
      AgreeRecovered(roster, recovery, history, clock, h, w, reply.value);
      history := And(history, Agreed(id, w, reply.value));
      result := Resume(h);
    }

    /** What a finished reply to a transition comes to: an acknowledgement is in the chronicle, before
        whatever follows from it; anything else fails the source. */
    ghost predicate Heeds(reply: Option<Json>, before: Chronicle, after: Chronicle, id: string, w: WireId,
                          result: Result)
    {
      if reply.None? then result == Upstream(Permanent) && after == before
      else if !Agrees(reply.value) then result == Upstream(Transient) && after == before
      else !result.Upstream? && Continues(after, And(before, Agreed(id, w, reply.value)))
    }

    /** Whatever is outstanding and no operation is a transition. */
    lemma InternalPending(w: WireId)
      requires Base() && w in ledger.pending && w !in ledger.requestIDs
      ensures w.Internal?
    {
      assert BookAt(ledger.pending, ledger.deadlines, ledger.requestIDs, ledger.retired, ledger.ordinary,
                    ledger.internal, w);
    }

    /** After an acknowledgement: rendering may count as stable, transitions that found no slot are sent,
        and then the fence. */
    method Resume(h: Handle) returns (result: Result)
      requires Valid() && Resting() && Displays() && Live(roster, h)
      modifies this
      ensures Listings() == old(Listings()) && Continues(history, old(history))
      ensures Valid() && Electing() && (result.Fine? ==> Calm())
      ensures result == Fine || (result == Ended && past.broken)
    {
      RenderProgress(h);
      ghost var there := Here();
      var ok := SyncInterest();
      ContinuesTransitive(history, there.history, old(history));
      if ok {
        ghost var synced := Here();
        ok := ResumeFence();
        ContinuesTransitive(history, synced.history, old(history));
      }
      return if ok then Fine else Ended;
    }

    // Messages from the viewer ----------------------------------------------------------------------

    /** The source that an identifier belongs to, and what it is called there. */
    method Resolve(id: bytes) returns (h: Option<Handle>, local: bytes)
      requires Base()
      ensures Belongs(roster, id, h, local)
      ensures h.Some? ==> roster.table[h.value].snapshot.Some?
    {
      var todo := roster.sources.Keys;
      while todo != {}
        invariant todo <= roster.sources.Keys
        invariant forall x :: Names(roster, x, id) ==> roster.table[x].id in todo
        decreases |todo|
      {
        var k :| k in todo;
        SourceLive(k);
        assert SourceAt(roster, prefixOf, k);
        var x := roster.sources[k];
        var prefix := roster.table[x].prefix;
        if prefix != [] && prefix <= id {
          return Some(x), id[|prefix|..];
        }
        todo := todo - {k};
      }
      return None, [];
    }

    /** The one source that all identifiers of a request belong to, if they belong to one, and the
        request as that source knows it. */
    method ResolveAll(request: Json) returns (valid: bool, target: Option<Handle>, own: Json)
      requires Base()
      ensures valid && target.Some? ==> Live(roster, target.value) && roster.table[target.value].snapshot.Some?
      ensures valid && target.Some? ==> Within(request, roster.table[target.value].prefix)
      ensures valid && target.Some? ==> forall id :: MeantAt(roster, request, target.value, id)
      ensures valid ==> (target.None? <==> Ids(request) == {})
      ensures valid ==> own == Transform(request, Strip(if target.Some? then roster.table[target.value].prefix else []))
      ensures !valid ==> target.None? && Ids(request) != {} && forall h :: !SoleOwner(roster, h, request)
    {
      var ids := Ids(request);
      var todo, locals := ids, map[];
      target := None;
      GatheredStart(roster, ids);
      while todo != {}
        invariant Gathered(roster, ids, todo, target, locals) && (target.Some? ==> todo != ids)
        invariant target.Some? ==> target.value in roster.table && roster.table[target.value].snapshot.Some?
        decreases |todo|
      {
        var id :| id in todo;
        var h, local := Resolve(id);
        if h.None? || (target.Some? && target != h) {
          Mixed(roster, request, todo, target, locals, id, h);
          return false, None, Null;
        }
        GatheredMore(roster, ids, todo, target, locals, h.value, id, local);
        target, locals, todo := h, locals[id := local], todo - {id};
      }
      Owned(roster, request, target, locals);
      return true, target, Transform(request, Localize(locals));
    }

    /** The prefixes of the sources that have one. */
    ghost function Prefixes(): map<nat, bytes>
      reads this`roster
    {
      map h | h in roster.table && Live(roster, h) && roster.table[h].prefix != [] :: roster.table[h].prefix
    }

    /** If no two prefixes can begin the same text, an identifier that was prefixed for the viewer leads
        back to its source, and to what it is called there. */
    lemma ResolvesBack(x: Handle, own: bytes, h: Option<Handle>, local: bytes)
      requires Separate(Prefixes()) && x in Prefixes()
      requires Belongs(roster, Add(roster.table[x].prefix)(own), h, local)
      ensures h == Some(x) && local == own
    {
      ResolveInverts(Prefixes(), x, own);
      var id := Add(roster.table[x].prefix)(own);
      assert Owns(Prefixes(), x, id) && Names(roster, x, id);
      if h.Some? {
        assert Owns(Prefixes(), h.value, id);
      }
    }

    /** Whether a consumer's name is in use. */
    method InUse(consumer: bytes) returns (used: bool)
      ensures !used <==> Unused(ledger.requestIDs, consumer)
    {
      var todo := ledger.requestIDs.Keys;
      while todo != {}
        invariant todo <= ledger.requestIDs.Keys
        invariant forall w :: w in ledger.requestIDs && w !in todo ==> ledger.requestIDs[w] != consumer
        decreases |todo|
      {
        var w :| w in todo;
        if ledger.requestIDs[w] == consumer {
          assert !UnusedAt(ledger.requestIDs, consumer, w);
          return true;
        }
        todo := todo - {w};
      }
      forall w ensures UnusedAt(ledger.requestIDs, consumer, w) {
      }
      return false;
    }

    /** Answers a request that never got on the books. */
    method Answer(consumer: bytes, outcome: Outcome) returns (result: Result)
      requires Valid() && Calm() && !outcome.Payload?
      modifies this`past
      ensures Valid() && Calm()
      ensures result == Fine || (result == Ended && past.broken)
      ensures past == old(past).(answers := old(past).answers + [Reply(None, consumer, outcome)], broken := past.broken)
    {
      ghost var was := past;
      var ok := Tell(Reply(None, consumer, outcome));
      assert past.lost == was.lost;
      Spoken(was);
      return if ok then Fine else Ended;
    }

    /** Refuses a request. */
    method Decline(consumer: bytes, message: string) returns (result: Result)
      requires Valid() && Calm()
      modifies this`past
      ensures Valid() && Calm()
      ensures result == Fine || (result == Ended && past.broken)
      ensures Declined(old(past), past, consumer, message)
    {
      result := Answer(consumer, Refused(message));
    }

    /** Puts an operation on the books, with the next identity. */
    method Accept(h: Handle, consumer: bytes, ghost issue: Issue, until: nat)
      requires Valid() && Calm() && Live(roster, h) && roster.table[h].snapshot.Some?
      requires issue.consumer == consumer && issue.target == h && issue.prefix == roster.table[h].prefix
      requires consumer != [] && |ledger.requestIDs| + |ledger.retired| < MAX_REQUESTS
      requires Unused(ledger.requestIDs, consumer)
      modifies this`ledger, this`past
      ensures Valid() && Calm()
      ensures ledger == Accepted(old(ledger), h, consumer, until)
      ensures past == Accepting(old(past), Ordinary(ledger.ordinary), issue)
    {
      ghost var w := Ordinary(ledger.ordinary + 1);
      OrdinaryUnanswered(roster.sources, ledger.pending, history, w, h);
      ExpectHeeded(history, past.received, ledger.pending, ledger.internal, w, h, ledger.internal, parse);
      AcceptCalm(h, consumer, until);
      EnterBooks(h, consumer, issue, until);
    }

    /** An operation takes no slot of the transitions. */
    lemma AcceptCalm(h: Handle, consumer: bytes, until: nat)
      requires Base() && Calm()
      ensures Poised(roster, stage, fence, Accepted(ledger, h, consumer, until), boot, past.broken, past.latest)
    {
      var w := Ordinary(ledger.ordinary + 1);
      NextUnused(ledger, past, roster.table, parse);
      OneMore(ledger.pending, w, h);
      OneMore(ledger.requestIDs, w, consumer);
      SlotsPoised(roster, stage, fence, ledger, Accepted(ledger, h, consumer, until), boot, past.broken, past.latest);
    }

    /** The part of that which concerns the books. */
    method EnterBooks(h: Handle, consumer: bytes, ghost issue: Issue, until: nat)
      requires Base() && Excused(past.lost, past.received, parse) && Live(roster, h) && roster.table[h].snapshot.Some?
      requires issue.consumer == consumer && issue.target == h && issue.prefix == roster.table[h].prefix
      requires consumer != [] && |ledger.requestIDs| + |ledger.retired| < MAX_REQUESTS
      requires Unused(ledger.requestIDs, consumer)
      modifies this`ledger, this`past
      ensures Base() && Excused(past.lost, past.received, parse)
      ensures ledger == Accepted(old(ledger), h, consumer, until)
      ensures past == Accepting(old(past), Ordinary(ledger.ordinary), issue)
    {
      var m := Accepted(ledger, h, consumer, until);
      ghost var q := Accepting(past, Ordinary(ledger.ordinary + 1), issue);
      AcceptAll(ledger, past, roster, fence, parse, h, issue, until, m, q);
      Become(m, q);
    }

    /** Other books, and what has happened besides, as long as they agree. */
    method Become(m: Ledger, ghost q: Past)
      requires Base() && Balanced(m, q, roster.table, parse) && Routing(roster, m) && Layouts(roster, fence, q)
      modifies this`ledger, this`past
      ensures Base() && ledger == m && past == q
    {
      past, ledger := q, m;
    }

    /** An operation was issued under this identity. */
    ghost predicate Assigned(before: Past, w: WireId, issue: Issue)
      reads this`past
    {
      past.issued == before.issued[w := issue]
    }

    /** An operation is on the books, and has to be answered by then. */
    ghost predicate Entered(l: Ledger, h: Handle, consumer: bytes, until: nat)
      reads this`ledger
    {
      ledger == Accepted(l, h, consumer, until)
    }

    /** Accepts an operation and writes it to its source, which knows it as `own` and has to answer in time. */
    method Forward(h: Handle, consumer: bytes, ghost request: Json, own: Json, now: nat, ghost issue: Issue,
                   ghost before: Past, ghost w: WireId) returns (ok: bool)
      requires Valid() && Calm() && Live(roster, h) && roster.table[h].snapshot.Some? && now == clock
      requires issue == Asking(roster, h, consumer, request)
      requires request.Object? && Within(request, roster.table[h].prefix)
      requires own == Transform(request, Strip(roster.table[h].prefix))
      requires TextOf(FieldOf(request, "method")) != SURFACE_SET
      requires consumer != [] && |ledger.requestIDs| + |ledger.retired| < MAX_REQUESTS
      requires Unused(ledger.requestIDs, consumer)
      requires past.issued == before.issued && w == Ordinary(ledger.ordinary + 1)
      modifies this
      ensures Valid() && (ok || past.broken) && Listings() == old(Listings())
      ensures ok ==> Calm()
      ensures Live(roster, h) ==> Entered(old(ledger), h, consumer, now + OPERATION_TIMEOUT) && stage == old(stage)
      ensures Assigned(before, w, issue)
      ensures Live(roster, h) ==> WrittenNext(old(past).written, past.written, issue, w)
    {
      var written := Place(h, consumer, request, own, now + OPERATION_TIMEOUT, issue, before, w);
      ok := Conclude(h, written);
    }

    /** Accepts an operation and tries to write it. */
    method Place(h: Handle, consumer: bytes, ghost request: Json, own: Json, until: nat, ghost issue: Issue,
                 ghost before: Past, ghost w: WireId) returns (written: bool)
      requires Valid() && Calm() && Live(roster, h) && roster.table[h].snapshot.Some?
      requires issue == Asking(roster, h, consumer, request)
      requires request.Object? && Within(request, roster.table[h].prefix)
      requires own == Transform(request, Strip(roster.table[h].prefix))
      requires TextOf(FieldOf(request, "method")) != SURFACE_SET
      requires consumer != [] && |ledger.requestIDs| + |ledger.retired| < MAX_REQUESTS
      requires Unused(ledger.requestIDs, consumer)
      requires past.issued == before.issued && w == Ordinary(ledger.ordinary + 1)
      modifies this`ledger, this`past
      ensures Valid() && Calm() && Entered(old(ledger), h, consumer, until)
      ensures Assigned(before, w, issue)
      ensures written ==> WrittenNext(old(past).written, past.written, issue, w)
    {
      Admit(h, consumer, issue, until, before, w);
      written := Operated(h, Ordinary(ledger.ordinary), request, own, issue);
    }

    /** Accepts an operation under an identity that nothing was written with. */
    method Admit(h: Handle, consumer: bytes, ghost issue: Issue, until: nat, ghost before: Past, ghost w: WireId)
      requires Valid() && Calm() && Live(roster, h) && roster.table[h].snapshot.Some?
      requires issue.consumer == consumer && issue.target == h && issue.prefix == roster.table[h].prefix
      requires consumer != [] && |ledger.requestIDs| + |ledger.retired| < MAX_REQUESTS
      requires Unused(ledger.requestIDs, consumer)
      requires past.issued == before.issued && w == Ordinary(ledger.ordinary + 1)
      modifies this`ledger, this`past
      ensures Valid() && Calm() && Entered(old(ledger), h, consumer, until) && Assigned(before, w, issue)
      ensures w == Ordinary(ledger.ordinary) && w in past.issued && past.issued[w] == issue
      ensures past.written == old(past).written && Novel(past.written, w)
    {
      NextNovel(ledger, past, roster.table, parse);
      Accept(h, consumer, issue, until);
    }

    /** Tries to write an operation that was just accepted. */
    method Operated(h: Handle, w: WireId, ghost request: Json, own: Json, ghost issue: Issue) returns (written: bool)
      requires Valid() && Calm() && Live(roster, h) && w.Ordinary? && Novel(past.written, w)
      requires request.Object? && Within(request, roster.table[h].prefix)
      requires TextOf(FieldOf(request, "method")) != SURFACE_SET
      requires w in past.issued && past.issued[w] == issue && issue == Asking(roster, h, issue.consumer, request)
      requires own == Transform(request, Strip(roster.table[h].prefix))
      modifies this`past
      ensures Valid() && Calm() && past == old(past).(written := past.written)
      ensures written ==> WrittenNext(old(past).written, past.written, issue, w)
    {
      ghost var was := past;
      var frame := Request(roster.table[h].boot, Addressed(own, w));
      written := Attempt(h, frame);
      OperationMeans(request, roster.table[h].prefix, w, roster.table[h].boot, h, stage.surfaceOn);
      assert OperationIs(issue, Sending(h, frame), w);
      AttemptBalanced(ledger, was, roster.table, parse, h, frame, stage.surfaceOn, roster.table[h].open, w);
      BreakLayouts(roster, fence, was, past);
    }

    /** Makes a source the active one. */
    method Focus(h: Handle) returns (ok: bool)
      requires Valid() && Live(roster, h) && roster.table[h].snapshot.Some?
      modifies this
      ensures Listings() == old(Listings())
      ensures Valid() && Later(old(Here()).(active := Some(h)), Here()) && (ok || past.broken)
      ensures ok ==> Calm()
    {
      stage := stage.(active := Some(h));
      LaterSelf(Here());
      ok := ReplayEffects();
      if ok {
        ok := Publish();
      }
    }

    /** The last answer so far is this one, and it was not there before. */
    ghost predicate Replies(before: Past, consumer: bytes, outcome: Outcome)
      reads this`past
    {
      |past.answers| > |before.answers| && past.answers[|past.answers| - 1] == Reply(None, consumer, outcome)
    }

    /** Whether the viewer wants a surface at all. */
    method SetSurface(consumer: bytes, wanted: bool) returns (result: Result)
      requires Valid()
      modifies this
      ensures Listings() == old(Listings())
      ensures Valid() && (result == Fine || (result == Ended && past.broken))
      ensures result.Fine? ==> Calm() && stage.surfaceOn == wanted
      ensures past.issued == old(past).issued
      ensures result.Fine? ==> Replies(old(past), consumer, Acknowledged(wanted))
    {
      stage := stage.(surfaceOn := wanted);
      var ok := true;
      if wanted {
        ok := ReplayEffects();
      }
      if ok {
        ok := Publish();
      }
      if !ok {
        return Ended;
      }
      result := Answer(consumer, Acknowledged(wanted));
    }

    /** The source that a request is for, and the request in its names. Without identifiers, that is the
        active source. */
    method Aim(request: Json) returns (valid: bool, target: Option<Handle>, own: Json)
      requires Valid() && Calm()
      ensures valid && target.Some? ==>
                && Live(roster, target.value) && roster.table[target.value].snapshot.Some?
                && Within(request, roster.table[target.value].prefix)
                && own == Transform(request, Strip(roster.table[target.value].prefix))
      ensures Sought(roster, stage.active, request, target) && (valid <==> target.Some? || Ids(request) == {})
    {
      valid, target, own := ResolveAll(request);
      if valid && target.None? {
        target := stage.active;
        if target.Some? {
          TransformAgrees(request, Strip([]), Strip(roster.table[target.value].prefix));
        }
      }
    }

    /** Handles a request of the viewer. A request names its operation and its consumer; it goes to the
        one source that all its identifiers belong to, or to the active source if it has none. What is not
        issued is answered at once. */
    method TakeCall(named: bytes, request: Json) returns (result: Result)
      requires Valid() && Calm()
      modifies this
      ensures Listings() == old(Listings())
      ensures Valid() && !result.Upstream?
      ensures result.Fine? ==> Calm()
      ensures var operation := TextOf(FieldOf(request, "method"));
              && IssuesAtMost(old(past).issued, past.issued, old(roster), Ordinary(old(ledger).ordinary + 1),
                              TextOf(FieldOf(request, "id")), operation, request)
              && (named != boot ==> past.issued == old(past).issued)
      ensures if !request.Object? || !old(Admissible(TextOf(FieldOf(request, "id")))) then
                result == Ended && unchanged(this)
              else
                && (result.Ended? ==> past.broken)
                && (result.Fine? ==> Handled(old(roster), old(stage).active, old(ledger), old(past), named, request))
    {
      var consumer := TextOf(FieldOf(request, "id"));
      if !request.Object? || consumer == [] || |consumer| > 128 {
        return Ended;
      }
      var used := InUse(consumer);
      if used {
        return Ended;
      }
      result := Settle(named, request);
    }

    /** Handles a request under a name that can be given to it. */
    method Settle(named: bytes, request: Json) returns (result: Result)
      requires Valid() && Calm() && request.Object? && Admissible(TextOf(FieldOf(request, "id")))
      modifies this
      ensures Listings() == old(Listings())
      ensures Valid() && !result.Upstream? && (result.Ended? ==> past.broken)
      ensures result.Fine? ==> Calm()
      ensures IssuesAtMost(old(past).issued, past.issued, old(roster), Ordinary(old(ledger).ordinary + 1),
                           TextOf(FieldOf(request, "id")), TextOf(FieldOf(request, "method")), request)
      ensures named != boot ==> past.issued == old(past).issued
      ensures result.Fine? ==> Handled(old(roster), old(stage).active, old(ledger), old(past), named, request)
    {
      var consumer, operation := TextOf(FieldOf(request, "id")), TextOf(FieldOf(request, "method"));
      if named != boot {
        result := Decline(consumer, "stale Hive endpoint");
      } else if operation == SURFACE_SET {
        var wanted := FieldOf(FieldOf(request, "params"), "active");
        if wanted.Bool? {
          result := SetSurface(consumer, wanted.flag);
        } else {
          result := Decline(consumer, "active must be boolean");
        }
      } else if operation !in SUPPORTED {
        result := Decline(consumer, "operation is not supported by the Hive gateway");
      } else {
        ghost var target;
        result, target := Operate(consumer, operation, request);
      }
    }

    /** A consumer's name that can be given to a request. */
    ghost predicate Admissible(consumer: bytes)
      reads this`ledger
    {
      0 < |consumer| <= 128 && Unused(ledger.requestIDs, consumer)
    }

    /** What becomes of a request: without an operation that can be routed it is answered at once, and
        otherwise `Decided` says. */
    ghost predicate Handled(r: Roster, active: Option<Handle>, l: Ledger, before: Past, named: bytes, request: Json)
      reads this`roster, this`stage, this`past
    {
      var consumer, operation := TextOf(FieldOf(request, "id")), TextOf(FieldOf(request, "method"));
      var wanted := FieldOf(FieldOf(request, "params"), "active");
      if named != boot then Declined(before, past, consumer, "stale Hive endpoint")
      else if operation == SURFACE_SET then
        if !wanted.Bool? then Declined(before, past, consumer, "active must be boolean")
        else past.issued == before.issued && stage.surfaceOn == wanted.flag
             && Replies(before, consumer, Acknowledged(wanted.flag))
      else if operation !in SUPPORTED then
        Declined(before, past, consumer, "operation is not supported by the Hive gateway")
      else exists target :: Sought(r, active, request, target)
             && Decided(r, active, l, before, target, roster, stage.active, past, consumer, operation, request)
    }

    /** Handles an operation: it is issued, or refused. `aim` is the source that it is for. */
    method Operate(consumer: bytes, operation: bytes, request: Json) returns (result: Result, ghost aim: Option<Handle>)
      requires Valid() && Calm() && request.Object? && consumer != []
      requires operation == TextOf(FieldOf(request, "method")) && operation != SURFACE_SET
      requires Unused(ledger.requestIDs, consumer)
      modifies this
      ensures Listings() == old(Listings())
      ensures Valid() && !result.Upstream? && (result.Ended? ==> past.broken)
      ensures result.Fine? ==> Calm()
      ensures IssuesAtMost(old(past).issued, past.issued, old(roster), Ordinary(old(ledger).ordinary + 1), consumer,
                           operation, request)
      ensures Sought(old(roster), old(stage).active, request, aim)
      ensures result.Fine? ==> Decided(old(roster), old(stage).active, old(ledger), old(past), aim, roster,
                                       stage.active, past, consumer, operation, request)
    {
      var valid, target, own := Aim(request);
      aim := target;
      if !valid {
        result := Decline(consumer, "unknown or mixed sharing targets");
        return;
      }
      result := Address(target, consumer, operation, request, own);
    }

    /** Handles an operation for a source, if there is one. */
    method Address(target: Option<Handle>, consumer: bytes, operation: bytes, request: Json, own: Json)
      returns (result: Result)
      requires Valid() && Calm() && request.Object? && consumer != []
      requires target.Some? ==> Live(roster, target.value) && roster.table[target.value].snapshot.Some?
                                && Within(request, roster.table[target.value].prefix)
                                && own == Transform(request, Strip(roster.table[target.value].prefix))
      requires target.None? ==> Ids(request) == {}
      requires operation == TextOf(FieldOf(request, "method")) && operation != SURFACE_SET
      requires Unused(ledger.requestIDs, consumer)
      modifies this
      ensures Listings() == old(Listings())
      ensures Valid() && !result.Upstream? && (result.Ended? ==> past.broken)
      ensures result.Fine? ==> Calm()
      ensures IssuesAtMost(old(past).issued, past.issued, old(roster), Ordinary(old(ledger).ordinary + 1), consumer,
                           operation, request)
      ensures result.Fine? ==> Decided(old(roster), old(stage).active, old(ledger), old(past), target, roster,
                                       stage.active, past, consumer, operation, request)
    {
      if target.None? || operation !in roster.table[target.value].methods {
        result := Decline(consumer, "operation unavailable on this sharing");
        return;
      }
      if |ledger.requestIDs| + |ledger.retired| >= MAX_REQUESTS {
        result := Decline(consumer, "too many outstanding or expired operations");
        return;
      }
      result := Undertake(target.value, consumer, operation, request, own);
    }

    /** Sends an operation to a source that offers it. */
    method Undertake(h: Handle, consumer: bytes, operation: bytes, request: Json, own: Json) returns (result: Result)
      requires Valid() && Calm() && Live(roster, h) && roster.table[h].snapshot.Some?
      requires request.Object? && Within(request, roster.table[h].prefix)
      requires own == Transform(request, Strip(roster.table[h].prefix))
      requires TextOf(FieldOf(request, "method")) != SURFACE_SET && operation in roster.table[h].methods
      requires consumer != [] && |ledger.requestIDs| + |ledger.retired| < MAX_REQUESTS
      requires Unused(ledger.requestIDs, consumer)
      modifies this
      ensures Listings() == old(Listings())
      ensures Valid() && !result.Upstream? && (result.Ended? ==> past.broken)
      ensures result.Fine? ==> Calm()
      ensures IssuesAtMost(old(past).issued, past.issued, old(roster), Ordinary(old(ledger).ordinary + 1), consumer,
                           operation, request)
      ensures result.Fine? ==> Committed(old(roster), old(stage).active, old(ledger), old(past), h, roster, past,
                                         consumer, operation, request)
      ensures result.Fine? && Live(roster, h) ==>
                stage.active == if IsFocus(operation) then Some(h) else old(stage).active
    {
      result := Dispatch(h, consumer, operation, request, own, Asking(roster, h, consumer, request));
      assert past.issued == old(past).issued
             || IssuedTo(old(past).issued, past.issued, old(roster), h, Ordinary(old(ledger).ordinary + 1), consumer,
                         operation, request);
    }

    /** Makes a source the active one, if the operation is to move the focus there. What was found about
        the operation and its source still holds afterwards, but that the source may be gone. */
    method Refocus(h: Handle, ghost consumer: bytes, operation: bytes) returns (ok: bool)
      requires Valid() && Calm() && Live(roster, h) && roster.table[h].snapshot.Some?
      requires Unused(ledger.requestIDs, consumer)
      modifies this
      ensures Valid() && (ok ==> Calm()) && Listings() == old(Listings())
      ensures ok && Live(roster, h) ==> stage.active == if IsFocus(operation) then Some(h) else old(stage).active
      ensures (ok || past.broken) && |past.answers| >= |old(past).answers|
      ensures h in roster.table && SameButFlags(old(roster).table[h], roster.table[h])
      ensures Live(roster, h) || (IsFocus(operation) && old(stage).active != Some(h))
      ensures Unused(ledger.requestIDs, consumer) && ledger.ordinary == old(ledger).ordinary
      ensures |ledger.requestIDs| + |ledger.retired| <= |old(ledger).requestIDs| + |old(ledger).retired|
      ensures past.issued == old(past).issued
    {
      ok := true;
      if IsFocus(operation) && stage.active != Some(h) {
        ghost var before := Here().(active := Some(h));
        ok := Focus(h);
        LaterRequests(before, Here(), h, consumer);
      }
    }

    /** Sends an operation to its source, which becomes the active one if the focus is to move. */
    method Dispatch(h: Handle, consumer: bytes, operation: bytes, request: Json, own: Json, ghost issue: Issue)
      returns (result: Result)
      requires Valid() && Calm() && Live(roster, h) && roster.table[h].snapshot.Some?
      requires issue == Asking(roster, h, consumer, request)
      requires request.Object? && Within(request, roster.table[h].prefix)
      requires own == Transform(request, Strip(roster.table[h].prefix))
      requires TextOf(FieldOf(request, "method")) != SURFACE_SET
      requires consumer != [] && |ledger.requestIDs| + |ledger.retired| < MAX_REQUESTS
      requires Unused(ledger.requestIDs, consumer)
      modifies this
      ensures Listings() == old(Listings())
      ensures Valid() && !result.Upstream? && (result.Ended? ==> past.broken)
      ensures result.Fine? ==> Calm()
      ensures past.issued == old(past).issued || Assigned(old(past), Ordinary(old(ledger).ordinary + 1), issue)
      ensures result.Fine? ==> Dispatched(IsFocus(operation) && old(stage).active != Some(h), old(past),
                                          Ordinary(old(ledger).ordinary + 1), h, consumer, issue)
      ensures result.Fine? && Live(roster, h) ==>
                stage.active == if IsFocus(operation) then Some(h) else old(stage).active
    {
      ghost var moved, before, w := IsFocus(operation) && stage.active != Some(h), past, Ordinary(ledger.ordinary + 1);
      var ok := Refocus(h, consumer, operation);
      if !ok {
        return Ended;
      }
      result := Route(h, consumer, request, own, issue, moved, before, w);
    }

    /** An operation was issued, unless there are no more identities, or its source was lost when it was made
        the active one; then it was refused. */
    ghost predicate Dispatched(moved: bool, before: Past, w: WireId, h: Handle, consumer: bytes, issue: Issue)
      requires w.Ordinary?
      reads this`past, this`roster
    {
      || (&& w.n != UINT64 && Assigned(before, w, issue)
          && (Live(roster, h) ==> WrittenLast(past.written, issue, w)))
      || (w.n == UINT64 && Declined(before, past, consumer, "request identity space exhausted"))
      || (moved && !Live(roster, h) && Declined(before, past, consumer, "sharing disconnected"))
    }

    /** Sends an operation to its source, if that is still there. */
    method Route(h: Handle, consumer: bytes, ghost request: Json, own: Json, ghost issue: Issue, ghost moved: bool,
                 ghost before: Past, ghost w: WireId) returns (result: Result)
      requires Valid() && Calm() && h in roster.table && roster.table[h].snapshot.Some?
      requires issue == Asking(roster, h, consumer, request) && (Live(roster, h) || moved)
      requires past.issued == before.issued && |past.answers| >= |before.answers|
      requires w == Ordinary(ledger.ordinary + 1)
      requires request.Object? && Within(request, roster.table[h].prefix)
      requires own == Transform(request, Strip(roster.table[h].prefix))
      requires TextOf(FieldOf(request, "method")) != SURFACE_SET
      requires consumer != [] && |ledger.requestIDs| + |ledger.retired| < MAX_REQUESTS
      requires Unused(ledger.requestIDs, consumer)
      modifies this
      ensures Listings() == old(Listings())
      ensures Valid() && !result.Upstream? && (result.Ended? ==> past.broken)
      ensures result.Fine? ==> Calm()
      ensures past.issued == before.issued || Assigned(before, w, issue)
      ensures result.Fine? ==> Dispatched(moved, before, w, h, consumer, issue)
      ensures Live(roster, h) ==> old(Live(roster, h)) && stage.active == old(stage).active
    {
      if !Live(roster, h) {
        result := Decline(consumer, "sharing disconnected");
        return;
      }
      if ledger.ordinary == UINT64 - 1 {
        result := Decline(consumer, "request identity space exhausted");
        return;
      }
      ghost var written := past.written;
      var now := Clock();
      var ok := Forward(h, consumer, request, own, now, issue, before, w);
      if Live(roster, h) {
        WrittenNextLast(written, past.written, issue, w);
      }
      return if ok then Fine else Ended;
    }

    /** The viewer asks for a fence. Without an active source there is nothing to wait for. */
    method TakeSync(token: bytes) returns (result: Result)
      requires Valid() && Calm()
      modifies this
      ensures Listings() == old(Listings())
      ensures Valid() && !result.Upstream?
      ensures result.Fine? ==> Calm() && past.syncs == old(past).syncs + [token]
      ensures |token| > 4096 || (old(stage).active.Some? && old(fence).pending) ==> result == Ended && unchanged(this)
    {
      if |token| > 4096 {
        return Ended;
      }
      if stage.active.None? {
        result := Echo(token);
        return;
      }
      if fence.pending {
        return Ended;
      }
      Ask(token);
      var ok := ResumeFence();
      return if ok then Fine else Ended;
    }

    /** Without an active source, a fence is confirmed at once. */
    method Echo(token: bytes) returns (result: Result)
      requires Valid() && Calm() && stage.active.None?
      modifies this`past
      ensures Valid() && Calm()
      ensures result == Fine || (result == Ended && past.broken)
      ensures past.syncs == old(past).syncs + [token] && past.readies == old(past).readies + [token]
    {
      if !past.broken {
        NoFence(roster, next, prefixOf, stage, fence, past.broken);
      }
      ghost var was := past;
      past := past.(syncs := past.syncs + [token]);
      var ok := Utter(Confirmed(token));
      EchoLayouts(roster, fence, was, token);
      BreakLayouts(roster, fence, was.(syncs := past.syncs, readies := past.readies), past);
      StillBalanced(ledger, was, past, roster.table, parse);
      StillShown(was.broken, past.broken, roster, boot, stage.revision, stage.surfaceRevision, stage.rendered,
                 past.viewer);
      if !ok {
        BrokenCalm();
        return Ended;
      }
      return Fine;
    }

    /** Accepts a fence. */
    method Ask(token: bytes)
      requires Valid() && Electing() && Following() && Displays() && Synced() && !fence.pending
      modifies this`fence, this`past
      ensures Valid() && Electing() && Following() && Displays() && Synced()
      ensures fence == Fence(token, true, None, old(fence).until)
      ensures past == old(past).(syncs := old(past).syncs + [token])
    {
      AskLayouts(roster, fence, past, token);
      StillBalanced(ledger, past, past.(syncs := past.syncs + [token]), roster.table, parse);
      past := past.(syncs := past.syncs + [token]);
      fence := Fence(token, true, None, fence.until);
    }

    /** What the viewer types goes to the active source, if that is what it is for and what the viewer
        sees, under the source's own name for it. */
    method Pass(tag: nat, id: bytes, rest: bytes) returns (result: Result, ghost to: Option<Handle>, ghost own: bytes)
      requires Valid() && Calm()
      modifies this
      ensures Valid() && !result.Upstream? && Listings() == old(Listings())
      ensures result.Fine? ==> Calm()
      ensures Belongs(old(roster), id, to, own)
      ensures Typed(tag, rest, to, own, result)
    {
      var h, local := Resolve(id);
      to, own := h, local;
      if h.None? || h != stage.active || !stage.surfaceOn {
        return Fine, to, own;
      }
      var ok := Send(h.value, Keys(tag, local, rest));
      return if ok then Fine else Ended, to, own;
    }

    /** A frame was written to a source, or the source is gone. */
    ghost predicate Written(before: Past, h: Handle, frame: Frame, result: Result)
      reads this`roster, this`past
    {
      Live(roster, h) ==> result.Fine? && SentTo(before, h, frame)
    }

    /** The viewer has another size. */
    method TakeResize(columns: nat, rows: nat) returns (result: Result)
      requires Valid() && Calm()
      modifies this
      ensures Listings() == old(Listings())
      ensures Valid() && !result.Upstream?
      ensures result.Fine? ==> Calm()
      ensures Resized(columns, rows, result)
    {
      if columns == 0 || rows == 0 || columns > 65535 || rows > 65535 || columns * rows > 65536 {
        return Ended;
      }
      if stage.active.Some? && stage.surfaceOn {
        ResizedCalm(columns, rows);
      }
      stage := stage.(columns := columns, rows := rows, resized := true);
      var ok := true;
      if stage.active.Some? && stage.surfaceOn {
        ok := Send(stage.active.value, Size(columns, rows));
      } else {
        ok := BlankSurface();
      }
      return if ok then Fine else Ended;
    }

    /** A size that a viewer may have. */
    static predicate Sizeable(columns: nat, rows: nat) {
      0 < columns <= 65535 && 0 < rows <= 65535 && columns * rows <= 65536
    }

    /** What is displayed of an active source does not depend on the viewer's size. */
    lemma ResizedCalm(columns: nat, rows: nat)
      requires Calm() && stage.active.Some? && stage.surfaceOn
      ensures Poised(roster, stage.(columns := columns, rows := rows, resized := true), fence, ledger, boot,
                     past.broken, past.latest)
    {
      var s := stage.(columns := columns, rows := rows, resized := true);
      forall x ensures DisplayedAt(past.broken, roster, boot, s, past.latest, x) {
        assert DisplayedAt(past.broken, roster, boot, stage, past.latest, x);
      }
    }

    /** Passes something on to every connected source. */
    method TakeBroadcast(payload: bytes) returns (result: Result)
      requires Valid() && Calm()
      modifies this
      ensures Valid() && !result.Upstream? && Listings() == old(Listings())
      ensures result.Fine? ==> Calm()
    {
      var todo := roster.sources.Keys;
      while todo != {}
        invariant Valid() && Calm() && Listings() == old(Listings())
        decreases |todo|
      {
        var id :| id in todo;
        todo := todo - {id};
        var ok := PassTo(id, payload);
        if !ok {
          return Ended;
        }
      }
      if stage.active.None? {
        var ok := BlankSurface();
        if !ok {
          return Ended;
        }
      }
      return Fine;
    }

    /** Passes something on to a source, if it is there and connected. */
    method PassTo(id: string, payload: bytes) returns (ok: bool)
      requires Valid() && Calm()
      modifies this
      ensures Valid() && (ok || past.broken) && Listings() == old(Listings())
      ensures ok ==> Calm()
    {
      ok := true;
      if id in roster.sources {
        SourceLive(id);
        var h := roster.sources[id];
        if roster.table[h].open {
          ok := Send(h, Raw(payload));
        }
      }
    }

    /** Each message of the viewer is handled for what it is. */
    twostate predicate Attended(frame: ViewerFrame, result: Result)
      reads this
    {
      match frame
      case Malformed => result == Ended && unchanged(this)
      case Bye => result == Ended && unchanged(this)
      case Silent => result == Fine && unchanged(this)
      case Sync(token) => result.Fine? ==> past.syncs == old(past).syncs + [token]
      case Ping(_) => past == old(past).(broken := past.broken)
      case Input(tag, id, rest) =>
        exists to, own :: Belongs(old(roster), id, to, own) && Typed(tag, rest, to, own, result)
      case Call(named, request) =>
        if !request.Object? || !old(Admissible(TextOf(FieldOf(request, "id")))) then result == Ended && unchanged(this)
        else result.Fine? ==> Handled(old(roster), old(stage).active, old(ledger), old(past), named, request)
      case Resize(columns, rows) => Resized(columns, rows, result)
      case Broadcast(_) => true
      case ToActive(payload) =>
        if old(stage).active.Some? then Written(old(past), old(stage).active.value, Raw(payload), result)
        else result == Fine && unchanged(this)
    }

    /** What was typed for `to`, which knows it as `own`, reached it if it is the source that the viewer sees. */
    twostate predicate Typed(tag: nat, rest: bytes, to: Option<Handle>, own: bytes, result: Result)
      reads this
    {
      if to.Some? && to == old(stage).active && old(stage).surfaceOn then
        Written(old(past), to.value, Keys(tag, own, rest), result)
      else result.Fine? && unchanged(this)
    }

    /** The active source was told the viewer's size, or the viewer was shown a blank surface of it. */
    twostate predicate Resized(columns: nat, rows: nat, result: Result)
      reads this
    {
      if !Sizeable(columns, rows) then result == Ended && unchanged(this)
      else if old(stage).active.Some? && old(stage).surfaceOn then
        Written(old(past), old(stage).active.value, Size(columns, rows), result)
      else result.Fine? ==> stage.columns == columns && stage.rows == rows && Blanked(boot, stage, past.latest)
    }

    /** Handles a message from the viewer. */
    method HearViewer(frame: ViewerFrame) returns (result: Result)
      requires Valid() && Calm()
      modifies this
      ensures Listings() == old(Listings())
      ensures Valid() && !result.Upstream?
      ensures result.Fine? ==> Calm()
      ensures Attended(frame, result)
    {
      result := Fine;
      match frame
      case Malformed => result := Ended;
      case Bye => result := Ended;
      case Silent =>
      case Sync(token) => result := TakeSync(token);
      case Ping(data) =>
        var ok := Write(Pong(data));
        if !ok {
          BrokenCalm();
          result := Ended;
        }
      case Input(tag, id, rest) =>
        ghost var to, own;
        result, to, own := Pass(tag, id, rest);
      case Call(named, request) => result := TakeCall(named, request);
      case Resize(columns, rows) => result := TakeResize(columns, rows);
      case Broadcast(payload) => result := TakeBroadcast(payload);
      case ToActive(payload) =>
        if stage.active.Some? {
          var ok := Send(stage.active.value, Raw(payload));
          result := if ok then Fine else Ended;
        }
    }

    /** Each message of a source is handled for what it is. */
    twostate predicate Heeding(h: Handle, frame: ServerFrame, result: Result)
      requires h in old(roster).table
      reads this
    {
      match frame
      case Garbled => result == Upstream(Permanent) && unchanged(this)
      case Closing => result == Upstream(Transient) && unchanged(this)
      case Ignored => result == Fine && unchanged(this)
      case Effect => roster == old(roster) && past == old(past).(broken := past.broken)
      case Welcome(methods) => Welcomed(h, methods, result)
      case Announcement(_, revision, _) =>
        !result.Upstream? ==> Continues(history, And(old(history), Declared(old(roster).table[h].id, revision)))
      case Ready(token) =>
        past.readies == if old(fence).source == Some(h) && token == old(fence).token then old(past).readies + [token]
                        else old(past).readies
      case Scene(p) =>
        result.Fine? ==>
          && Live(roster, h) && roster.table[h].frame.Some?
          && Advanced(old(roster).table[h].frame, p, roster.table[h].frame.value)
      case Chunk(named, id, final, data) =>
        match old(FateOf(roster, ledger, h, named, Identify(id), data))
        case Turned => result == Upstream(Permanent) && unchanged(this)
        case Drained => result == Fine
        case Taken => !final ==> roster == Received(old(roster), h, Identify(id), data)
    }

    /** A source was welcomed, or it had been before. */
    twostate predicate Welcomed(h: Handle, methods: set<bytes>, result: Result)
      requires h in old(roster).table
      reads this
    {
      var b := old(roster).table[h];
      if b.welcomed then result == Upstream(Permanent) && roster == old(roster)
      else result == Fine && roster == Put(old(roster), h, b.(welcomed := true, methods := methods * SUPPORTED))
    }

    /** Handles a message from a source that is there. */
    method HearSource(h: Handle, frame: ServerFrame) returns (result: Result)
      requires Valid() && Calm() && Live(roster, h) && roster.table[h].open
      modifies this
      ensures Listings() == old(Listings())
      ensures ValidBut(h) && Electing() && (!result.Upstream? ==> Valid())
      ensures result.Upstream? ==> Live(roster, h)
      ensures result.Fine? ==> Calm()
      ensures result.Ended? ==> past.broken
      ensures Heeding(h, frame, result)
    {
      result := Fine;
      match frame
      case Garbled => result := Upstream(Permanent);
      case Closing => result := Upstream(Transient);
      case Ignored =>
      case Effect => result := TakeEffect(h);
      case Welcome(methods) => result := TakeWelcome(h, methods);
      case Announcement(named, revision, body) => result := TakeAnnouncement(h, named, revision, body);
      case Ready(token) => result := TakeReady(h, token);
      case Scene(p) => result := TakeScene(h, p);
      case Chunk(named, id, final, data) => result := TakeChunk(h, named, id, final, data);
    }

    // Time passes -----------------------------------------------------------------------------------

    /** Takes out the sources that are no longer shared, or are shared anew. */
    method DropChanged(list: seq<Publication>) returns (changed: bool)
      requires Valid() && Calm()
      modifies this`roster, this`stage, this`ledger, this`fence, this`past, this`cancelled
      ensures Valid() && (!changed ==> Calm())
      ensures forall id :: id in roster.sources ==> Shared(list, id)
      ensures Thins(old(roster), old(ledger), old(fence)) && Sifted(old(roster), list, {}, roster)
    {
      var todo := roster.sources.Keys;
      changed := false;
      ThinsNot();
      SiftedStart(roster, list);
      while todo != {}
        invariant Valid() && (!changed ==> Calm())
        invariant Thins(old(roster), old(ledger), old(fence)) && todo <= old(roster).sources.Keys
        invariant Sifted(old(roster), list, todo, roster)
        decreases |todo|
      {
        var id :| id in todo;
        SiftedTodo(old(roster), list, todo, roster, id);
        ghost var r, l, f := roster, ledger, fence;
        var gone := DropIfGone(id, list);
        ThinsOn(old(roster), old(ledger), old(fence), r, l, f);
        SiftedStep(old(roster), list, todo, r, roster, id);
        changed := changed || gone;
        todo := todo - {id};
      }
      SiftedAll(old(roster), list, roster);
    }

    /** Takes a source out if it is no longer shared. */
    method DropIfGone(id: string, list: seq<Publication>) returns (gone: bool)
      requires Valid() && id in roster.sources
      modifies this`roster, this`stage, this`ledger, this`fence, this`past, this`cancelled
      ensures Valid() && (!gone && old(Calm()) ==> Calm())
      ensures Thins(old(roster), old(ledger), old(fence))
      ensures gone == !StillShared(old(roster), list, id)
      ensures roster == if gone then old(roster).(sources := old(roster).sources - {id}) else old(roster)
    {
      SourceLive(id);
      ThinsNot();
      gone := !Shared(list, id);
      if gone {
        Withdraw(roster.sources[id]);
      }
    }

    /** Sources have left, and nothing else has happened to requests and the fence. */
    ghost predicate Thins(r: Roster, l: Ledger, f: Fence)
      reads this`roster, this`ledger, this`fence
    {
      Thinned(r, l, f, roster, ledger, fence)
    }

    lemma ThinsNot()
      requires Base()
      ensures Thins(roster, ledger, fence)
    {
      ThinnedSelf(roster, ledger, fence);
    }

    lemma ThinsOn(r: Roster, l: Ledger, f: Fence, r': Roster, l': Ledger, f': Fence)
      requires Thinned(r, l, f, r', l', f') && Thins(r', l', f')
      ensures Thins(r, l, f)
    {
      ThinnedTransitive(r, l, f, r', l', f', roster, ledger, fence);
    }

    /** A source is still shared, in the same incarnation. */
    predicate Shared(list: seq<Publication>, id: string)
      reads this`roster
    {
      id in roster.sources && StillShared(roster, list, id)
    }

    /** Takes a source out that did not fail. */
    method Withdraw(h: Handle)
      requires Valid() && Live(roster, h)
      modifies this`roster, this`stage, this`ledger, this`fence, this`past, this`cancelled
      ensures Valid() && roster == Without(old(roster), h) && Thins(old(roster), old(ledger), old(fence))
    {
      ghost var r, l, f := roster, ledger, fence;
      RemoveRecovered(roster, recovery, history, clock, h);
      SparesOne(h);
      Depart(h);
      ThinnedOne(r, l, f, h, ledger, fence);
    }

    /** Forgets the failures of exactly those incarnations that are no longer shared. */
    method DropRecords(list: seq<Publication>)
      requires Valid() && Listings() != [] && Listings()[|Listings()| - 1] == list
      requires forall id :: id in roster.sources ==> Shared(list, id)
      modifies this`recovery, this`history
      ensures Valid() && (old(Calm()) ==> Calm()) && Matches(roster, recovery, list)
      ensures Onward(old(history)) && Pruned(recovery, old(recovery), list, {})
    {
      var todo := recovery.Keys;
      PrunedStart(recovery, list);
      OnwardNot();
      while todo != {}
        invariant Valid() && (old(Calm()) ==> Calm()) && Onward(old(history))
        invariant todo <= old(recovery).Keys && Pruned(recovery, old(recovery), list, todo)
        decreases |todo|
      {
        var id :| id in todo;
        PrunedStep(recovery, old(recovery), list, todo, id);
        if Missing(list, id, recovery[id].generation) {
          ghost var before := history;
          ForgetRecord(id, list);
          OnwardOn(old(history), before);
        }
        todo := todo - {id};
      }
      PrunedMatches(roster, recovery, old(recovery), list);
    }

    /** Forgets the failures of an incarnation that is not in the list. */
    method ForgetRecord(id: string, ghost list: seq<Publication>)
      requires Valid() && Listings() != [] && Listings()[|Listings()| - 1] == list
      requires id in recovery && Missing(list, id, recovery[id].generation)
      modifies this`recovery, this`history
      ensures Valid() && (old(Calm()) ==> Calm()) && recovery == old(recovery) - {id}
      ensures history == And(old(history), Forgotten(id, old(recovery)[id].generation, Unlisted))
    {
      ForgetRecovery(roster, recovery, history, clock, id, Unlisted);
      UnansweredKept(roster.sources, ledger.pending, history, Forgotten(id, recovery[id].generation, Unlisted));
      history := And(history, Forgotten(id, recovery[id].generation, Unlisted));
      recovery := recovery - {id};
    }

    /** Fails the sources that have not announced themselves in time. */
    method DropLate(now: nat, ghost list: seq<Publication>) returns (changed: bool)
      requires Valid() && Matches(roster, recovery, list) && now <= clock
      modifies this
      ensures Valid() && Matches(roster, recovery, list) && (!changed && old(Calm()) ==> Calm())
      ensures Onward(old(history)) && clock >= old(clock)
      ensures Thins(old(roster), old(ledger), old(fence))
      ensures Timely(old(roster), now, {}, roster)
    {
      var todo := roster.sources.Keys;
      changed := false;
      ThinsNot();
      TimelyStart(roster, now);
      while todo != {}
        invariant Valid() && Matches(roster, recovery, list) && (!changed && old(Calm()) ==> Calm())
        invariant Onward(old(history)) && clock >= old(clock)
        invariant Thins(old(roster), old(ledger), old(fence)) && todo <= old(roster).sources.Keys
        invariant Timely(old(roster), now, todo, roster)
        decreases |todo|
      {
        var id :| id in todo;
        TimelyTodo(old(roster), now, todo, roster, id);
        ghost var r, l, f, before := roster, ledger, fence, history;
        var late := DropIfLate(id, now, list);
        ThinsOn(old(roster), old(ledger), old(fence), r, l, f);
        OnwardOn(old(history), before);
        TimelyStep(old(roster), now, todo, r, roster, id);
        changed := changed || late;
        todo := todo - {id};
      }
    }

    /** Fails a source if it has not announced itself in time. */
    method DropIfLate(id: string, now: nat, ghost list: seq<Publication>) returns (late: bool)
      requires Valid() && Matches(roster, recovery, list) && now <= clock && id in roster.sources
      modifies this
      ensures Valid() && Matches(roster, recovery, list) && (!late && old(Calm()) ==> Calm())
      ensures Onward(old(history)) && clock >= old(clock)
      ensures Thins(old(roster), old(ledger), old(fence))
      ensures late == LateAt(old(roster), now, id)
      ensures roster == if late then old(roster).(sources := old(roster).sources - {id}) else old(roster)
    {
      SourceLive(id);
      var h := roster.sources[id];
      ghost var before := recovery;
      ThinsNot();
      ResetRecovery(h, now);
      MatchLess(roster, before, recovery, list, id);
      late := roster.table[h].initializeBy.Some? && now >= roster.table[h].initializeBy.value;
      if late {
        SparesOne(h);
        ghost var reset := history;
        FailMatching(h, list);
        OnwardOn(old(history), reset);
      }
    }

    /** Fails a source for taking too long. */
    method FailMatching(h: Handle, ghost list: seq<Publication>)
      requires ValidBut(h) && Live(roster, h) && Matches(roster, recovery, list)
      modifies this
      ensures Valid() && Matches(roster, recovery, list) && Onward(old(history))
      ensures roster == Without(old(roster), h) && clock >= old(clock)
      ensures Partly(ledger.pending, old(ledger).pending, h, {}) && Thins(old(roster), old(ledger), old(fence))
    {
      ghost var r, l, f, before := roster, ledger, fence, recovery;
      Fail(h, Transient);
      MatchFail(r, before, recovery, list, h);
      ThinnedOne(r, l, f, h, ledger, fence);
    }

    /** Fails the source that did not confirm the fence in time. */
    method DropUnpresented(now: nat, ghost list: seq<Publication>) returns (changed: bool)
      requires Valid() && Matches(roster, recovery, list) && now <= clock
      modifies this
      ensures Valid() && Matches(roster, recovery, list) && (!changed && old(Calm()) ==> Calm())
      ensures Onward(old(history)) && clock >= old(clock)
      ensures Thins(old(roster), old(ledger), old(fence))
      ensures roster.sources.Keys == old(roster).sources.Keys - UnpresentedIds(old(roster), old(fence), now)
    {
      ThinsNot();
      changed := fence.source.Some? && now >= fence.until;
      if changed {
        SparesOne(fence.source.value);
        FailMatching(fence.source.value, list);
      }
    }

    /** Handles the requests that were not replied to in time: an operation is answered, and its late
        reply will be drained; a transition fails its source. */
    method DropOverdue(now: nat, ghost list: seq<Publication>) returns (changed: bool)
      requires Valid() && Matches(roster, recovery, list) && now <= clock
      modifies this
      ensures Valid() && Matches(roster, recovery, list) && (!changed && old(Calm()) ==> Calm())
      ensures Onward(old(history)) && clock >= old(clock)
      ensures Chased(old(roster), old(ledger), old(fence), now, {}, roster, ledger, fence)
    {
      var todo := ledger.deadlines.Keys;
      changed := false;
      Chases();
      ChasedStart(roster, ledger, fence, now);
      while todo != {}
        invariant Valid() && Matches(roster, recovery, list) && (!changed && old(Calm()) ==> Calm())
        invariant Onward(old(history)) && clock >= old(clock)
        invariant Chased(old(roster), old(ledger), old(fence), now, todo, roster, ledger, fence)
        decreases |todo|
      {
        var w :| w in todo;
        ghost var r, l, f, before := roster, ledger, fence, history;
        if w in ledger.deadlines && now >= ledger.deadlines[w] {
          var failed := Overdue(w, list);
          ChasedStep(old(roster), old(ledger), old(fence), now, todo, r, l, f, w, roster, ledger, fence);
          OnwardOn(old(history), before);
          changed := changed || failed;
        } else {
          Chases();
          ChasedPast(old(roster), old(ledger), old(fence), now, todo, r, l, f, w);
        }
        todo := todo - {w};
      }
    }

    lemma Chases()
      requires Base()
      ensures Chasing(roster, ledger, fence)
    {
      BooksDated(ledger);
    }

    /** Handles a request that was not replied to in time. */
    method Overdue(w: WireId, ghost list: seq<Publication>) returns (failed: bool)
      requires Valid() && w in ledger.deadlines && Matches(roster, recovery, list)
      modifies this
      ensures Valid() && Matches(roster, recovery, list) && (!failed && old(Calm()) ==> Calm())
      ensures Onward(old(history)) && clock >= old(clock)
      ensures failed <==> w.Internal?
      ensures w in old(ledger).pending && Caught(old(roster), old(ledger), old(fence), w, roster, ledger, fence)
      ensures failed ==> !Live(roster, old(ledger).pending[w])
      ensures !failed ==> w in old(ledger).requestIDs && w in ledger.retired
      ensures !failed ==>
                past.answers == old(past).answers
                                + [Reply(Some(w), old(ledger).requestIDs[w], Refused("sharing operation timed out"))]
    {
      DeadlinePending(w);
      var h := ledger.pending[w];
      failed := w !in ledger.requestIDs;
      MatchPut(roster, recovery, list, h, Cleared(roster, h, w).table[h]);
      if failed {
        OverdueTransition(h, w, list);
      } else {
        OverdueOperation(h, w);
      }
    }

    /** A transition that was not acknowledged in time fails its source. */
    method OverdueTransition(h: Handle, w: WireId, ghost list: seq<Publication>)
      requires Valid() && Live(roster, h) && w in ledger.pending && ledger.pending[w] == h && w !in ledger.requestIDs
      requires Matches(Cleared(roster, h, w), recovery, list)
      modifies this
      ensures Valid() && Matches(roster, recovery, list) && Onward(old(history)) && clock >= old(clock)
      ensures w.Internal? && Caught(old(roster), old(ledger), old(fence), w, roster, ledger, fence)
      ensures !Live(roster, h)
    {
      ghost var r, l, f, was := roster, ledger, fence, past;
      InternalPending(w);
      RefuseUnanswered(roster.sources, ledger.pending, history, w);
      var data := Finish(h, w);
      assert past.lost == was.lost;
      FailMatching(h, list);
      CaughtWith(r, l, f, h, w, ledger, fence);
    }

    /** An operation that was not answered in time is answered, and its late reply will be drained. */
    method OverdueOperation(h: Handle, w: WireId)
      requires Valid() && Live(roster, h) && w in ledger.requestIDs && w in ledger.pending && ledger.pending[w] == h
      modifies this`roster, this`ledger, this`past, this`cancelled
      ensures Valid() && (old(Calm()) ==> Calm())
      ensures roster == Cleared(old(roster), h, w) && w.Ordinary? && w in ledger.retired
      ensures Caught(old(roster), old(ledger), old(fence), w, roster, ledger, fence)
      ensures past.answers == old(past).answers
                              + [Reply(Some(w), old(ledger).requestIDs[w], Refused("sharing operation timed out"))]
    {
      ghost var r, l, f, was := roster, ledger, fence, past;
      Owing(ledger, past, roster.table, parse, w);
      OperationPending(w);
      OrdinaryUnanswered(roster.sources, ledger.pending, history, w, h);
      var consumer := ledger.requestIDs[w];
      var data := Finish(h, w);
      Retire(h, w);
      Expire(w, consumer);
      assert past.lost == was.lost;
      CaughtAlone(r, l, f, h, w, ledger);
    }

    lemma OperationPending(w: WireId)
      requires Base() && w in ledger.requestIDs
      ensures w in ledger.pending && w.Ordinary?
    {
      assert BookAt(ledger.pending, ledger.deadlines, ledger.requestIDs, ledger.retired, ledger.ordinary,
                    ledger.internal, w);
    }

    /** Whoever is to reply in time is there. */
    lemma DeadlinePending(w: WireId)
      requires Base() && w in ledger.deadlines
      ensures w in ledger.pending && Live(roster, ledger.pending[w])
    {
      assert BookAt(ledger.pending, ledger.deadlines, ledger.requestIDs, ledger.retired, ledger.ordinary,
                    ledger.internal, w);
      assert TargetAt(roster, ledger.pending, ledger.retired, w);
    }

    /** Remembers an operation whose late reply is to be drained. */
    method Retire(h: Handle, w: WireId)
      requires Base() && Live(roster, h) && Roomy(ledger) && Retirable(ledger, w)
      modifies this`ledger
      ensures Base() && ledger == old(ledger).(retired := old(ledger).retired[w := h])
    {
      RetireMore(ledger, past, roster, parse, h, w);
      ledger := ledger.(retired := ledger.retired[w := h]);
    }

    method Expire(w: WireId, consumer: bytes)
      requires Base() && Shows() && w in past.lost && w in past.issued && past.issued[w].consumer == consumer
      modifies this`past, this`cancelled
      ensures Base() && Shows() && (old(Calm()) ==> Calm())
      ensures past == Told(old(past),
                           Reply(Some(w), consumer, Refused("sharing operation timed out"))).(broken := past.broken)
    {
      ghost var was := past;
      var ok := Tell(Reply(Some(w), consumer, Refused("sharing operation timed out")));
      Spoken(was);
      if !ok {
        cancelled := true;
      }
    }

    /** Opens a publication that has no source yet, unless its failures forbid it. */
    method Open(p: Publication, now: nat)
      requires Valid() && p.id !in roster.sources && now <= clock && Spare(roster.sources)
      requires p.id in recovery ==> !recovery[p.id].blocked && recovery[p.id].retryAt <= now
                                    && recovery[p.id].generation == p.generation
      modifies this`roster, this`next, this`history
      ensures Valid() && (old(Calm()) ==> Calm())
      ensures history == And(old(history), Begun(p.id, p.generation, now))
      ensures roster == Roster(old(roster).sources[p.id := old(next)],
                               old(roster).table[old(next) := Opened(p.id, p.generation, p.title, now)])
    {
      OpenAll(roster, next, ledger, past, prefixOf, parse, stage, fence, boot, p.id, p.generation, p.title, now);
      OpenRecovered(roster, next, prefixOf, recovery, history, clock, p.id, p.generation, p.title, now);
      OpenUnanswered(roster.sources, ledger.pending, history, p.id, next, p.generation, now);
      roster := WithNew(roster, next, p.id, p.generation, p.title, now);
      history := And(history, Begun(p.id, p.generation, now));
      next := next + 1;
    }

    /** A source is called something else now. */
    method Retitle(h: Handle, title: string)
      requires Valid() && Live(roster, h)
      modifies this`roster
      ensures Valid() && (old(Calm()) ==> Calm())
      ensures roster == Put(old(roster), h, old(roster).table[h].(title := title))
    {
      var b := roster.table[h].(title := title);
      assert SourceAt(roster, prefixOf, b.id);
      PutShownHere(h, b);
      Change(h, b);
    }

    /** Opens what is shared and has no source, as far as its failures allow it. */
    method OpenShared(list: seq<Publication>, now: nat) returns (changed: bool)
      requires Valid() && |list| <= MAX_SOURCES && now <= clock
      requires Matches(roster, recovery, list)
      requires forall i :: 0 <= i < |list| ==> Find(list, list[i].id) == Some(list[i])
      modifies this`roster, this`next, this`history
      ensures Onward(old(history))
      ensures Valid() && (!changed && old(Calm()) ==> Calm())
      ensures Offered(list, |list|, old(roster).sources.Keys, roster.sources.Keys, recovery, now)
    {
      changed := false;
      MatchKeys(roster, recovery, list);
      OfferStart(list, roster.sources.Keys, recovery, now);
      ghost var r := roster;
      for i := 0 to |list|
        invariant Valid() && (!changed && old(Calm()) ==> Calm()) && now <= clock && Onward(old(history))
        invariant Offered(list, i, r.sources.Keys, roster.sources.Keys, recovery, now)
      {
        assert MatchAt(r, recovery, list, list[i].id);
        ghost var open, before := roster.sources.Keys, history;
        var different := Offer(list[i], now, list);
        OnwardOn(old(history), before);
        OfferStep(list, i, r.sources.Keys, open, roster.sources.Keys, recovery, now);
        changed := changed || different;
      }
    }

    /** Opens one publication, unless it has a source already or its failures forbid it. */
    method Offer(p: Publication, now: nat, ghost list: seq<Publication>) returns (changed: bool)
      requires Valid() && now <= clock && |list| <= MAX_SOURCES
      requires roster.sources.Keys <= IdsOf(list) && p.id in IdsOf(list)
      requires p.id in recovery ==> recovery[p.id].generation == p.generation
      modifies this`roster, this`next, this`history
      ensures Onward(old(history))
      ensures Valid() && (!changed && old(Calm()) ==> Calm())
      ensures old(roster).sources.Keys <= roster.sources.Keys <= old(roster).sources.Keys + {p.id}
      ensures p.id in roster.sources || Withheld(recovery, p.id, now)
      ensures p.id !in roster.sources ==>
                p.id in recovery && (recovery[p.id].blocked || now < recovery[p.id].retryAt)
      ensures p.id in roster.sources && p.id !in old(roster).sources ==> !Withheld(recovery, p.id, now)
    {
      changed := false;
      if p.id in roster.sources {
        SourceLive(p.id);
        changed := roster.table[roster.sources[p.id]].title != p.title;
        if changed {
          Retitle(roster.sources[p.id], p.title);
        }
      } else if !Withheld(recovery, p.id, now) {
        RoomToOpen(list, roster.sources, p.id);
        Open(p, now);
      }
    }

    /** Every second: takes out what is no longer shared or did not keep its time, opens what is shared,
        and publishes again if anything has changed. Of what is shared, only the first publications count. */
    method Refresh(catalog: seq<Publication>) returns (ghost x: Round)
      requires Valid() && Calm() && Distinct(catalog)
      modifies this
      ensures Valid() && Calm() && Listings() == old(Listings()) + [Visible(catalog)]
      ensures x.now >= old(clock)
      ensures Ticking(old(roster), old(ledger), old(fence), old(history), Visible(catalog), x, roster, history)
    {
      var list := Visible(catalog);
      VisibleFits(catalog);
      var now := Begin(list);
      var changed;
      changed, x := Update(list, now, old(history));
      if changed {
        var ok := Publish();
        if !ok {
          cancelled := true;
        }
      } else {
        LaterSelf(Here());
      }
    }

    /** Takes out sources, and then opens what is shared. */
    method Update(list: seq<Publication>, now: nat, ghost before: Chronicle) returns (changed: bool, ghost x: Round)
      requires Valid() && Calm() && |list| <= MAX_SOURCES && now <= clock && history == And(before, Ticked(list))
      requires forall i :: 0 <= i < |list| ==> Find(list, list[i].id) == Some(list[i])
      modifies this
      ensures Valid() && (!changed ==> Calm()) && Onward(old(history)) && x.now == now
      ensures Ticking(old(roster), old(ledger), old(fence), before, list, x, roster, history)
      ensures x.open == roster && x.history == history
    {
      var dropped := Sweep(list, now);
      ghost var left, books, wait, swept := roster, ledger, fence, history;
      var renamed := OpenShared(list, now);
      OnwardOn(old(history), swept);
      changed := dropped || renamed;
      x := Round(now, left, books, wait, roster, recovery, history, clock);
      SubSelf(roster.sources);
    }

    /** The chronicle went on, and the clock did not tick. */
    ghost predicate Onward(c: Chronicle)
      reads this`history
    {
      Continues(history, c) && Ticks(history) == Ticks(c)
    }

    lemma OnwardNot()
      ensures Onward(history)
    {
    }

    lemma OnwardOn(c: Chronicle, middle: Chronicle)
      requires Continues(middle, c) && Ticks(middle) == Ticks(c) && Onward(middle)
      ensures Onward(c)
    {
      ContinuesTransitive(history, middle, c);
    }

    /** The clock ticks, and this is what is shared. */
    method Begin(ghost list: seq<Publication>) returns (now: nat)
      requires Valid()
      modifies this`clock, this`history
      ensures Valid() && now == clock >= old(clock) && history == And(old(history), Ticked(list))
    {
      now := Now();
      LaterClock(roster, recovery, history, old(clock), clock);
      TickRecovered(roster, recovery, history, clock, list);
      UnansweredKept(roster.sources, ledger.pending, history, Ticked(list));
      history := And(history, Ticked(list));
    }

    /** Takes out exactly the sources that are no longer shared or did not keep their time, with the
        requests to them and the requests that were not replied to in time. */
    method Sweep(list: seq<Publication>, now: nat) returns (changed: bool)
      requires Valid() && Calm() && now <= clock && Listings() != [] && Listings()[|Listings()| - 1] == list
      modifies this
      ensures Valid() && Matches(roster, recovery, list) && (!changed ==> Calm())
      ensures Onward(old(history)) && clock >= old(clock)
      ensures Swept(old(roster), old(ledger), old(fence), list, now, roster, ledger, fence)
    {
      ghost var r, l, f := roster, ledger, fence;
      Chases();
      var gone := DropChanged(list);
      DropRecords(list);
      ghost var r1, l1, f1, c1 := roster, ledger, fence, history;
      var late := DropLate(now, list);
      ThinsOn(r, l, f, r1, l1, f1);
      OnwardOn(old(history), c1);
      ghost var r2, l2, f2, c2 := roster, ledger, fence, history;
      var unpresented := DropUnpresented(now, list);
      ThinsOn(r, l, f, r2, l2, f2);
      OnwardOn(old(history), c2);
      ghost var r3, l3, f3, c3 := roster, ledger, fence, history;
      Chases();
      var overdue := DropOverdue(now, list);
      OnwardOn(old(history), c3);
      changed := gone || late || unpresented || overdue;
      SweptBy(r, l, f, r1, r2, r3, l3, f2, f3, list, now, roster, ledger, fence);
    }

    // The loop --------------------------------------------------------------------------------------

    /** A source fails on its own account, and everything is published anew. */
    method Dismiss(h: Handle, fault: Fault) returns (ok: bool)
      requires ValidBut(h) && Live(roster, h)
      modifies this
      ensures Listings() == old(Listings())
      ensures Valid() && Calm() && (ok || past.broken)
      ensures !Live(roster, h)
    {
      Fail(h, fault);
      ghost var there := Here();
      ok := Publish();
      StaysGone(there, Here(), h);
    }

    /** A source's stream is open. */
    method Connect(h: Handle)
      requires Valid() && Calm() && Live(roster, h)
      modifies this`roster
      ensures Valid() && Calm()
      ensures roster == Put(old(roster), h, old(roster).table[h].(open := true))
    {
      var b := roster.table[h].(open := true);
      assert SourceAt(roster, prefixOf, b.id);
      PutShownHere(h, b);
      Change(h, b);
    }

    /** Each event is handled for what it is. */
    twostate predicate Handles(e: Event, ok: bool)
      reads this
    {
      match e
      case Tick(_) => true
      case ViewerGone => !ok && unchanged(this)
      case FromViewer(frame) => Attended(frame, if ok then Fine else Ended)
      case FromSource(h, message) =>
        if old(Live(roster, h) && roster.table[h].open) then ok && Live(roster, h) ==> Heeding(h, message, Fine)
        else ok && unchanged(this)
      case SourceOpened(h) =>
        if old(Live(roster, h)) then roster == Put(old(roster), h, old(roster).table[h].(open := true))
        else ok && unchanged(this)
      case SourceFailed(h, _) => !Live(roster, h)
    }

    /** Handles one event. What comes from a source that is gone is ignored. A source says nothing before its
        connection is open: whoever opens it announces it before reading from it. */
    method Take(e: Event) returns (ok: bool)
      requires Valid() && Calm() && Proper(e)
      modifies this
      ensures Valid()
      ensures ok ==> Calm()
      ensures Handles(e, ok)
      ensures Listings() == old(Listings()) + (if e.Tick? then [Visible(e.catalog)] else [])
    {
      ok := true;
      match e
      case Tick(catalog) =>
        ghost var round := Refresh(catalog);
      case ViewerGone => ok := false;
      case FromViewer(frame) =>
        var result := HearViewer(frame);
        ok := result.Fine?;
      case FromSource(h, message) =>
        if Live(roster, h) && roster.table[h].open {
          var result := HearSource(h, message);
          match result
          case Fine =>
          case Ended => ok := false;
          case Upstream(fault) => ok := Dismiss(h, fault);
        }
      case SourceOpened(h) =>
        if Live(roster, h) {
          Connect(h);
        }
      case SourceFailed(h, fault) =>
        if Live(roster, h) {
          ok := Dismiss(h, fault);
        }
    }

    /** Serves a viewer, for as long as there are events. After a cancellation the loop may still take
        an event in before it notices. */
    method Serve(catalog: seq<Publication>, events: seq<Event>)
      requires Valid() && Calm() && Proper(Tick(catalog))
      requires forall i :: 0 <= i < |events| ==> Proper(events[i])
      modifies this
      ensures Valid()
    {
      var ok := Publish();
      if !ok {
        return;
      }
      ghost var round := Refresh(catalog);
      for i := 0 to |events|
        invariant Valid() && Calm()
      {
        var noticed := *;
        if cancelled && noticed {
          return;
        }
        ok := Take(events[i]);
        if !ok {
          return;
        }
      }
    }

    // What follows ----------------------------------------------------------------------------------

    /** Between events, the active source's scene as it is now was rendered last, if the viewer wants a surface and
        the scene is the one that the source's snapshot announces. */
    lemma SceneIsShown()
      requires Valid() && Calm() && Fresh() && !past.broken
      ensures UpToDate()
    {
      DisplaysIf();
    }

    /** Without an active source, the surface frame that the viewer was written last is the blank one, of the size
        that it has now. */
    lemma BlankIsShown()
      requires Valid() && Calm() && stage.surfaceOn && stage.active.None? && !past.broken
      ensures past.latest
              == Some(Endpoint.BlankFrame(boot, stage.revision, stage.surfaceRevision, stage.columns, stage.rows))
    {
      DisplaysIf();
      assert BlankAs(boot, stage, Endpoint.BlankFrame(boot, stage.revision, stage.surfaceRevision, stage.columns,
                                                      stage.rows));
    }

    /** Between events, exactly the active source has been given the layout and has not been told since to give it
        up, if the viewer wants a surface; nobody has otherwise. Only while sixteen transitions wait for their
        acknowledgement may it be otherwise: the next acknowledgement resumes what is missing. */
    lemma LayoutFollows(h: Handle)
      requires Valid() && Calm() && Live(roster, h) && !past.broken
      ensures |ledger.pending| - |ledger.requestIDs| < MAX_INTERNAL ==>
                (h in Holders(past.layout) <==> stage.surfaceOn && stage.active == Some(h))
      ensures |ledger.pending| - |ledger.requestIDs| >= MAX_INTERNAL ==>
                exists w :: w in ledger.pending && w.Internal? && w in ledger.deadlines
    {
      assert ArrangedAt(past.broken, roster, stage.active, stage.surfaceOn, ledger.pending, ledger.requestIDs, h);
      assert HolderAt(roster, past.layout, h);
      var holders :| HolderWith(roster, past.layout, h, holders);
      if |ledger.pending| >= |ledger.requestIDs| + MAX_INTERNAL {
        SomeTransition(ledger, past, roster.table, parse);
      }
    }

    /** At no time do two sources have the layout. */
    lemma ExclusiveAuthority(a: Handle, b: Handle)
      requires Valid() && Live(roster, a) && Live(roster, b)
      requires roster.table[a].surfaceActive && roster.table[b].surfaceActive
      ensures a == b
    {
      assert HolderAt(roster, past.layout, a) && HolderAt(roster, past.layout, b);
      OneHolder(past.layout);
    }

    /** The layout was only ever given to a source when nobody had it, and a fence was only ever sent to a
        source that had been given the layout, if it was wanted. */
    lemma LayoutsInOrder(earlier: Log, e: LayoutEvent)
      requires Valid() && Began(past.layout, Then(earlier, e))
      ensures e.Interest? && e.active ==> Holders(earlier) == {}
      ensures e.Fenced? && e.wanted ==> e.source in Holders(earlier)
    {
      EventInOrder(past.layout, earlier, e);
    }

    /** What became of an operation: exactly one of these. */
    lemma OperationAccounted(w: WireId)
      requires Valid() && w in past.issued
      ensures w in ledger.requestIDs || w in past.lost || w in Replied(past.answers)
      ensures !(w in ledger.requestIDs && w in past.lost)
      ensures !(w in ledger.requestIDs && w in Replied(past.answers))
      ensures !(w in past.lost && w in Replied(past.answers))
      ensures w in past.lost ==>
                w in past.received && (ReplyTo(past.received, w, parse).None?
                                       || !ReplyTo(past.received, w, parse).value.Object?)
    {
      assert AccountAt(past.issued, ledger.requestIDs, past.lost, Replied(past.answers), ledger.ordinary, w);
      assert ExcusedAt(past.lost, past.received, parse, w);
    }

    /** No operation is answered twice, and an answer goes to the consumer that asked. */
    lemma AnsweredOnce(i: nat, j: nat)
      requires Valid() && i < |past.answers| && j < |past.answers|
      requires past.answers[i].wire.Some? && past.answers[i].wire == past.answers[j].wire
      ensures i == j
      ensures var w := past.answers[i].wire.value;
              w in past.issued && past.answers[i].consumer == past.issued[w].consumer && w !in ledger.requestIDs
    {
      assert OnceAt(past.answers, i, j) && OnceAt(past.answers, j, i);
      assert AnswerAt(past.issued, past.answers, past.received, parse, i);
      AnsweredOff(i);
    }

    lemma AnsweredOff(i: nat)
      requires Valid() && i < |past.answers| && past.answers[i].wire.Some?
      ensures past.answers[i].wire.value !in ledger.requestIDs
    {
      var w := past.answers[i].wire.value;
      assert w in Replied(past.answers);
      assert AccountAt(past.issued, ledger.requestIDs, past.lost, Replied(past.answers), ledger.ordinary, w);
    }

    /** What a consumer gets is the reply to its own operation, as its source sent it in parts, with the
        source's names prefixed; whatever names were reused meanwhile. */
    lemma PayloadGenuine(i: nat)
      requires Valid() && i < |past.answers| && past.answers[i].outcome.Payload?
      ensures past.answers[i].wire.Some? && past.answers[i].wire.value in past.issued
      ensures var w, issue := past.answers[i].wire.value, past.issued[past.answers[i].wire.value];
              && w in past.received && parse(Flatten(past.received[w])).Some?
              && parse(Flatten(past.received[w])).value.Object?
              && var told, reply := past.answers[i].outcome.body, parse(Flatten(past.received[w])).value;
              && told == Delivered(reply, issue.prefix, issue.consumer)
              && told.Object? && FieldOf(told, "id") == Text(issue.consumer)
              && told.fields - {"id"} == Transform(reply, Add(issue.prefix)).fields - {"id"}
              && Transform(told, Strip(issue.prefix)).fields - {"id"} == Transform(reply, Same()).fields - {"id"}
    {
      assert AnswerAt(past.issued, past.answers, past.received, parse, i);
      var w, issue := past.answers[i].wire.value, past.issued[past.answers[i].wire.value];
      AnsweredAgain(parse(Flatten(past.received[w])).value, issue.prefix, issue.consumer);
    }

    /** Every request that was ever written to a source carries the text of an identity that the session
        issued, and no two carry the same. */
    lemma WrittenOnce(i: nat, j: nat)
      requires Valid() && i < |past.written| && j < |past.written|
      requires past.written[i].frame.Request? && past.written[j].frame.Request?
      requires TextOf(FieldOf(past.written[i].frame.body, "id")) == TextOf(FieldOf(past.written[j].frame.body, "id"))
      ensures i == j
      ensures exists w :: Numbered(w, ledger.ordinary, ledger.internal)
                          && TextOf(FieldOf(past.written[i].frame.body, "id")) == Name(w)
    {
      assert SentOnceAt(past.written, i, j) && SentOnceAt(past.written, j, i);
      assert ForwardAt(past.issued, ledger.internal, past.written, i);
      var w :| ForwardAs(past.issued, ledger.internal, past.written[i], w);
      assert AccountAt(past.issued, ledger.requestIDs, past.lost, Replied(past.answers), ledger.ordinary, w);
    }

    /** A request that was written with an operation's identity went to the source that the operation was
        accepted for. It asks exactly what the viewer asked, in the source's own names: prefixed again, they
        are the viewer's. */
    lemma WrittenAsAsked(i: nat, w: WireId)
      requires Valid() && i < |past.written| && past.written[i].frame.Request? && w.Ordinary?
      requires TextOf(FieldOf(past.written[i].frame.body, "id")) == Name(w)
      ensures w in past.issued && past.issued[w].target == past.written[i].target
      ensures past.issued[w].boot == past.written[i].frame.boot
      ensures var issue, body := past.issued[w], past.written[i].frame.body;
              && issue.request.Object? && body.Object?
              && Transform(body, Add(issue.prefix)).fields - {"id"} == Transform(issue.request, Same()).fields - {"id"}
    {
      assert ForwardAt(past.issued, ledger.internal, past.written, i);
      var v :| ForwardAs(past.issued, ledger.internal, past.written[i], v);
      NamesDistinct(v, w);
      AskedAgain(past.issued[w].request, past.issued[w].prefix, w);
    }

    /** Going by the text of a reply's identity is going by the identity: no other text leads to an
        outstanding or an expired request. */
    lemma RepliesByName(w: WireId, text: bytes)
      requires Valid() && (w in ledger.pending || w in ledger.retired)
      ensures Identify(text) == w <==> text == Name(w)
    {
      assert BookAt(ledger.pending, ledger.deadlines, ledger.requestIDs, ledger.retired, ledger.ordinary,
                    ledger.internal, w);
      IdentifyName(w, text);
    }

    /** Fences that were accepted and fences that were confirmed differ by the one that is pending. Between
        events a pending fence waits for a source that is there, also if the source that it was sent to has
        left meanwhile; or for the active source's surface, which is wanted and not yet active. */
    lemma FencesConserved()
      requires Valid() && !past.broken
      ensures past.syncs == past.readies + (if fence.pending then [fence.token] else [])
      ensures Calm() && fence.pending ==> stage.active.Some? && Live(roster, stage.active.value)
      ensures Calm() && fence.pending ==>
                if fence.source.Some? then Live(roster, fence.source.value)
                else stage.surfaceOn && !roster.table[stage.active.value].surfaceActive
    {
      assert FencesOwe(past.broken, fence.pending, fence.token, past.syncs, past.readies,
                       if fence.pending then [fence.token] else []);
      if Calm() && stage.active.None? {
        NoFence(roster, next, prefixOf, stage, fence, past.broken);
      }
    }

    /** Whenever in the run rendering was found to be stable, the source had last been told that its surface
        is wanted, and had since then sent a frame `p` of the revision that it had announced. */
    lemma SteadyAfterFrame(earlier: Chronicle, id: string, at: nat)
      returns (asked: Chronicle, w: WireId, told: nat, drawn: Chronicle, p: bytes, n: nat)
      requires Valid() && Continues(history, And(earlier, Steadied(id, at)))
      ensures Untold(earlier, And(drawn, Painted(id, p, n)), id)
      ensures Untold(drawn, And(asked, Asked(id, w, true, told)), id)
      ensures Projects(p, n) && LifeOf(drawn, id).announced == Some(n)
    {
      EpisodeAdmitted(history, earlier, Steadied(id, at));
      asked, w, told, drawn, p, n := DrawnSince(earlier, id);
    }

    /** And it had acknowledged every transition that it was asked to make since it was opened: what was
        received in reply, as a whole, is an object that reports no error. */
    lemma SteadyAfterReplies(earlier: Chronicle, id: string, at: nat, asked: Chronicle, w: WireId, wanted: bool,
                             told: nat) returns (agreed: Chronicle, reply: Json)
      requires Valid() && Continues(history, And(earlier, Steadied(id, at)))
      requires SameSource(earlier, And(asked, Asked(id, w, wanted, told)), id)
      ensures Continues(earlier, And(agreed, Agreed(id, w, reply)))
      ensures Continues(agreed, And(asked, Asked(id, w, wanted, told)))
      ensures Agrees(reply) && w in past.received && parse(Flatten(past.received[w])) == Some(reply)
    {
      EpisodeAdmitted(history, earlier, Steadied(id, at));
      agreed, reply := AgreedSince(earlier, asked, id, w, wanted, told);
      ContinuesTransitive(history, And(earlier, Steadied(id, at)), earlier);
      ContinuesTransitive(history, earlier, And(agreed, Agreed(id, w, reply)));
      HeededThen(history, agreed, w, reply, past.received, ledger.pending, ledger.internal, parse, id);
    }

    /** A source counts as stable exactly since it was last found to be so, and it was told nothing since:
        its surface is still wanted, and no transition is outstanding. */
    lemma StableMeansAcknowledged(h: Handle) returns (steady: Chronicle)
      requires Valid() && Live(roster, h) && roster.table[h].stableSince.Some?
      ensures Untold(history, And(steady, Steadied(roster.table[h].id, roster.table[h].stableSince.value)),
                     roster.table[h].id)
      ensures roster.table[h].surfaceActive && roster.table[h].snapshot.Some? && roster.table[h].frame.Some?
      ensures forall w :: w in ledger.pending && ledger.pending[w] == h ==> w in ledger.requestIDs
    {
      FlagsOf(roster, recovery, history, clock, h);
      assert SourceAt(roster, prefixOf, roster.table[h].id);
      steady := LastSteadied(history, roster.table[h].id);
      forall w | w in ledger.pending && ledger.pending[w] == h ensures w in ledger.requestIDs {
        assert TargetAt(roster, ledger.pending, ledger.retired, w);
        assert BookAt(ledger.pending, ledger.deadlines, ledger.requestIDs, ledger.retired, ledger.ordinary,
                      ledger.internal, w);
      }
    }

    /** Failures are forgotten only when rendering has counted as stable for long enough, or when the
        incarnation was missing from the list of the last tick. */
    lemma ForgottenFor(earlier: Chronicle, id: string, generation: string, reason: Reason)
      requires Valid() && Continues(history, And(earlier, Forgotten(id, generation, reason)))
      ensures reason.Stable? ==>
                var since := LifeOf(earlier, id).since; since.Some? && since.value + STABLE_INTERVAL <= reason.at
      ensures reason.Unlisted? ==>
                Ticks(earlier) != [] && Missing(Ticks(earlier)[|Ticks(earlier)| - 1], id, generation)
    {
      EpisodeAdmitted(history, earlier, Forgotten(id, generation, reason));
    }

    /** Rendering counts as stable from a time on that is no earlier than anything that happened before. */
    lemma SteadyFromNow(earlier: Chronicle, id: string, at: nat)
      requires Valid() && Continues(history, And(earlier, Steadied(id, at)))
      ensures at >= Latest(earlier)
    {
      EpisodeAdmitted(history, earlier, Steadied(id, at));
    }

    /** As long as its failures are not forgotten, an incarnation that failed for the moment is the only one
        that is opened, and the `k`-th failure in a row delays that until at least 1, 3, 7, 15 seconds after the
        first of them, and 31 + 16 * (k - 5) seconds for five or more. */
    lemma ReopenedLate(early: Chronicle, id: string, generation: string, at: nat, late: Chronicle, anew: string,
                       again: nat)
      requires Valid() && Continues(history, And(late, Begun(id, anew, again)))
      requires Continues(late, And(early, Lost(id, generation, at, Transient)))
      requires Kept(late, And(early, Lost(id, generation, at, Transient)), id)
      ensures anew == generation
      ensures var k := 1 + Failures(late, And(early, Lost(id, generation, at, Transient)), id);
              again >= at + if k < 5 then [0, 1, 3, 7, 15][k] else 31 + 16 * (k - 5)
    {
      EpisodeAdmitted(history, late, Begun(id, anew, again));
      FailuresWait(late, early, id, generation, at);
      WaitedIs(1 + Failures(late, And(early, Lost(id, generation, at, Transient)), id));
    }

    /** An incarnation that failed for good is never opened again, unless it was missing from a list in
        between: `x` is how everything stood when it was. */
    lemma NeverReopened(early: Chronicle, id: string, generation: string, at: nat, late: Chronicle, anew: string,
                        again: nat) returns (x: Chronicle)
      requires Valid() && Continues(history, And(late, Begun(id, anew, again)))
      requires Continues(late, And(early, Lost(id, generation, at, Permanent)))
      ensures Continues(late, x) && Continues(x, And(early, Lost(id, generation, at, Permanent)))
      ensures Ticks(x) != [] && Missing(Ticks(x)[|Ticks(x)| - 1], id, generation)
    {
      var start := And(early, Lost(id, generation, at, Permanent));
      EpisodeAdmitted(history, late, Begun(id, anew, again));
      if Kept(late, start, id) {
        StaysBlocked(late, early, id, generation, at);
        assert false;
      }
      var other, reason;
      x, other, reason := FirstForgotten(late, start, id);
      EpisodeAdmitted(late, x, Forgotten(id, other, reason));
      StaysBlocked(x, early, id, generation, at);
      ContinuesTransitive(late, And(x, Forgotten(id, other, reason)), x);
    }

    /** What is on record is what the chronicle says: the failures that were not forgotten, and nothing
        else. A quarantined incarnation has no source. */
    lemma RecordsAreTrue(id: string)
      requires Valid()
      ensures var tale := LifeOf(history, id).tale;
              && (id in recovery <==> tale.Some?)
              && (id in recovery ==> Faithful(recovery[id], tale.value))
      ensures id in recovery && recovery[id].blocked ==> id !in roster.sources
    {
      RecordOf(roster, recovery, history, clock, id);
      if id in roster.sources {
        assert SourceAt(roster, prefixOf, id);
      }
    }

    /** The bounds: sources, operations, transitions, and bytes of unfinished replies. */
    lemma WithinBounds(h: Handle)
      requires Valid()
      ensures |roster.sources| <= MAX_SOURCES
      ensures |ledger.requestIDs| + |ledger.retired| <= MAX_REQUESTS
      ensures |ledger.pending| - |ledger.requestIDs| <= MAX_INTERNAL
      ensures Live(roster, h) ==> Total(roster.table[h].chunks) <= MAX_FRAME
    {
      assert FewerThan(roster.sources, MAX_SOURCES);
      assert BoundedBy(ledger.pending, ledger.requestIDs, ledger.retired, MAX_REQUESTS);
      assert BoundedBy(ledger.pending, ledger.requestIDs, ledger.retired, MAX_INTERNAL);
      if Live(roster, h) {
        assert SourceAt(roster, prefixOf, roster.table[h].id);
        ContentsAre(roster.table[h].frame, roster.table[h].boot, roster.table[h].chunks);
      }
    }

    /** The limit on the number of unfinished replies turns a part of a reply away exactly when every slot is
        taken by a request to this source that has begun its reply, and this one's reply is empty so far. */
    lemma TooManyReplies(h: Handle, w: WireId)
      requires Valid() && Live(roster, h) && w in ledger.pending && ledger.pending[w] == h
      ensures ChunkOf(roster.table[h], w) == [] && |roster.table[h].chunks| >= MAX_REQUESTS + MAX_INTERNAL <==>
                && ChunkOf(roster.table[h], w) == [] && |ledger.pending| == MAX_REQUESTS + MAX_INTERNAL
                && forall v :: v in ledger.pending ==> v in roster.table[h].chunks && ledger.pending[v] == h
    {
      var chunks := roster.table[h].chunks;
      forall v | v in chunks ensures v in ledger.pending && ledger.pending[v] == h {
        assert ChunkAt(roster, ledger.pending, h, v);
      }
      WithinBounds(h);
      if |chunks| >= MAX_REQUESTS + MAX_INTERNAL {
        AllOf(chunks.Keys, ledger.pending.Keys);
      }
      if forall v :: v in ledger.pending ==> v in chunks {
        SmallerSet(ledger.pending.Keys, chunks.Keys);
      }
    }

    /** Whoever is current on the books is there, and agrees with the other books: no consumer has two
        operations outstanding under one name, and a source keeps parts only of replies to its own requests. */
    lemma BooksAgree(w: WireId, v: WireId, h: Handle)
      requires Valid()
      ensures w in ledger.deadlines <==> w in ledger.pending
      ensures w in ledger.pending ==> Live(roster, ledger.pending[w])
      ensures w in ledger.requestIDs <==> w in ledger.pending && w.Ordinary?
      ensures w in ledger.retired ==> w !in ledger.pending && Live(roster, ledger.retired[w])
      ensures v in ledger.requestIDs && w in ledger.requestIDs && ledger.requestIDs[v] == ledger.requestIDs[w] ==>
                v == w
      ensures Live(roster, h) && w in roster.table[h].chunks ==> w in ledger.pending && ledger.pending[w] == h
    {
      assert BookAt(ledger.pending, ledger.deadlines, ledger.requestIDs, ledger.retired, ledger.ordinary,
                    ledger.internal, w);
      assert TargetAt(roster, ledger.pending, ledger.retired, w);
      assert ConsumerAt(ledger.requestIDs, v, w) && ChunkAt(roster, ledger.pending, h, w);
    }

    /** Incremental rendering is full rendering: whenever what was rendered last is the active source's
        scene as it is now, the viewer, having taken in every frame so far, has exactly the view of that
        scene; and so would anyone who took in that scene in full, whatever they had before. */
    lemma ViewerSees(other: Option<Screens.Screen>)
      requires Valid() && Fresh() && UpToDate() && !past.broken
      requires stage.revision < UINT64 && stage.surfaceRevision < UINT64
      ensures var b := roster.table[stage.active.value];
              var e := Endpoint.ViewerEnv(boot, stage.revision, b.prefix);
              && past.viewer.Some?
              && past.viewer == Viewing.View(Screens.Native(), b.frame.value, e, stage.surfaceRevision)
              && var full := Endpoint.FullFrameFor(b.frame.value, e, stage.surfaceRevision);
                 full.Some? && |full.value| <= MAX_FRAME ==>
                   past.viewer == Screens.Apply(Screens.Native(), other, full.value)
    {
      var h := stage.active.value;
      var b, n := roster.table[h], stage.surfaceRevision;
      assert SourceAt(roster, prefixOf, b.id);
      ContentsAre(b.frame, b.boot, b.chunks);
      ShownDepicts(roster, boot, stage.revision, n, stage.rendered, past.viewer, h);
      DepictedView(b.frame.value, b.prefix, boot, stage.revision, n, past.viewer);
      var e := Endpoint.ViewerEnv(boot, stage.revision, b.prefix);
      var full := Endpoint.FullFrameFor(b.frame.value, e, n);
      if full.Some? && |full.value| <= MAX_FRAME {
        Endpoint.FullFrameShows(b.frame.value, e, n, other);
      }
    }
  }
}
