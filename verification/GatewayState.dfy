/** The state of the aggregate gateway and what is always true of it. A backend is a handle into a
    table, so that two references are the same backend exactly when the handles are equal. */
module GatewayState {
  import opened Wire
  import opened Namespace
  import Grammar
  import Screens
  import Surfaces
  import Retention
  import Endpoint
  import Viewing

  const MAX_SOURCES := 8
  const MAX_REQUESTS := 64
  const MAX_INTERNAL := 16
  const INITIALIZATION_TIMEOUT := 10
  const OPERATION_TIMEOUT := 30
  const FENCE_TIMEOUT := 10
  const STABLE_INTERVAL := 10

  type Handle = nat

  /** The identity of a request on the wire to a source. Internal surface transitions and ordinary
      operations have separate number spaces; a source may also name something never issued. */
  datatype WireId =
    | Internal(n: nat)
    | Ordinary(n: nat)
    | Foreign(text: bytes)

  /** The bytes of a text without characters beyond Latin 1. */
  function Ascii(s: string): (b: bytes)
    ensures |b| == |s| && forall i :: 0 <= i < |s| ==> b[i] == s[i] as int % 0x100
  {
    seq(|s|, i requires 0 <= i < |s| => s[i] as int % 0x100)
  }

  const INTEREST_PREFIX := Ascii("hive:surface:")
  const REQUEST_PREFIX := Ascii("hive:request:")

  /** The operation by which a source is told that its surface is wanted. */
  const SURFACE_SET := Ascii("client_shell.surface.set")

  /** The operations that can be routed to a source. */
  const SUPPORTED: set<bytes> := {
    SURFACE_SET, Ascii("command.invoke"), Ascii("layout.set_split_ratio"), Ascii("workspace.focus"),
    Ascii("workspace.create"), Ascii("workspace.rename"), Ascii("workspace.close"), Ascii("tab.focus"),
    Ascii("tab.create"), Ascii("tab.rename"), Ascii("tab.close"), Ascii("tab.move"), Ascii("pane.focus"),
    Ascii("pane.focus_direction"), Ascii("pane.split"), Ascii("pane.close"), Ascii("pane.rename"),
    Ascii("pane.resize"), Ascii("pane.scroll"), Ascii("pane.copy_motion"), Ascii("pane.copy_search"),
    Ascii("pane.edit_scrollback"), Ascii("pane.input.set"), Ascii("pane.link.activate"),
    Ascii("pane.selection.read"), Ascii("pane.swap"), Ascii("pane.zoom")}

  function Decimal(n: nat): bytes {
    if n < 10 then [48 + n] else Decimal(n / 10) + [48 + n % 10]
  }

  /** The text of a wire identity. */
  function Name(w: WireId): bytes {
    match w
    case Internal(n) => INTEREST_PREFIX + Decimal(n)
    case Ordinary(n) => REQUEST_PREFIX + Decimal(n)
    case Foreign(text) => text
  }

  /** The number that decimal digits stand for. */
  function Value(digits: bytes): int {
    if digits == [] then 0 else Value(digits[..|digits| - 1]) * 10 + digits[|digits| - 1] as int - 48
  }

  /** `text` is a prefix and a number, as the session itself would write it. */
  predicate Issues(prefix: bytes, text: bytes) {
    && prefix <= text
    && Value(text[|prefix|..]) >= 0
    && prefix + Decimal(Value(text[|prefix|..])) == text
  }

  /** The identity that a text stands for. */
  function Identify(text: bytes): (w: WireId)
    ensures Name(w) == text
  {
    if Issues(REQUEST_PREFIX, text) then Ordinary(Value(text[|REQUEST_PREFIX|..]))
    else if Issues(INTEREST_PREFIX, text) then Internal(Value(text[|INTEREST_PREFIX|..]))
    else Foreign(text)
  }

  lemma {:induction false} DecimalInjective(m: nat, n: nat)
    requires Decimal(m) == Decimal(n)
    ensures m == n
  {
    if m >= 10 && n >= 10 {
      var s := Decimal(m);
      assert s[..|s| - 1] == Decimal(m / 10) && s[..|s| - 1] == Decimal(n / 10);
      assert s[|s| - 1] == 48 + m % 10 == 48 + n % 10;
      DecimalInjective(m / 10, n / 10);
    } else if m >= 10 || n >= 10 {
      DecimalLong(if m >= 10 then m else n);
    }
  }

  lemma DecimalLong(n: nat)
    requires n >= 10
    ensures |Decimal(n)| >= 2
  {
    assert |Decimal(n / 10)| >= 1;
  }

  /** Two issued identities have different texts, whichever of the two number spaces they are from. */
  lemma {:induction false} NamesDistinct(v: WireId, w: WireId)
    requires !v.Foreign? && !w.Foreign? && Name(v) == Name(w)
    ensures v == w
  {
    var a, b := INTEREST_PREFIX, REQUEST_PREFIX;
    assert a[5] == 115 && b[5] == 114;
    assert Name(v)[5] == (if v.Internal? then 115 else 114);
    assert Name(w)[5] == (if w.Internal? then 115 else 114);
    var p := if v.Internal? then a else b;
    assert Name(v)[|p|..] == Decimal(v.n) && Name(w)[|p|..] == Decimal(w.n);
    DecimalInjective(v.n, w.n);
  }

  lemma {:induction false} ValueOfDecimal(n: nat)
    ensures Value(Decimal(n)) == n
  {
    if n >= 10 {
      var s := Decimal(n);
      assert s[..|s| - 1] == Decimal(n / 10) && s[|s| - 1] == 48 + n % 10;
      ValueOfDecimal(n / 10);
    } else {
      assert Value([48 + n]) == Value([]) * 10 + n;
    }
  }

  /** An issued identity is found again by its text, and by no other. */
  lemma {:induction false} IdentifyName(w: WireId, text: bytes)
    requires !w.Foreign?
    ensures Identify(text) == w <==> text == Name(w)
  {
    if text == Name(w) {
      var p := if w.Internal? then INTEREST_PREFIX else REQUEST_PREFIX;
      assert text[|p|..] == Decimal(w.n);
      ValueOfDecimal(w.n);
      assert Issues(p, text);
      NamesDistinct(Identify(text), w);
    }
  }

  /** Whether a failure is retried or quarantines the publication's generation. */
  datatype Fault = Transient | Permanent

  datatype Snapshot = Snapshot(revision: nat, body: Json)

  datatype Backend = Backend(
    id: string,
    generation: string,
    title: string,
    open: bool,
    welcomed: bool,
    methods: set<bytes>,
    boot: bytes,
    prefix: bytes,
    snapshot: Option<Snapshot>,
    frame: Option<Screens.Screen>,
    chunks: map<WireId, bytes>,
    initializeBy: Option<nat>,
    surfaceActive: bool,
    renderReady: bool,
    stableSince: Option<nat>)

  datatype Record = Record(generation: string, attempts: nat, retryAt: nat, blocked: bool)

  // Who is there ----------------------------------------------------------------------------------

  /* Each invariant is a statement about one source, request, answer or event at a time, so that a
     proof says which one it is about. */

  /** The sources by publication, and everything that is known of every connection there was. */
  datatype Roster = Roster(sources: map<string, Handle>, table: map<Handle, Backend>)

  predicate Live(r: Roster, h: Handle) {
    h in r.table && r.table[h].id in r.sources && r.sources[r.table[h].id] == h
  }

  /** A screen is retained only after the snapshot that gives the boot and the prefix, which comes over an
      open connection. Stability needs a screen that was rendered since the surface was last wanted. */
  ghost predicate Sound(b: Backend, prefixOf: (string, string, bytes) -> bytes) {
    && (b.snapshot.Some? ==> b.welcomed && b.boot != [] && b.prefix == prefixOf(b.id, b.generation, b.boot))
    && (b.snapshot.None? ==> b.boot == [] && b.prefix == [] && b.frame.None? && !b.surfaceActive)
    && (b.renderReady ==> b.surfaceActive && b.frame.Some?)
    && (b.stableSince.Some? ==> b.renderReady)
    && (b.boot != [] ==> b.open)
    && Contents(b.frame, b.boot, b.chunks)
  }

  /* Where the native layout of screens matters, it is a bound variable that is only said to be the native
     one, and what a codec makes of something is another: `forall l :: OnTheWire(l) ==> exists x :: ..`. The
     verifier does not look behind such a statement by itself, so a proof unfolds the codec only where it
     names the layout. `Contents`, `Depicts`, `Sees`, `Composed`, `Advanced` and `Relayed` are all made this
     way: `XIn` is about one layout or environment, and `XAs` about one result. */

  /** This is the layout of the frames on the wire. */
  ghost predicate OnTheWire(l: Screens.Layout) {
    forall m :: SameLayout(l, m)
  }

  ghost predicate SameLayout(l: Screens.Layout, m: Screens.Layout) {
    m == Screens.Native() ==> l == m
  }

  /** A source's screen is complete and its own, and its unfinished replies fit a frame. */
  ghost predicate Contents(frame: Option<Screens.Screen>, boot: bytes, chunks: map<WireId, bytes>) {
    forall l :: ContentsIn(l, frame, boot, chunks)
  }

  ghost predicate ContentsIn(l: Screens.Layout, frame: Option<Screens.Screen>, boot: bytes,
                             chunks: map<WireId, bytes>) {
    OnTheWire(l) ==> exists total :: ContentsWith(l, frame, boot, chunks, total)
  }

  ghost predicate ContentsWith(l: Screens.Layout, frame: Option<Screens.Screen>, boot: bytes,
                               chunks: map<WireId, bytes>, total: nat) {
    && total == Total(chunks) && total <= MAX_FRAME
    && (frame.Some? ==> Retention.Good(l, frame.value) && From(frame.value, boot))
  }

  /** A screen came from a source with this boot. */
  predicate From(s: Screens.Screen, boot: bytes) {
    Screens.ReadHeader(s.header).Some? && Screens.ReadHeader(s.header).value.boot == boot
  }

  ghost predicate Sources(r: Roster, prefixOf: (string, string, bytes) -> bytes) {
    forall id :: SourceAt(r, prefixOf, id)
  }

  ghost predicate SourceAt(r: Roster, prefixOf: (string, string, bytes) -> bytes, id: string) {
    id in r.sources ==>
      r.sources[id] in r.table && r.table[r.sources[id]].id == id && Sound(r.table[r.sources[id]], prefixOf)
  }

  ghost predicate Few(sources: map<string, Handle>) {
    forall n :: FewerThan(sources, n)
  }

  ghost predicate FewerThan(sources: map<string, Handle>, n: nat) {
    MAX_SOURCES <= n ==> |sources| <= n
  }

  ghost predicate Handles(table: map<Handle, Backend>, next: Handle) {
    forall h :: HandleAt(table, next, h)
  }

  ghost predicate HandleAt(table: map<Handle, Backend>, next: Handle, h: Handle) {
    h in table ==> h < next
  }

  /** What the session aims at is there, and can be shown. */
  ghost predicate Aimed(r: Roster, h: Option<Handle>) {
    h.Some? ==> Live(r, h.value) && r.table[h.value].snapshot.Some?
  }

  // Requests --------------------------------------------------------------------------------------

  /** The wire identities that were issued: positive, up to the last of their kind. */
  predicate Numbered(w: WireId, ordinary: nat, internal: nat) {
    match w
    case Internal(n) => 1 <= n <= internal
    case Ordinary(n) => 1 <= n <= ordinary
    case Foreign(_) => false
  }

  /** The books of outstanding requests agree with each other. */
  ghost predicate Books(pending: map<WireId, Handle>, deadlines: map<WireId, nat>, requestIDs: map<WireId, bytes>,
                        retired: map<WireId, Handle>, ordinary: nat, internal: nat) {
    forall w :: BookAt(pending, deadlines, requestIDs, retired, ordinary, internal, w)
  }

  ghost predicate BookAt(pending: map<WireId, Handle>, deadlines: map<WireId, nat>, requestIDs: map<WireId, bytes>,
                         retired: map<WireId, Handle>, ordinary: nat, internal: nat, w: WireId) {
    && (w in deadlines <==> w in pending)
    && (w in pending ==> Numbered(w, ordinary, internal) && (w in requestIDs <==> w.Ordinary?))
    && (w in requestIDs ==> w in pending && requestIDs[w] != [])
    && (w in retired ==> w !in pending && w.Ordinary? && Numbered(w, ordinary, internal))
  }

  /** Whoever is to reply is there, and a source with an unacknowledged transition is not stable. */
  ghost predicate Targets(r: Roster, pending: map<WireId, Handle>, retired: map<WireId, Handle>) {
    forall w :: TargetAt(r, pending, retired, w)
  }

  ghost predicate TargetAt(r: Roster, pending: map<WireId, Handle>, retired: map<WireId, Handle>, w: WireId) {
    && (w in pending ==>
          Live(r, pending[w]) && (w.Internal? ==> r.table[pending[w]].stableSince.None?))
    && (w in retired ==> Live(r, retired[w]))
  }

  /** No consumer has two operations outstanding under one name. */
  ghost predicate Consumers(requestIDs: map<WireId, bytes>) {
    forall v, w :: ConsumerAt(requestIDs, v, w)
  }

  ghost predicate ConsumerAt(requestIDs: map<WireId, bytes>, v: WireId, w: WireId) {
    v in requestIDs && w in requestIDs && requestIDs[v] == requestIDs[w] ==> v == w
  }

  /** There are never more requests than the limits, nor than any number beyond them. */
  ghost predicate Bounded(pending: map<WireId, Handle>, requestIDs: map<WireId, bytes>, retired: map<WireId, Handle>) {
    forall n :: BoundedBy(pending, requestIDs, retired, n)
  }

  ghost predicate BoundedBy(pending: map<WireId, Handle>, requestIDs: map<WireId, bytes>,
                            retired: map<WireId, Handle>, n: nat) {
    && (MAX_REQUESTS <= n ==> |requestIDs| + |retired| <= n)
    && (MAX_INTERNAL <= n ==> |pending| <= |requestIDs| + n)
    && |requestIDs| <= |pending|
  }

  /** The bytes retained for unfinished responses. */
  ghost function Total(chunks: map<WireId, bytes>): nat {
    if chunks == map[] then 0
    else
      var w :| w in chunks;
      |chunks[w]| + Total(chunks - {w})
  }

  /** A source keeps unfinished replies only for its own requests. */
  ghost predicate Chunks(r: Roster, pending: map<WireId, Handle>) {
    forall h, w :: ChunkAt(r, pending, h, w)
  }

  ghost predicate ChunkAt(r: Roster, pending: map<WireId, Handle>, h: Handle, w: WireId) {
    Live(r, h) && w in r.table[h].chunks ==> w in pending && pending[w] == h
  }

  // What was accepted and answered ----------------------------------------------------------------

  /** An accepted operation: who asked for what, and which source under which names it went to. */
  datatype Issue = Issue(consumer: bytes, request: Json, target: Handle, prefix: bytes, boot: bytes)

  /** What the session writes to a source. A request is written with the source's boot identity. */
  datatype Frame =
    | Request(boot: bytes, body: Json)
    | Presentation(token: bytes)
    | Size(columns: nat, rows: nat)
    | Keys(tag: nat, id: bytes, rest: bytes)
    | Raw(payload: bytes)

  /** A frame that was written, or that the session tried to write, to a connected source. */
  datatype Sending = Sending(target: Handle, frame: Frame)

  /** What the session writes to the viewer, other than answers and surfaces. */
  datatype Message =
    | Confirmed(token: bytes)
    | Pong(data: bytes)
    | Effects
    | Snapshots(revision: nat)

  /** A field of an object; anything but an object has none. */
  function FieldOf(v: Json, k: string): Json {
    if v.Object? && k in v.fields then v.fields[k] else Null
  }

  /** The identity that a request is written with. */
  function IdOf(f: Frame): bytes {
    if f.Request? then TextOf(FieldOf(f.body, "id")) else []
  }

  /** The request that tells a source whether its surface is wanted. */
  function SurfaceRequest(w: WireId, wanted: bool): Json {
    Object(map["id" := Text(Name(w)), "method" := Text(SURFACE_SET), "params" := Object(map["active" := Bool(wanted)])])
  }

  datatype Outcome =
    | Refused(message: string)
    | Acknowledged(active: bool)
    | Payload(body: Json)

  /** What the viewer was told, and for which accepted operation if any. */
  datatype Answer = Reply(wire: Option<WireId>, consumer: bytes, outcome: Outcome)

  /** The operations that were answered. */
  ghost function Replied(answers: seq<Answer>): set<WireId> {
    set i | 0 <= i < |answers| && answers[i].wire.Some? :: answers[i].wire.value
  }

  /** Identities of operations are taken in order, and every accepted operation is exactly one of:
      outstanding, lost, or answered. */
  ghost predicate Accounts(issued: map<WireId, Issue>, requestIDs: map<WireId, bytes>, lost: set<WireId>,
                           replied: set<WireId>, ordinary: nat) {
    forall w :: AccountAt(issued, requestIDs, lost, replied, ordinary, w)
  }

  ghost predicate AccountAt(issued: map<WireId, Issue>, requestIDs: map<WireId, bytes>, lost: set<WireId>,
                            replied: set<WireId>, ordinary: nat, w: WireId) {
    && (w in issued <==> w.Ordinary? && 1 <= w.n <= ordinary)
    && (w in issued <==> w in requestIDs || w in lost || w in replied)
    && (w in requestIDs ==> w !in lost && w !in replied)
    && (w in lost ==> w !in replied)
  }

  function Flatten(parts: seq<bytes>): bytes {
    if parts == [] then [] else Flatten(parts[..|parts| - 1]) + parts[|parts| - 1]
  }

  function ChunkOf(b: Backend, w: WireId): bytes {
    if w in b.chunks then b.chunks[w] else []
  }

  /** What is outstanding is kept by the source it was issued to, and so is what was received of it. */
  ghost predicate Outstanding(issued: map<WireId, Issue>, requestIDs: map<WireId, bytes>,
                              pending: map<WireId, Handle>, table: map<Handle, Backend>,
                              received: map<WireId, seq<bytes>>) {
    forall w :: OutstandingAt(issued, requestIDs, pending, table, received, w)
  }

  ghost predicate OutstandingAt(issued: map<WireId, Issue>, requestIDs: map<WireId, bytes>,
                                pending: map<WireId, Handle>, table: map<Handle, Backend>,
                                received: map<WireId, seq<bytes>>, w: WireId) {
    && (w in requestIDs ==>
          && w in issued && w in pending && w in received && pending[w] in table
          && issued[w].consumer == requestIDs[w] && issued[w].target == pending[w]
          && issued[w].prefix == table[pending[w]].prefix
          && table[pending[w]].snapshot.Some?)
    && (w in pending ==>
          && w in received && pending[w] in table
          && ChunkOf(table[pending[w]], w) == Flatten(received[w]))
  }

  /** The body delivered for a source's reply: its identifiers prefixed, under the consumer's id. */
  function Delivered(reply: Json, prefix: bytes, consumer: bytes): Json
    requires reply.Object?
  {
    Object(Transform(reply, Add(prefix)).fields["id" := Text(consumer)])
  }

  /** The whole reply to an operation, as received. */
  ghost function ReplyTo(received: map<WireId, seq<bytes>>, w: WireId, parse: bytes -> Option<Json>): Option<Json> {
    if w in received then parse(Flatten(received[w])) else None
  }

  /** A delivered body is made of nothing but the chunks received for its own operation. */
  ghost predicate Genuine(issued: map<WireId, Issue>, a: Answer, received: map<WireId, seq<bytes>>,
                          parse: bytes -> Option<Json>) {
    a.outcome.Payload? ==>
      && a.wire.Some? && a.wire.value in issued
      && var reply := ReplyTo(received, a.wire.value, parse);
      && reply.Some? && reply.value.Object?
      && a.outcome.body == Delivered(reply.value, issued[a.wire.value].prefix, a.consumer)
  }

  ghost predicate Answers(issued: map<WireId, Issue>, answers: seq<Answer>, received: map<WireId, seq<bytes>>,
                          parse: bytes -> Option<Json>) {
    forall i :: AnswerAt(issued, answers, received, parse, i)
  }

  /** Answers go to the consumer that asked. */
  ghost predicate AnswerAt(issued: map<WireId, Issue>, answers: seq<Answer>, received: map<WireId, seq<bytes>>,
                           parse: bytes -> Option<Json>, i: int) {
    0 <= i < |answers| ==>
      && Genuine(issued, answers[i], received, parse)
      && (answers[i].wire.Some? ==>
            && answers[i].wire.value in issued
            && answers[i].consumer == issued[answers[i].wire.value].consumer)
  }

  /** No operation is answered twice. */
  ghost predicate Once(answers: seq<Answer>) {
    forall i, j :: OnceAt(answers, i, j)
  }

  ghost predicate OnceAt(answers: seq<Answer>, i: int, j: int) {
    0 <= i < j < |answers| && answers[i].wire.Some? ==> answers[i].wire != answers[j].wire
  }

  /** The only operations that are lost are those whose whole reply was not an object. */
  ghost predicate Excused(lost: set<WireId>, received: map<WireId, seq<bytes>>, parse: bytes -> Option<Json>) {
    forall w :: ExcusedAt(lost, received, parse, w)
  }

  ghost predicate ExcusedAt(lost: set<WireId>, received: map<WireId, seq<bytes>>, parse: bytes -> Option<Json>,
                            w: WireId) {
    w in lost ==> w in received && (ReplyTo(received, w, parse).None? || !ReplyTo(received, w, parse).value.Object?)
  }

  /** The request as its owner knows it, under the wire identity. */
  function Forwarded(request: Json, prefix: bytes, w: WireId): Json
    requires request.Object?
  {
    Addressed(Transform(request, Strip(prefix)), w)
  }

  /** A request of the viewer to a source, as it is when it is accepted. */
  function Asking(r: Roster, h: Handle, consumer: bytes, request: Json): Issue
    requires h in r.table
  {
    Issue(consumer, request, h, r.table[h].prefix, r.table[h].boot)
  }

  /** What becomes of a part of a reply: it is turned away, or drained as late, or taken. */
  datatype Fate = Turned | Drained | Taken

  ghost function FateOf(r: Roster, l: Ledger, h: Handle, named: bytes, w: WireId, data: bytes): Fate
    requires h in r.table
  {
    var b := r.table[h];
    if named != b.boot then Turned
    else if w in l.retired then if l.retired[w] == h then Drained else Turned
    else if w !in l.pending || l.pending[w] != h then Turned
    else if |data| + Total(b.chunks) > MAX_FRAME then Turned
    else if ChunkOf(b, w) == [] && |b.chunks| >= MAX_REQUESTS + MAX_INTERNAL then Turned
    else Taken
  }

  /** The end of an operation: its consumer is told the reply, if that is an object; otherwise it hears
      nothing. */
  ghost predicate Concludes(reply: Option<Json>, before: Past, after: Past, w: WireId, consumer: bytes, prefix: bytes) {
    if reply.None? || !reply.value.Object? then
      after.answers == before.answers && after.lost == before.lost + {w}
    else
      var answer := Reply(Some(w), consumer, Payload(Delivered(reply.value, prefix, consumer)));
      after.lost == before.lost && after.answers == before.answers + [answer]
  }

  /** At most `w` is newly issued: for this request of this consumer, to a source that offers the operation. */
  ghost predicate IssuesAtMost(before: map<WireId, Issue>, after: map<WireId, Issue>, r: Roster, w: WireId,
                               consumer: bytes, operation: bytes, request: Json) {
    after == before || exists h :: IssuedTo(before, after, r, h, w, consumer, operation, request)
  }

  ghost predicate IssuedTo(before: map<WireId, Issue>, after: map<WireId, Issue>, r: Roster, h: Handle, w: WireId,
                           consumer: bytes, operation: bytes, request: Json) {
    h in r.table && operation in r.table[h].methods && after == before[w := Asking(r, h, consumer, request)]
  }

  /** No request under this name is outstanding. */
  ghost predicate Unused(ids: map<WireId, bytes>, consumer: bytes) {
    forall w :: UnusedAt(ids, consumer, w)
  }

  ghost predicate UnusedAt(ids: map<WireId, bytes>, consumer: bytes, w: WireId) {
    w in ids ==> ids[w] != consumer
  }

  /** A request under the identity that its reply is to name. */
  function Addressed(own: Json, w: WireId): Json {
    if own.Object? then Object(own.fields["id" := Text(Name(w))]) else own
  }

  /** Every identifier of a request begins with `prefix`. */
  predicate Within(request: Json, prefix: bytes) {
    forall x :: x in Ids(request) ==> prefix <= x
  }

  /** Every request that was written carries an identity that the session issued. An operation was
      written to the source it was issued to, which owns every identifier in it, and as that source knows
      it; anything else says whether a surface is wanted. */
  ghost predicate Forwards(issued: map<WireId, Issue>, internal: nat, written: seq<Sending>) {
    forall i :: ForwardAt(issued, internal, written, i)
  }

  ghost predicate ForwardAt(issued: map<WireId, Issue>, internal: nat, written: seq<Sending>, i: int) {
    0 <= i < |written| && written[i].frame.Request? ==> exists w :: ForwardAs(issued, internal, written[i], w)
  }

  ghost predicate ForwardAs(issued: map<WireId, Issue>, internal: nat, x: Sending, w: WireId) {
    && x.frame.Request? && IdOf(x.frame) == Name(w)
    && match w
       case Ordinary(_) => w in issued && OperationIs(issued[w], x, w)
       case Internal(n) =>
         1 <= n <= internal && (x.frame.body == SurfaceRequest(w, true) || x.frame.body == SurfaceRequest(w, false))
       case Foreign(_) => false
  }

  ghost predicate OperationIs(issue: Issue, x: Sending, w: WireId) {
    && x.frame.Request? && issue.target == x.target && issue.boot == x.frame.boot
    && issue.request.Object? && Within(issue.request, issue.prefix)
    && x.frame.body == Forwarded(issue.request, issue.prefix, w)
  }

  /** No two requests were written with the same identity. */
  ghost predicate SentOnce(written: seq<Sending>) {
    forall i, j :: SentOnceAt(written, i, j)
  }

  ghost predicate SentOnceAt(written: seq<Sending>, i: int, j: int) {
    0 <= i < j < |written| && written[i].frame.Request? && written[j].frame.Request?
    ==> IdOf(written[i].frame) != IdOf(written[j].frame)
  }

  /** No request was written with this identity. */
  ghost predicate Novel(written: seq<Sending>, w: WireId) {
    forall i :: NovelAt(written, w, i)
  }

  ghost predicate NovelAt(written: seq<Sending>, w: WireId, i: int) {
    0 <= i < |written| && written[i].frame.Request? ==> IdOf(written[i].frame) != Name(w)
  }

  // Layout authority and fences -------------------------------------------------------------------

  /** What the session did about layouts, in order: told a source that its surface is wanted or not,
      dropped a source, or asked a source to confirm that it has presented, while a surface was wanted or
      not. What a source without a connection is told is lost, and the source is dropped. */
  datatype LayoutEvent =
    | Interest(source: Handle, active: bool)
    | Gone(source: Handle)
    | Fenced(source: Handle, token: bytes, wanted: bool)

  /** Layout events, oldest first. */
  datatype Log = Empty | Then(earlier: Log, last: LayoutEvent)

  /** What a frame means for the layout of the source that it is written to. */
  function Meaning(h: Handle, frame: Frame, wanted: bool): Option<LayoutEvent> {
    match frame
    case Presentation(token) => Some(Fenced(h, token, wanted))
    case Request(_, body) =>
      if TextOf(FieldOf(body, "method")) == SURFACE_SET
      then Some(Interest(h, FieldOf(FieldOf(body, "params"), "active") == Bool(true)))
      else None
    case _ => None
  }

  /** The sources that were last told that their surface is wanted. */
  ghost function Holders(log: Log): set<Handle> {
    match log
    case Empty => {}
    case Then(earlier, Interest(h, true)) => Holders(earlier) + {h}
    case Then(earlier, Interest(h, false)) => Holders(earlier) - {h}
    case Then(earlier, Gone(h)) => Holders(earlier) - {h}
    case Then(earlier, Fenced(_, _, _)) => Holders(earlier)
  }

  /** Authority is given only when nobody has it, and a fence goes only to a source whose wanted
      surface has been activated. */
  ghost predicate Orderly(log: Log) {
    match log
    case Empty => true
    case Then(earlier, e) => Orderly(earlier) && InOrder(Holders(earlier), e)
  }

  ghost predicate InOrder(holders: set<Handle>, e: LayoutEvent) {
    match e
    case Interest(_, true) => holders == {}
    case Fenced(h, _, true) => h in holders
    case _ => true
  }

  /** Those who hold the layout are the sources whose surface is active. */
  ghost predicate Authority(r: Roster, log: Log) {
    forall h :: HolderAt(r, log, h)
  }

  ghost predicate HolderAt(r: Roster, log: Log, h: Handle) {
    exists holders :: HolderWith(r, log, h, holders)
  }

  ghost predicate HolderWith(r: Roster, log: Log, h: Handle, holders: set<Handle>) {
    holders == Holders(log) && (h in holders <==> Live(r, h) && r.table[h].surfaceActive)
  }

  /** Every accepted fence is answered once and in order, but for the one outstanding. */
  ghost predicate Fences(broken: bool, pending: bool, token: bytes, syncs: seq<bytes>, readies: seq<bytes>) {
    forall owed :: FencesOwe(broken, pending, token, syncs, readies, owed)
  }

  ghost predicate FencesOwe(broken: bool, pending: bool, token: bytes, syncs: seq<bytes>, readies: seq<bytes>,
                            owed: seq<bytes>) {
    !broken && owed == (if pending then [token] else []) ==> syncs == readies + owed && (!pending ==> token == [])
  }

  // Recovery --------------------------------------------------------------------------------------

  /** How long the `k`-th failure in a row keeps a source from being opened again. */
  function Delay(k: nat): nat {
    if k <= 1 then 1 else if k == 2 then 2 else if k == 3 then 4 else if k == 4 then 8 else 16
  }

  /** Why failures were forgotten: the source had been rendering stably for long enough, or the
      publication was no longer in the list. */
  datatype Reason = Stable(at: nat) | Unlisted

  /** What happened to publications, as far as opening them again is concerned: what counted of everything
      shared when the clock ticked; when sources were opened and failed; which revision they announced, when
      they were told that their surface is wanted or not, what they replied to that, and which frames they sent
      of what they announced while it was wanted; since when their rendering counts as stable; and when
      failures were forgotten. */
  datatype Episode =
    | Ticked(list: seq<Publication>)
    | Begun(id: string, generation: string, at: nat)
    | Lost(id: string, generation: string, at: nat, fault: Fault)
    | Declared(id: string, revision: nat)
    | Asked(id: string, wire: WireId, wanted: bool, at: nat)
    | Agreed(id: string, wire: WireId, reply: Json)
    | Painted(id: string, frame: bytes, projection: nat)
    | Steadied(id: string, at: nat)
    | Forgotten(id: string, generation: string, reason: Reason)

  /** Episodes, oldest first. */
  datatype Chronicle = Dawn | And(earlier: Chronicle, last: Episode)

  /** The failures of an incarnation: when it failed for the moment, and whether it failed for good. */
  datatype Tale = Tale(generation: string, times: seq<nat>, blocked: bool)

  /** What the chronicle says of a publication: its failures that were not forgotten, since when its
      rendering counts as stable, and when its source was opened; of that source, which transitions it has
      not acknowledged, whether its surface is wanted and has been rendered since it was last told, and
      which revision it announced. */
  datatype Life = Life(
    tale: Option<Tale>,
    since: Option<nat>,
    begun: nat,
    asked: set<WireId>,
    wanted: bool,
    drawn: bool,
    announced: Option<nat>)

  /** An episode is about one publication, unless the clock ticks. */
  predicate Concerns(e: Episode, id: string) {
    !e.Ticked? && e.id == id
  }

  function TaleAfter(t: Option<Tale>, generation: string, at: nat, fault: Fault): Tale {
    var times := if t.Some? && t.value.generation == generation then t.value.times else [];
    Tale(generation, if fault.Transient? then times + [at] else times, fault.Permanent?)
  }

  function LifeAfter(l: Life, e: Episode): Life {
    match e
    case Ticked(_) => l
    case Begun(_, _, at) => Life(l.tale, None, at, {}, false, false, None)
    case Lost(_, generation, at, fault) =>
      Life(Some(TaleAfter(l.tale, generation, at, fault)), None, l.begun, {}, false, false, None)
    case Declared(_, revision) => l.(announced := Some(revision))
    case Asked(_, w, wanted, _) => l.(asked := l.asked + {w}, wanted := wanted, drawn := false, since := None)
    case Agreed(_, w, _) => l.(asked := l.asked - {w})
    case Painted(_, _, _) => l.(drawn := true)
    case Steadied(_, at) => l.(since := Some(at))
    case Forgotten(_, _, _) => l.(tale := None)
  }

  ghost function LifeOf(c: Chronicle, id: string): Life {
    match c
    case Dawn => Life(None, None, 0, {}, false, false, None)
    case And(earlier, e) => if Concerns(e, id) then LifeAfter(LifeOf(earlier, id), e) else LifeOf(earlier, id)
  }

  /** What counted of everything shared, whenever the clock ticked. */
  ghost function Ticks(c: Chronicle): seq<seq<Publication>> {
    match c
    case Dawn => []
    case And(earlier, Ticked(list)) => Ticks(earlier) + [list]
    case And(earlier, _) => Ticks(earlier)
  }

  function TimeOf(e: Episode): nat {
    match e
    case Begun(_, _, at) => at
    case Lost(_, _, at, _) => at
    case Steadied(_, at) => at
    case Asked(_, _, _, at) => at
    case Forgotten(_, _, Stable(at)) => at
    case _ => 0
  }

  /** The latest time that the chronicle speaks of. */
  ghost function Latest(c: Chronicle): nat {
    match c
    case Dawn => 0
    case And(earlier, e) => if TimeOf(e) <= Latest(earlier) then Latest(earlier) else TimeOf(e)
  }

  /** When the last failure of an incarnation is over. */
  function Due(t: Tale): nat {
    if t.times == [] then 0 else t.times[|t.times| - 1] + Delay(|t.times|)
  }

  /** What may happen to a publication, after what the chronicle says of it. A source is opened, and so
      can fail, only when its failures are over, and never after it failed for good. Failures are
      forgotten only after stable rendering, or when the incarnation was missing from the last list. A
      transition is acknowledged by a reply that reports no error; a frame is rendered while the surface is
      wanted, of the revision announced; and rendering counts as stable from the present on, once a frame
      was rendered since the last transition and every transition is acknowledged. */
  ghost predicate Admitted(l: Life, ticks: seq<seq<Publication>>, latest: nat, e: Episode) {
    match e
    case Ticked(_) => true
    case Begun(_, generation, at) => l.tale.Some? ==> Spent(l.tale.value, generation, at)
    case Lost(_, generation, at, _) => l.tale.Some? ==> Spent(l.tale.value, generation, at)
    case Declared(_, _) => true
    case Asked(_, w, _, _) => w.Internal?
    case Agreed(_, w, reply) => w.Internal? && Agrees(reply)
    case Painted(_, p, projection) => l.wanted && l.announced == Some(projection) && Projects(p, projection)
    case Steadied(_, at) => at >= latest && l.wanted && l.drawn && l.asked == {}
    case Forgotten(id, generation, reason) =>
      && l.tale.Some? && l.tale.value.generation == generation
      && match reason
         case Stable(at) => !l.tale.value.blocked && l.since.Some? && l.since.value + STABLE_INTERVAL <= at
         case Unlisted => ticks != [] && Missing(ticks[|ticks| - 1], id, generation)
  }

  /** A reply to a transition that reports no error. */
  predicate Agrees(reply: Json) {
    reply.Object? && FieldOf(reply, "error") == Null
  }

  /** A frame is of this projection. */
  ghost predicate Projects(p: bytes, projection: nat) {
    exists header :: Opens(p, header) && header.projection == projection
  }

  /** The failures of this incarnation are over. */
  predicate Spent(t: Tale, generation: string, at: nat) {
    t.generation == generation && !t.blocked && at >= Due(t)
  }

  /** An incarnation is not in a list. */
  predicate Missing(list: seq<Publication>, id: string, generation: string) {
    Find(list, id).None? || Find(list, id).value.generation != generation
  }

  ghost predicate Patient(c: Chronicle) {
    match c
    case Dawn => true
    case And(earlier, e) =>
      Patient(earlier) && (!e.Ticked? ==> Admitted(LifeOf(earlier, e.id), Ticks(earlier), Latest(earlier), e))
  }

  /** A record knows how many transient failures there were, and when the last one is over. */
  ghost predicate Faithful(r: Record, t: Tale) {
    && r.generation == t.generation && r.blocked == t.blocked
    && r.attempts == (if |t.times| < 5 then |t.times| else 5)
    && (t.times != [] ==> r.retryAt == Due(t))
    && (t.times == [] ==> r.blocked)
  }

  ghost predicate Recovered(r: Roster, recovery: map<string, Record>, history: Chronicle, clock: nat) {
    && Patient(history) && Latest(history) <= clock
    && forall id :: RecoveredAt(r, recovery, history, id)
  }

  /** What is on record of a publication is what happened to it. */
  ghost predicate RecoveredAt(r: Roster, recovery: map<string, Record>, history: Chronicle, id: string) {
    exists life :: life == LifeOf(history, id) && RecoveredAs(r, recovery, id, life)
  }

  /** A source that is there was not opened before its record allowed it. */
  ghost predicate RecoveredAs(r: Roster, recovery: map<string, Record>, id: string, life: Life) {
    && (id in recovery <==> life.tale.Some?)
    && (id in recovery ==> Faithful(recovery[id], life.tale.value))
    && (id in r.sources && r.sources[id] in r.table ==>
          && Reflects(life, r.table[r.sources[id]])
          && (id in recovery ==> Spent(life.tale.value, r.table[r.sources[id]].generation, life.begun)))
  }

  /** What a source's flags say is what the chronicle says. */
  predicate Reflects(life: Life, b: Backend) {
    && life.since == b.stableSince
    && life.wanted == b.surfaceActive
    && life.drawn == b.renderReady
    && life.announced == RevisionOf(b.snapshot)
  }

  function RevisionOf(s: Option<Snapshot>): Option<nat> {
    if s.Some? then Some(s.value.revision) else None
  }

  /** Every transition that a source has not acknowledged is outstanding. */
  ghost predicate Unanswered(sources: map<string, Handle>, pending: map<WireId, Handle>, history: Chronicle) {
    forall id, w :: UnansweredAt(sources, pending, history, id, w)
  }

  ghost predicate UnansweredAt(sources: map<string, Handle>, pending: map<WireId, Handle>, history: Chronicle,
                               id: string, w: WireId) {
    id in sources && w in LifeOf(history, id).asked ==> w.Internal? && w in pending && pending[w] == sources[id]
  }

  /** An acknowledgement is the whole reply to its transition, which is outstanding no more. */
  ghost predicate Heeded(c: Chronicle, received: map<WireId, seq<bytes>>, pending: map<WireId, Handle>, internal: nat,
                         parse: bytes -> Option<Json>) {
    c.And? ==>
      && Heeded(c.earlier, received, pending, internal, parse)
      && (c.last.Agreed? ==> HeededNow(c.last.wire, c.last.reply, received, pending, internal, parse))
  }

  ghost predicate HeededNow(w: WireId, reply: Json, received: map<WireId, seq<bytes>>, pending: map<WireId, Handle>,
                            internal: nat, parse: bytes -> Option<Json>) {
    w.Internal? && w.n <= internal && w !in pending && ReplyTo(received, w, parse) == Some(reply)
  }

  /** So is every transition of the sources but one. */
  ghost predicate UnansweredBut(sources: map<string, Handle>, pending: map<WireId, Handle>, history: Chronicle,
                                h: Handle) {
    forall id, w :: id in sources && sources[id] != h ==> UnansweredAt(sources, pending, history, id, w)
  }

  // The viewer's screen ---------------------------------------------------------------------------

  /** Whoever was rendered last, in this revision, is what the viewer has. */
  ghost predicate Shown(broken: bool, r: Roster, boot: bytes,
                        revision: nat, n: nat, last: Rendered, viewer: Option<Screens.Screen>) {
    forall h :: ShownAt(broken, r, boot, revision, n, last, viewer, h)
  }

  ghost predicate ShownAt(broken: bool, r: Roster, boot: bytes,
                          revision: nat, n: nat, last: Rendered, viewer: Option<Screens.Screen>, h: Handle) {
    exists v :: ShownAs(broken, r, boot, revision, n, last, viewer, h, v)
  }

  /** If the source is where it was when it was last rendered, its view `v` is the viewer's screen. */
  ghost predicate ShownAs(broken: bool, r: Roster, boot: bytes,
                          revision: nat, n: nat, last: Rendered, viewer: Option<Screens.Screen>, h: Handle,
                          v: Option<Screens.Screen>) {
    !broken && last.source == Some(h) && last.revision == revision && Live(r, h)
    && revision < UINT64 && n < UINT64
    && r.table[h].frame.Some? && At(r.table[h].frame.value, last.project, last.surface)
    ==> viewer == v && Depicts(r.table[h].frame.value, r.table[h].prefix, boot, revision, n, v)
  }

  /** `v` is the view of a screen with a prefix. */
  ghost predicate Depicts(s: Screens.Screen, prefix: bytes, boot: bytes, revision: nat, n: nat,
                          v: Option<Screens.Screen>) {
    forall l :: DepictsIn(l, s, prefix, boot, revision, n, v)
  }

  ghost predicate DepictsIn(l: Screens.Layout, s: Screens.Screen, prefix: bytes, boot: bytes, revision: nat, n: nat,
                            v: Option<Screens.Screen>) {
    OnTheWire(l) ==> exists view :: DepictsAs(l, s, Endpoint.ViewerEnv(boot, revision, prefix), n, v, view)
  }

  ghost predicate DepictsAs(l: Screens.Layout, s: Screens.Screen, e: Grammar.Env, n: nat, v: Option<Screens.Screen>,
                            view: Option<Screens.Screen>) {
    view == Viewing.View(l, s, e, n) && view.Some? && Viewing.Showable(l, s, e) && v == view
  }

  /** What a frame makes of what the viewer has. */
  ghost predicate Sees(before: Option<Screens.Screen>, p: bytes, after: Option<Screens.Screen>) {
    forall l :: SeesIn(l, before, p, after)
  }

  ghost predicate SeesIn(l: Screens.Layout, before: Option<Screens.Screen>, p: bytes, after: Option<Screens.Screen>) {
    OnTheWire(l) ==> exists screen :: SeesAs(l, before, p, after, screen)
  }

  ghost predicate SeesAs(l: Screens.Layout, before: Option<Screens.Screen>, p: bytes, after: Option<Screens.Screen>,
                         screen: Option<Screens.Screen>) {
    screen == Screens.Apply(l, before, p) && after == screen
  }

  /** `p` is a screen written for the viewer. */
  ghost predicate Composed(s: Screens.Screen, prefix: bytes, boot: bytes, revision: nat, n: nat, p: bytes) {
    forall e :: ComposedIn(e, s, prefix, boot, revision, n, p)
  }

  ghost predicate ComposedIn(e: Grammar.Env, s: Screens.Screen, prefix: bytes, boot: bytes, revision: nat, n: nat,
                             p: bytes) {
    e == Endpoint.ViewerEnv(boot, revision, prefix) ==> exists frame :: ComposedAs(e, s, n, p, frame)
  }

  ghost predicate ComposedAs(e: Grammar.Env, s: Screens.Screen, n: nat, p: bytes, frame: Option<bytes>) {
    frame == Endpoint.FullFrameFor(s, e, n) && frame == Some(p)
  }

  /** `p` opens with this header. */
  ghost predicate Opens(p: bytes, header: Screens.Header) {
    forall read :: OpensAs(p, header, read)
  }

  ghost predicate OpensAs(p: bytes, header: Screens.Header, read: Option<Screens.Header>) {
    read == Screens.ReadHeader(p) ==> read == Some(header)
  }

  /** A frame of its source, applied to what was retained. */
  ghost predicate Advanced(before: Option<Screens.Screen>, p: bytes, after: Screens.Screen) {
    forall l :: AdvancedIn(l, before, p, after)
  }

  ghost predicate AdvancedIn(l: Screens.Layout, before: Option<Screens.Screen>, p: bytes, after: Screens.Screen) {
    OnTheWire(l) ==> exists u :: AdvancedAs(l, before, p, after, u)
  }

  ghost predicate AdvancedAs(l: Screens.Layout, before: Option<Screens.Screen>, p: bytes, after: Screens.Screen,
                             u: Option<Screens.Screen>) {
    u == Screens.Update(l, before, p) && u == Some(after) && Surfaces.Surface(p, Grammar.IDENTITY).Some?
  }

  /** A frame is from this incarnation of a source, and continues what is retained of it. */
  ghost predicate Continued(b: Backend, p: bytes) {
    exists header, after :: ContinuedBy(b, p, header, after)
  }

  ghost predicate ContinuedBy(b: Backend, p: bytes, header: Screens.Header, after: Screens.Screen) {
    Opens(p, header) && header.boot == b.boot && Advanced(b.frame, p, after)
  }

  /** `q` is a source's patch `p`, translated for the viewer. */
  ghost predicate Relayed(p: bytes, prefix: bytes, boot: bytes, revision: nat, n: nat, q: bytes) {
    forall e :: RelayedIn(e, p, prefix, boot, revision, n, q)
  }

  ghost predicate RelayedIn(e: Grammar.Env, p: bytes, prefix: bytes, boot: bytes, revision: nat, n: nat, q: bytes) {
    e == Endpoint.ViewerEnv(boot, revision, prefix) ==> exists frame :: RelayedAs(e, p, n, q, frame)
  }

  ghost predicate RelayedAs(e: Grammar.Env, p: bytes, n: nat, q: bytes, frame: Option<bytes>) {
    frame == Endpoint.PatchFrameFor(p, e, n) && frame == Some(q)
  }

  /** What was rendered last: which source, in which revision, from which scene. */
  datatype Rendered = Rendered(source: Option<Handle>, revision: nat, project: nat, surface: nat)

  /** What was rendered last is what is active, unless something was published since. */
  ghost predicate Current(broken: bool, r: Roster, revision: nat,
                          last: Rendered, surfaceOn: bool, active: Option<Handle>) {
    forall h :: CurrentAt(broken, r, revision, last, surfaceOn, active, h)
  }

  ghost predicate CurrentAt(broken: bool, r: Roster, revision: nat,
                            last: Rendered, surfaceOn: bool, active: Option<Handle>, h: Handle) {
    !broken && last.source == Some(h) && last.revision == revision && Live(r, h)
    ==> surfaceOn && active == Some(h) && r.table[h].snapshot.Some?
            && r.table[h].snapshot.value.revision == last.project
  }

  /** Some source is active if any can be. */
  ghost predicate Elected(broken: bool, r: Roster, active: Option<Handle>) {
    forall h :: ElectedAt(broken, r, active, h)
  }

  ghost predicate ElectedAt(broken: bool, r: Roster,
                            active: Option<Handle>, h: Handle) {
    broken || active.Some? || (Live(r, h) ==> r.table[h].snapshot.None?)
  }

  predicate At(s: Screens.Screen, project: nat, surface: nat) {
    && Screens.ReadHeader(s.header).Some?
    && Screens.ReadHeader(s.header).value.projection == project
    && s.revision == surface
  }

  /** A fence waits for a source, or for an activation that is not yet possible. */
  ghost predicate Settled(broken: bool, fencePending: bool, fenceSource: Option<Handle>, active: Option<Handle>,
                          surfaceOn: bool, table: map<Handle, Backend>) {
    broken || !fencePending || fenceSource.Some?
    || (active.Some? && active.value in table && surfaceOn && !table[active.value].surfaceActive)
  }

  // The state, by concern -------------------------------------------------------------------------

  /** The books: who is to reply to what, until when, and who asked. */
  datatype Ledger = Ledger(
    pending: map<WireId, Handle>,
    deadlines: map<WireId, nat>,
    requestIDs: map<WireId, bytes>,
    retired: map<WireId, Handle>,
    ordinary: nat,
    internal: nat)

  /** The fence that the viewer waits for, and the source that is to confirm it. */
  datatype Fence = Fence(token: bytes, pending: bool, source: Option<Handle>, until: nat)

  /** What is presented: from where, whether it is wanted, how large, and what was sent last. */
  datatype Stage = Stage(
    active: Option<Handle>,
    surfaceOn: bool,
    revision: nat,
    surfaceRevision: nat,
    columns: nat,
    rows: nat,
    resized: bool,
    rendered: Rendered)

  /** What has happened so far: among it the viewer's screen, and the surface frame that it was written last. */
  datatype Past = Past(
    issued: map<WireId, Issue>,
    written: seq<Sending>,
    received: map<WireId, seq<bytes>>,
    answers: seq<Answer>,
    lost: set<WireId>,
    syncs: seq<bytes>,
    readies: seq<bytes>,
    layout: Log,
    viewer: Option<Screens.Screen>,
    latest: Option<bytes>,
    broken: bool)

  /* The parts of the invariant. Each is named as a whole before it is returned, so that the verifier
     does not take it apart wherever it is claimed. */

  /** Requests outstanding, forwarded and answered agree with each other. */
  ghost predicate Balanced(l: Ledger, p: Past, table: map<Handle, Backend>, parse: bytes -> Option<Json>) {
    var all :=
      && Books(l.pending, l.deadlines, l.requestIDs, l.retired, l.ordinary, l.internal)
      && Consumers(l.requestIDs)
      && Bounded(l.pending, l.requestIDs, l.retired)
      && Outstanding(p.issued, l.requestIDs, l.pending, table, p.received)
      && Forwards(p.issued, l.internal, p.written)
      && SentOnce(p.written)
      && Accounts(p.issued, l.requestIDs, p.lost, Replied(p.answers), l.ordinary)
      && Answers(p.issued, p.answers, p.received, parse)
      && Once(p.answers);
    all
  }

  ghost predicate Presence(r: Roster, next: Handle, prefixOf: (string, string, bytes) -> bytes, active: Option<Handle>,
                           fence: Fence) {
    var all :=
      && Sources(r, prefixOf)
      && Handles(r.table, next)
      && Few(r.sources)
      && Aimed(r, active)
      && Aimed(r, fence.source) && (fence.source.Some? ==> fence.pending);
    all
  }

  ghost predicate Routing(r: Roster, l: Ledger) {
    var all := Targets(r, l.pending, l.retired) && Chunks(r, l.pending);
    all
  }

  ghost predicate Layouts(r: Roster, fence: Fence, p: Past) {
    var all :=
      && Orderly(p.layout)
      && Authority(r, p.layout)
      && Fences(p.broken, fence.pending, fence.token, p.syncs, p.readies);
    all
  }

  // What is presented -----------------------------------------------------------------------------

  /** The viewer is shown what there is to show: without an active source a blank surface, and otherwise the
      source's scene, if that is the one that its snapshot announces. */
  ghost predicate Displayed(broken: bool, r: Roster, boot: bytes, s: Stage, latest: Option<bytes>) {
    forall x :: DisplayedAt(broken, r, boot, s, latest, x)
  }

  ghost predicate DisplayedAt(broken: bool, r: Roster, boot: bytes, s: Stage, latest: Option<bytes>,
                              x: Option<Handle>) {
    !broken && s.surfaceOn && s.active == x ==>
      match x
      case None => Blanked(boot, s, latest)
      case Some(h) => h in r.table && Announces(r.table[h]) ==> Follows(s, h, r.table[h])
  }

  /** The frame written last is the blank one, of what is presented now. */
  ghost predicate Blanked(boot: bytes, s: Stage, latest: Option<bytes>) {
    forall p :: BlankAs(boot, s, p) ==> latest == Some(p)
  }

  ghost predicate BlankAs(boot: bytes, s: Stage, p: bytes) {
    p == Endpoint.BlankFrame(boot, s.revision, s.surfaceRevision, s.columns, s.rows)
  }

  /** A source's retained scene is the one that its snapshot announces. */
  predicate Announces(b: Backend) {
    b.frame.Some? && b.snapshot.Some? && At(b.frame.value, b.snapshot.value.revision, b.frame.value.revision)
  }

  /** What was rendered last is this source's scene as it is now. */
  predicate Follows(s: Stage, h: Handle, b: Backend) {
    && b.frame.Some? && b.snapshot.Some?
    && s.rendered == Rendered(Some(h), s.revision, b.snapshot.value.revision, b.frame.value.revision)
  }

  /** The layout is where it should be: exactly the active source has it, if it is wanted, unless every slot
      for transitions is taken. */
  ghost predicate Arranged(broken: bool, r: Roster, active: Option<Handle>, surfaceOn: bool,
                           pending: map<WireId, Handle>, requestIDs: map<WireId, bytes>) {
    forall h :: ArrangedAt(broken, r, active, surfaceOn, pending, requestIDs, h)
  }

  ghost predicate ArrangedAt(broken: bool, r: Roster, active: Option<Handle>, surfaceOn: bool,
                             pending: map<WireId, Handle>, requestIDs: map<WireId, bytes>, h: Handle) {
    || broken || |pending| >= |requestIDs| + MAX_INTERNAL
    || (Live(r, h) ==> (r.table[h].surfaceActive <==> surfaceOn && active == Some(h)))
  }

  /** What also holds between events. */
  ghost predicate Poised(r: Roster, s: Stage, fence: Fence, l: Ledger, boot: bytes, broken: bool,
                         latest: Option<bytes>) {
    var all :=
      && Quiet(r, s, fence, broken)
      && Displayed(broken, r, boot, s, latest)
      && Arranged(broken, r, s.active, s.surfaceOn, l.pending, l.requestIDs);
    all
  }

  /** Of that, what holds even while something is still to be presented. */
  ghost predicate Quiet(r: Roster, s: Stage, fence: Fence, broken: bool) {
    var all :=
      && Elected(broken, r, s.active)
      && Settled(broken, fence.pending, fence.source, s.active, s.surfaceOn, r.table)
      && Current(broken, r, s.revision, s.rendered, s.surfaceOn, s.active);
    all
  }

  // What is shared --------------------------------------------------------------------------------

  /** A session that is shared: who shares it, in which incarnation, and how it is called. */
  datatype Publication = Publication(id: string, generation: string, title: string)

  /** The identifiers of publications. */
  function IdsOf(list: seq<Publication>): set<string> {
    set i | 0 <= i < |list| :: list[i].id
  }

  /** The failures of a publication keep it from being opened. */
  predicate Withheld(recovery: map<string, Record>, id: string, now: nat) {
    id in recovery && (recovery[id].blocked || now < recovery[id].retryAt)
  }

  /** Of the first `k` listed, each is open or withheld; what was opened was not withheld. */
  ghost predicate Offered(list: seq<Publication>, k: nat, was: set<string>, open: set<string>,
                          recovery: map<string, Record>, now: nat) {
    was <= open <= IdsOf(list) && forall i :: OfferedAt(list, k, was, open, recovery, now, i)
  }

  ghost predicate OfferedAt(list: seq<Publication>, k: nat, was: set<string>, open: set<string>,
                            recovery: map<string, Record>, now: nat, i: nat) {
    i < |list| ==>
      && (i < k ==> list[i].id in open || Withheld(recovery, list[i].id, now))
      && (list[i].id in open && list[i].id !in was ==> !Withheld(recovery, list[i].id, now))
  }

  /** The last publication of an identifier. */
  function Find(list: seq<Publication>, id: string): (p: Option<Publication>)
    ensures p.Some? <==> id in IdsOf(list)
    ensures p.Some? ==> p.value in list && p.value.id == id
  {
    if list == [] then None
    else if list[|list| - 1].id == id then Some(list[|list| - 1])
    else
      assert forall x :: x in IdsOf(list) ==> x == list[|list| - 1].id || x in IdsOf(list[..|list| - 1]);
      Find(list[..|list| - 1], id)
  }

  /** Sources and records are of what is shared now. */
  ghost predicate Matches(r: Roster, recovery: map<string, Record>, list: seq<Publication>) {
    forall id :: MatchAt(r, recovery, list, id)
  }

  ghost predicate MatchAt(r: Roster, recovery: map<string, Record>, list: seq<Publication>, id: string) {
    && (id in recovery ==> Find(list, id).Some? && Find(list, id).value.generation == recovery[id].generation)
    && (id in r.sources ==>
          && Find(list, id).Some? && r.sources[id] in r.table
          && Find(list, id).value.generation == r.table[r.sources[id]].generation)
  }
}
