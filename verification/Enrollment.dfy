/** Enrolling devices with tokens. A key is written to the file of registered keys only after its use of
    the token is on disk for certain, so that whatever a crash undoes, no registered key is uncounted. */
module Enrollment {
  import opened Wire

  const MAX_TOKENS := 1024
  const MAX_KEYS := 1024

  type Key = string
  type TokenId = string

  /** What a token was used for. */
  datatype Use = Use(uses: int, keys: seq<Key>)

  type Uses = map<TokenId, Use>

  /** A registered key, and the token it was enrolled with, if any. */
  datatype Line = Line(key: Key, token: Option<TokenId>)

  datatype Token = Token(id: TokenId, maxUses: nat)

  /** A file: its content now, and the contents that it may have after a crash. */
  datatype File<!T> = File(now: T, possible: set<T>)

  /** How a replacement of a file went: it may have happened without being certain to last. */
  datatype Outcome = Replaced | Kept | Unconfirmed

  // Validity --------------------------------------------------------------------------------------

  /** Sixteen lower-case hexadecimal digits after the prefix. */
  predicate ValidId(id: TokenId) {
    |id| == 18 && id[..2] == "t-" && forall i :: 2 <= i < 18 ==> id[i] in "0123456789abcdef"
  }

  predicate ValidKey(key: Key) {
    |key| == 50 && key[..7] == "SHA256:"
  }

  predicate Distinct(keys: seq<Key>) {
    forall i, j :: 0 <= i < j < |keys| ==> keys[i] != keys[j]
  }

  predicate ValidUse(v: Use) {
    v.uses == |v.keys| && Distinct(v.keys) && forall i :: 0 <= i < |v.keys| ==> ValidKey(v.keys[i])
  }

  /** How many keys there are in all. */
  ghost function Total(u: Uses): nat {
    if u == map[] then 0
    else
      var id :| id in u;
      |u[id].keys| + Total(u - {id})
  }

  ghost predicate ValidUses(u: Uses) {
    && |u| <= MAX_TOKENS && Total(u) <= MAX_KEYS
    && forall id :: id in u ==> ValidId(id) && ValidUse(u[id])
  }

  lemma {:induction false} TotalWithout(u: Uses, k: TokenId)
    requires k in u
    ensures Total(u) == |u[k].keys| + Total(u - {k})
    decreases |u|
  {
    var id :| id in u && Total(u) == |u[id].keys| + Total(u - {id});
    if id != k {
      Smaller(u, id);
      Smaller(u, k);
      TotalWithout(u - {id}, k);
      TotalWithout(u - {k}, id);
      assert u - {id} - {k} == u - {k} - {id};
    }
  }

  lemma Smaller<K, V>(m: map<K, V>, k: K)
    ensures |m - {k}| == if k in m then |m| - 1 else |m|
  {
    assert (m - {k}).Keys == m.Keys - {k};
    assert |(m - {k}).Keys| == |m - {k}| && |m.Keys| == |m|;
  }

  lemma Larger<K, V>(m: map<K, V>, k: K, v: V)
    ensures |m[k := v]| == if k in m then |m| else |m| + 1
  {
    assert m[k := v].Keys == m.Keys + {k};
    assert |m[k := v].Keys| == |m[k := v]|;
  }

  lemma TotalWith(u: Uses, id: TokenId, v: Use)
    ensures Total(u[id := v]) == |v.keys| + Total(u - {id})
    ensures Total(u) == Total(u - {id}) + (if id in u then |u[id].keys| else 0)
  {
    TotalWithout(u[id := v], id);
    assert u[id := v] - {id} == u - {id};
    if id in u {
      TotalWithout(u, id);
    } else {
      assert u - {id} == u;
    }
  }

  /** Checks usage state as it is read: the counts, the keys, and the limits. */
  method LoadUses(u: Uses) returns (ok: bool)
    ensures ok <==> ValidUses(u)
  {
    if |u| > MAX_TOKENS {
      return false;
    }
    var total, todo := 0, u;
    while todo != map[]
      invariant forall id :: id in todo ==> id in u && todo[id] == u[id]
      invariant forall id :: id in u && id !in todo ==> ValidId(id) && ValidUse(u[id])
      invariant total + Total(todo) == Total(u)
      decreases |todo|
    {
      var id :| id in todo;
      var fine := CheckUse(todo[id]);
      if !ValidId(id) || !fine {
        return false;
      }
      TotalWithout(todo, id);
      Smaller(todo, id);
      total := total + |todo[id].keys|;
      todo := todo - {id};
    }
    return total <= MAX_KEYS;
  }

  method CheckUse(v: Use) returns (ok: bool)
    ensures ok <==> ValidUse(v)
  {
    if v.uses != |v.keys| {
      return false;
    }
    var seen: set<Key> := {};
    for i := 0 to |v.keys|
      invariant forall k :: k in seen <==> exists j :: 0 <= j < i && v.keys[j] == k
      invariant forall j, k :: 0 <= j < k < i ==> v.keys[j] != v.keys[k]
      invariant forall j :: 0 <= j < i ==> ValidKey(v.keys[j])
    {
      if !ValidKey(v.keys[i]) || v.keys[i] in seen {
        return false;
      }
      seen := seen + {v.keys[i]};
    }
    return true;
  }

  // Reserving and releasing -----------------------------------------------------------------------

  function UseOf(u: Uses, id: TokenId): Use {
    if id in u then u[id] else Use(0, [])
  }

  /** One more use of a token, by a key that has none. */
  function Reserved(u: Uses, id: TokenId, key: Key): Uses {
    u[id := Use(UseOf(u, id).uses + 1, UseOf(u, id).keys + [key])]
  }

  /** Usage while a key is being registered: with a use of its own, or one that it had before. */
  function Used(u: Uses, id: TokenId, key: Key, reserved: bool): Uses {
    if reserved then Reserved(u, id, key) else u
  }

  /** There is room for another use: of the token, of tokens, and of keys. */
  ghost predicate Room(u: Uses, t: Token) {
    && (t.maxUses > 0 ==> UseOf(u, t.id).uses < t.maxUses)
    && (|u| < MAX_TOKENS || UseOf(u, t.id).uses != 0)
    && Total(u) < MAX_KEYS
  }

  function Without(keys: seq<Key>, key: Key): seq<Key> {
    if keys == [] then [] else if keys[0] == key then keys[1..] else [keys[0]] + Without(keys[1..], key)
  }

  /** A token without the use by a key; a token without uses is forgotten. */
  function Released(u: Uses, id: TokenId, key: Key): Uses {
    var v := UseOf(u, id);
    var w := if key in v.keys then Use(v.uses - 1, Without(v.keys, key)) else v;
    if w.uses == 0 then u - {id} else u[id := w]
  }

  lemma UseMore(v: Use, key: Key)
    requires ValidUse(v) && ValidKey(key) && key !in v.keys
    ensures ValidUse(Use(v.uses + 1, v.keys + [key]))
  {
  }

  lemma ReservedValid(u: Uses, t: Token, key: Key)
    requires ValidUses(u) && Room(u, t) && ValidId(t.id) && ValidKey(key) && key !in UseOf(u, t.id).keys
    ensures ValidUses(Reserved(u, t.id, key))
    ensures t.maxUses > 0 ==> |UseOf(Reserved(u, t.id, key), t.id).keys| <= t.maxUses
  {
    var v := Use(UseOf(u, t.id).uses + 1, UseOf(u, t.id).keys + [key]);
    TotalWith(u, t.id, v);
    Larger(u, t.id, v);
    UseMore(UseOf(u, t.id), key);
  }

  lemma {:induction false} WithoutKeys(keys: seq<Key>, key: Key)
    requires Distinct(keys)
    ensures |Without(keys, key)| == if key in keys then |keys| - 1 else |keys|
    ensures forall k :: k in Without(keys, key) <==> k in keys && k != key
    ensures Distinct(Without(keys, key))
  {
    if keys != [] {
      assert keys == [keys[0]] + keys[1..];
      if keys[0] != key {
        WithoutKeys(keys[1..], key);
        var rest := Without(keys[1..], key);
        assert keys[0] !in keys[1..];
        forall i, j | 0 <= i < j < |[keys[0]] + rest| ensures ([keys[0]] + rest)[i] != ([keys[0]] + rest)[j] {
          assert j > 0 && ([keys[0]] + rest)[j] == rest[j - 1] && rest[j - 1] in rest;
        }
      }
    }
  }

  lemma ReleasedValid(u: Uses, id: TokenId, key: Key)
    requires ValidUses(u) && ValidId(id)
    ensures ValidUses(Released(u, id, key))
  {
    var v := UseOf(u, id);
    var w := if key in v.keys then Use(v.uses - 1, Without(v.keys, key)) else v;
    WithoutKeys(v.keys, key);
    TotalWith(u, id, w);
    Smaller(u, id);
    Larger(u, id, w);
    if w.uses != 0 {
      forall i | 0 <= i < |w.keys| ensures ValidKey(w.keys[i]) {
        assert w.keys[i] in w.keys && w.keys[i] in v.keys;
        var j :| 0 <= j < |v.keys| && v.keys[j] == w.keys[i];
      }
    }
  }

  lemma {:induction false} WithoutLast(keys: seq<Key>, key: Key)
    requires key !in keys
    ensures Without(keys + [key], key) == keys
  {
    if keys != [] {
      assert (keys + [key])[1..] == keys[1..] + [key] && (keys + [key])[0] == keys[0];
      WithoutLast(keys[1..], key);
    }
  }

  /** Releasing a reservation restores what was there before, unless the token was on record without any
      use: such a record, which is valid, is dropped. */
  lemma ReleaseRestores(u: Uses, id: TokenId, key: Key)
    requires ValidUses(u) && key !in UseOf(u, id).keys
    ensures Released(Reserved(u, id, key), id, key) == u <==> !(id in u && u[id].uses == 0)
  {
    var v := UseOf(u, id);
    WithoutLast(v.keys, key);
    var r := Reserved(u, id, key);
    assert UseOf(r, id).keys[|v.keys|] == key;
    var released := Released(r, id, key);
    if v.uses == 0 {
      assert released == r - {id} == u - {id};
      assert id !in u ==> u - {id} == u;
    } else {
      assert v.keys == u[id].keys && released[id] == u[id];
      assert released == u;
    }
  }

  // Files -----------------------------------------------------------------------------------------

  /** A file after an attempt to replace its content. */
  function After<T>(f: File<T>, content: T, outcome: Outcome): File<T> {
    match outcome
    case Replaced => File(content, {content})
    case Kept => f
    case Unconfirmed => File(content, f.possible + {content})
  }

  /** A file once what is there now is certain to last. */
  function Confirmed<T>(f: File<T>): File<T> {
    File(f.now, {f.now})
  }

  /** Every registered key is on record for its token, whichever contents last. */
  ghost predicate Counted(keys: File<seq<Line>>, usage: File<Uses>) {
    forall k, u :: CountedIn(keys, usage, k, u)
  }

  ghost predicate CountedIn(keys: File<seq<Line>>, usage: File<Uses>, k: seq<Line>, u: Uses) {
    k in keys.possible && u in usage.possible ==>
      forall i :: 0 <= i < |k| && k[i].token.Some? ==> k[i].key in UseOf(u, k[i].token.value).keys
  }

  /** Usage is valid and within the limits of the tokens, whichever content lasts. */
  ghost predicate Limited(usage: File<Uses>, limits: map<TokenId, nat>) {
    forall u :: LimitedIn(usage, limits, u)
  }

  ghost predicate LimitedIn(usage: File<Uses>, limits: map<TokenId, nat>, u: Uses) {
    u in usage.possible ==>
      ValidUses(u) && forall id :: id in limits && limits[id] > 0 ==> |UseOf(u, id).keys| <= limits[id]
  }

  /** Registered keys are only ever added: whatever content lasts, it is what there was. No key is
      registered twice. */
  ghost predicate Growing(keys: File<seq<Line>>) {
    forall k :: GrowingIn(keys, k)
  }

  ghost predicate GrowingIn(keys: File<seq<Line>>, k: seq<Line>) {
    k in keys.possible ==> k <= keys.now && forall i, j :: 0 <= i < j < |k| ==> k[i].key != k[j].key
  }

  predicate Registered(lines: seq<Line>, key: Key) {
    exists i :: 0 <= i < |lines| && lines[i].key == key
  }

  /** How an enrollment ended. A crash ends it anywhere between two writes. */
  datatype Result = Enrolled(key: Key) | Rejected | Crashed

  /** What an enrollment did, as far as it came: whether it put a new use on disk and whether the use is certain;
      how the registration went; and how giving the reservation back went. */
  datatype Steps = Steps(reserved: bool, certain: bool, written: Option<Outcome>, undone: Option<Outcome>)

  class Server {
    const limits: map<TokenId, nat>
    var usage: File<Uses>
    var keys: File<seq<Line>>

    ghost predicate Valid()
      reads this
    {
      && usage.now in usage.possible && keys.now in keys.possible
      && Counted(keys, usage) && Limited(usage, limits) && Growing(keys)
    }

    constructor (limits: map<TokenId, nat>)
      ensures Valid() && this.limits == limits
      ensures usage == File(map[], {map[]}) && keys == File([], {[]})
    {
      this.limits := limits;
      usage, keys := File(map[], {map[]}), File([], {[]});
      new;
      forall k: seq<Line>, u: Uses ensures CountedIn(keys, usage, k, u) {
      }
      forall u: Uses ensures LimitedIn(usage, limits, u) {
      }
      forall k: seq<Line> ensures GrowingIn(keys, k) {
      }
    }

    method Attempt() returns (outcome: Outcome)
    {
      var n: int := *;
      outcome := if n == 0 then Replaced else if n == 1 then Kept else Unconfirmed;
    }

    /** The host stops: each file has one of its possible contents afterwards. */
    method Crash()
      requires Valid()
      modifies this
      ensures Valid() && usage.now in old(usage).possible && keys.now in old(keys).possible
    {
      ghost var u0, k0 := usage, keys;
      var u :| u in usage.possible;
      var k :| k in keys.possible;
      CrashKeeps(keys, usage, limits, k, u);
      usage, keys := File(u, {u}), File(k, {k});
    }

    /** Puts a use on disk before anything is granted. The same key again finds its reservation, which
        has to be confirmed then. */
    method ReserveUse(t: Token, key: Key) returns (reserved: bool, ok: bool)
      requires Valid() && ValidId(t.id) && ValidKey(key) && t.id in limits && limits[t.id] == t.maxUses
      modifies this`usage
      ensures Valid()
      ensures ok ==> forall u :: u in usage.possible ==> key in UseOf(u, t.id).keys
      ensures reserved ==> key !in UseOf(old(usage).now, t.id).keys
      ensures !reserved ==> usage.now == old(usage).now
      ensures key !in UseOf(old(usage).now, t.id).keys && !Room(old(usage).now, t) ==> !ok && usage == old(usage)
      ensures ok && key !in UseOf(old(usage).now, t.id).keys ==>
              reserved && usage.now == Reserved(old(usage).now, t.id, key)
    {
      var u := usage.now;
      assert LimitedIn(usage, limits, u);
      var v := UseOf(u, t.id);
      if key in v.keys {
        ok := *;
        if ok {
          ConfirmKeeps(keys, usage, limits);
          usage := Confirmed(usage);
        }
        return false, ok;
      }
      if t.maxUses > 0 && v.uses >= t.maxUses {
        return false, false;
      }
      if |u| >= MAX_TOKENS && v.uses == 0 {
        return false, false;
      }
      var total := TotalOf(u);
      if total >= MAX_KEYS {
        return false, false;
      }
      var outcome := Attempt();
      ReserveKeeps(keys, usage, limits, t, key, outcome);
      usage := After(usage, Reserved(u, t.id, key), outcome);
      return true, outcome.Replaced?;
    }

    method TotalOf(u: Uses) returns (total: nat)
      ensures total == Total(u)
    {
      var todo := u;
      total := 0;
      while todo != map[]
        invariant total + Total(todo) == Total(u)
        decreases |todo|
      {
        var id :| id in todo;
        TotalWithout(todo, id);
        Smaller(todo, id);
        total := total + |todo[id].keys|;
        todo := todo - {id};
      }
    }

    /** Gives a reservation back for a key that was not registered. */
    method ReleaseUse(id: TokenId, key: Key) returns (outcome: Outcome)
      requires Valid() && ValidId(id) && !Registered(keys.now, key)
      modifies this`usage
      ensures Valid()
      ensures usage == After(old(usage), Released(old(usage).now, id, key), outcome)
    {
      outcome := Attempt();
      assert LimitedIn(usage, limits, usage.now);
      ReleaseKeeps(keys, usage, limits, id, key, outcome);
      usage := After(usage, Released(usage.now, id, key), outcome);
    }

    /** Registers a key whose use is on disk for certain. */
    method AppendAuthorizedKey(key: Key, id: TokenId) returns (outcome: Outcome)
      requires Valid() && forall u :: u in usage.possible ==> key in UseOf(u, id).keys
      modifies this`keys
      ensures Valid()
      ensures outcome.Kept? ==> keys == old(keys) && (Registered(keys.now, key) ==> Registered(old(keys).now, key))
      ensures !outcome.Kept? ==> Registered(keys.now, key)
      ensures !outcome.Kept? && !Registered(old(keys).now, key) ==>
                keys == After(old(keys), old(keys).now + [Line(key, Some(id))], outcome)
    {
      if Registered(keys.now, key) {
        return Replaced;
      }
      if |keys.now| >= MAX_KEYS {
        return Kept;
      }
      outcome := Attempt();
      AppendKeeps(keys, usage, key, id, outcome);
      keys := After(keys, keys.now + [Line(key, Some(id))], outcome);
      if !outcome.Kept? {
        assert keys.now[|keys.now| - 1].key == key;
      }
    }

    /** Enrolls a key with a token. A registration that did not happen gives a reservation of its own back; one
        that may have happened after all does not. */
    method Enroll(t: Token, key: Key) returns (result: Result, ghost steps: Steps)
      requires Valid() && ValidId(t.id) && ValidKey(key) && t.id in limits && limits[t.id] == t.maxUses
      modifies this
      ensures Valid()
      ensures Registered(old(keys).now, key) ==> result == Enrolled(key) && usage == old(usage) && keys == old(keys)
      ensures result.Enrolled? ==> result.key == key && Registered(keys.now, key)
      ensures !Registered(old(keys).now, key) && !result.Crashed? ==>
                && (result.Enrolled? <==> steps.written == Some(Replaced))
                && (steps.written.Some? <==> steps.certain)
                && (steps.undone.Some? <==> steps.reserved && steps.written == Some(Kept))
                && keys == match steps.written
                           case None => old(keys)
                           case Some(o) => After(old(keys), old(keys).now + [Line(key, Some(t.id))], o)
      ensures !Registered(old(keys).now, key) && !result.Crashed? && steps.certain ==>
                usage.now == match steps.undone
                             case None => Used(old(usage).now, t.id, key, steps.reserved)
                             case Some(o) =>
                               if o.Kept? then Used(old(usage).now, t.id, key, true)
                               else Released(Reserved(old(usage).now, t.id, key), t.id, key)
    {
      steps := Steps(false, false, None, None);
      if Registered(keys.now, key) {
        return Enrolled(key), steps;
      }
      var reserved, ok := ReserveUse(t, key);
      steps := Steps(reserved, ok, None, None);
      var crash := *;
      if crash {
        Crash();
        return Crashed, steps;
      }
      if !ok {
        return Rejected, steps;
      }
      var outcome := AppendAuthorizedKey(key, t.id);
      steps := steps.(written := Some(outcome));
      crash := *;
      if crash {
        Crash();
        return Crashed, steps;
      }
      if outcome.Replaced? {
        return Enrolled(key), steps;
      }
      if reserved && !outcome.Unconfirmed? {
        var undone := ReleaseUse(t.id, key);
        steps := steps.(undone := Some(undone));
        crash := *;
        if crash {
          Crash();
          return Crashed, steps;
        }
      }
      return Rejected, steps;
    }

    /** A registration that did not happen, and whose reservation was given back, leaves usage as it was, unless
        the token was on record without any use. */
    static lemma RejectedLeavesNothing(before: Uses, after: Uses, id: TokenId, key: Key)
      requires ValidUses(before) && key !in UseOf(before, id).keys
      requires after == Released(Reserved(before, id, key), id, key)
      ensures after == before <==> !(id in before && before[id].uses == 0)
      ensures forall k, other :: k in UseOf(after, other).keys <==> k in UseOf(before, other).keys
    {
      ReleaseRestores(before, id, key);
      WithoutLast(UseOf(before, id).keys, key);
    }

    /** No more devices are registered with a token than it may be used for, whatever a crash undoes. */
    lemma DevicesLimited(id: TokenId, k: seq<Line>)
      requires Valid() && id in limits && limits[id] > 0 && k in keys.possible
      ensures |EnrolledWith(k, id)| <= limits[id]
    {
      assert CountedIn(keys, usage, k, usage.now) && LimitedIn(usage, limits, usage.now);
      var all := UseOf(usage.now, id).keys;
      assert EnrolledWith(k, id) <= set x | x in all;
      FewKeys(all);
      SmallerSet(EnrolledWith(k, id), set x | x in all);
    }
  }

  /** The keys that are registered with a token. */
  function EnrolledWith(k: seq<Line>, id: TokenId): set<Key> {
    set i | 0 <= i < |k| && k[i].token == Some(id) :: k[i].key
  }

  lemma {:induction false} FewKeys(keys: seq<Key>)
    ensures |set x | x in keys| <= |keys|
  {
    if keys != [] {
      FewKeys(keys[1..]);
      assert (set x | x in keys) == (set x | x in keys[1..]) + {keys[0]};
    }
  }

  lemma {:induction false} SmallerSet<T>(s: set<T>, t: set<T>)
    requires s <= t
    ensures |s| <= |t|
    decreases |s|
  {
    if s != {} {
      var x :| x in s;
      SmallerSet(s - {x}, t - {x});
    }
  }

  // What each write keeps -------------------------------------------------------------------------

  lemma CrashKeeps(keys: File<seq<Line>>, usage: File<Uses>, limits: map<TokenId, nat>, k: seq<Line>, u: Uses)
    requires Counted(keys, usage) && Limited(usage, limits) && Growing(keys)
    requires k in keys.possible && u in usage.possible
    ensures Counted(File(k, {k}), File(u, {u})) && Limited(File(u, {u}), limits) && Growing(File(k, {k}))
  {
    forall l, w ensures CountedIn(File(k, {k}), File(u, {u}), l, w) {
      assert CountedIn(keys, usage, l, w);
    }
    forall w ensures LimitedIn(File(u, {u}), limits, w) {
      assert LimitedIn(usage, limits, w);
    }
    forall l ensures GrowingIn(File(k, {k}), l) {
      assert GrowingIn(keys, l);
    }
  }

  lemma ConfirmKeeps(keys: File<seq<Line>>, usage: File<Uses>, limits: map<TokenId, nat>)
    requires Counted(keys, usage) && Limited(usage, limits) && usage.now in usage.possible
    ensures Counted(keys, Confirmed(usage)) && Limited(Confirmed(usage), limits)
  {
    forall k: seq<Line>, u: Uses ensures CountedIn(keys, Confirmed(usage), k, u) {
      assert CountedIn(keys, usage, k, u);
    }
    forall u: Uses ensures LimitedIn(Confirmed(usage), limits, u) {
      assert LimitedIn(usage, limits, u);
    }
  }

  lemma ReserveKeeps(keys: File<seq<Line>>, usage: File<Uses>, limits: map<TokenId, nat>, t: Token, key: Key,
                     outcome: Outcome)
    requires Counted(keys, usage) && Limited(usage, limits) && usage.now in usage.possible
    requires ValidId(t.id) && ValidKey(key) && t.id in limits && limits[t.id] == t.maxUses
    requires Room(usage.now, t) && key !in UseOf(usage.now, t.id).keys
    ensures var f := After(usage, Reserved(usage.now, t.id, key), outcome);
            Counted(keys, f) && Limited(f, limits) && f.now in f.possible
  {
    var more := Reserved(usage.now, t.id, key);
    var f := After(usage, more, outcome);
    assert LimitedIn(usage, limits, usage.now);
    ReservedValid(usage.now, t, key);
    forall k: seq<Line>, u: Uses ensures CountedIn(keys, f, k, u) {
      assert CountedIn(keys, usage, k, u) && CountedIn(keys, usage, k, usage.now);
    }
    forall u: Uses ensures LimitedIn(f, limits, u) {
      assert LimitedIn(usage, limits, u);
    }
  }

  lemma ReleaseKeeps(keys: File<seq<Line>>, usage: File<Uses>, limits: map<TokenId, nat>, id: TokenId, key: Key,
                     outcome: Outcome)
    requires Counted(keys, usage) && Limited(usage, limits) && Growing(keys) && usage.now in usage.possible
    requires keys.now in keys.possible && ValidId(id) && !Registered(keys.now, key)
    ensures var f := After(usage, Released(usage.now, id, key), outcome);
            Counted(keys, f) && Limited(f, limits) && f.now in f.possible
  {
    var less := Released(usage.now, id, key);
    var f := After(usage, less, outcome);
    assert LimitedIn(usage, limits, usage.now);
    ReleasedValid(usage.now, id, key);
    forall k | k in keys.possible ensures CountedIn(keys, File(less, {less}), k, less) {
      ReleaseCounts(keys, usage, id, key, k);
    }
    ReleaseLimits(usage, limits, id, key);
    assert LimitedIn(File(less, {less}), limits, less);
    AfterKeeps(keys, usage, limits, less, outcome);
  }

  /** Content that keeps the invariants of its own may come to be. */
  lemma AfterKeeps(keys: File<seq<Line>>, usage: File<Uses>, limits: map<TokenId, nat>, u: Uses, outcome: Outcome)
    requires Counted(keys, usage) && Limited(usage, limits) && usage.now in usage.possible
    requires LimitedIn(File(u, {u}), limits, u)
    requires forall k :: k in keys.possible ==> CountedIn(keys, File(u, {u}), k, u)
    ensures var f := After(usage, u, outcome);
            Counted(keys, f) && Limited(f, limits) && f.now in f.possible
  {
    var f := After(usage, u, outcome);
    forall k: seq<Line>, w: Uses ensures CountedIn(keys, f, k, w) {
      assert CountedIn(keys, usage, k, w) && (k in keys.possible ==> CountedIn(keys, File(u, {u}), k, u));
    }
    forall w: Uses ensures LimitedIn(f, limits, w) {
      assert LimitedIn(usage, limits, w);
    }
  }

  lemma ReleaseCounts(keys: File<seq<Line>>, usage: File<Uses>, id: TokenId, key: Key, k: seq<Line>)
    requires Counted(keys, usage) && Growing(keys) && usage.now in usage.possible && keys.now in keys.possible
    requires k in keys.possible && !Registered(keys.now, key) && ValidUses(usage.now)
    ensures forall i :: 0 <= i < |k| && k[i].token.Some? ==>
              k[i].key in UseOf(Released(usage.now, id, key), k[i].token.value).keys
  {
    assert CountedIn(keys, usage, k, usage.now) && GrowingIn(keys, k);
    ReleasedKeys(usage.now, id, key);
    forall i | 0 <= i < |k| && k[i].token.Some?
      ensures k[i].key in UseOf(Released(usage.now, id, key), k[i].token.value).keys
    {
      assert k[i] == keys.now[i];
    }
  }

  lemma ReleaseLimits(usage: File<Uses>, limits: map<TokenId, nat>, id: TokenId, key: Key)
    requires Limited(usage, limits) && usage.now in usage.possible && ValidUses(usage.now)
    ensures forall t :: t in limits && limits[t] > 0 ==>
              |UseOf(Released(usage.now, id, key), t).keys| <= limits[t]
  {
    assert LimitedIn(usage, limits, usage.now);
    ReleasedKeys(usage.now, id, key);
  }

  /** A release takes only the released key away. */
  lemma ReleasedKeys(u: Uses, id: TokenId, key: Key)
    requires ValidUses(u)
    ensures forall t: TokenId, k: Key ::
              k in UseOf(Released(u, id, key), t).keys <==> k in UseOf(u, t).keys && !(t == id && k == key)
    ensures forall t: TokenId :: |UseOf(Released(u, id, key), t).keys| <= |UseOf(u, t).keys|
  {
    WithoutKeys(UseOf(u, id).keys, key);
  }

  lemma AppendKeeps(keys: File<seq<Line>>, usage: File<Uses>, key: Key, id: TokenId, outcome: Outcome)
    requires Counted(keys, usage) && Growing(keys) && keys.now in keys.possible && !Registered(keys.now, key)
    requires forall u :: u in usage.possible ==> key in UseOf(u, id).keys
    ensures var f := After(keys, keys.now + [Line(key, Some(id))], outcome);
            Counted(f, usage) && Growing(f) && f.now in f.possible
  {
    var more := keys.now + [Line(key, Some(id))];
    var f := After(keys, more, outcome);
    assert GrowingIn(keys, keys.now);
    forall k: seq<Line>, u: Uses ensures CountedIn(f, usage, k, u) {
      assert CountedIn(keys, usage, k, u) && CountedIn(keys, usage, keys.now, u);
    }
    forall k: seq<Line> ensures GrowingIn(f, k) {
      assert GrowingIn(keys, k);
      assert keys.now <= more;
    }
  }
}
