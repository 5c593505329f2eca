/** Frame layouts as data. The decoder takes its element readers as closures over itself; here a
    layout is a program that one interpreter runs, so that every layout shares the same proofs. */
module Grammar {
  import opened Wire

  datatype Prog =
    | Empty
    | Fail
    | Num
    | Nums(amount: nat)
    | Enum(max: nat)
    | Raw(count: nat)
    | Txt
    | Id
    | Boot
    | Revision
    | Seq(first: Prog, second: Prog)
    | Many(item: Prog)
    | Optional(item: Prog)
    | Case(key: nat, match0: Prog, key1: nat, match1: Prog, otherwise: Prog)

  /** What a rewriting pass substitutes: the boot text, the revision and every identifier. */
  datatype Env = Env(boot: bytes, revision: nat, id: bytes -> bytes)

  /** `fits` says that every substituted text is one the decoder would read back. */
  datatype Parsed = Parsed(size: nat, out: bytes, fits: bool)

  /** Substitutes nothing but the boot and the revision. */
  const IDENTITY := Env([], 0, x => x)

  function Join(a: Parsed, b: Parsed): Parsed {
    Parsed(a.size + b.size, a.out + b.out, a.fits && b.fits)
  }

  function Copy(s: bytes, n: nat): Parsed
    requires n <= |s|
  {
    Parsed(n, s[..n], true)
  }

  /** Reads one `p` from the front of `s`, giving up at the first error. */
  function Parse(p: Prog, s: bytes, e: Env): (r: Option<Parsed>)
    ensures r.Some? ==> r.value.size <= |s|
    decreases p, 1, 0
  {
    match p
    case Seq(a, b) => After(Parse(a, s, e), b, s, e)
    case Many(item) => Counted(item, s, e)
    case Optional(item) => Flagged(item, s, e)
    case Case(k0, p0, k1, p1, q) => Chosen(p, s, e)
    case _ => Atom(p, s, e)
  }

  /** How many bytes the next `k` numbers occupy. */
  function NumbersSize(k: nat, s: bytes): (r: Option<nat>)
    ensures r.Some? ==> k <= r.value <= |s|
  {
    if k == 0 then Some(0)
    else
      match ReadNumber(s)
      case None => None
      case Some(x) =>
        match NumbersSize(k - 1, s[x.size..])
        case None => None
        case Some(n) => Some(x.size + n)
  }

  function Atom(p: Prog, s: bytes, e: Env): (r: Option<Parsed>)
    requires !p.Seq? && !p.Many? && !p.Optional? && !p.Case?
    ensures r.Some? ==> r.value.size <= |s|
  {
    match p
    case Empty => Some(Copy(s, 0))
    case Fail => None
    case Raw(n) => if n <= |s| then Some(Copy(s, n)) else None
    case Num => (match ReadNumber(s) case None => None case Some(r) => Some(Copy(s, r.size)))
    case Nums(k) => (match NumbersSize(k, s) case None => None case Some(n) => Some(Copy(s, n)))
    case Enum(max) =>
      (match ReadNumber(s)
       case None => None
       case Some(r) => if r.value <= max then Some(Copy(s, r.size)) else None)
    case Txt => (match ReadText(s) case None => None case Some(r) => Some(Copy(s, r.size)))
    case Id =>
      (match ReadText(s)
       case None => None
       case Some(r) => Some(Parsed(r.size, Text(e.id(r.value)), |e.id(r.value)| <= MAX_FRAME)))
    case Boot =>
      (match ReadText(s)
       case None => None
       case Some(r) => Some(Parsed(r.size, Text(e.boot), |e.boot| <= MAX_FRAME)))
    case Revision =>
      (match ReadNumber(s)
       case None => None
       case Some(r) => Some(Parsed(r.size, Number(e.revision), e.revision < UINT64)))
  }

  function Counted(item: Prog, s: bytes, e: Env): (r: Option<Parsed>)
    ensures r.Some? ==> r.value.size <= |s|
    decreases item, 3, 0
  {
    match ReadNumber(s)
    case None => None
    case Some(r) =>
      if r.value > MAX_FRAME || r.value > |s| - r.size then None
      else
        match Repeat(item, r.value, s[r.size..], e)
        case None => None
        case Some(rest) => Some(Join(Copy(s, r.size), rest))
  }

  function Flagged(item: Prog, s: bytes, e: Env): (r: Option<Parsed>)
    ensures r.Some? ==> r.value.size <= |s|
    decreases item, 3, 0
  {
    if s == [] || s[0] > 1 then None
    else if s[0] == 0 then Some(Copy(s, 1))
    else
      match Parse(item, s[1..], e)
      case None => None
      case Some(rest) => Some(Join(Copy(s, 1), rest))
  }

  function Pick(p: Prog, v: nat): Prog
    requires p.Case?
    ensures Pick(p, v) < p
  {
    if v == p.key then p.match0 else if v == p.key1 then p.match1 else p.otherwise
  }

  function Chosen(p: Prog, s: bytes, e: Env): (r: Option<Parsed>)
    requires p.Case?
    ensures r.Some? ==> r.value.size <= |s|
    decreases p, 0, 0
  {
    match ReadNumber(s)
    case None => None
    case Some(r) =>
      match Parse(Pick(p, r.value), s[r.size..], e)
      case None => None
      case Some(x) => Some(Join(Copy(s, r.size), x))
  }

  function After(a: Option<Parsed>, b: Prog, s: bytes, e: Env): (r: Option<Parsed>)
    requires a.Some? ==> a.value.size <= |s|
    ensures r.Some? ==> r.value.size <= |s|
    decreases b, 3, 0
  {
    match a
    case None => None
    case Some(x) =>
      match Parse(b, s[x.size..], e)
      case None => None
      case Some(y) => Some(Join(x, y))
  }

  function Repeat(item: Prog, k: nat, s: bytes, e: Env): (r: Option<Parsed>)
    ensures r.Some? ==> r.value.size <= |s|
    decreases item, 2, k
  {
    if k == 0 then Some(Copy(s, 0))
    else
      match Parse(item, s, e)
      case None => None
      case Some(x) =>
        match Repeat(item, k - 1, s[x.size..], e)
        case None => None
        case Some(y) => Some(Join(x, y))
  }

  /** `p` always occupies at least one byte. */
  predicate Visible(p: Prog) {
    match p
    case Empty => false
    case Raw(n) => n > 0
    case Nums(k) => k > 0
    case Seq(a, b) => Visible(a) || Visible(b)
    case _ => true
  }

  /** Every repeated element occupies at least one byte, as the element count check presumes. */
  predicate Solid(p: Prog) {
    match p
    case Seq(a, b) => Solid(a) && Solid(b)
    case Many(item) => Visible(item) && Solid(item)
    case Optional(item) => Solid(item)
    case Case(_, p0, _, p1, q) => Solid(p0) && Solid(p1) && Solid(q)
    case _ => true
  }

  /** `p` substitutes nothing. */
  predicate Plain(p: Prog) {
    match p
    case Id => false
    case Boot => false
    case Revision => false
    case Seq(a, b) => Plain(a) && Plain(b)
    case Many(item) => Plain(item)
    case Optional(item) => Plain(item)
    case Case(_, p0, _, p1, q) => Plain(p0) && Plain(p1) && Plain(q)
    case _ => true
  }

  lemma {:induction false} VisibleOccupies(p: Prog, s: bytes, e: Env)
    requires Visible(p) && Parse(p, s, e).Some?
    ensures Parse(p, s, e).value.size >= 1 && |Parse(p, s, e).value.out| >= 1
  {
    match p
    case Seq(a, b) =>
      var x := Parse(a, s, e).value;
      if Visible(a) { VisibleOccupies(a, s, e); } else { VisibleOccupies(b, s[x.size..], e); }
    case _ =>
  }

  lemma {:induction false} RepeatOccupies(item: Prog, k: nat, s: bytes, e: Env)
    requires Visible(item) && Repeat(item, k, s, e).Some?
    ensures Repeat(item, k, s, e).value.size >= k && |Repeat(item, k, s, e).value.out| >= k
    decreases k
  {
    if k > 0 {
      VisibleOccupies(item, s, e);
      RepeatOccupies(item, k - 1, s[Parse(item, s, e).value.size..], e);
    }
  }

  lemma SlicePrefix(s: bytes, n: nat, m: nat, z: bytes)
    requires n + m <= |s| && s[..n + m] <= z
    ensures s[..n] <= z && s[n..][..m] <= z[n..] && z[..n] == s[..n] && z[n..][..m] == s[n..][..m]
  {
    SliceJoin(s, n, m);
    SplitPrefix(s[..n], s[n..][..m], z);
  }

  /** Reading never looks past what it reads: whatever begins with the bytes of a parsed frame reads
      the same. */
  lemma {:induction false} ParsePrefix(p: Prog, s: bytes, z: bytes, e: Env)
    requires Solid(p) && Parse(p, s, e).Some? && s[..Parse(p, s, e).value.size] <= z
    ensures Parse(p, z, e) == Parse(p, s, e)
    decreases p, 1, 0
  {
    match p
    case Seq(a, b) => SeqPrefix(a, b, s, z, e);
    case Many(item) => ManyPrefix(item, s, z, e);
    case Optional(item) => OptionalPrefix(item, s, z, e);
    case Case(_, _, _, _, _) => CasePrefix(p, s, z, e);
    case _ => AtomPrefix(p, s, z, e);
  }

  lemma {:induction false} AtomPrefix(p: Prog, s: bytes, z: bytes, e: Env)
    requires !p.Seq? && !p.Many? && !p.Optional? && !p.Case?
    requires Atom(p, s, e).Some? && s[..Atom(p, s, e).value.size] <= z
    ensures Atom(p, z, e) == Atom(p, s, e)
  {
    assert z[..0] == s[..0];
    match p
    case Raw(n) => assert z[..n] == s[..n];
    case Txt => PrefixText(s, z);
    case Id => PrefixText(s, z);
    case Boot => PrefixText(s, z);
    case Revision => PrefixNumber(s, z);
    case Nums(k) => PrefixNumbers(k, s, z);
    case Num => PrefixNumber(s, z);
    case Enum(_) => PrefixNumber(s, z);
    case _ =>
  }

  lemma {:induction false} ManyPrefix(item: Prog, s: bytes, z: bytes, e: Env)
    requires Visible(item) && Solid(item) && Counted(item, s, e).Some? && s[..Counted(item, s, e).value.size] <= z
    ensures Counted(item, z, e) == Counted(item, s, e)
    decreases item, 3, 0
  {
    var r := ReadNumber(s).value;
    RepeatOccupies(item, r.value, s[r.size..], e);
    SlicePrefix(s, r.size, Repeat(item, r.value, s[r.size..], e).value.size, z);
    PrefixNumber(s, z);
    RepeatPrefix(item, r.value, s[r.size..], z[r.size..], e);
  }

  lemma {:induction false} OptionalPrefix(item: Prog, s: bytes, z: bytes, e: Env)
    requires Solid(item) && Flagged(item, s, e).Some? && s[..Flagged(item, s, e).value.size] <= z
    ensures Flagged(item, z, e) == Flagged(item, s, e)
    decreases item, 3, 0
  {
    SlicePrefix(s, 1, Flagged(item, s, e).value.size - 1, z);
    assert z[0] == z[..1][0] == s[..1][0] == s[0];
    if s[0] == 1 { ParsePrefix(item, s[1..], z[1..], e); }
  }

  lemma {:induction false} CasePrefix(p: Prog, s: bytes, z: bytes, e: Env)
    requires p.Case? && Solid(p) && Chosen(p, s, e).Some? && s[..Chosen(p, s, e).value.size] <= z
    ensures Chosen(p, z, e) == Chosen(p, s, e)
    decreases p, 0, 0
  {
    var r := ReadNumber(s).value;
    SlicePrefix(s, r.size, Chosen(p, s, e).value.size - r.size, z);
    PrefixNumber(s, z);
    ParsePrefix(Pick(p, r.value), s[r.size..], z[r.size..], e);
  }

  lemma {:induction false} SeqPrefix(a: Prog, b: Prog, s: bytes, z: bytes, e: Env)
    requires Solid(a) && Solid(b)
    requires Parse(Seq(a, b), s, e).Some? && s[..Parse(Seq(a, b), s, e).value.size] <= z
    ensures Parse(Seq(a, b), z, e) == Parse(Seq(a, b), s, e)
    decreases Seq(a, b), 0, 0
  {
    var n := Parse(a, s, e).value.size;
    SlicePrefix(s, n, Parse(b, s[n..], e).value.size, z);
    ParsePrefix(a, s, z, e);
    ParsePrefix(b, s[n..], z[n..], e);
  }

  lemma {:induction false} RepeatPrefix(item: Prog, k: nat, s: bytes, z: bytes, e: Env)
    requires Solid(item) && Repeat(item, k, s, e).Some? && s[..Repeat(item, k, s, e).value.size] <= z
    ensures Repeat(item, k, z, e) == Repeat(item, k, s, e)
    decreases item, 2, k
  {
    if k > 0 {
      var n := Parse(item, s, e).value.size;
      SlicePrefix(s, n, Repeat(item, k - 1, s[n..], e).value.size, z);
      ParsePrefix(item, s, z, e);
      RepeatPrefix(item, k - 1, s[n..], z[n..], e);
    }
  }

  /** `direct` is what substituting `again` after `first` amounts to. */
  ghost predicate Composed(first: Env, again: Env, direct: Env) {
    && direct.boot == again.boot
    && direct.revision == again.revision
    && forall x {:trigger direct.id(x)} :: direct.id(x) == again.id(first.id(x))
  }

  /** Reading the output `x` of a first pass back in full gives the same output as one pass `y`. */
  ghost predicate SameOutput(x: Option<Parsed>, y: Option<Parsed>, back: Option<Parsed>) {
    && x.Some? && y.Some?
    && y.value.size == x.value.size
    && back == Some(Parsed(|x.value.out|, y.value.out, y.value.fits))
  }

  lemma SplitPrefix(a: bytes, b: bytes, z: bytes)
    requires a + b <= z
    ensures a <= z && z[..|a|] == a && b <= z[|a|..]
  {
    assert (a + b)[..|a|] == a && (a + b)[|a|..] == b;
    assert z[|a|..][..|b|] == z[..|a + b|][|a|..];
  }

  /** Rewriting the rewritten bytes is rewriting once with the composed substitution. */
  lemma {:induction false} ParseComposes(p: Prog, s: bytes, z: bytes, e1: Env, e2: Env, e: Env)
    requires Composed(e1, e2, e) && Solid(p)
    requires Parse(p, s, e1).Some? && Parse(p, s, e1).value.fits && Parse(p, s, e1).value.out <= z
    ensures SameOutput(Parse(p, s, e1), Parse(p, s, e), Parse(p, z, e2))
    decreases p, 1, 0
  {
    match p
    case Seq(a, b) => SeqComposes(a, b, s, z, e1, e2, e);
    case Many(item) => ManyComposes(item, s, z, e1, e2, e);
    case Optional(item) => OptionalComposes(item, s, z, e1, e2, e);
    case Case(_, _, _, _, _) => CaseComposes(p, s, z, e1, e2, e);
    case _ => AtomComposes(p, s, z, e1, e2, e);
  }

  lemma AtomComposes(p: Prog, s: bytes, z: bytes, e1: Env, e2: Env, e: Env)
    requires !p.Seq? && !p.Many? && !p.Optional? && !p.Case?
    requires Composed(e1, e2, e)
    requires Atom(p, s, e1).Some? && Atom(p, s, e1).value.fits && Atom(p, s, e1).value.out <= z
    ensures SameOutput(Atom(p, s, e1), Atom(p, s, e), Atom(p, z, e2))
  {
    var x := Atom(p, s, e1).value;
    var t := z[|x.out|..];
    assert z == x.out + t;
    match p
    case Txt => PrefixText(s, z);
    case Id => TextRoundTrip(e1.id(ReadText(s).value.value), t);
    case Boot => TextRoundTrip(e1.boot, t);
    case Revision => NumberRoundTrip(e1.revision, t);
    case Nums(k) => PrefixNumbers(k, s, z);
    case Num => PrefixNumber(s, z);
    case Enum(_) => PrefixNumber(s, z);
    case _ =>
  }

  lemma {:induction false} SeqComposes(a: Prog, b: Prog, s: bytes, z: bytes, e1: Env, e2: Env, e: Env)
    requires Composed(e1, e2, e) && Solid(a) && Solid(b)
    requires var r := Parse(Seq(a, b), s, e1); r.Some? && r.value.fits && r.value.out <= z
    ensures SameOutput(Parse(Seq(a, b), s, e1), Parse(Seq(a, b), s, e), Parse(Seq(a, b), z, e2))
    decreases Seq(a, b), 0, 0
  {
    var u := Parse(a, s, e1).value;
    SplitPrefix(u.out, Parse(b, s[u.size..], e1).value.out, z);
    ParseComposes(a, s, z, e1, e2, e);
    ParseComposes(b, s[u.size..], z[|u.out|..], e1, e2, e);
    var v, y, w := Parse(b, s[u.size..], e1).value, Parse(a, s, e).value, Parse(b, s[u.size..], e).value;
    JoinSame(u, v, y, w);
    assert After(Parse(a, z, e2), b, z, e2)
            == Some(Join(Parsed(|u.out|, y.out, y.fits), Parsed(|v.out|, w.out, w.fits)));
  }

  lemma JoinSame(u: Parsed, v: Parsed, y: Parsed, w: Parsed)
    requires y.size == u.size && w.size == v.size
    ensures Join(y, w).size == Join(u, v).size
    ensures Join(Parsed(|u.out|, y.out, y.fits), Parsed(|v.out|, w.out, w.fits))
         == Parsed(|Join(u, v).out|, Join(y, w).out, Join(y, w).fits)
  {
  }

  lemma {:induction false} OptionalComposes(item: Prog, s: bytes, z: bytes, e1: Env, e2: Env, e: Env)
    requires Composed(e1, e2, e) && Solid(item)
    requires var r := Flagged(item, s, e1); r.Some? && r.value.fits && r.value.out <= z
    ensures SameOutput(Flagged(item, s, e1), Flagged(item, s, e), Flagged(item, z, e2))
    decreases item, 3, 0
  {
    assert z[0] == Flagged(item, s, e1).value.out[0] == s[0];
    assert z[..1] == s[..1];
    if s[0] == 1 {
      var u := Parse(item, s[1..], e1).value;
      SplitPrefix(s[..1], u.out, z);
      ParseComposes(item, s[1..], z[1..], e1, e2, e);
      JoinSame(Copy(s, 1), u, Copy(s, 1), Parse(item, s[1..], e).value);
    }
  }

  lemma {:induction false} CaseComposes(p: Prog, s: bytes, z: bytes, e1: Env, e2: Env, e: Env)
    requires p.Case? && Composed(e1, e2, e) && Solid(p)
    requires var r := Chosen(p, s, e1); r.Some? && r.value.fits && r.value.out <= z
    ensures SameOutput(Chosen(p, s, e1), Chosen(p, s, e), Chosen(p, z, e2))
    decreases p, 0, 0
  {
    var r := ReadNumber(s).value;
    var c := Pick(p, r.value);
    var u := Parse(c, s[r.size..], e1).value;
    SplitPrefix(s[..r.size], u.out, z);
    ParseComposes(c, s[r.size..], z[r.size..], e1, e2, e);
    PrefixNumber(s, z);
    JoinSame(Copy(s, r.size), u, Copy(s, r.size), Parse(c, s[r.size..], e).value);
  }

  lemma {:induction false} ManyComposes(item: Prog, s: bytes, z: bytes, e1: Env, e2: Env, e: Env)
    requires Composed(e1, e2, e) && Visible(item) && Solid(item)
    requires var r := Counted(item, s, e1); r.Some? && r.value.fits && r.value.out <= z
    ensures SameOutput(Counted(item, s, e1), Counted(item, s, e), Counted(item, z, e2))
    decreases item, 3, 0
  {
    var r := ReadNumber(s).value;
    var u := Repeat(item, r.value, s[r.size..], e1).value;
    SplitPrefix(s[..r.size], u.out, z);
    RepeatComposes(item, r.value, s[r.size..], z[r.size..], e1, e2, e);
    RepeatOccupies(item, r.value, s[r.size..], e1);
    PrefixNumber(s, z);
    JoinSame(Copy(s, r.size), u, Copy(s, r.size), Repeat(item, r.value, s[r.size..], e).value);
  }

  lemma {:induction false} RepeatComposes(item: Prog, k: nat, s: bytes, z: bytes, e1: Env, e2: Env, e: Env)
    requires Composed(e1, e2, e) && Solid(item)
    requires var r := Repeat(item, k, s, e1); r.Some? && r.value.fits && r.value.out <= z
    ensures SameOutput(Repeat(item, k, s, e1), Repeat(item, k, s, e), Repeat(item, k, z, e2))
    decreases item, 2, k
  {
    if k > 0 {
      var u := Parse(item, s, e1).value;
      SplitPrefix(u.out, Repeat(item, k - 1, s[u.size..], e1).value.out, z);
      ParseComposes(item, s, z, e1, e2, e);
      RepeatComposes(item, k - 1, s[u.size..], z[|u.out|..], e1, e2, e);
      JoinSame(u, Repeat(item, k - 1, s[u.size..], e1).value,
               Parse(item, s, e).value, Repeat(item, k - 1, s[u.size..], e).value);
    }
  }

  /** A number or text reads the same from any bytes it begins. */
  lemma {:induction false} PrefixNumber(s: bytes, z: bytes)
    requires ReadNumber(s).Some? && s[..ReadNumber(s).value.size] <= z
    ensures ReadNumber(z) == ReadNumber(s)
    ensures z[..ReadNumber(s).value.size] == s[..ReadNumber(s).value.size]
  {
    var n := ReadNumber(s).value.size;
    assert z[..n] == s[..n];
    assert z[1..n] == z[..n][1..] == s[..n][1..] == s[1..n];
    assert z[0] == s[..n][0];
  }

  lemma {:induction false} PrefixNumbers(k: nat, s: bytes, z: bytes)
    requires NumbersSize(k, s).Some? && s[..NumbersSize(k, s).value] <= z
    ensures NumbersSize(k, z) == NumbersSize(k, s)
    ensures z[..NumbersSize(k, s).value] == s[..NumbersSize(k, s).value]
  {
    if k > 0 {
      var n := ReadNumber(s).value.size;
      var m := NumbersSize(k - 1, s[n..]).value;
      SliceJoin(s, n, m);
      SplitPrefix(s[..n], s[n..][..m], z);
      PrefixNumber(s, z);
      PrefixNumbers(k - 1, s[n..], z[n..]);
      NumbersStep(k, z, n, m);
    } else {
      assert z[..0] == s[..0];
    }
  }

  lemma NumbersStep(k: nat, s: bytes, n: nat, m: nat)
    requires k > 0 && ReadNumber(s).Some? && ReadNumber(s).value.size == n && NumbersSize(k - 1, s[n..]) == Some(m)
    ensures NumbersSize(k, s) == Some(n + m)
    ensures s[..n + m] == s[..n] + s[n..][..m]
  {
    SliceJoin(s, n, m);
  }

  lemma {:induction false} PrefixText(s: bytes, z: bytes)
    requires ReadText(s).Some? && s[..ReadText(s).value.size] <= z
    ensures ReadText(z) == ReadText(s)
    ensures z[..ReadText(s).value.size] == s[..ReadText(s).value.size]
  {
    var n := ReadText(s).value.size;
    var k := ReadNumber(s).value.size;
    assert z[..n] == s[..n];
    assert s[..k] == s[..n][..k] == z[..n][..k] == z[..k];
    PrefixNumber(s, z);
    assert z[k..n] == z[..n][k..] == s[..n][k..] == s[k..n];
  }

  /** A layout without substitutions is copied. */
  lemma {:induction false} PlainCopies(p: Prog, s: bytes, e: Env)
    requires Plain(p) && Parse(p, s, e).Some?
    ensures Parse(p, s, e) == Some(Copy(s, Parse(p, s, e).value.size))
    decreases p, 0, 0
  {
    match p
    case Seq(a, b) =>
      PlainCopies(a, s, e);
      var n := Parse(a, s, e).value.size;
      PlainCopies(b, s[n..], e);
      SliceJoin(s, n, Parse(b, s[n..], e).value.size);
    case Many(item) =>
      var r := ReadNumber(s).value;
      PlainRepeats(item, r.value, s[r.size..], e);
      SliceJoin(s, r.size, Repeat(item, r.value, s[r.size..], e).value.size);
    case Optional(item) =>
      if s[0] == 1 {
        PlainCopies(item, s[1..], e);
        SliceJoin(s, 1, Parse(item, s[1..], e).value.size);
      }
    case Case(k0, p0, k1, p1, q) =>
      var r := ReadNumber(s).value;
      var c := Pick(p, r.value);
      PlainCopies(c, s[r.size..], e);
      SliceJoin(s, r.size, Parse(c, s[r.size..], e).value.size);
    case _ =>
  }

  lemma {:induction false} PlainRepeats(item: Prog, k: nat, s: bytes, e: Env)
    requires Plain(item) && Repeat(item, k, s, e).Some?
    ensures Repeat(item, k, s, e) == Some(Copy(s, Repeat(item, k, s, e).value.size))
    decreases item, 2, k
  {
    if k > 0 {
      PlainCopies(item, s, e);
      var x := Parse(item, s, e).value;
      PlainRepeats(item, k - 1, s[x.size..], e);
      RepeatCopies(item, k, s, e, x, Repeat(item, k - 1, s[x.size..], e).value);
    }
  }

  lemma RepeatCopies(item: Prog, k: nat, s: bytes, e: Env, x: Parsed, y: Parsed)
    requires k > 0 && Parse(item, s, e) == Some(x) && Repeat(item, k - 1, s[x.size..], e) == Some(y)
    requires x == Copy(s, x.size) && y == Copy(s[x.size..], y.size)
    ensures Repeat(item, k, s, e) == Some(Copy(s, x.size + y.size))
  {
    RepeatSplits(item, k, s, e);
    CopiesJoin(s, x, y);
  }

  lemma CopiesJoin(s: bytes, x: Parsed, y: Parsed)
    requires x.size + y.size <= |s| && x == Copy(s, x.size) && y == Copy(s[x.size..], y.size)
    ensures Join(x, y) == Copy(s, x.size + y.size)
  {
    SliceJoin(s, x.size, y.size);
  }

  lemma RepeatSplits(item: Prog, k: nat, s: bytes, e: Env)
    requires k > 0
    ensures var x := Parse(item, s, e);
            if x.None? then Repeat(item, k, s, e).None?
            else
              var y := Repeat(item, k - 1, s[x.value.size..], e);
              Repeat(item, k, s, e) == if y.None? then None else Some(Join(x.value, y.value))
  {
  }

  lemma Associates(a: bytes, b: bytes, c: bytes)
    ensures a + b + c == a + (b + c)
  {
  }

  lemma SliceJoin(s: bytes, n: nat, m: nat)
    requires n + m <= |s|
    ensures s[..n] + s[n..][..m] == s[..n + m]
  {
  }

  /** What is accepted, and how much of it, does not depend on the substitution. */
  lemma {:induction false} ParseIndependent(p: Prog, s: bytes, e1: Env, e2: Env)
    ensures Parse(p, s, e1).Some? <==> Parse(p, s, e2).Some?
    ensures Parse(p, s, e1).Some? ==> Parse(p, s, e1).value.size == Parse(p, s, e2).value.size
    decreases p, 0, 0
  {
    match p
    case Seq(a, b) =>
      ParseIndependent(a, s, e1, e2);
      if Parse(a, s, e1).Some? { ParseIndependent(b, s[Parse(a, s, e1).value.size..], e1, e2); }
    case Many(item) =>
      if ReadNumber(s).Some? {
        var r := ReadNumber(s).value;
        RepeatIndependent(item, r.value, s[r.size..], e1, e2);
      }
    case Optional(item) =>
      if s != [] { ParseIndependent(item, s[1..], e1, e2); }
    case Case(k0, p0, k1, p1, q) =>
      if ReadNumber(s).Some? {
        var r := ReadNumber(s).value;
        var c := Pick(p, r.value);
        ParseIndependent(c, s[r.size..], e1, e2);
      }
    case _ =>
  }

  lemma {:induction false} RepeatIndependent(item: Prog, k: nat, s: bytes, e1: Env, e2: Env)
    ensures Repeat(item, k, s, e1).Some? <==> Repeat(item, k, s, e2).Some?
    ensures Repeat(item, k, s, e1).Some? ==> Repeat(item, k, s, e1).value.size == Repeat(item, k, s, e2).value.size
    decreases item, 2, k
  {
    if k > 0 {
      ParseIndependent(item, s, e1, e2);
      RepeatSplits(item, k, s, e1);
      RepeatSplits(item, k, s, e2);
      if Parse(item, s, e1).Some? {
        RepeatIndependent(item, k - 1, s[Parse(item, s, e1).value.size..], e1, e2);
      }
    }
  }
}
