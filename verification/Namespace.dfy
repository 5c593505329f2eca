/** JSON trees and the identifiers in them: prefixing for the viewer, resolving for a source. */
module Namespace {
  import opened Wire

  datatype Json =
    | Null
    | Bool(flag: bool)
    | Number(value: int)
    | Text(text: bytes)
    | Array(items: seq<Json>)
    | Object(fields: map<string, Json>)

  /** The field names whose values are identifiers. */
  predicate IsId(k: string) {
    k in {"workspace_id", "tab_id", "pane_id", "terminal_id", "command_id", "source_workspace_id",
          "target_pane_id", "source_pane_id", "before_workspace_id", "active_tab_id",
          "focused_workspace_id", "focused_tab_id", "focused_pane_id"}
  }

  const AGENT_ORDER := "agent_order"

  /** The text of a value; anything but text counts as empty. */
  function TextOf(v: Json): bytes {
    if v.Text? then v.text else []
  }

  /** The items of a value; anything but an array counts as empty. */
  function ItemsOf(v: Json): seq<Json> {
    if v.Array? then v.items else []
  }

  /** Applies `f` to every identifier of a tree. */
  function Transform(v: Json, f: bytes -> bytes): Json
    decreases v, 0
  {
    match v
    case Object(fields) => Object(map k | k in fields :: Field(k, fields[k], f))
    case Array(items) => Array(seq(|items|, i requires 0 <= i < |items| => Transform(items[i], f)))
    case _ => v
  }

  function Field(k: string, v: Json, f: bytes -> bytes): Json
    decreases v, 1
  {
    if IsId(k) && v != Null then Text(f(TextOf(v)))
    else if k == AGENT_ORDER then Array(Order(ItemsOf(v), f))
    else Transform(v, f)
  }

  function Order(ids: seq<Json>, f: bytes -> bytes): (r: seq<Json>)
    ensures |r| == |ids| && forall i :: 0 <= i < |ids| ==> r[i] == Text(f(TextOf(ids[i])))
  {
    seq(|ids|, i requires 0 <= i < |ids| => Text(f(TextOf(ids[i]))))
  }

  ghost predicate Composes(f: bytes -> bytes, g: bytes -> bytes, h: bytes -> bytes) {
    forall x {:trigger h(x)} :: h(x) == g(f(x))
  }

  /** Transforming twice is transforming once with the composed function. */
  lemma {:induction false} TransformComposes(v: Json, f: bytes -> bytes, g: bytes -> bytes, h: bytes -> bytes)
    requires Composes(f, g, h)
    ensures Transform(Transform(v, f), g) == Transform(v, h)
    decreases v, 0
  {
    match v
    case Object(fields) =>
      forall k | k in fields ensures Field(k, Field(k, fields[k], f), g) == Field(k, fields[k], h) {
        FieldComposes(k, fields[k], f, g, h);
      }
    case Array(items) =>
      forall i | 0 <= i < |items| ensures Transform(Transform(items[i], f), g) == Transform(items[i], h) {
        TransformComposes(items[i], f, g, h);
      }
    case _ =>
  }

  lemma {:induction false} FieldComposes(k: string, v: Json, f: bytes -> bytes, g: bytes -> bytes, h: bytes -> bytes)
    requires Composes(f, g, h)
    ensures Field(k, Field(k, v, f), g) == Field(k, v, h)
    decreases v, 1
  {
    if IsId(k) && v != Null {
    } else if k == AGENT_ORDER {
    } else {
      TransformComposes(v, f, g, h);
    }
  }

  /** Every identifier of a tree, as `Transform` meets them. */
  function Ids(v: Json): set<bytes>
    decreases v, 0
  {
    match v
    case Object(fields) => set k, x | k in fields && x in FieldIds(k, fields[k]) :: x
    case Array(items) => set i, x | 0 <= i < |items| && x in Ids(items[i]) :: x
    case _ => {}
  }

  function FieldIds(k: string, v: Json): set<bytes>
    decreases v, 1
  {
    if IsId(k) && v != Null then {TextOf(v)}
    else if k == AGENT_ORDER then set i | 0 <= i < |ItemsOf(v)| :: TextOf(ItemsOf(v)[i])
    else Ids(v)
  }

  /** What is done to a tree depends only on what is done to its identifiers. */
  lemma {:induction false} TransformAgrees(v: Json, f: bytes -> bytes, g: bytes -> bytes)
    requires forall x :: x in Ids(v) ==> f(x) == g(x)
    ensures Transform(v, f) == Transform(v, g)
    decreases v, 0
  {
    match v
    case Object(fields) =>
      forall k | k in fields ensures Field(k, fields[k], f) == Field(k, fields[k], g) {
        assert forall x :: x in FieldIds(k, fields[k]) ==> x in Ids(v);
        FieldAgrees(k, fields[k], f, g);
      }
    case Array(items) =>
      forall i | 0 <= i < |items| ensures Transform(items[i], f) == Transform(items[i], g) {
        assert forall x :: x in Ids(items[i]) ==> x in Ids(v);
        TransformAgrees(items[i], f, g);
      }
    case _ =>
  }

  lemma {:induction false} FieldAgrees(k: string, v: Json, f: bytes -> bytes, g: bytes -> bytes)
    requires forall x :: x in FieldIds(k, v) ==> f(x) == g(x)
    ensures Field(k, v, f) == Field(k, v, g)
    decreases v, 1
  {
    if IsId(k) && v != Null {
      assert TextOf(v) in FieldIds(k, v);
    } else if k == AGENT_ORDER {
      var ids := ItemsOf(v);
      forall i | 0 <= i < |ids| ensures f(TextOf(ids[i])) == g(TextOf(ids[i])) {
        assert TextOf(ids[i]) in FieldIds(k, v);
      }
      assert Order(ids, f) == Order(ids, g);
    } else {
      TransformAgrees(v, f, g);
    }
  }

  /** The identifiers of a transformed tree are the transformed identifiers. */
  lemma {:induction false} TransformIds(v: Json, f: bytes -> bytes)
    ensures forall y :: y in Ids(Transform(v, f)) <==> exists x :: x in Ids(v) && y == f(x)
    decreases v, 0
  {
    match v
    case Object(fields) =>
      var w := Transform(v, f);
      forall k | k in fields
        ensures forall y :: y in FieldIds(k, w.fields[k]) <==> exists x :: x in FieldIds(k, fields[k]) && y == f(x)
      {
        FieldIdsTransform(k, fields[k], f);
      }
      forall y | y in Ids(w) ensures exists x :: x in Ids(v) && y == f(x) {
        var k :| k in w.fields && y in FieldIds(k, w.fields[k]);
        var x :| x in FieldIds(k, fields[k]) && y == f(x);
        assert x in Ids(v);
      }
      forall x | x in Ids(v) ensures f(x) in Ids(w) {
        var k :| k in fields && x in FieldIds(k, fields[k]);
        assert f(x) in FieldIds(k, w.fields[k]);
      }
    case Array(items) =>
      var w := Transform(v, f);
      forall i | 0 <= i < |items|
        ensures forall y :: y in Ids(w.items[i]) <==> exists x :: x in Ids(items[i]) && y == f(x)
      {
        TransformIds(items[i], f);
      }
      forall y | y in Ids(w) ensures exists x :: x in Ids(v) && y == f(x) {
        var i :| 0 <= i < |w.items| && y in Ids(w.items[i]);
        var x :| x in Ids(items[i]) && y == f(x);
        assert x in Ids(v);
      }
      forall x | x in Ids(v) ensures f(x) in Ids(w) {
        var i :| 0 <= i < |items| && x in Ids(items[i]);
        assert f(x) in Ids(w.items[i]);
      }
    case _ =>
  }

  lemma {:induction false} FieldIdsTransform(k: string, v: Json, f: bytes -> bytes)
    ensures forall y :: y in FieldIds(k, Field(k, v, f)) <==> exists x :: x in FieldIds(k, v) && y == f(x)
    decreases v, 1
  {
    if IsId(k) && v != Null {
      assert TextOf(v) in FieldIds(k, v);
    } else if k == AGENT_ORDER {
      var ids := ItemsOf(v);
      var w := Field(k, v, f);
      forall y | y in FieldIds(k, w) ensures exists x :: x in FieldIds(k, v) && y == f(x) {
        var i :| 0 <= i < |ids| && y == TextOf(w.items[i]);
        assert TextOf(ids[i]) in FieldIds(k, v);
      }
      forall x | x in FieldIds(k, v) ensures f(x) in FieldIds(k, w) {
        var i :| 0 <= i < |ids| && x == TextOf(ids[i]);
        assert f(x) == TextOf(ItemsOf(w)[i]);
      }
    } else {
      TransformIds(v, f);
    }
  }

  // Prefixes --------------------------------------------------------------------------------------

  function Add(prefix: bytes): bytes -> bytes {
    id => prefix + id
  }

  /** Removes a prefix that is there. */
  function Strip(prefix: bytes): bytes -> bytes {
    id => if prefix <= id then id[|prefix|..] else []
  }

  function Same(): bytes -> bytes {
    id => id
  }

  /** `prefixes` are those of the sources that have one; no two of them can begin the same text. */
  ghost predicate Separate(prefixes: map<nat, bytes>) {
    && (forall a, b :: a in prefixes && b in prefixes ==> |prefixes[a]| == |prefixes[b]|)
    && (forall a, b :: a in prefixes && b in prefixes && a != b ==> prefixes[a] != prefixes[b])
    && (forall a :: a in prefixes ==> prefixes[a] != [])
  }

  /** `id` belongs to source `a`. */
  predicate Owns(prefixes: map<nat, bytes>, a: nat, id: bytes) {
    a in prefixes && prefixes[a] <= id
  }

  /** A prefixed identifier belongs to exactly the source whose prefix it was given, and gives back
      the identifier that it was. */
  lemma {:induction false} ResolveInverts(prefixes: map<nat, bytes>, a: nat, id: bytes)
    requires Separate(prefixes) && a in prefixes
    ensures forall b :: Owns(prefixes, b, Add(prefixes[a])(id)) <==> b == a
    ensures Strip(prefixes[a])(Add(prefixes[a])(id)) == id
  {
    var p := prefixes[a];
    var x := Add(p)(id);
    assert x[..|p|] == p;
    forall b | Owns(prefixes, b, x) ensures b == a {
      assert prefixes[b] == x[..|p|];
    }
  }

  /** Nothing belongs to two sources. */
  lemma OwnerUnique(prefixes: map<nat, bytes>, a: nat, b: nat, id: bytes)
    requires Separate(prefixes) && Owns(prefixes, a, id) && Owns(prefixes, b, id)
    ensures a == b
  {
    assert prefixes[a] == id[..|prefixes[a]|] == prefixes[b];
  }

  /** What a source sent, prefixed for the viewer and stripped again, is what the source sent. */
  lemma PrefixRoundTrip(v: Json, prefix: bytes)
    ensures Transform(Transform(v, Add(prefix)), Strip(prefix)) == Transform(v, Same())
  {
    forall x: bytes ensures Same()(x) == Strip(prefix)(Add(prefix)(x)) {
      assert (prefix + x)[|prefix|..] == x;
    }
    TransformComposes(v, Add(prefix), Strip(prefix), Same());
  }

  /** What the viewer asked of a source, stripped and prefixed again, is what the viewer asked. */
  lemma StripRoundTrip(v: Json, prefix: bytes)
    requires forall x :: x in Ids(v) ==> prefix <= x
    ensures Transform(Transform(v, Strip(prefix)), Add(prefix)) == Transform(v, Same())
  {
    var h := x => Add(prefix)(Strip(prefix)(x));
    TransformComposes(v, Strip(prefix), Add(prefix), h);
    forall x | x in Ids(v) ensures h(x) == Same()(x) {
      assert prefix + x[|prefix|..] == x;
    }
    TransformAgrees(v, h, Same());
  }

  /** Identifier fields hold texts, and the agent order is a list of them. */
  predicate Typed(v: Json)
    decreases v, 0
  {
    match v
    case Object(fields) => forall k :: k in fields ==> FieldTyped(k, fields[k])
    case Array(items) => forall i :: 0 <= i < |items| ==> Typed(items[i])
    case _ => true
  }

  predicate FieldTyped(k: string, v: Json)
    decreases v, 1
  {
    if IsId(k) && v != Null then v.Text?
    else if k == AGENT_ORDER then v.Array? && forall i :: 0 <= i < |v.items| ==> v.items[i].Text?
    else Typed(v)
  }

  /** Changing no identifier changes nothing, exactly for the trees whose identifiers are texts. */
  lemma {:induction false} SameIsIdentity(v: Json)
    ensures Transform(v, Same()) == v <==> Typed(v)
    decreases v, 0
  {
    match v
    case Object(fields) =>
      var w := Transform(v, Same());
      forall k | k in fields ensures w.fields[k] == fields[k] <==> FieldTyped(k, fields[k]) {
        FieldSame(k, fields[k]);
      }
      if Typed(v) {
        assert w.fields == fields;
      }
    case Array(items) =>
      var w := Transform(v, Same());
      forall i | 0 <= i < |items| ensures w.items[i] == items[i] <==> Typed(items[i]) {
        SameIsIdentity(items[i]);
      }
      if Typed(v) {
        assert w.items == items;
      }
    case _ =>
  }

  lemma {:induction false} FieldSame(k: string, v: Json)
    ensures Field(k, v, Same()) == v <==> FieldTyped(k, v)
    decreases v, 1
  {
    if IsId(k) && v != Null {
    } else if k == AGENT_ORDER {
      var w := Order(ItemsOf(v), Same());
      if v.Array? {
        if w == v.items {
          assert forall i :: 0 <= i < |v.items| ==> w[i] == v.items[i];
        }
      }
    } else {
      SameIsIdentity(v);
    }
  }
}
