/**
 * `flattenProps`: projects a field and its nested `properties` onto the
 * dotted paths of every node that has a `type`, in declaration order.
 *
 * The source fills one shared result object in place; `FlattenProps` threads
 * that object through its recursion and loop, and is proved to write exactly
 * the entries of the pure `Flatten`, with JavaScript's assignment semantics
 * (`Put`).
 */
module Flattening {
  import opened Schema

  /** The entries written for `f` under `prefix`, in the order they are written. */
  function Flatten(prefix: string, f: Field): seq<(string, Field)>
    decreases f, 1
  {
    (if HasType(f) then [(prefix, f)] else []) + FlattenChildren(prefix, f, |f.properties|)
  }

  /** The entries written for the first `n` children of `f`. */
  function FlattenChildren(prefix: string, f: Field, n: nat): seq<(string, Field)>
    requires n <= |f.properties|
    decreases f, 0, n
  {
    if n == 0 then []
    else
      var child := f.properties[n - 1];
      FlattenChildren(prefix, f, n - 1) + Flatten(prefix + "." + child.0, child.1)
  }

  /**
   * `obj[k] = v` on a JavaScript object: an existing key keeps its position
   * and gets the new value, a new key is appended.
   */
  function Put<T>(m: seq<(string, T)>, k: string, v: T): seq<(string, T)>
  {
    if m == [] then [(k, v)]
    else if m[0].0 == k then [(k, v)] + m[1..]
    else [m[0]] + Put(m[1..], k, v)
  }

  lemma {:induction false} PutKeys<T>(m: seq<(string, T)>, k: string, v: T)
    ensures forall x :: x in Keys(Put(m, k, v)) <==> x in Keys(m) || x == k
  {
    if m == [] {
      assert Keys(Put(m, k, v)) == [k];
    } else {
      KeysCons(m[0], m[1..]);
      assert [m[0]] + m[1..] == m;
      if m[0].0 == k {
        KeysCons((k, v), m[1..]);
      } else {
        PutKeys(m[1..], k, v);
        KeysCons(m[0], Put(m[1..], k, v));
      }
    }
  }

  lemma KeysCons<T>(e: (string, T), s: seq<(string, T)>)
    ensures Keys([e] + s) == [e.0] + Keys(s)
  {
  }

  lemma {:induction false} PutNew<T>(m: seq<(string, T)>, k: string, v: T)
    requires k !in Keys(m)
    ensures Put(m, k, v) == m + [(k, v)]
  {
    if m != [] {
      assert m[0].0 in Keys(m);
      assert k !in Keys(m[1..]) by {
        assert Keys(m[1..]) == Keys(m)[1..];
      }
      PutNew(m[1..], k, v);
      assert [m[0]] + (m[1..] + [(k, v)]) == m + [(k, v)];
    }
  }

  /** Assigns every entry of `es`, in order. */
  function PutAll<T>(m: seq<(string, T)>, es: seq<(string, T)>): seq<(string, T)>
    decreases |es|
  {
    if es == [] then m else PutAll(Put(m, es[0].0, es[0].1), es[1..])
  }

  lemma {:induction false} PutAllAppend<T>(m: seq<(string, T)>, a: seq<(string, T)>, b: seq<(string, T)>)
    ensures PutAll(m, a + b) == PutAll(PutAll(m, a), b)
    decreases |a|
  {
    if a != [] {
      assert (a + b)[0] == a[0] && (a + b)[1..] == a[1..] + b;
      assert PutAll(m, a + b) == PutAll(Put(m, a[0].0, a[0].1), a[1..] + b);
      PutAllAppend(Put(m, a[0].0, a[0].1), a[1..], b);
      assert PutAll(m, a) == PutAll(Put(m, a[0].0, a[0].1), a[1..]);
    } else {
      assert a + b == b;
    }
  }

  lemma {:induction false} PutAllKeys<T>(m: seq<(string, T)>, es: seq<(string, T)>)
    ensures forall x :: x in Keys(PutAll(m, es)) <==> x in Keys(m) || x in Keys(es)
    decreases |es|
  {
    if es != [] {
      PutKeys(m, es[0].0, es[0].1);
      PutAllKeys(Put(m, es[0].0, es[0].1), es[1..]);
      assert Keys(es) == [es[0].0] + Keys(es[1..]);
    }
  }

  /** No key occurs twice. */
  predicate DistinctKeys<T>(s: seq<(string, T)>) {
    forall i, j :: 0 <= i < j < |s| ==> s[i].0 != s[j].0
  }

  /** Writing entries with distinct new keys into an object appends them in order. */
  lemma {:induction false} PutAllFresh<T>(m: seq<(string, T)>, es: seq<(string, T)>)
    requires DistinctKeys(es)
    requires forall i :: 0 <= i < |es| ==> es[i].0 !in Keys(m)
    ensures PutAll(m, es) == m + es
    decreases |es|
  {
    if es != [] {
      var m' := Put(m, es[0].0, es[0].1);
      PutNew(m, es[0].0, es[0].1);
      assert m' == m + [es[0]];
      assert Keys(m') == Keys(m) + [es[0].0];
      forall i | 0 <= i < |es[1..]|
        ensures es[1..][i].0 !in Keys(m')
      {
        assert es[1..][i] == es[i + 1];
      }
      PutAllFresh(m', es[1..]);
      assert m' + es[1..] == m + es;
    }
  }

  /**
   * `ElasticService.flattenProps(prefix, obj, toReturn)`: writes `obj` under
   * `prefix` when it has a type, then recurses into every child with
   * `prefix + "." + name`, all into the same result object.
   */
  method FlattenProps(prefix: string, obj: Field, toReturn: seq<(string, Field)>) returns (r: seq<(string, Field)>)
    ensures r == PutAll(toReturn, Flatten(prefix, obj))
    decreases obj
  {
    r := toReturn;
    var own: seq<(string, Field)> := [];
    if HasType(obj) {
      r := Put(r, prefix, obj);
      own := [(prefix, obj)];
      assert PutAll(toReturn, own) == PutAll(Put(toReturn, prefix, obj), []);
    }
    assert r == PutAll(toReturn, own);
    var props := obj.properties;
    for i := 0 to |props|
      invariant r == PutAll(toReturn, own + FlattenChildren(prefix, obj, i))
    {
      r := FlattenProps(prefix + "." + props[i].0, props[i].1, r);
      ChildWritten(toReturn, own, prefix, obj, i);
    }
  }

  /** Writing child `i` after the earlier ones writes the first `i + 1` children. */
  lemma ChildWritten(m: seq<(string, Field)>, own: seq<(string, Field)>, prefix: string, f: Field, i: nat)
    requires i < |f.properties|
    ensures PutAll(m, own + FlattenChildren(prefix, f, i + 1))
         == PutAll(PutAll(m, own + FlattenChildren(prefix, f, i)), Flatten(prefix + "." + f.properties[i].0, f.properties[i].1))
  {
    var child := Flatten(prefix + "." + f.properties[i].0, f.properties[i].1);
    PutAllAppend(m, own + FlattenChildren(prefix, f, i), child);
    assert own + FlattenChildren(prefix, f, i + 1) == (own + FlattenChildren(prefix, f, i)) + child;
  }

  /** `Object.keys(flattenProps(prefix, obj))`: every path written, once. */
  function FlatPaths(prefix: string, f: Field): (ps: seq<string>)
    ensures forall p :: p in ps <==> p in Keys(Flatten(prefix, f))
  {
    PutAllKeys([], Flatten(prefix, f));
    Keys(PutAll([], Flatten(prefix, f)))
  }

  /** `path` leads from `f` through `properties` to `node`. */
  ghost predicate Reaches(f: Field, path: seq<string>, node: Field)
    decreases |path|
  {
    if path == [] then node == f
    else exists i :: 0 <= i < |f.properties| && f.properties[i].0 == path[0] && Reaches(f.properties[i].1, path[1..], node)
  }

  /** The suffix a path adds to the prefix: "." before every name. */
  function Dotted(path: seq<string>): (s: string)
    ensures path != [] ==> |s| > 0
  {
    if path == [] then "" else "." + path[0] + Dotted(path[1..])
  }

  /** Every entry written is a typed node reached from `f`, keyed by its dotted path. */
  lemma {:induction false} FlattenSound(prefix: string, f: Field, e: (string, Field))
    requires e in Flatten(prefix, f)
    ensures HasType(e.1)
    ensures exists path :: e.0 == prefix + Dotted(path) && Reaches(f, path, e.1)
    decreases f, 1
  {
    if HasType(f) && e == (prefix, f) {
      assert e.0 == prefix + Dotted([]) && Reaches(f, [], e.1);
    } else {
      assert e in FlattenChildren(prefix, f, |f.properties|);
      ChildrenSound(prefix, f, |f.properties|, e);
    }
  }

  lemma {:induction false} ChildrenSound(prefix: string, f: Field, n: nat, e: (string, Field))
    requires n <= |f.properties|
    requires e in FlattenChildren(prefix, f, n)
    ensures HasType(e.1)
    ensures exists path :: e.0 == prefix + Dotted(path) && Reaches(f, path, e.1)
    decreases f, 0, n
  {
    var child := f.properties[n - 1];
    if e in FlattenChildren(prefix, f, n - 1) {
      ChildrenSound(prefix, f, n - 1, e);
    } else {
      assert e in Flatten(prefix + "." + child.0, child.1);
      FlattenSound(prefix + "." + child.0, child.1, e);
      var rest :| e.0 == prefix + "." + child.0 + Dotted(rest) && Reaches(child.1, rest, e.1);
      var path := [child.0] + rest;
      assert path[1..] == rest;
      assert Reaches(f, path, e.1);
      assert e.0 == prefix + Dotted(path);
    }
  }

  /** Every typed node reached from `f` is written, under its dotted path. */
  lemma {:induction false} FlattenComplete(prefix: string, f: Field, path: seq<string>, node: Field)
    requires Reaches(f, path, node) && HasType(node)
    ensures (prefix + Dotted(path), node) in Flatten(prefix, f)
    decreases |path|
  {
    if path == [] {
      assert prefix + Dotted(path) == prefix;
    } else {
      var i :| 0 <= i < |f.properties| && f.properties[i].0 == path[0] && Reaches(f.properties[i].1, path[1..], node);
      var child := f.properties[i];
      FlattenComplete(prefix + "." + child.0, child.1, path[1..], node);
      assert prefix + "." + child.0 + Dotted(path[1..]) == prefix + Dotted(path);
      ChildIncluded(prefix, f, i, |f.properties|, (prefix + Dotted(path), node));
    }
  }

  lemma {:induction false} ChildIncluded(prefix: string, f: Field, i: nat, n: nat, e: (string, Field))
    requires i < n <= |f.properties|
    requires e in Flatten(prefix + "." + f.properties[i].0, f.properties[i].1)
    ensures e in FlattenChildren(prefix, f, n)
    decreases n
  {
    if i < n - 1 {
      ChildIncluded(prefix, f, i, n - 1, e);
    }
  }

  /**
   * The only entry whose key is the prefix itself is the node's own, and it
   * is there exactly when the node has a type: a typeless container writes
   * nothing for itself.
   */
  lemma {:induction false} OwnEntry(prefix: string, f: Field)
    ensures HasType(f) <==> prefix in Keys(Flatten(prefix, f))
    ensures forall e :: e in Flatten(prefix, f) && e.0 == prefix ==> e.1 == f
  {
    forall e | e in Flatten(prefix, f) && e.0 == prefix
      ensures e.1 == f
    {
      FlattenSound(prefix, f, e);
      var path :| e.0 == prefix + Dotted(path) && Reaches(f, path, e.1);
      assert |prefix + Dotted(path)| == |prefix| + |Dotted(path)|;
      assert path == [];
    }
    if prefix in Keys(Flatten(prefix, f)) {
      var k :| 0 <= k < |Flatten(prefix, f)| && Flatten(prefix, f)[k].0 == prefix;
      var e := Flatten(prefix, f)[k];
      FlattenSound(prefix, f, e);
    }
    if HasType(f) {
      assert Flatten(prefix, f)[0] == (prefix, f);
    }
  }

  /** The object of the source's unit test for flattenProps. */
  function Manager(): Field {
    Field(None, IndexAbsent, None, None, None, None,
      [("age", Typed("integer")),
       ("name", Field(None, IndexAbsent, None, None, None, None,
                  [("first", Typed("text")), ("last", Typed("text"))]))])
  }

  /** The `name` sub-object of `Manager()` flattens to its two typed children. */
  lemma FlattenManagerName()
    ensures Flatten("manager.name", Manager().properties[1].1)
         == [("manager.name.first", Typed("text")), ("manager.name.last", Typed("text"))]
  {
    var name := Manager().properties[1].1;
    assert "manager.name" + "." + "first" == "manager.name.first";
    assert "manager.name" + "." + "last" == "manager.name.last";
    assert Flatten("manager.name.first", Typed("text")) == [("manager.name.first", Typed("text"))];
    assert Flatten("manager.name.last", Typed("text")) == [("manager.name.last", Typed("text"))];
    assert FlattenChildren("manager.name", name, 1) == [("manager.name.first", Typed("text"))];
  }

  /** The entries `flattenProps("manager", manager)` writes, in order. */
  lemma FlattenManagerEntries()
    ensures Flatten("manager", Manager())
         == [("manager.age", Typed("integer")),
             ("manager.name.first", Typed("text")),
             ("manager.name.last", Typed("text"))]
  {
    FlattenManagerName();
    assert "manager" + "." + "age" == "manager.age";
    assert "manager" + "." + "name" == "manager.name";
    assert Flatten("manager.age", Typed("integer")) == [("manager.age", Typed("integer"))];
    assert FlattenChildren("manager", Manager(), 1) == [("manager.age", Typed("integer"))];
  }

  /** Golden case: `manager` flattens to age, name.first and name.last, in that order. */
  lemma FlattenManager()
    ensures PutAll([], Flatten("manager", Manager()))
         == [("manager.age", Typed("integer")),
             ("manager.name.first", Typed("text")),
             ("manager.name.last", Typed("text"))]
  {
    FlattenManagerEntries();
    PutAllFresh([], Flatten("manager", Manager()));
  }
}
