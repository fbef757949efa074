/** labgob's walk over the types of a value, looking for fields that gob would silently skip.

  Types form a finite graph, possibly with cycles (a struct may refer to itself).
 */
module TypeWalk {

  type TypeId = nat

  datatype Field = Field(name: string, fieldType: TypeId)

  /** Struct; slice, array or reference; map; anything else. */
  datatype Kind = Struct(fields: seq<Field>) | Container(elem: TypeId) | Map(key: TypeId, value: TypeId) | Basic

  type Graph = map<TypeId, Kind>

  ghost function Successors(k: Kind): set<TypeId> {
    match k
    case Struct(fields) => set i | 0 <= i < |fields| :: fields[i].fieldType
    case Container(elem) => {elem}
    case Map(key, value) => {key, value}
    case Basic => {}
  }

  ghost predicate WellFormed(g: Graph) {
    forall t :: t in g ==> Successors(g[t]) <= g.Keys
  }

  ghost predicate IsPath(g: Graph, p: seq<TypeId>) {
    && |p| >= 1
    && forall i :: 0 <= i < |p| - 1 ==> p[i] in g && p[i + 1] in Successors(g[p[i]])
  }

  ghost predicate Reachable(g: Graph, a: TypeId, b: TypeId) {
    exists p :: IsPath(g, p) && p[0] == a && p[|p| - 1] == b
  }

  /** Everything the members refer to is a member. */
  ghost predicate IsClosed(g: Graph, c: set<TypeId>) {
    forall t :: t in c && t in g ==> Successors(g[t]) <= c
  }

  /** A field of a struct type. */
  datatype Place = Place(owner: TypeId, index: nat)

  ghost predicate IsLower(g: Graph, isUpper: char -> bool, p: Place) {
    && p.owner in g && g[p.owner].Struct? && p.index < |g[p.owner].fields|
    && !Capitalised(isUpper, g[p.owner].fields[p.index].name)
  }

  predicate Capitalised(isUpper: char -> bool, name: string) {
    |name| > 0 && isUpper(name[0])
  }

  /** The lower-case fields of the struct types in a set. */
  ghost function LowerFields(g: Graph, isUpper: char -> bool, ts: set<TypeId>): set<Place> {
    set t, i | t in ts && t in g && g[t].Struct? && 0 <= i < |g[t].fields| && IsLower(g, isUpper, Place(t, i)) :: Place(t, i)
  }

  ghost function LowerPrefix(g: Graph, isUpper: char -> bool, t: TypeId, n: nat): set<Place>
    requires t in g && g[t].Struct? && n <= |g[t].fields|
  {
    set i | 0 <= i < n && IsLower(g, isUpper, Place(t, i)) :: Place(t, i)
  }

  // ---------------------------------------------------------------- reachability

  lemma ReachSelf(g: Graph, a: TypeId)
    ensures Reachable(g, a, a)
  {
    var p := [a];
    assert IsPath(g, p) && p[0] == a && p[|p| - 1] == a;
  }

  lemma ReachStep(g: Graph, a: TypeId, s: TypeId, b: TypeId)
    requires a in g && s in Successors(g[a]) && Reachable(g, s, b)
    ensures Reachable(g, a, b)
  {
    var p :| IsPath(g, p) && p[0] == s && p[|p| - 1] == b;
    var q := [a] + p;
    assert forall i :: 0 <= i < |q| - 1 ==> q[i + 1] == p[i];
    assert IsPath(g, q) && q[0] == a && q[|q| - 1] == b;
  }

  lemma {:induction false} PathStaysInside(g: Graph, c: set<TypeId>, p: seq<TypeId>)
    requires IsClosed(g, c) && IsPath(g, p) && p[0] in c
    ensures p[|p| - 1] in c
    decreases |p|
  {
    if |p| > 1 {
      var q := p[1..];
      assert forall i :: 0 <= i < |q| ==> q[i] == p[i + 1];
      assert p[0] in g && q[0] in Successors(g[p[0]]);
      PathStaysInside(g, c, q);
    }
  }

  lemma ReachInside(g: Graph, c: set<TypeId>, a: TypeId, b: TypeId)
    requires IsClosed(g, c) && a in c && Reachable(g, a, b)
    ensures b in c
  {
    var p :| IsPath(g, p) && p[0] == a && p[|p| - 1] == b;
    PathStaysInside(g, c, p);
  }

  /** A type that occurs in another: as a field, as an element, or as the key or value of a map. */
  ghost predicate PartOf(k: Kind, s: TypeId) {
    || (k.Struct? && exists i :: 0 <= i < |k.fields| && k.fields[i].fieldType == s)
    || (k.Container? && k.elem == s)
    || (k.Map? && (k.key == s || k.value == s))
  }

  /** The types reachable from `t` are the least collection that contains `t` and the parts of its
      members: they contain them, and every collection that does contains them. */
  lemma ReachableIsLeast(g: Graph, t: TypeId)
    ensures Reachable(g, t, t)
    ensures forall u, s :: Reachable(g, t, u) && u in g && PartOf(g[u], s) ==> Reachable(g, t, s)
    ensures forall c: set<TypeId>, u :: (t in c && forall x, s :: x in c && x in g && PartOf(g[x], s) ==> s in c) && Reachable(g, t, u)
              ==> u in c
  {
    ReachSelf(g, t);
    forall u, s | Reachable(g, t, u) && u in g && PartOf(g[u], s)
      ensures Reachable(g, t, s)
    {
      ReachPart(g, t, u, s);
    }
    forall c: set<TypeId>, u | (t in c && forall x, s :: x in c && x in g && PartOf(g[x], s) ==> s in c) && Reachable(g, t, u)
      ensures u in c
    {
      ClosedUnderParts(g, c);
      ReachInside(g, c, t, u);
    }
  }

  lemma ReachPart(g: Graph, t: TypeId, u: TypeId, s: TypeId)
    requires Reachable(g, t, u) && u in g && PartOf(g[u], s)
    ensures Reachable(g, t, s)
  {
    var p :| IsPath(g, p) && p[0] == t && p[|p| - 1] == u;
    var q := p + [s];
    assert s in Successors(g[u]);
    assert IsPath(g, q) && q[0] == t && q[|q| - 1] == s;
  }

  lemma ClosedUnderParts(g: Graph, c: set<TypeId>)
    requires forall x, s :: x in c && x in g && PartOf(g[x], s) ==> s in c
    ensures IsClosed(g, c)
  {
    forall x | x in c && x in g
      ensures Successors(g[x]) <= c
    {
      forall s | s in Successors(g[x])
        ensures s in c
      {
        assert PartOf(g[x], s);
      }
    }
  }

  /** What counts as an error: a field of a struct type whose name does not start with a capital. */
  lemma LowerFieldIff(g: Graph, isUpper: char -> bool, ts: set<TypeId>, t: TypeId, i: nat)
    ensures Place(t, i) in LowerFields(g, isUpper, ts) <==>
            t in ts && t in g && g[t].Struct? && i < |g[t].fields|
            && (g[t].fields[i].name == "" || !isUpper(g[t].fields[i].name[0]))
  {
  }

  lemma SmallerRest(all: set<TypeId>, a: set<TypeId>, b: set<TypeId>)
    requires a <= b
    ensures |all - b| <= |all - a|
    ensures forall t :: t in all && t in b && t !in a ==> |all - b| < |all - a|
  {
    var x, y := all - b, all - a;
    assert y == x + (y - x);
    forall t | t in all && t in b && t !in a
      ensures |x| < |y|
    {
      assert t in y - x;
    }
  }

  // ---------------------------------------------------------------- the walk

  /** What a walk adds to the checked types, some of which may still be in progress: only types
      reachable from `t`, each with its successors. */
  ghost predicate Explored(g: Graph, t: TypeId, before: set<TypeId>, after: set<TypeId>) {
    && before <= after
    && forall u :: u in after && u !in before ==> Reachable(g, t, u) && u in g && Successors(g[u]) <= after
  }

  /** A walk from a successor extends what a walk from `t` has explored. */
  lemma ExploredMore(g: Graph, t: TypeId, s: TypeId, a: set<TypeId>, b: set<TypeId>, c: set<TypeId>)
    requires t in g && s in Successors(g[t]) && Explored(g, t, a, b) && Explored(g, s, b, c)
    ensures Explored(g, t, a, c)
  {
    forall u | u in c && u !in a
      ensures Reachable(g, t, u) && u in g && Successors(g[u]) <= c
    {
      if u !in b {
        ReachStep(g, t, s, u);
      }
    }
  }

  lemma LowerMore(g: Graph, isUpper: char -> bool, a: set<TypeId>, b: set<TypeId>, c: set<TypeId>)
    requires a <= b <= c
    ensures LowerFields(g, isUpper, c - a) == LowerFields(g, isUpper, b - a) + LowerFields(g, isUpper, c - b)
  {
    assert c - a == (b - a) + (c - b);
    LowerUnion(g, isUpper, b - a, c - b);
  }

  class Checker {
    const graph: Graph
    const isUpper: char -> bool
    var checked: set<TypeId>
    var errorCount: nat
    ghost var reported: set<Place>

    ghost predicate Valid()
      reads this
    {
      && WellFormed(graph) && checked <= graph.Keys
      && errorCount == |reported|
      && forall p :: p in reported ==> p.owner in checked
    }

    constructor (graph: Graph, isUpper: char -> bool)
      requires WellFormed(graph)
      ensures Valid() && checked == {} && reported == {} && this.graph == graph && this.isUpper == isUpper
    {
      this.graph, this.isUpper := graph, isUpper;
      checked, errorCount, reported := {}, 0, {};
    }

    method CheckType(t: TypeId)
      requires Valid() && t in graph
      modifies this
      ensures Valid() && t in checked && Explored(graph, t, old(checked), checked)
      ensures reported == old(reported) + LowerFields(graph, isUpper, checked - old(checked))
      decreases |graph.Keys - checked|, 1
    {
      hide LowerFields, Reachable, Successors, WellFormed;
      if t in checked {
        NothingLower(graph, isUpper, checked - checked);
        NothingExplored(graph, t, checked);
        return;
      }
      ghost var start := checked;
      SmallerRest(graph.Keys, checked, checked + {t});
      checked := checked + {t};
      ghost var marked := checked;
      Descend(t);
      MarkedExplored(graph, t, start, checked);
      LowerMore(graph, isUpper, start, marked, checked);
      assert marked - start == {t};
    }

    /** The switch on the kind of a type that has just been marked. */
    method Descend(t: TypeId)
      requires Valid() && t in graph && t in checked
      requires forall p :: p in reported ==> p.owner != t
      modifies this
      ensures Valid() && Successors(graph[t]) <= checked && Explored(graph, t, old(checked), checked)
      ensures reported == old(reported) + LowerFields(graph, isUpper, checked - old(checked)) + LowerFields(graph, isUpper, {t})
      decreases |graph.Keys - checked|, 4
    {
      hide LowerFields, Reachable, WellFormed, Explored;
      if !graph[t].Struct? {
        NothingLower(graph, isUpper, {t});
      }
      match graph[t] {
        case Struct(fields) =>
          CheckFields(t);
        case Container(elem) =>
          CheckElement(t, elem);
        case Map(key, value) =>
          CheckMap(t);
        case Basic =>
          NothingLower(graph, isUpper, checked - checked);
          NothingExplored(graph, t, checked);
      }
    }

    /** A map type: its element type, then its key type. */
    method CheckMap(t: TypeId)
      requires Valid() && t in graph && graph[t].Map?
      modifies this
      ensures Valid() && Successors(graph[t]) <= checked && Explored(graph, t, old(checked), checked)
      ensures reported == old(reported) + LowerFields(graph, isUpper, checked - old(checked))
      decreases |graph.Keys - checked|, 3
    {
      hide LowerFields, Reachable, WellFormed, Explored;
      ghost var start, reports := checked, reported;
      CheckElement(t, graph[t].value);
      ExploredKeeps(graph, t, start, checked);
      SmallerRest(graph.Keys, start, checked);
      CheckKey(t, graph[t].key, start, reports);
    }

    /** The element type of a slice, array, reference or map. */
    method CheckElement(t: TypeId, s: TypeId)
      requires Valid() && t in graph && s in Successors(graph[t])
      modifies this
      ensures Valid() && s in checked && Explored(graph, t, old(checked), checked)
      ensures reported == old(reported) + LowerFields(graph, isUpper, checked - old(checked))
      decreases |graph.Keys - checked|, 2
    {
      ghost var start := checked;
      CheckType(s);
      NothingExplored(graph, t, start);
      ExploredMore(graph, t, s, start, start, checked);
    }

    /** The key type of a map, after its element type. */
    method CheckKey(t: TypeId, s: TypeId, ghost start: set<TypeId>, ghost reports: set<Place>)
      requires Valid() && t in graph && s in Successors(graph[t]) && Explored(graph, t, start, checked)
      requires reported == reports + LowerFields(graph, isUpper, checked - start)
      modifies this
      ensures Valid() && s in checked && old(checked) <= checked && Explored(graph, t, start, checked)
      ensures reported == reports + LowerFields(graph, isUpper, checked - start)
      decreases |graph.Keys - checked|, 2
    {
      ghost var middle := checked;
      CheckType(s);
      ExploredMore(graph, t, s, start, middle, checked);
      LowerMore(graph, isUpper, start, middle, checked);
    }

    /** The fields of a struct type, each reported if its name is not capitalised. */
    method CheckFields(t: TypeId)
      requires Valid() && t in graph && t in checked && graph[t].Struct?
      requires forall p :: p in reported ==> p.owner != t
      modifies this
      ensures Valid() && Successors(graph[t]) <= checked && Explored(graph, t, old(checked), checked)
      ensures reported == old(reported) + LowerFields(graph, isUpper, checked - old(checked)) + LowerFields(graph, isUpper, {t})
      decreases |graph.Keys - checked|, 3
    {
      hide LowerFields, LowerPrefix, Reachable, WellFormed, Explored, Successors, Valid;
      var fields := graph[t].fields;
      ghost var start, reports := checked, reported;
      var i := 0;
      NothingExplored(graph, t, start);
      NothingLower(graph, isUpper, start - start);
      PrefixNone(graph, isUpper, t);
      while i < |fields|
        invariant 0 <= i <= |fields| && Valid() && start <= checked && Explored(graph, t, start, checked)
        invariant forall j :: 0 <= j < i ==> fields[j].fieldType in checked
        invariant reported == reports + LowerFields(graph, isUpper, checked - start) + LowerPrefix(graph, isUpper, t, i)
      {
        SmallerRest(graph.Keys, start, checked);
        CheckField(t, i, start, reports);
        i := i + 1;
      }
      WholePrefix(graph, isUpper, t);
      FieldsAreSuccessors(graph, t, checked);
    }

    /** One round of the loop over the fields. */
    method CheckField(t: TypeId, i: nat, ghost start: set<TypeId>, ghost reports: set<Place>)
      requires Valid() && t in graph && t in start && graph[t].Struct? && i < |graph[t].fields|
      requires forall p :: p in reports ==> p.owner != t
      requires Explored(graph, t, start, checked)
      requires reported == reports + LowerFields(graph, isUpper, checked - start) + LowerPrefix(graph, isUpper, t, i)
      modifies this
      ensures Valid() && old(checked) <= checked && graph[t].fields[i].fieldType in checked
      ensures Explored(graph, t, start, checked)
      ensures reported == reports + LowerFields(graph, isUpper, checked - start) + LowerPrefix(graph, isUpper, t, i + 1)
      decreases |graph.Keys - checked|, 2
    {
      hide LowerFields, LowerPrefix, Reachable, WellFormed, Explored, Successors, IsLower;
      ExploredKeeps(graph, t, start, checked);
      NotReported(graph, isUpper, t, i, checked - start);
      PrefixNext(graph, isUpper, t, i);
      ReportField(t, i);
      ghost var middle := checked;
      var s := graph[t].fields[i].fieldType;
      FieldIsSuccessor(graph, t, i);
      CheckType(s);
      ExploredKeeps(graph, s, middle, checked);
      ExploredMore(graph, t, s, start, middle, checked);
      LowerMore(graph, isUpper, start, middle, checked);
      ghost var one := if IsLower(graph, isUpper, Place(t, i)) then {Place(t, i)} else {};
      Regroup(reports, LowerFields(graph, isUpper, middle - start), LowerPrefix(graph, isUpper, t, i), one,
              LowerFields(graph, isUpper, checked - middle));
    }

    /** Counts one field if it is lower-case. */
    method ReportField(t: TypeId, i: nat)
      requires Valid() && t in graph && t in checked && graph[t].Struct? && i < |graph[t].fields|
      requires Place(t, i) !in reported
      modifies this`errorCount, this`reported
      ensures Valid()
      ensures reported == old(reported) + if IsLower(graph, isUpper, Place(t, i)) then {Place(t, i)} else {}
    {
      hide WellFormed;
      if !Capitalised(isUpper, graph[t].fields[i].name) {
        reported := reported + {Place(t, i)};
        errorCount := errorCount + 1;
      }
    }

    /** A top-level check: afterwards the checked types are those checked before and those
        reachable from `t`, and each of their lower-case fields has been counted once. */
    method CheckValue(t: TypeId)
      requires Valid() && t in graph && IsClosed(graph, checked)
      requires reported == LowerFields(graph, isUpper, checked)
      modifies this
      ensures Valid() && IsClosed(graph, checked)
      ensures forall u :: u in checked <==> u in old(checked) || Reachable(graph, t, u)
      ensures reported == LowerFields(graph, isUpper, checked) && errorCount == |LowerFields(graph, isUpper, checked)|
    {
      hide LowerFields, Reachable;
      CheckType(t);
      assert checked == old(checked) + (checked - old(checked));
      LowerUnion(graph, isUpper, old(checked), checked - old(checked));
      forall u | Reachable(graph, t, u)
        ensures u in checked
      {
        ReachInside(graph, checked, t, u);
      }
    }
  }

  lemma NothingExplored(g: Graph, t: TypeId, a: set<TypeId>)
    ensures Explored(g, t, a, a)
  {
  }

  /** `t` itself has been explored once its successors are. */
  lemma MarkedExplored(g: Graph, t: TypeId, start: set<TypeId>, after: set<TypeId>)
    requires t in g && Explored(g, t, start + {t}, after) && Successors(g[t]) <= after
    ensures Explored(g, t, start, after)
  {
    ReachSelf(g, t);
  }

  lemma Regroup<T>(r: set<T>, a: set<T>, p: set<T>, one: set<T>, b: set<T>)
    ensures r + a + p + one + b == r + (a + b) + (p + one)
  {
  }

  lemma ExploredKeeps(g: Graph, t: TypeId, a: set<TypeId>, b: set<TypeId>)
    requires Explored(g, t, a, b)
    ensures a <= b
  {
  }

  lemma FieldsAreSuccessors(g: Graph, t: TypeId, c: set<TypeId>)
    requires t in g && g[t].Struct? && forall i :: 0 <= i < |g[t].fields| ==> g[t].fields[i].fieldType in c
    ensures Successors(g[t]) <= c
  {
  }

  lemma FieldIsSuccessor(g: Graph, t: TypeId, i: nat)
    requires WellFormed(g) && t in g && g[t].Struct? && i < |g[t].fields|
    ensures g[t].fields[i].fieldType in Successors(g[t]) && g[t].fields[i].fieldType in g
  {
  }

  lemma PrefixNone(g: Graph, isUpper: char -> bool, t: TypeId)
    requires t in g && g[t].Struct?
    ensures LowerPrefix(g, isUpper, t, 0) == {}
  {
  }

  /** A field is not among the earlier fields of its type or the fields of other types. */
  lemma NotReported(g: Graph, isUpper: char -> bool, t: TypeId, i: nat, ts: set<TypeId>)
    requires t in g && g[t].Struct? && i < |g[t].fields| && t !in ts
    ensures Place(t, i) !in LowerPrefix(g, isUpper, t, i)
    ensures Place(t, i) !in LowerFields(g, isUpper, ts)
  {
  }

  lemma NothingLower(g: Graph, isUpper: char -> bool, ts: set<TypeId>)
    requires forall t :: t in ts && t in g ==> !g[t].Struct?
    ensures LowerFields(g, isUpper, ts) == {}
  {
  }

  lemma LowerUnion(g: Graph, isUpper: char -> bool, a: set<TypeId>, b: set<TypeId>)
    ensures LowerFields(g, isUpper, a + b) == LowerFields(g, isUpper, a) + LowerFields(g, isUpper, b)
  {
  }

  lemma PrefixNext(g: Graph, isUpper: char -> bool, t: TypeId, i: nat)
    requires t in g && g[t].Struct? && i < |g[t].fields|
    ensures LowerPrefix(g, isUpper, t, i + 1)
            == LowerPrefix(g, isUpper, t, i) + (if IsLower(g, isUpper, Place(t, i)) then {Place(t, i)} else {})
  {
  }

  lemma WholePrefix(g: Graph, isUpper: char -> bool, t: TypeId)
    requires t in g && g[t].Struct?
    ensures LowerFields(g, isUpper, {t}) == LowerPrefix(g, isUpper, t, |g[t].fields|)
  {
  }

  /** Any sequence of top-level checks: the checked types are exactly those reachable from one of
      the roots, and the error count is the number of their lower-case fields. */
  method CheckAll(graph: Graph, isUpper: char -> bool, roots: seq<TypeId>) returns (checked: set<TypeId>, errors: nat)
    requires WellFormed(graph) && forall i :: 0 <= i < |roots| ==> roots[i] in graph
    ensures forall u :: u in checked <==> exists i :: 0 <= i < |roots| && Reachable(graph, roots[i], u)
    ensures errors == |LowerFields(graph, isUpper, checked)|
  {
    var c := new Checker(graph, isUpper);
    assert LowerFields(graph, isUpper, {}) == {};
    var i := 0;
    while i < |roots|
      invariant 0 <= i <= |roots| && c.Valid() && IsClosed(graph, c.checked)
      invariant c.graph == graph && c.isUpper == isUpper
      invariant c.reported == LowerFields(graph, isUpper, c.checked)
      invariant forall u :: u in c.checked <==> exists j :: 0 <= j < i && Reachable(graph, roots[j], u)
    {
      c.CheckValue(roots[i]);
      i := i + 1;
    }
    checked, errors := c.checked, c.errorCount;
  }
}
