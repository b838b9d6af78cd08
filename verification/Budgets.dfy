/** The budget check on types (tools/nativefrontend/budgets.go): a memoised walk over a type graph that
    may be cyclic, and saturating footprints. */
module Budgets {
  import opened Types

  const MAX_INT64: nat := 0x7FFF_FFFF_FFFF_FFFF
  const NO_CUT: nat := 0x7FFF_FFFF_FFFF_FFFF
  const DEPTH_CAP: nat := 64

  type Name = nat

  /** Refs stands for pointers, slices, channels, maps and signatures: the walk goes through their
      parts, the footprint does not. Leaf is every other type. */
  datatype Type = Leaf | Array(len: nat, elem: Type) | Struct(fields: seq<Type>) | Refs(parts: seq<Type>) | Named(name: Name)

  /** The named types, those that count as leaves, and the two budgets. */
  datatype World = World(defs: map<Name, Type>, leaves: set<Name>, arrayLen: nat, arrayFootprint: nat)

  function Underlying(w: World, n: Name): Type {
    if n in w.defs then w.defs[n] else Leaf
  }

  /** Interfaces, imported types and the like: one leaf, and nothing to look into. */
  predicate LeafNamed(w: World, n: Name) {
    n in w.leaves || n !in w.defs
  }

  // ---------------------------------------------------------------------------------------------
  // Saturating footprints
  // ---------------------------------------------------------------------------------------------

  function SatMul(a: nat, b: nat): nat {
    if a == 0 || b == 0 then 0 else if a > MAX_INT64 / b then MAX_INT64 else a * b
  }

  function SatAdd(a: nat, b: nat): nat {
    if a > MAX_INT64 - b then MAX_INT64 else a + b
  }

  /** Saturating operations on saturated values are the true ones, saturated. */
  lemma SatMulIs(a: nat, b: nat)
    ensures SatMul(Min(a, MAX_INT64), Min(b, MAX_INT64)) == Min(a * b, MAX_INT64)
  {
    var x, y := Min(a, MAX_INT64), Min(b, MAX_INT64);
    if a == 0 || b == 0 {
    } else {
      Products(a, b);
      if a <= MAX_INT64 && b <= MAX_INT64 { DivBound(a, b); } else if b > MAX_INT64 { assert MAX_INT64 / MAX_INT64 == 1; }
    }
  }

  lemma Products(a: nat, b: nat)
    requires a > 0 && b > 0
    ensures a * b >= a && a * b >= b
  {
    assert a * b - a == a * (b - 1) >= 0;
    assert a * b - b == (a - 1) * b >= 0;
  }

  lemma DivBound(a: nat, b: nat)
    requires b > 0
    ensures a > MAX_INT64 / b <==> a * b > MAX_INT64
  {
    var m := MAX_INT64;
    Quotient(m, b);
    if a > m / b { Monotone(m / b + 1, a, b); } else { Monotone(a, m / b, b); }
  }

  lemma Quotient(m: nat, b: nat)
    requires b > 0
    ensures m / b * b <= m < (m / b + 1) * b
  {
    assert m == m / b * b + m % b;
    assert (m / b + 1) * b == m / b * b + b;
  }

  lemma Monotone(x: nat, y: nat, b: nat)
    requires x <= y
    ensures x * b <= y * b
  {
    assert y * b - x * b == (y - x) * b;
  }

  lemma SatAddIs(a: nat, b: nat)
    ensures SatAdd(Min(a, MAX_INT64), Min(b, MAX_INT64)) == Min(a + b, MAX_INT64)
  {
  }

  /** budgetFootprintDepth: scalar leaves of a type, saturating, and saturated below the cap. */
  function Footprint(w: World, t: Type, depth: nat): nat
    decreases DEPTH_CAP + 1 - depth, t, 0
  {
    if depth > DEPTH_CAP then MAX_INT64
    else match t
      case Array(len, elem) => SatMul(Min(len, MAX_INT64), Footprint(w, elem, depth + 1))
      case Named(n) => if LeafNamed(w, n) then 1 else Footprint(w, Underlying(w, n), depth + 1)
      case Struct(fields) => Max(FieldsFootprint(w, fields, depth), 1)
      case _ => 1
  }

  function FieldsFootprint(w: World, fields: seq<Type>, depth: nat): nat
    requires depth <= DEPTH_CAP
    decreases DEPTH_CAP + 1 - depth, fields, 1
  {
    if fields == [] then 0
    else
      var n := |fields| - 1;
      SatAdd(FieldsFootprint(w, fields[..n], depth), Footprint(w, fields[n], depth + 1))
  }

  /** Values of the type nest at most n deep. */
  predicate NestsWithin(w: World, t: Type, n: nat)
    decreases n
  {
    match t
    case Array(_, elem) => n > 0 && NestsWithin(w, elem, n - 1)
    case Named(x) => LeafNamed(w, x) || (n > 0 && NestsWithin(w, Underlying(w, x), n - 1))
    case Struct(fields) => fields == [] || (n > 0 && forall i :: 0 <= i < |fields| ==> NestsWithin(w, fields[i], n - 1))
    case _ => true
  }

  /** The true number of scalar leaves. */
  function Leaves(w: World, t: Type, n: nat): nat
    requires NestsWithin(w, t, n)
    decreases n, t, 0
  {
    match t
    case Array(len, elem) => len * Leaves(w, elem, n - 1)
    case Named(x) => if LeafNamed(w, x) then 1 else Leaves(w, Underlying(w, x), n - 1)
    case Struct(fields) => if fields == [] then 1 else Max(FieldLeaves(w, fields, n - 1), 1)
    case _ => 1
  }

  function FieldLeaves(w: World, fields: seq<Type>, n: nat): nat
    requires forall i :: 0 <= i < |fields| ==> NestsWithin(w, fields[i], n)
    decreases n + 1, fields, 1
  {
    if fields == [] then 0
    else FieldLeaves(w, fields[..|fields| - 1], n) + Leaves(w, fields[|fields| - 1], n)
  }

  /** On a type that nests no deeper than the cap, the footprint is the true count, saturated. */
  lemma {:induction false} FootprintIs(w: World, t: Type, depth: nat, n: nat)
    requires NestsWithin(w, t, n) && depth + n <= DEPTH_CAP
    ensures Footprint(w, t, depth) == Min(Leaves(w, t, n), MAX_INT64)
    decreases n, t, 0
  {
    match t
    case Array(len, elem) =>
      FootprintIs(w, elem, depth + 1, n - 1);
      SatMulIs(len, Leaves(w, elem, n - 1));
    case Named(x) => if !LeafNamed(w, x) { FootprintIs(w, Underlying(w, x), depth + 1, n - 1); }
    case Struct(fields) => if fields != [] { FieldsFootprintIs(w, fields, depth, n - 1); }
    case _ =>
  }

  lemma {:induction false} FieldsFootprintIs(w: World, fields: seq<Type>, depth: nat, n: nat)
    requires (forall i :: 0 <= i < |fields| ==> NestsWithin(w, fields[i], n)) && depth + 1 + n <= DEPTH_CAP
    ensures FieldsFootprint(w, fields, depth) == Min(FieldLeaves(w, fields, n), MAX_INT64)
    decreases n + 1, fields, 1
  {
    if fields != [] {
      var k := |fields| - 1;
      FieldsFootprintIs(w, fields[..k], depth, n);
      FootprintIs(w, fields[k], depth + 1, n);
      SatAddIs(FieldLeaves(w, fields[..k], n), Leaves(w, fields[k], n));
    }
  }

  /** So comparing the footprint with any budget below the saturation point is comparing the count. */
  lemma FootprintCompares(w: World, t: Type, n: nat, budget: nat)
    requires NestsWithin(w, t, n) && n <= 64 && budget < 0x7FFF_FFFF_FFFF_FFFF
    ensures Footprint(w, t, 0) > budget <==> Leaves(w, t, n) > budget
  {
    FootprintIs(w, t, 0, n);
  }

  /** Structs of one field inside one another. */
  function Chain(n: nat): Type {
    if n == 0 then Leaf else Struct([Chain(n - 1)])
  }

  /** Nesting is looked into 64 deep: what nests deeper counts as too large for any budget. */
  lemma {:induction false} ChainFootprint(w: World, n: nat, depth: nat)
    requires depth <= 65
    ensures Footprint(w, Chain(n), depth) == if depth + n <= 64 then 1 else 0x7FFF_FFFF_FFFF_FFFF
    decreases n
  {
    if n > 0 && depth <= 64 {
      ChainFootprint(w, n - 1, depth + 1);
      var fields := [Chain(n - 1)];
      assert fields[..0] == [];
      assert FieldsFootprint(w, fields[..0], depth) == 0;
      assert FieldsFootprint(w, fields, depth) == SatAdd(0, Footprint(w, fields[0], depth + 1));
    }
  }

  // ---------------------------------------------------------------------------------------------
  // What is reachable
  // ---------------------------------------------------------------------------------------------

  function Parts(w: World, t: Type): seq<Type> {
    match t
    case Array(_, elem) => [elem]
    case Struct(fields) => fields
    case Refs(parts) => parts
    case Named(n) => if LeafNamed(w, n) then [] else [Underlying(w, n)]
    case Leaf => []
  }

  /** A type over budget by itself: too long an array, too large an array, or a named struct too large
      in all. */
  predicate Bad(w: World, t: Type) {
    match t
    case Array(len, _) => len > w.arrayLen || Footprint(w, t, 0) > w.arrayFootprint
    case Named(n) => !LeafNamed(w, n) && Underlying(w, n).Struct? && Footprint(w, Underlying(w, n), 0) > w.arrayFootprint
    case _ => false
  }

  /** A chain of parts of parts, from t to a bad type. */
  predicate BadPath(w: World, t: Type, p: seq<Type>) {
    && p != [] && p[0] == t && Bad(w, p[|p| - 1])
    && forall i :: 0 <= i < |p| - 1 ==> p[i + 1] in Parts(w, p[i])
  }

  ghost predicate Violates(w: World, t: Type) {
    exists p: seq<Type> :: BadPath(w, t, p)
  }

  predicate IsOpen(t: Type, open: map<Name, nat>, low: nat) {
    t.Named? && t.name in open && open[t.name] >= low
  }

  predicate Cut(p: seq<Type>, open: map<Name, nat>, low: nat) {
    exists i :: 0 <= i < |p| && IsOpen(p[i], open, low)
  }

  /** Every bad path from t passes through an open named type at or above the cut mark. */
  ghost predicate AllCut(w: World, t: Type, open: map<Name, nat>, low: nat) {
    forall p: seq<Type> :: BadPath(w, t, p) ==> Cut(p, open, low)
  }

  ghost predicate AllCutIn(w: World, ts: seq<Type>, open: map<Name, nat>, low: nat) {
    forall i :: 0 <= i < |ts| ==> AllCut(w, ts[i], open, low)
  }

  lemma CutLower(w: World, t: Type, open: map<Name, nat>, low: nat, lower: nat)
    requires AllCut(w, t, open, low) && lower <= low
    ensures AllCut(w, t, open, lower)
  {
    hide BadPath;
    forall p: seq<Type> | BadPath(w, t, p) ensures Cut(p, open, lower) {
      var i :| 0 <= i < |p| && IsOpen(p[i], open, low);
      assert IsOpen(p[i], open, lower);
    }
  }

  /** A part that violates makes the whole violate. */
  lemma PartViolates(w: World, t: Type, part: Type)
    requires part in Parts(w, t) && Violates(w, part)
    ensures Violates(w, t)
  {
    hide Bad, Parts;
    var p: seq<Type> :| BadPath(w, part, p);
    var q := [t] + p;
    assert q[|q| - 1] == p[|p| - 1];
    forall i | 0 <= i < |q| - 1 ensures q[i + 1] in Parts(w, q[i]) {
      if i > 0 { assert q[i] == p[i - 1] && q[i + 1] == p[i]; }
    }
    assert BadPath(w, t, q);
  }

  lemma BadViolates(w: World, t: Type)
    requires Bad(w, t)
    ensures Violates(w, t)
  {
    hide Bad, Parts;
    assert BadPath(w, t, [t]);
  }

  /** From a type that is not bad, a bad path goes on through one of the parts. */
  lemma PathTail(w: World, t: Type, p: seq<Type>)
    requires BadPath(w, t, p) && !Bad(w, t)
    ensures |p| > 1 && p[1] in Parts(w, t) && BadPath(w, p[1], p[1..])
  {
    hide Bad, Parts;
    assert p[1..][|p| - 2] == p[|p| - 1];
    forall i | 0 <= i < |p| - 2 ensures p[1..][i + 1] in Parts(w, p[1..][i]) {
      assert p[1..][i] == p[i + 1] && p[1..][i + 1] == p[i + 2];
    }
  }

  lemma CutTail(p: seq<Type>, k: nat, open: map<Name, nat>, low: nat)
    requires k <= |p| && Cut(p[k..], open, low)
    ensures Cut(p, open, low)
  {
    var i :| 0 <= i < |p[k..]| && IsOpen(p[k..][i], open, low);
    assert p[k + i] == p[k..][i];
  }

  /** If all bad paths from the parts are cut, those from the whole are. */
  lemma PartsCut(w: World, t: Type, open: map<Name, nat>, low: nat)
    requires !Bad(w, t) && AllCutIn(w, Parts(w, t), open, low)
    ensures AllCut(w, t, open, low)
  {
    hide Bad, Parts, BadPath, Cut;
    forall p: seq<Type> | BadPath(w, t, p) ensures Cut(p, open, low) {
      PathTail(w, t, p);
      var i :| 0 <= i < |Parts(w, t)| && Parts(w, t)[i] == p[1];
      assert AllCut(w, Parts(w, t)[i], open, low);
      CutTail(p, 1, open, low);
    }
  }

  /** The last time a bad path passes t: what follows is a bad path that does not come back to t. */
  lemma {:induction false} LastVisit(w: World, t: Type, from: Type, p: seq<Type>) returns (k: nat)
    requires BadPath(w, from, p) && t in p
    ensures k < |p| && BadPath(w, t, p[k..]) && t !in p[k + 1..]
    decreases |p|
  {
    hide Bad, Parts;
    if t !in p[1..] {
      k := 0;
      assert p[0] == t && p[0..] == p;
    } else {
      assert p[1..][|p| - 2] == p[|p| - 1];
      forall i | 0 <= i < |p| - 2 ensures p[1..][i + 1] in Parts(w, p[1..][i]) {
        assert p[1..][i] == p[i + 1] && p[1..][i + 1] == p[i + 2];
      }
      var j := LastVisit(w, t, p[1], p[1..]);
      k := j + 1;
      assert p[1..][j..] == p[k..] && p[1..][j + 1..] == p[k + 1..];
    }
  }

  /** Closing a named type: bad paths from it that were cut only at itself are no bad paths at all, as
      the last stretch of such a path does not come back. */
  lemma NamedCut(w: World, n: Name, open: map<Name, nat>, idx: nat, low: nat)
    requires n !in open && !LeafNamed(w, n) && !Bad(w, Named(n)) && AllCut(w, Underlying(w, n), open[n := idx], low)
    ensures AllCut(w, Named(n), open, low)
  {
    hide Bad, Cut;
    var t := Named(n);
    forall p: seq<Type> | BadPath(w, t, p) ensures Cut(p, open, low) {
      assert p[0] == t;
      var k := LastVisit(w, t, t, p);
      var q := p[k..];
      PathTail(w, t, q);
      assert q[1..] == p[k + 1..];
      assert q[1] == Underlying(w, n);
      Elsewhere(q[1..], n, open, idx, low);
      CutTail(p, k + 1, open, low);
    }
  }

  lemma Elsewhere(p: seq<Type>, n: Name, open: map<Name, nat>, idx: nat, low: nat)
    requires Named(n) !in p && Cut(p, open[n := idx], low)
    ensures Cut(p, open, low)
  {
    var i :| 0 <= i < |p| && IsOpen(p[i], open[n := idx], low);
    assert p[i] in p;
    assert IsOpen(p[i], open, low);
  }

  lemma NothingOpen(w: World, t: Type, open: map<Name, nat>, low: nat)
    requires AllCut(w, t, open, low) && forall n :: n in open ==> open[n] < low
    ensures !Violates(w, t)
  {
    hide BadPath;
  }

  /** Every memo entry is the truth. */
  ghost predicate MemoRight(w: World, memo: map<Name, bool>) {
    forall n :: n in memo ==> (memo[n] <==> Violates(w, Named(n)))
  }

  // ---------------------------------------------------------------------------------------------
  // How deep a walk can go
  // ---------------------------------------------------------------------------------------------

  function Height(t: Type): nat {
    match t
    case Array(_, elem) => 1 + Height(elem)
    case Struct(fields) => 1 + Tallest(fields)
    case Refs(parts) => 1 + Tallest(parts)
    case _ => 0
  }

  function Tallest(ts: seq<Type>): nat {
    if ts == [] then 0 else Max(Height(ts[0]), Tallest(ts[1..]))
  }

  lemma {:induction false} TallestIs(ts: seq<Type>, i: nat)
    requires i < |ts|
    ensures Height(ts[i]) <= Tallest(ts)
  {
    if i > 0 { TallestIs(ts[1..], i - 1); }
  }

  /** The heights of the named types not yet open, each with the step into it. */
  ghost function Unopened(w: World, names: set<Name>): nat {
    if names == {} then 0
    else
      var n :| n in names;
      1 + Height(Underlying(w, n)) + Unopened(w, names - {n})
  }

  lemma {:induction false} UnopenedMinus(w: World, names: set<Name>, n: Name)
    requires n in names
    ensures Unopened(w, names) == 1 + Height(Underlying(w, n)) + Unopened(w, names - {n})
    decreases |names|
  {
    var m :| m in names && Unopened(w, names) == 1 + Height(Underlying(w, m)) + Unopened(w, names - {m});
    if m != n {
      UnopenedMinus(w, names - {m}, n);
      UnopenedMinus(w, names - {n}, m);
      assert names - {m} - {n} == names - {n} - {m};
    }
  }

  /** No walk from t with these names open can reach the depth cap. */
  ghost predicate Shallow(w: World, t: Type, open: map<Name, nat>, depth: nat) {
    depth + Height(t) + Unopened(w, w.defs.Keys - open.Keys) <= 64
  }

  lemma ShallowPart(w: World, t: Type, i: nat, open: map<Name, nat>, depth: nat)
    requires !t.Named? && i < |Parts(w, t)| && Shallow(w, t, open, depth)
    ensures Shallow(w, Parts(w, t)[i], open, depth + 1)
  {
    match t
    case Struct(fields) => TallestIs(fields, i);
    case Refs(parts) => TallestIs(parts, i);
    case _ =>
  }

  lemma ShallowNamed(w: World, n: Name, open: map<Name, nat>, depth: nat, idx: nat)
    requires n !in open && Shallow(w, Named(n), open, depth) && n in w.defs
    ensures Shallow(w, Underlying(w, n), open[n := idx], depth + 1)
  {
    UnopenedMinus(w, w.defs.Keys - open.Keys, n);
    assert w.defs.Keys - open[n := idx].Keys == w.defs.Keys - open.Keys - {n};
  }

  // ---------------------------------------------------------------------------------------------
  // The walk
  // ---------------------------------------------------------------------------------------------

  predicate OpenBelow(open: map<Name, nat>, n: nat) {
    forall x :: x in open ==> open[x] < n
  }

  /** The walk: its memo over named types, and the named types open on the walk's stack with their
      positions. `capped` records whether a walk was ever stopped by the depth cap. */
  class Walker {
    const w: World
    var memo: map<Name, bool>
    var visiting: map<Name, nat>
    ghost var capped: bool

    constructor (w: World)
      ensures this.w == w && memo == map[] && visiting == map[] && !capped
    {
      this.w := w;
      memo, visiting, capped := map[], map[], false;
    }

    ghost predicate Right()
      reads this
    {
      capped || MemoRight(w, memo)
    }

    /** What holds whenever a walk is at this depth. */
    ghost predicate Ready(depth: nat)
      reads this
    {
      && (capped || MemoRight(w, memo))
      && |visiting| <= depth && OpenBelow(visiting, |visiting|) && visiting.Keys <= w.defs.Keys
    }

    /** What a walk leaves behind: a right memo, unless the depth cap stopped some walk, which it did not
        newly do if the type is shallow. */
    twostate predicate Kept(shallow: bool)
      reads this
    {
      && visiting == old(visiting) && (old(capped) ==> capped)
      && (capped || MemoRight(w, memo))
      && (shallow && !old(capped) ==> !capped)
    }

    /** typeBudgetViolationWalk: whether a violation was found, and the lowest stack position of an open
        named type at which recursion was cut. */
    method Walk(t: Type, depth: nat) returns (over: bool, low: nat)
      requires Ready(depth) && depth <= DEPTH_CAP + 1
      modifies `memo, `visiting, `capped
      ensures Kept(Shallow(w, t, old(visiting), depth))
      ensures !capped ==> if over then Violates(w, t) else AllCut(w, t, visiting, low)
      decreases DEPTH_CAP + 1 - depth, 1
    {
      hide Footprint, BadPath, Cut, Violates, AllCut, AllCutIn, MemoRight, Shallow, OpenBelow;
      if depth > DEPTH_CAP {
        TooDeep(w, t, visiting, depth);
        capped := true;
        return false, NO_CUT;
      }
      match t {
        case Array(len, elem) =>
          if len > w.arrayLen {
            BadViolates(w, t);
            return true, NO_CUT;
          }
          over, low := WalkParts(t, [elem], depth);
          if over { return; }
          over := Footprint(w, t, 0) > w.arrayFootprint;
          if over { BadViolates(w, t); } else if !capped { PartsCut(w, t, visiting, low); }
        case Named(n) =>
          over, low := WalkNamed(n, depth);
        case Struct(fields) =>
          over, low := WalkParts(t, fields, depth);
          if !over && !capped { PartsCut(w, t, visiting, low); }
        case Refs(parts) =>
          over, low := WalkParts(t, parts, depth);
          if !over && !capped { PartsCut(w, t, visiting, low); }
        case Leaf =>
          NoParts(w, t, visiting, NO_CUT);
          return false, NO_CUT;
      }
    }

    /** The parts of a type in turn: the first violation wins, the cut mark is the least. */
    method WalkParts(t: Type, parts: seq<Type>, depth: nat) returns (over: bool, low: nat)
      requires Ready(depth) && depth <= DEPTH_CAP && parts == Parts(w, t) && !t.Named?
      modifies `memo, `visiting, `capped
      ensures Kept(Shallow(w, t, old(visiting), depth))
      ensures !capped ==> if over then Violates(w, t) else AllCutIn(w, Parts(w, t), visiting, low)
      decreases DEPTH_CAP + 1 - depth, 0
    {
      hide Bad, Footprint, BadPath, Cut, Violates, AllCut, MemoRight, Shallow, OpenBelow, Parts;
      low := NO_CUT;
      for i := 0 to |parts|
        invariant Kept(Shallow(w, t, old(visiting), depth))
        invariant !capped ==> forall j :: 0 <= j < i ==> AllCut(w, parts[j], visiting, low)
      {
        if Shallow(w, t, old(visiting), depth) { ShallowPart(w, t, i, old(visiting), depth); }
        var v, cut := Walk(parts[i], depth + 1);
        ghost var was := low;
        if cut < low { low := cut; }
        if v {
          if !capped { PartViolates(w, t, parts[i]); }
          return true, low;
        }
        if !capped {
          forall j | 0 <= j < i ensures AllCut(w, parts[j], visiting, low) {
            CutLower(w, parts[j], visiting, was, low);
          }
          CutLower(w, parts[i], visiting, cut, low);
        }
      }
      return false, low;
    }

    /** A named type: a leaf, answered by the memo, cut because it is open, or walked with itself open.
        The answer is memoised only when every cut below was at this type itself. */
    method WalkNamed(n: Name, depth: nat) returns (over: bool, low: nat)
      requires Ready(depth) && depth <= DEPTH_CAP
      modifies `memo, `visiting, `capped
      ensures Kept(Shallow(w, Named(n), old(visiting), depth))
      ensures !capped ==> if over then Violates(w, Named(n)) else AllCut(w, Named(n), visiting, low)
      decreases DEPTH_CAP + 1 - depth, 0
    {
      hide Footprint, BadPath, Cut, Violates, AllCut, MemoRight, Shallow, OpenBelow;
      if LeafNamed(w, n) {
        NoParts(w, Named(n), visiting, NO_CUT);
        return false, NO_CUT;
      }
      if n in memo {
        if !capped { MemoAnswers(w, memo, n, visiting, NO_CUT); }
        return memo[n], NO_CUT;
      }
      if n in visiting {
        CutHere(w, n, visiting);
        return false, visiting[n];
      }
      var idx := |visiting|;
      ghost var open := visiting;
      visiting := visiting[n := idx];
      Opened(open, n);
      if Shallow(w, Named(n), open, depth) { ShallowNamed(w, n, open, depth, idx); }
      over, low := Walk(Underlying(w, n), depth + 1);
      if !over && Underlying(w, n).Struct? {
        over := Footprint(w, Underlying(w, n), 0) > w.arrayFootprint;
      }
      visiting := visiting - {n};
      assert visiting == open;
      if !capped {
        if Bad(w, Named(n)) {
          BadViolates(w, Named(n));
        } else if over {
          PartViolates(w, Named(n), Underlying(w, n));
        } else {
          NamedCut(w, n, open, idx, low);
        }
      }
      if low >= idx {
        if !capped {
          if !over { Complete(w, Named(n), open, low); }
          MemoSet(w, memo, n, over);
        }
        memo := memo[n := over];
        low := NO_CUT;
      }
    }

    /** typeBudgetViolation: with a right memo, and on a type the cap does not truncate, exactly whether a
        violation is reachable; and the memo stays right for whatever is asked next. */
    method TypeBudgetViolation(t: Type) returns (over: bool)
      requires Right() && visiting == map[]
      modifies `memo, `visiting, `capped
      ensures Right() && visiting == map[] && (old(capped) ==> capped)
      ensures !capped ==> (over <==> Violates(w, t))
      ensures !old(capped) && Shallow(w, t, map[], 0) ==> !capped
    {
      hide BadPath, Cut, Violates, AllCut, MemoRight, Shallow;
      var low;
      over, low := Walk(t, 0);
      if !capped && !over { NothingOpen(w, t, visiting, low); }
    }
  }

  // ---------------------------------------------------------------------------------------------
  // Steps of the walk
  // ---------------------------------------------------------------------------------------------

  lemma TooDeep(w: World, t: Type, open: map<Name, nat>, depth: nat)
    requires depth > DEPTH_CAP
    ensures !Shallow(w, t, open, depth)
  {
  }

  lemma NoParts(w: World, t: Type, open: map<Name, nat>, low: nat)
    requires Parts(w, t) == [] && !Bad(w, t)
    ensures AllCut(w, t, open, low)
  {
    hide Bad, Parts;
    PartsCut(w, t, open, low);
  }

  lemma MemoAnswers(w: World, memo: map<Name, bool>, n: Name, open: map<Name, nat>, low: nat)
    requires MemoRight(w, memo) && n in memo
    ensures if memo[n] then Violates(w, Named(n)) else AllCut(w, Named(n), open, low)
  {
    hide BadPath;
  }

  lemma CutHere(w: World, n: Name, open: map<Name, nat>)
    requires n in open
    ensures AllCut(w, Named(n), open, open[n])
  {
    hide Bad, Parts;
    forall p: seq<Type> | BadPath(w, Named(n), p) ensures Cut(p, open, open[n]) {
      assert IsOpen(p[0], open, open[n]);
    }
  }

  lemma Opened(open: map<Name, nat>, n: Name)
    requires OpenBelow(open, |open|) && n !in open
    ensures |open[n := |open|]| == |open| + 1 && OpenBelow(open[n := |open|], |open| + 1)
  {
    assert open[n := |open|].Keys == open.Keys + {n};
  }

  /** When every cut was at the closed type itself, or there was none, no violation is reachable. */
  lemma Complete(w: World, t: Type, open: map<Name, nat>, low: nat)
    requires AllCut(w, t, open, low) && OpenBelow(open, |open|) && low >= |open|
    ensures !Violates(w, t) && AllCut(w, t, open, NO_CUT)
  {
    hide BadPath;
    NothingOpen(w, t, open, low);
  }

  lemma MemoSet(w: World, memo: map<Name, bool>, n: Name, over: bool)
    requires MemoRight(w, memo) && (over <==> Violates(w, Named(n)))
    ensures MemoRight(w, memo[n := over])
  {
    hide Violates;
  }
}
