/**
 * The scope chain of the name checker (checker/symtab.rs). A table maps
 * names to slots and may have a parent table; lookup walks outwards and
 * reports the slot together with the number of parents it had to pass.
 *
 * The source shares parents through reference counting and hands a child a
 * copy of the current table; here a parent is a `Scope` value, which is what
 * that copy amounts to. The table being filled (`SymTab`) is a class whose
 * `names` its methods update in place.
 */
module SymTabs {
  import opened Wrappers

  /** A table as a value: its names with their slots, and the table it is nested in. */
  datatype Scope = Scope(names: map<string, nat>, parent: Option<Scope>)

  /** `get_name_internal`: the slot in the innermost table holding `name`, with `hops` counted on top of the tables passed. */
  function Lookup(s: Scope, name: string, hops: nat): Option<(nat, nat)>
    decreases s
  {
    if name in s.names then Some((s.names[name], hops))
    else match s.parent
      case None => None
      case Some(p) => Lookup(p, name, hops + 1)
  }

  /** `get_name`: lookup starting at zero hops. */
  function GetName(s: Scope, name: string): Option<(nat, nat)> {
    Lookup(s, name, 0)
  }

  /** Every name some table of the chain holds. */
  function Visible(s: Scope): set<string>
    decreases s
  {
    s.names.Keys + (match s.parent case None => {} case Some(p) => Visible(p))
  }

  /** The table `k` parents out from `s`, if the chain is that long. */
  function Ancestor(s: Scope, k: nat): Option<Scope>
    decreases s
  {
    if k == 0 then Some(s)
    else match s.parent
      case None => None
      case Some(p) => Ancestor(p, k - 1)
  }

  /** `name` is in the table `d` parents out and in none of the tables before it. */
  predicate InnermostAt(s: Scope, name: string, d: nat) {
    && Ancestor(s, d).Some?
    && name in Ancestor(s, d).value.names
    && forall j :: 0 <= j < d ==> Ancestor(s, j).Some? && name !in Ancestor(s, j).value.names
  }

  /** Starting the hop count at `hops` only shifts the depth reported. */
  lemma {:induction false} LookupShift(s: Scope, name: string, hops: nat)
    ensures Lookup(s, name, hops).Some? <==> GetName(s, name).Some?
    ensures GetName(s, name).Some? ==>
      Lookup(s, name, hops) == Some((GetName(s, name).value.0, GetName(s, name).value.1 + hops))
    decreases s
  {
    if name !in s.names && s.parent.Some? {
      LookupShift(s.parent.value, name, hops + 1);
      LookupShift(s.parent.value, name, 1);
    }
  }

  /** `get_name` finds nothing exactly when no table of the chain holds the name. */
  lemma {:induction false} GetNameNone(s: Scope, name: string)
    ensures GetName(s, name).None? <==> name !in Visible(s)
    decreases s
  {
    if name !in s.names && s.parent.Some? {
      LookupShift(s.parent.value, name, 1);
      GetNameNone(s.parent.value, name);
    }
  }

  /**
   * `get_name` answers `(slot, depth)` exactly when the name's innermost
   * table is `depth` parents out and holds it at `slot`.
   */
  lemma {:induction false} GetNameInnermost(s: Scope, name: string, slot: nat, depth: nat)
    ensures GetName(s, name) == Some((slot, depth)) <==>
      InnermostAt(s, name, depth) && Ancestor(s, depth).value.names[name] == slot
    decreases s
  {
    if name in s.names {
      assert Ancestor(s, 0) == Some(s);
    } else if s.parent.None? {
      if depth > 0 {
        assert Ancestor(s, depth).None?;
      }
    } else {
      var p := s.parent.value;
      LookupShift(p, name, 1);
      if depth == 0 {
        assert !InnermostAt(s, name, depth);
      } else {
        GetNameInnermost(p, name, slot, depth - 1);
        assert Ancestor(s, depth) == Ancestor(p, depth - 1);
        if InnermostAt(s, name, depth) {
          forall j | 0 <= j < depth - 1
            ensures Ancestor(p, j).Some? && name !in Ancestor(p, j).value.names
          {
            assert Ancestor(s, j + 1) == Ancestor(p, j);
          }
        }
        if InnermostAt(p, name, depth - 1) {
          forall j | 0 <= j < depth
            ensures Ancestor(s, j).Some? && name !in Ancestor(s, j).value.names
          {
            if j > 0 {
              assert Ancestor(s, j) == Ancestor(p, j - 1);
            }
          }
        }
      }
    }
  }

  /** What `new` fills its map with: each name at its position, a later position winning over an earlier one. */
  function IndexMap(ns: seq<string>): (m: map<string, nat>)
    ensures m.Keys == set k | 0 <= k < |ns| :: ns[k]
    ensures forall n :: n in m ==> m[n] < |ns| && ns[m[n]] == n
    ensures forall n, k :: n in m && m[n] < k < |ns| ==> ns[k] != n
    decreases |ns|
  {
    if ns == [] then map[]
    else
      var front := IndexMap(ns[..|ns| - 1]);
      assert forall k :: 0 <= k < |ns| - 1 ==> ns[..|ns| - 1][k] == ns[k];
      front[ns[|ns| - 1] := |ns| - 1]
  }

  /** The slots of a table are `0 .. |names| - 1`, each used once. */
  predicate Dense(m: map<string, nat>) {
    && (forall n :: n in m ==> m[n] < |m|)
    && (forall a, b :: a in m && b in m && a != b ==> m[a] != m[b])
  }

  /** With no name repeated, `new` numbers the names densely. */
  lemma DistinctIndexMapDense(ns: seq<string>)
    requires forall i, j :: 0 <= i < j < |ns| ==> ns[i] != ns[j]
    ensures Dense(IndexMap(ns))
    ensures |IndexMap(ns)| == |ns|
  {
    var m := IndexMap(ns);
    forall n | n in m
      ensures m[n] < |ns|
    {
    }
    IndexMapSize(ns);
  }

  lemma {:induction false} IndexMapSize(ns: seq<string>)
    requires forall i, j :: 0 <= i < j < |ns| ==> ns[i] != ns[j]
    ensures |IndexMap(ns)| == |ns|
    decreases |ns|
  {
    if ns != [] {
      var front := ns[..|ns| - 1];
      IndexMapSize(front);
      assert ns[|ns| - 1] !in IndexMap(front);
    }
  }

  /**
   * With a repeated name the map is smaller than the list, and the slot
   * `add_name` hands out next can already be taken: after `new` with
   * `x, x, y` (x at 1, y at 2), a new name gets slot 2 again.
   */
  lemma RepeatedNameReusesSlot()
    ensures IndexMap(["x", "x", "y"]) == map["x" := 1, "y" := 2]
    ensures |IndexMap(["x", "x", "y"])| == 2
  {
    IndexMapStep(["x", "x", "y"]);
    assert ["x", "x", "y"][..2] == ["x", "x"];
    RepeatedTwice();
    var m := map["x" := 1, "y" := 2];
    assert m.Keys == {"x", "y"};
  }

  lemma RepeatedTwice()
    ensures IndexMap(["x", "x"]) == map["x" := 1]
  {
    IndexMapStep(["x", "x"]);
    assert ["x", "x"][..1] == ["x"];
    IndexMapStep(["x"]);
    assert ["x"][..0] == [];
  }

  lemma IndexMapStep(ns: seq<string>)
    requires ns != []
    ensures IndexMap(ns) == IndexMap(ns[..|ns| - 1])[ns[|ns| - 1] := |ns| - 1]
  {
  }

  class SymTab {
    const parent: Option<Scope>
    var names: map<string, nat>

    /** The table as a value, which is what a child receives as its parent. */
    function Value(): Scope
      reads this
    {
      Scope(names, parent)
    }

    /** `new(parent, names)`: each name at its position in `ns`. */
    constructor (parent: Scope, ns: seq<string>)
      ensures this.parent == Some(parent) && names == IndexMap(ns)
    {
      this.parent := Some(parent);
      var hashNames: map<string, nat> := map[];
      for i := 0 to |ns|
        invariant hashNames == IndexMap(ns[..i])
      {
        assert ns[..i + 1][..i] == ns[..i];
        hashNames := hashNames[ns[i] := i];
      }
      assert ns[..|ns|] == ns;
      names := hashNames;
    }

    /** `new_global`: no parent and no names. */
    constructor Global()
      ensures parent == None && names == map[]
    {
      parent := None;
      names := map[];
    }

    /**
     * The slot of `name` in this table: the existing one, with the table
     * unchanged, or the next one, `|names|`, newly inserted. The parent is
     * never touched, and a dense table stays dense.
     */
    method AddName(name: string) returns (slot: nat)
      modifies this`names
      ensures old(name in names) ==> slot == old(names[name]) && names == old(names)
      ensures old(name !in names) ==> slot == old(|names|) && names == old(names)[name := slot]
      ensures Dense(old(names)) ==> Dense(names)
    {
      if name in names {
        return names[name];
      }
      slot := |names|;
      names := names[name := slot];
    }

    /** `get_name`: reads the chain and changes nothing. */
    function GetName(name: string): Option<(nat, nat)>
      reads this
    {
      Lookup(Value(), name, 0)
    }
  }

  /** A global table answers None for every name. */
  lemma GlobalKnowsNothing(name: string)
    ensures GetName(Scope(map[], None), name) == None
  {
  }
}
