/**
 * What the scope operations of `alany/memory.py` promise about the parent
 * chain: which scope a lookup, a test, a global binding or an assignment
 * reaches, and that the answer does not depend on the ghost universe used
 * to walk the chain.
 */
module ScopeLemmas {
  import opened Text
  import opened AlanyMemory

  // ---------------------------------------------------------------------
  // The chain
  // ---------------------------------------------------------------------

  /** Each scope on the chain is followed by its parent, and the chain ends at the root. */
  lemma {:induction false} ChainLinks(m: Memory, U: set<Memory>)
    requires m.ChainIn(U)
    ensures var c := m.Chain(U);
      (forall i | 0 <= i < |c| - 1 :: c[i].parent == c[i + 1])
      && c[|c| - 1].parent == null
      && forall i | 0 <= i < |c| :: c[i] in U
    decreases U
  {
    if m.parent != null {
      ChainLinks(m.parent, U - {m});
    }
  }

  /** `get_global_memory` returns the last scope of the chain. */
  lemma {:induction false} GlobalMemoryEndsChain(m: Memory, U: set<Memory>)
    requires m.ChainIn(U)
    ensures var c := m.Chain(U); m.GetGlobalMemory(U) == c[|c| - 1]
    decreases U
  {
    if m.parent != null {
      GlobalMemoryEndsChain(m.parent, U - {m});
    }
  }

  /** Walking the chain in any universe that contains it visits the same scopes. */
  lemma {:induction false} ChainAnyUniverse(m: Memory, U: set<Memory>, V: set<Memory>)
    requires m.ChainIn(U) && m.ChainIn(V)
    ensures m.Chain(U) == m.Chain(V)
    decreases U
  {
    if m.parent != null {
      ChainAnyUniverse(m.parent, U - {m}, V - {m});
    }
  }

  /** A scope whose chain lies in `U` has a chain in any larger universe. */
  lemma {:induction false} ChainInLarger(m: Memory, U: set<Memory>, V: set<Memory>)
    requires m.ChainIn(U) && U <= V
    ensures m.ChainIn(V)
    decreases U
  {
    if m.parent != null {
      ChainInLarger(m.parent, U - {m}, V - {m});
    }
  }

  // ---------------------------------------------------------------------
  // Holder: the nearest scope with a key
  // ---------------------------------------------------------------------

  /** The nearest holder of a key does not depend on the universe the chain is walked in. */
  lemma {:induction false} HolderAnyUniverse(m: Memory, U: set<Memory>, V: set<Memory>, key: string)
    requires m.ChainIn(U) && m.ChainIn(V)
    ensures m.Holder(U, key) == m.Holder(V, key)
    decreases U
  {
    if key !in m.variables && m.parent != null {
      HolderAnyUniverse(m.parent, U - {m}, V - {m}, key);
    }
  }

  /** No scope holds the key exactly when no scope on the chain has it among its variables. */
  lemma {:induction false} HolderNone(m: Memory, U: set<Memory>, key: string)
    requires m.ChainIn(U)
    ensures m.Holder(U, key) == null ==> forall i | 0 <= i < |m.Chain(U)| :: key !in m.Chain(U)[i].variables
    ensures m.Holder(U, key) != null ==> exists i | 0 <= i < |m.Chain(U)| :: key in m.Chain(U)[i].variables
    decreases U
  {
    var c := m.Chain(U);
    if m.parent != null {
      var tail := m.parent.Chain(U - {m});
      assert c == [m] + tail;
      if key in m.variables {
        assert key in c[0].variables;
      } else {
        assert m.Holder(U, key) == m.parent.Holder(U - {m}, key);
        HolderNone(m.parent, U - {m}, key);
        assert forall i | 1 <= i < |c| :: c[i] == tail[i - 1];
        if m.Holder(U, key) != null {
          var k :| 0 <= k < |tail| && key in tail[k].variables;
          assert key in c[k + 1].variables;
        }
      }
    } else {
      assert c == [m];
      if key in m.variables {
        assert key in c[0].variables;
      } else {
        assert m.Holder(U, key) == null;
        assert forall i | 0 <= i < |c| :: c[i] == m;
      }
    }
  }

  /**
   * The holder is the first scope on the chain that has the key: inner
   * bindings shadow outer ones.
   */
  lemma {:induction false} HolderNearest(m: Memory, U: set<Memory>, key: string, j: nat)
    requires m.ChainIn(U)
    requires j < |m.Chain(U)| && key in m.Chain(U)[j].variables
    requires forall i | 0 <= i < j :: key !in m.Chain(U)[i].variables
    ensures m.Holder(U, key) == m.Chain(U)[j]
    decreases U
  {
    var c := m.Chain(U);
    if j > 0 {
      assert key !in c[0].variables;
      var tail := m.parent.Chain(U - {m});
      assert c == [m] + tail;
      assert forall i | 0 <= i < j - 1 :: tail[i] == c[i + 1];
      HolderNearest(m.parent, U - {m}, key, j - 1);
    }
  }

  // ---------------------------------------------------------------------
  // in_memory
  // ---------------------------------------------------------------------

  /**
   * `in_memory(name)` holds exactly when the part of `name` before the
   * first '.' is a key of some scope on the chain.
   */
  lemma InMemoryOnChain(m: Memory, U: set<Memory>, name: string)
    requires m.ChainIn(U)
    ensures m.InMemory(U, name) <==> exists i | 0 <= i < |m.Chain(U)| :: Head(name) in m.Chain(U)[i].variables
  {
    HolderNone(m, U, Head(name));
  }

  /** Only the head segment matters to `in_memory`. */
  lemma InMemoryHeadOnly(m: Memory, U: set<Memory>, name: string)
    requires m.ChainIn(U)
    ensures m.InMemory(U, name) == m.InMemory(U, Head(name))
  {
    HeadIdempotent(name);
  }

  // ---------------------------------------------------------------------
  // get_global_memory and the target of add_global_var
  // ---------------------------------------------------------------------

  /** Any universe gives the same root. */
  lemma {:induction false} GlobalMemoryAnyUniverse(m: Memory, U: set<Memory>, V: set<Memory>)
    requires m.ChainIn(U) && m.ChainIn(V)
    ensures m.GetGlobalMemory(U) == m.GetGlobalMemory(V)
    decreases U
  {
    if m.parent != null {
      GlobalMemoryAnyUniverse(m.parent, U - {m}, V - {m});
    }
  }

  /**
   * `add_global_var` writes into the first scope on the chain, starting
   * with the receiver, that has no parent or is a block boundary; every
   * scope before it has a parent and is not a boundary.
   */
  lemma {:induction false} GlobalScopeIsFirstBoundary(m: Memory, U: set<Memory>, j: nat)
    requires m.ChainIn(U)
    requires j < |m.Chain(U)|
    requires m.Chain(U)[j].parent == null || m.Chain(U)[j].block
    requires forall i | 0 <= i < j :: m.Chain(U)[i].parent != null && !m.Chain(U)[i].block
    ensures m.GlobalScope(U) == m.Chain(U)[j]
    decreases U
  {
    var c := m.Chain(U);
    if j > 0 {
      assert c[0] == m && m.parent != null && !m.block;
      var tail := m.parent.Chain(U - {m});
      assert c == [m] + tail;
      assert forall i | 0 <= i < j - 1 :: tail[i] == c[i + 1];
      GlobalScopeIsFirstBoundary(m.parent, U - {m}, j - 1);
    }
  }

  /** The target of `add_global_var` is on the chain (the root is always a candidate). */
  lemma {:induction false} GlobalScopeOnChain(m: Memory, U: set<Memory>)
    requires m.ChainIn(U)
    ensures m.GlobalScope(U) in m.Chain(U)
    decreases U
  {
    if m.parent != null && !m.block {
      GlobalScopeOnChain(m.parent, U - {m});
    }
  }

  /** A scope with a parent that is not a boundary is never the target. */
  lemma GlobalScopeSkipsIntermediate(m: Memory, U: set<Memory>)
    requires m.ChainIn(U) && m.parent != null && !m.block
    ensures m.GlobalScope(U) != m
  {
  }

  // ---------------------------------------------------------------------
  // get_var
  // ---------------------------------------------------------------------

  /**
   * `get_var` on a dot-free name: the binding in the nearest scope that
   * holds it, or, when no scope does, the root's parse of the name as a
   * literal.
   */
  lemma GetVarDotFree(Full: set<Memory>, m: Memory, name: string)
    requires Closed(Full) && m in Full && '.' !in name
    ensures var h := m.Holder(Full, name);
      h != null ==> m.GetVar(Full, name) == Ok(Bound(h.variables[name]))
    ensures m.Holder(Full, name) == null ==>
      m.GetVar(Full, name) ==
        match ClearParseValue(Full, m.GetGlobalMemory(Full), PyStr(name))
        case Ok(v) => Ok(Literal(v))
        case Err(f) => Err(f)
  {
    SplitWithoutSep(name, '.');
    assert Head(name) == name;
    var h := m.Holder(Full, name);
    if h != null {
      assert BoundMember(Full, m, name) == Member(Full, h.variables[name], []);
    }
  }

  /**
   * `get_var` on `a.rest` with `a` bound: the rest is looked up in the member
   * scope of `a`'s nearest binding, and a binding without one fails.
   */
  lemma GetVarDotted(Full: set<Memory>, m: Memory, name: string)
    requires Closed(Full) && m in Full && '.' in name
    requires m.Holder(Full, Head(name)) != null
    ensures var d := m.Holder(Full, Head(name)).variables[Head(name)];
      var rest := Join('.', Split(name, '.')[1..]);
      m.GetVar(Full, name) == if d.mem.None? then Err(AttributeFault) else d.mem.value.GetVar(Full, rest)
  {
    SplitWithSep(name, '.');
    var names := Split(name, '.');
    var d := m.Holder(Full, Head(name)).variables[Head(name)];
    assert BoundMember(Full, m, name) == Member(Full, d, names[1..]);
    assert names[1..] != [];
  }

  /**
   * The lookup as `get_var` is written: a scope that does not hold the head
   * forwards the whole name to its parent.
   */
  lemma GetVarForwards(Full: set<Memory>, m: Memory, name: string)
    requires Closed(Full) && m in Full
    requires Head(name) !in m.variables && m.parent != null
    ensures m.parent in Full && m.GetVar(Full, name) == m.parent.GetVar(Full, name)
  {
    assert m.ChainIn(Full);
    assert m.parent.ChainIn(Full - {m});
    HolderAnyUniverse(m.parent, Full - {m}, Full, Head(name));
    GlobalMemoryAnyUniverse(m.parent, Full - {m}, Full);
  }

  // ---------------------------------------------------------------------
  // add_var and set_var
  // ---------------------------------------------------------------------

  /**
   * `add_var` with a dot-free name binds exactly that name in the receiving
   * scope (the method's postcondition says no other entry changes), and
   * fails only when the value cannot be classified.
   */
  lemma AddVarDotFree(Full: set<Memory>, m: Memory, value: Raw, name: string)
    requires Closed(Full) && m in Full && Refs(value) <= Full && '.' !in name
    ensures var r := m.AddVarEffect(Full, value, name);
      r.Ok? ==> r.value.value.scope == m && r.value.value.name == name
    ensures m.AddVarEffect(Full, value, name).Err? <==>
      (ClearParseValue(Full, m, value).Err?
       || NewData(Full, m, ClearParseValue(Full, m, value).value, name, false).Err?)
  {
    SplitWithoutSep(name, '.');
  }

  /** `add_var` on `a.rest` with `a` not bound anywhere fails: the root's literal has no members. */
  lemma AddVarUnboundHead(Full: set<Memory>, m: Memory, value: Raw, name: string)
    requires Closed(Full) && m in Full && Refs(value) <= Full && '.' in name
    requires m.Holder(Full, Head(name)) == null
    ensures m.AddVarEffect(Full, value, name).Err?
  {
    SplitWithSep(name, '.');
    HeadIdempotent(name);
    var names := Split(name, '.');
    SplitWithoutSep(names[0], '.');
  }

  /** `set_var` on a name that no scope on the chain holds writes nothing anywhere. */
  lemma SetVarUnboundIsNoOp(Full: set<Memory>, U: set<Memory>, m: Memory, value: Raw, name: string)
    requires Closed(Full) && U <= Full && m.ChainIn(U) && Refs(value) <= Full
    requires forall i | 0 <= i < |m.Chain(U)| :: name !in m.Chain(U)[i].variables
    ensures m.SetVarEffect(U, Full, value, name) == Ok(None)
  {
    HolderNone(m, U, name);
  }

  /**
   * Otherwise `set_var` writes the nearest scope holding the name, under an
   * existing key, and changes only that entry's payload: its kind, its name
   * and its scopes stay.
   */
  lemma SetVarKeepsEntry(Full: set<Memory>, U: set<Memory>, m: Memory, value: Raw, name: string)
    requires Closed(Full) && U <= Full && m.ChainIn(U) && Refs(value) <= Full
    requires m.Holder(U, name) != null
    ensures var r := m.SetVarEffect(U, Full, value, name);
      var h := m.Holder(U, name);
      r.Ok? ==>
        r.value.Some? && r.value.value.scope == h && r.value.value.name == name
        && name in h.variables
        && var old_ := h.variables[name]; var new_ := r.value.value.data;
        new_.kind == old_.kind && new_.varName == old_.varName
        && new_.memory == old_.memory && new_.mem == old_.mem
    ensures m.SetVarEffect(U, Full, value, name).Err? <==> ClearParseValue(Full, m.Holder(U, name), value).Err?
  {
  }

  // ---------------------------------------------------------------------
  // Read after write
  // ---------------------------------------------------------------------

  /**
   * Binding then looking up: after `add_var` of a dot-free name succeeds,
   * `get_var` of that name from the same scope finds exactly the entry just
   * written, whatever outer scopes hold.
   */
  method BindThenLookUp(ghost Full: set<Memory>, m: Memory, value: Raw, name: string)
    returns (r: Outcome, found: Result<Found>)
    requires Closed(Full) && m in Full && Refs(value) <= Full && '.' !in name
    modifies Full`variables
    ensures Closed(Full)
    ensures var eff := old(m.AddVarEffect(Full, value, name));
      (r.Pass? <==> eff.Ok?)
      && (eff.Ok? ==> name in m.variables && found == Ok(Bound(eff.value.value.data)))
  {
    AddVarDotFree(Full, m, value, name);
    ghost var eff := m.AddVarEffect(Full, value, name);
    r := m.AddVar(Full, value, name);
    if r.Pass? {
      assert m.variables[name] == eff.value.value.data;
      HolderNearest(m, Full, name, 0);
      GetVarDotFree(Full, m, name);
    }
    found := m.GetVar(Full, name);
  }

  /**
   * Assigning from a child scope a name bound only in its parent: the
   * parent's entry gets the parsed value as its payload and keeps its kind,
   * the child still holds no such name, and a lookup from the child sees the
   * new payload.
   */
  method AssignFromChild(ghost Full: set<Memory>, c: Memory, value: Raw, name: string)
    returns (r: Outcome, found: Result<Found>)
    requires Closed(Full) && c in Full && Refs(value) <= Full && '.' !in name
    requires c.parent != null && name !in c.variables && name in c.parent.variables
    modifies Full`variables
    ensures Closed(Full) && c.parent in Full
    ensures name !in c.variables && name in c.parent.variables
    ensures var parsed := old(ClearParseValue(Full, c.parent, value));
      (r.Pass? <==> parsed.Ok?)
      && (parsed.Ok? ==>
            c.parent.variables[name] == old(c.parent.variables[name]).(payload := parsed.value)
            && found == Ok(Bound(c.parent.variables[name])))
      && (parsed.Err? ==> c.parent.variables == old(c.parent.variables))
  {
    var p := c.parent;
    ChainLinks(c, Full);
    HolderNearest(c, Full, name, 1);
    assert c.parent.ChainIn(Full - {c});
    SetVarKeepsEntry(Full, Full, c, value, name);
    r := c.SetVar(Full, Full, value, name);
    ChainLinks(c, Full);
    HolderNearest(c, Full, name, 1);
    GetVarDotFree(Full, c, name);
    found := c.GetVar(Full, name);
  }
}
