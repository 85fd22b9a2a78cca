/**
 * What the value side of `alany/memory.py` promises: the order in which
 * `Data.__init__` classifies, the boxing of list elements, the unwrapping
 * of `to_value`, the special literals of `clear_parse_value`, the rendering
 * of `to_string`, the operator priority of `get_bool_value`, and the list
 * writes of `set_list_value`.
 */
module ValueLemmas {
  import opened Text
  import opened AlanyMemory

  // ---------------------------------------------------------------------
  // The order of classification
  // ---------------------------------------------------------------------

  /** Quoted text is a 'str' with the quotes stripped, whatever it contains. */
  lemma QuotedTextIsStr(Full: set<Memory>, m: Memory, s: string, name: string, skip: bool)
    requires Closed(Full) && m in Full && IsQuoted(s)
    ensures NewData(Full, m, PyStr(s), name, skip) == Ok(Data(Str, PyStr(s[1..|s| - 1]), name, m, None))
  {
  }

  /** A float stays a 'float' although `int()` would accept it. */
  lemma FloatNeverInt(Full: set<Memory>, m: Memory, f: real, name: string, skip: bool)
    requires Closed(Full) && m in Full
    ensures PyIntOf(PyFloat(f)).Some?
    ensures NewData(Full, m, PyFloat(f), name, skip) == Ok(Data(Float, PyFloat(f), name, m, None))
  {
  }

  /** A Python bool is caught by the `int()` step: it becomes the 'int' 0 or 1. */
  lemma BoolIsInt(Full: set<Memory>, m: Memory, b: bool, name: string, skip: bool)
    requires Closed(Full) && m in Full
    ensures NewData(Full, m, PyBool(b), name, skip) == Ok(Data(Int, PyInt(if b then 1 else 0), name, m, None))
  {
  }

  /** Unquoted text that `int()` accepts is an 'int' of that value. */
  lemma IntegerTextIsInt(Full: set<Memory>, m: Memory, s: string, name: string, skip: bool)
    requires Closed(Full) && m in Full && !IsQuoted(s) && ParseInt(s).Some?
    ensures NewData(Full, m, PyStr(s), name, skip) == Ok(Data(Int, PyInt(ParseInt(s).value), name, m, None))
  {
  }

  /**
   * Unquoted, non-numeric text with '=', '>' or '<' is evaluated as a
   * comparison and never looked up as a name.
   */
  lemma ComparisonTextIsBool(Full: set<Memory>, m: Memory, s: string, name: string, skip: bool)
    requires Closed(Full) && m in Full && !IsQuoted(s) && ParseInt(s).None? && ParseFloat(s).None?
    requires HasComparison(s)
    ensures NewData(Full, m, PyStr(s), name, skip) ==
      match GetBoolValue(Full, m, s)
      case Ok(b) => Ok(Data(Bool, b, name, m, None))
      case Err(f) => Err(f)
  {
  }

  /**
   * What is left is a name. With its leading blanks dropped, when its head
   * is bound it is looked up as `get_var` would: a bound result is adopted
   * with the binding's kind, payload and name in this scope, a literal one
   * is an attribute failure, and a failed lookup fails the same way.
   */
  lemma NameIsLookedUp(Full: set<Memory>, m: Memory, s: string, name: string, skip: bool)
    requires Closed(Full) && m in Full && !IsQuoted(s) && ParseInt(s).None? && ParseFloat(s).None?
    requires !HasComparison(s) && m.InMemory(Full, RemoveStartSpaces(s))
    ensures NewData(Full, m, PyStr(s), name, skip) ==
      match m.GetVar(Full, RemoveStartSpaces(s))
      case Ok(Bound(d)) => Ok(Data(d.kind, d.payload, d.varName, m, None))
      case Ok(Literal(_)) => Err(AttributeFault)
      case Err(f) => Err(f)
  {
  }

  /** A dot-free bound name is adopted with its binding's kind, payload and name. */
  lemma BoundNameIsAdopted(Full: set<Memory>, m: Memory, s: string, name: string, skip: bool)
    requires Closed(Full) && m in Full && !IsQuoted(s) && ParseInt(s).None? && ParseFloat(s).None?
    requires !HasComparison(s) && '.' !in s && (s == [] || s[0] != ' ')
    requires m.Holder(Full, s) != null
    ensures var d := m.Holder(Full, s).variables[s];
      NewData(Full, m, PyStr(s), name, skip) == Ok(Data(d.kind, d.payload, d.varName, m, None))
  {
    SplitWithoutSep(s, '.');
    assert Head(s) == s;
    assert RemoveStartSpaces(s) == s;
    var d := m.Holder(Full, s).variables[s];
    assert BoundMember(Full, m, s) == Member(Full, d, []);
  }

  /**
   * Unbound, it is a 'variable' placeholder carrying the text, leading
   * blanks dropped, as its name when deferral is allowed, and an
   * unknown-type failure otherwise.
   */
  lemma UnboundNameIsDeferredOrFails(Full: set<Memory>, m: Memory, s: string, name: string, skip: bool)
    requires Closed(Full) && m in Full && !IsQuoted(s) && ParseInt(s).None? && ParseFloat(s).None?
    requires !HasComparison(s) && !m.InMemory(Full, RemoveStartSpaces(s))
    ensures var n := RemoveStartSpaces(s);
      NewData(Full, m, PyStr(s), name, skip) ==
        if skip then Ok(Data(Variable, PyNone, n, m, None)) else Err(UnknownType(n))
  {
  }

  /** `None` reaches the name step and makes `remove_start_spaces` fail. */
  lemma NoneFails(Full: set<Memory>, m: Memory, name: string, skip: bool)
    requires Closed(Full) && m in Full
    ensures NewData(Full, m, PyNone, name, skip) == Err(HelperFault)
  {
  }

  /** Unquoted text that `int()` refuses and `float()` accepts is a 'float' of that value. */
  lemma DecimalTextIsFloat(Full: set<Memory>, m: Memory, s: string, name: string, skip: bool)
    requires Closed(Full) && m in Full && !IsQuoted(s) && ParseInt(s).None? && ParseFloat(s).Some?
    ensures NewData(Full, m, PyStr(s), name, skip) == Ok(Data(Float, PyFloat(ParseFloat(s).value), name, m, None))
  {
  }

  /** A tree node, which neither `int()` nor `float()` accepts, is a 'node' kept as it is. */
  lemma NodeIsNode(Full: set<Memory>, m: Memory, n: TreeNode, name: string, skip: bool)
    requires Closed(Full) && m in Full && n.memory in Full
    ensures NewData(Full, m, PyNode(n), name, skip) == Ok(Data(Node, PyNode(n), name, m, None))
  {
  }

  /**
   * A dict is a 'class' kept as it is; when it has a `node` entry, that
   * node's scope becomes the member scope that dotted names descend into.
   */
  lemma DictIsClass(Full: set<Memory>, m: Memory, entry: Option<TreeNode>, name: string, skip: bool)
    requires Closed(Full) && m in Full && Refs(PyDict(entry)) <= Full
    ensures var r := NewData(Full, m, PyDict(entry), name, skip);
      r.Ok? && r.value.kind == Class && r.value.payload == PyDict(entry)
      && (entry.Some? ==> r.value.mem == Some(entry.value.memory))
      && (entry.None? ==> r.value.mem.None?)
  {
  }

  // ---------------------------------------------------------------------
  // Lists
  // ---------------------------------------------------------------------

  /** After classification every element of a list is a `Data`; the new ones are bound to the same scope. */
  lemma ListElementsBoxed(Full: set<Memory>, m: Memory, items: seq<Raw>, name: string, skip: bool)
    requires Closed(Full) && m in Full && RefsOfItems(items) <= Full
    ensures var r := NewData(Full, m, PyList(items), name, skip);
      r.Ok? ==> (
        r.value.kind == List && r.value.payload.PyList?
        && |r.value.payload.items| == |items|
        && forall i | 0 <= i < |items| ::
          r.value.payload.items[i].PyData?
          && (!items[i].PyData? ==> r.value.payload.items[i].data.memory == m)
          && (items[i].PyData? ==> r.value.payload.items[i] == items[i]))
  {
  }

  /** A list whose elements are all `Data` already is left as it is by boxing. */
  lemma {:induction false} BoxItemsKeepsBoxed(Full: set<Memory>, m: Memory, items: seq<Raw>)
    requires Closed(Full) && m in Full && RefsOfItems(items) <= Full
    requires forall i | 0 <= i < |items| :: items[i].PyData?
    ensures BoxItems(Full, m, items) == Ok(items)
    decreases |items|
  {
    if items != [] {
      RefsOfItemsSplit(items);
      BoxItemsKeepsBoxed(Full, m, items[1..]);
      assert [items[0]] + items[1..] == items;
    }
  }

  // ---------------------------------------------------------------------
  // to_value and the value property
  // ---------------------------------------------------------------------

  /** Unwrapping twice is unwrapping once. */
  lemma ToValueIdempotent(v: Raw)
    requires ToValue(v).Ok?
    ensures ToValue(ToValue(v).value) == ToValue(v)
  {
  }

  /**
   * Re-classifying the `value` of a value classified as 'str', 'int',
   * 'float' or 'list' (not adopted from a binding) gives back the same kind
   * and payload: the quotes put back by the `value` property are stripped
   * again, and a boxed list is not boxed twice.
   */
  lemma ValueRoundTrip(Full: set<Memory>, m: Memory, v: Raw, name: string, skip: bool, name2: string, skip2: bool)
    requires Closed(Full) && m in Full && Refs(v) <= Full
    requires IsString(v) || IntClassifiable(v) || PyFloatOf(v).Some? || v.PyList?
    requires NewData(Full, m, v, name, skip).Ok?
    ensures var d := NewData(Full, m, v, name, skip).value;
      d.kind in {Str, Int, Float, List}
      && d.Value().Ok? && Refs(d.Value().value) <= Full
      && NewData(Full, m, d.Value().value, name2, skip2) == Ok(Data(d.kind, d.payload, name2, m, None))
  {
    var d := NewData(Full, m, v, name, skip).value;
    if IsString(v) {
      var s := v.s[1..|v.s| - 1];
      var q := "'" + s + "'";
      assert d.payload == PyStr(s);
      assert d.Value() == Ok(PyStr(q));
      assert IsQuoted(q) && q[1..|q| - 1] == s;
    } else if IntClassifiable(v) {
      assert d.Value() == Ok(d.payload);
    } else if PyFloatOf(v).Some? {
      assert d.Value() == Ok(d.payload);
    } else {
      var items := d.payload.items;
      assert RefsOfItems(items) <= Full;
      BoxItemsKeepsBoxed(Full, m, items);
    }
  }

  // ---------------------------------------------------------------------
  // clear_parse_value
  // ---------------------------------------------------------------------

  /** `space`, `none` and each escape token become the quoted text they stand for. */
  lemma SpecialLiteral(Full: set<Memory>, m: Memory, key: string)
    requires Closed(Full) && m in Full && key in Specials
    ensures ClearParseValue(Full, m, PyStr(key)) == Ok(PyStr(AddStr(Specials[key])))
  {
    var q := AddStr(Specials[key]);
    assert key != "input";
    assert NewData(Full, m, PyStr(q), "None", true) == Ok(Data(Str, PyStr(Specials[key]), "None", m, None));
  }

  /** Binding the escape token `\n` stores a 'str' holding one newline. */
  lemma NewlineTokenBinds(Full: set<Memory>, m: Memory, name: string)
    requires Closed(Full) && m in Full && '.' !in name
    ensures m.AddVarEffect(Full, PyStr("\\n"), name) == Ok(Some(Binding(m, name, Data(Str, PyStr("\n"), name, m, None))))
  {
    SplitWithoutSep(name, '.');
    SpecialLiteral(Full, m, "\\n");
    assert AddStr("\n") == "'\n'";
  }

  /**
   * Quoted text that is not a special literal comes back quoted with single
   * quotes, whichever quotes it had; parsing it again changes nothing.
   */
  lemma QuotedTextParses(Full: set<Memory>, m: Memory, s: string)
    requires Closed(Full) && m in Full && IsQuoted(s)
    ensures ClearParseValue(Full, m, PyStr(s)) == Ok(PyStr(AddStr(s[1..|s| - 1])))
    ensures ClearParseValue(Full, m, PyStr(AddStr(s[1..|s| - 1]))) == Ok(PyStr(AddStr(s[1..|s| - 1])))
  {
    assert s !in Specials;
    var q := AddStr(s[1..|s| - 1]);
    assert q !in Specials;
  }

  // ---------------------------------------------------------------------
  // to_string
  // ---------------------------------------------------------------------

  /**
   * A list `Data` renders as '[', its elements' renderings joined by ',' with
   * no blanks, and ']'; it fails exactly when some element does not render
   * as text.
   */
  lemma ListRendering(d: Data)
    requires d.kind == List && d.payload.PyList?
    ensures var items := d.payload.items; var r := ToString(PyData(d));
      r.Ok? ==> exists parts: seq<string> ::
        |parts| == |items|
        && (forall i | 0 <= i < |items| :: ToString(items[i]) == Ok(PyStr(parts[i])))
        && r.value == PyStr("[" + Join(',', parts) + "]")
    ensures var items := d.payload.items;
      ToString(PyData(d)).Err? ==> exists i | 0 <= i < |items| :: ToString(items[i]).Err? || !ToString(items[i]).value.PyStr?
  {
    var items := d.payload.items;
    var rr := RenderedItems(items);
    if rr.Ok? {
      var parts := rr.value;
      assert ToString(PyData(d)) == Ok(PyStr("[" + Join(',', parts) + "]"));
    }
  }

  /** A non-list `Data` renders as `str` of its payload; an 'int' as its decimal digits, which parse back. */
  lemma IntRenderRoundTrip(Full: set<Memory>, m: Memory, d: Data, i: int, name: string, skip: bool)
    requires Closed(Full) && m in Full && d.kind == Int && d.payload == PyInt(i)
    ensures ToString(PyData(d)) == Ok(PyStr(IntToString(i)))
    ensures NewData(Full, m, PyStr(IntToString(i)), name, skip) == Ok(Data(Int, PyInt(i), name, m, None))
  {
    var t := IntToString(i);
    var n: nat := if i < 0 then -i else i;
    NatToStringDigits(n);
    assert t[0] == '-' || IsDigit(t[0]);
    assert !IsQuoted(t);
    IntRoundTrip(i);
  }

  /** The two elements of the list below render as their digits. */
  lemma TwoIntsRender(m: Memory)
    ensures RenderedItems([PyData(Data(Int, PyInt(1), "None", m, None)), PyData(Data(Int, PyInt(23), "None", m, None))])
      == Ok(["1", "23"])
  {
    var one := PyData(Data(Int, PyInt(1), "None", m, None));
    var two := PyData(Data(Int, PyInt(23), "None", m, None));
    assert IntToString(23) == "23" by {
      assert NatToString(2) == "2" && NatToString(23) == NatToString(2) + "3";
    }
    assert ToString(one) == Ok(PyStr("1"));
    assert ToString(two) == Ok(PyStr("23"));
    assert [one, two][1..] == [two] && [two][1..] == [];
    assert RenderedItems([two]) == Ok(["23"]) by {
      assert ["23"] + [] == ["23"];
    }
    assert ["1"] + ["23"] == ["1", "23"];
  }

  /** The rendering of a list of two ints, as `to_string` builds it. */
  lemma TwoIntListRendering(m: Memory)
    ensures ToString(PyData(Data(List, PyList([PyData(Data(Int, PyInt(1), "None", m, None)), PyData(Data(Int, PyInt(23), "None", m, None))]), "l", m, None)))
      == Ok(PyStr("[1,23]"))
  {
    var one := PyData(Data(Int, PyInt(1), "None", m, None));
    var two := PyData(Data(Int, PyInt(23), "None", m, None));
    assert RenderedItems([one, two]) == Ok(["1", "23"]) by {
      TwoIntsRender(m);
    }
    assert Join(',', ["1", "23"]) == "1,23" by {
      assert ["1", "23"][1..] == ["23"];
      assert "1" + [','] + "23" == "1,23";
    }
    assert "[" + "1,23" + "]" == "[1,23]";
  }

  // ---------------------------------------------------------------------
  // Python equality
  // ---------------------------------------------------------------------

  /** Every value this core compares equals itself. */
  lemma {:induction false} PyEqReflexive(v: Raw)
    ensures PyEq(v, v)
    decreases v
  {
    match v
    case PyList(items) => ItemsEqReflexive(items);
    case PyData(d) => PyEqReflexive(d.payload);
    case _ =>
  }

  lemma {:induction false} ItemsEqReflexive(items: seq<Raw>)
    ensures ItemsEq(items, items)
    decreases items
  {
    if items != [] {
      PyEqReflexive(items[0]);
      ItemsEqReflexive(items[1..]);
    }
  }

  /** Equality does not depend on the order of its operands, so `==` and `!=` are symmetric. */
  lemma {:induction false} PyEqSymmetric(a: Raw, b: Raw)
    ensures PyEq(a, b) == PyEq(b, a)
    decreases a
  {
    match (a, b)
    case (PyList(xs), PyList(ys)) => ItemsEqSymmetric(xs, ys);
    case (PyData(d), PyData(e)) => PyEqSymmetric(d.payload, e.payload);
    case _ =>
  }

  lemma {:induction false} ItemsEqSymmetric(xs: seq<Raw>, ys: seq<Raw>)
    ensures ItemsEq(xs, ys) == ItemsEq(ys, xs)
    decreases xs
  {
    if xs != [] && ys != [] {
      PyEqSymmetric(xs[0], ys[0]);
      ItemsEqSymmetric(xs[1..], ys[1..]);
    }
  }

  /** `x < x` is never True: either it is False or Python cannot order the operands. */
  lemma {:induction false} PyLessIrreflexive(v: Raw)
    ensures PyLess(v, v) != Ok(true)
    decreases v
  {
    match v
    case PyStr(s) => LexLessIrreflexive(s);
    case PyList(items) => ItemsLessIrreflexive(items);
    case _ =>
  }

  lemma {:induction false} ItemsLessIrreflexive(items: seq<Raw>)
    ensures ItemsLess(items, items) != Ok(true)
    decreases items
  {
    if items != [] {
      PyEqReflexive(items[0]);
      ItemsLessIrreflexive(items[1..]);
    }
  }

  // ---------------------------------------------------------------------
  // get_bool_value
  // ---------------------------------------------------------------------

  /** The first operator of `ops` that occurs in `expr`. */
  function FirstOperator(expr: string, ops: seq<string>): (r: Option<string>)
    ensures r.Some? ==> r.value in ops && Contains(expr, r.value)
    ensures r.None? ==> forall i | 0 <= i < |ops| :: !Contains(expr, ops[i])
    ensures r.Some? ==> exists k | 0 <= k < |ops| ::
      ops[k] == r.value && forall i | 0 <= i < k :: !Contains(expr, ops[i])
    decreases |ops|
  {
    if ops == [] then None
    else if Contains(expr, ops[0]) then Some(ops[0])
    else FirstOperator(expr, ops[1..])
  }

  /**
   * `get_bool_value` evaluates the first operator of `==`, `!=`, `>`, `<`
   * that the expression contains, whatever else it contains; with none, a
   * bound name yields its value and anything else None.
   */
  lemma OperatorPriority(Full: set<Memory>, m: Memory, expr: string)
    requires Closed(Full) && m in Full
    ensures var op := FirstOperator(expr, Operators);
      op.Some? ==> GetBoolValue(Full, m, expr) == Compare(Full, m, expr, op.value)
    ensures FirstOperator(expr, Operators).None? && !m.InMemory(Full, expr) ==>
      GetBoolValue(Full, m, expr) == Ok(PyNone)
  {
    assert Operators[1..][1..][1..] == ["<"];
  }

  /** So text holding both `==` and `>` is an equality test. */
  lemma EqualityBeforeOrdering(Full: set<Memory>, m: Memory, expr: string)
    requires Closed(Full) && m in Full && Contains(expr, "==") && Contains(expr, ">")
    ensures GetBoolValue(Full, m, expr) == Compare(Full, m, expr, "==")
  {
  }

  /**
   * The operands are split on blanks after the operator is replaced by one:
   * in `x==5` they are `x` and `5`, but in `x == 5` the second is empty.
   */
  lemma OperandExamples()
    ensures Operands("x==5", "==") == ("x", "5")
    ensures Operands("x == 5", "==") == ("x", "")
  {
    assert Contains("x==5", "==") by {
      assert Contains("==5", "==");
    }
    assert Replace("x==5", "==", " ") == "x 5" by {
      assert Replace("5", "==", " ") == "5";
      assert Replace("==5", "==", " ") == " 5";
    }
    SplitFive();
    assert Split("x 5", ' ') == ["x", "5"] by {
      assert "x 5"[1..] == " 5" && ['x'] + "" == "x";
    }
    assert Contains("x == 5", "==") by {
      assert Contains("== 5", "==");
    }
    assert Replace("x == 5", "==", " ") == "x   5" by {
      assert Replace("5", "==", " ") == "5";
      assert Replace(" 5", "==", " ") == " 5";
      assert Replace("== 5", "==", " ") == "  5";
      assert Replace(" == 5", "==", " ") == "   5";
    }
    assert Split("x   5", ' ') == ["x", "", "", "5"] by {
      assert "  5"[1..] == " 5" && "   5"[1..] == "  5" && "x   5"[1..] == "   5";
      assert ['x'] + "" == "x";
    }
  }

  /** The pieces of "5" and " 5" split on blanks. */
  lemma SplitFive()
    ensures Split("5", ' ') == ["5"] && Split(" 5", ' ') == ["", "5"]
  {
    assert "5"[1..] == [] && ['5'] + "" == "5";
    assert " 5"[1..] == "5";
  }

  // ---------------------------------------------------------------------
  // set_var on a 'str' binding, and set_list_value
  // ---------------------------------------------------------------------

  /**
   * `set_var` stores the re-quoted text `clear_parse_value` returns as the
   * payload and keeps the kind, so a 'str' binding assigned quoted text
   * reads back with a second pair of quotes.
   */
  lemma SetVarStoresQuotedText(Full: set<Memory>, U: set<Memory>, m: Memory, name: string, s: string)
    requires Closed(Full) && U <= Full && m.ChainIn(U) && IsQuoted(s)
    requires m.Holder(U, name) != null && m.Holder(U, name).variables[name].kind == Str
    ensures var r := m.SetVarEffect(U, Full, PyStr(s), name);
      var q := AddStr(s[1..|s| - 1]);
      r.Ok? && r.value.Some? && r.value.value.data.payload == PyStr(q)
      && r.value.value.data.Value() == Ok(PyStr("'" + q + "'"))
  {
    QuotedTextParses(Full, m.Holder(U, name), s);
  }

  /** Index -1 writes the last element of a non-empty list. */
  lemma LastIndexWritesLast(self: Data, value: Raw)
    requires self.kind == List && self.payload.PyList? && |self.payload.items| > 0
    ensures var items := self.payload.items;
      ListWrite(self, PyInt(-1), value) == Ok(items[..|items| - 1] + [value])
  {
    var items := self.payload.items;
    assert items[|items| - 1 := value] == items[..|items| - 1] + [value];
  }

  /**
   * An integer index writes the position it names, counted from the end when
   * negative, and fails with IndexError exactly outside the list; nothing
   * else in the list changes.
   */
  lemma IntIndexWrite(self: Data, k: int, value: Raw)
    requires self.kind == List && self.payload.PyList?
    ensures var n := |self.payload.items|;
      ListWrite(self, PyInt(k), value).Err? <==> !(-n <= k < n)
    ensures var n := |self.payload.items|;
      !(-n <= k < n) ==> ListWrite(self, PyInt(k), value) == Err(IndexFault)
    ensures var n := |self.payload.items|; var w := ListWrite(self, PyInt(k), value);
      w.Ok? ==> (
        |w.value| == n && w.value[(k + n) % n] == value
        && forall j | 0 <= j < n && j != (k + n) % n :: w.value[j] == self.payload.items[j])
  {
  }

  /** A 'str' value cannot be written into: Python raises TypeError. */
  lemma StrIndexWriteFails(self: Data, k: int, value: Raw)
    requires self.kind == Str && self.payload.PyStr?
    ensures ListWrite(self, PyInt(k), value) == Err(TypeFault)
  {
    assert ToValue(self.payload) == Ok(self.payload);
    assert self.Value() == Ok(PyStr("'" + self.payload.s + "'"));
    assert ToValue(PyData(self)) == self.Value();
  }
}
