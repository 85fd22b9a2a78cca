/**
 * The scope chain (`Memory`) and the dynamically typed value wrapper
 * (`Data`) of the Alany interpreter, as written in `alany/memory.py`.
 *
 * A scope is an object whose `variables` map the methods update in place;
 * a value is a `Data` record holding its kind, its payload (Python's
 * `_value`), the name it was bound under and a back-reference to the scope
 * it was built in. Raw Python values that are not yet wrapped are `Raw`.
 *
 * Every read of the scope graph takes a ghost set `Full` of the scopes that
 * are alive; `Closed(Full)` says every parent chain stays inside it and
 * ends, and every stored value refers only to scopes inside it.
 */
module AlanyMemory {
  import opened Text

  /** Python's `Data.type`: 'str', 'int', 'float', 'list', 'node', 'class', 'bool', 'variable'. */
  datatype Kind = Str | Int | Float | List | Node | Class | Bool | Variable

  /** A node of the executable tree (node.py is not part of this model): its identity and its own scope. */
  datatype TreeNode = TreeNode(id: nat, memory: Memory)

  /**
   * A Python runtime value as it reaches this core. `PyDict` is an object
   * descriptor; only its 'node' entry (when that entry is a tree node) is
   * read here. `PyData` is a value that is already a `Data` instance.
   */
  datatype Raw =
    | PyStr(s: string)
    | PyInt(i: int)
    | PyFloat(f: real)
    | PyBool(b: bool)
    | PyNone
    | PyList(items: seq<Raw>)
    | PyNode(node: TreeNode)
    | PyDict(entry: Option<TreeNode>)
    | PyData(data: Data)

  /**
   * A `Data` instance: `kind` is `type`, `payload` is `_value`, `varName` is
   * `var_name`, `memory` the scope it was built in and `mem` the member scope
   * that class values built from a descriptor with a tree node carry.
   */
  datatype Data = Data(kind: Kind, payload: Raw, varName: string, memory: Memory, mem: Option<Memory>)
  {
    /**
     * The `value` property (`Data.get_value`): a list payload as it is, a
     * string payload re-wrapped in single quotes, anything else unwrapped.
     * A 'str' value whose payload is no longer text fails like Python's
     * `"'" + value` does.
     */
    function Value(): (r: Result<Raw>)
      ensures r.Ok? && kind != List ==> !r.value.PyData?
      ensures r.Ok? ==> Refs(r.value) <= DataRefs(this)
      ensures kind == Str && r.Ok? ==> IsString(r.value)
      decreases this, 0
    {
      if kind == List then Ok(payload)
      else if kind == Str then
        var v :- ToValue(payload);
        if v.PyStr? then Ok(PyStr("'" + v.s + "'")) else Err(TypeFault)
      else ToValue(payload)
    }
  }

  /** What Python raises where this core fails. */
  datatype Fault =
    | UnknownType(text: string)  // Error.Runtime.unknow_type followed by ValueError
    | AttributeFault             // AttributeError: `.mem`, `._value` or `.value` on an object without it
    | TypeFault                  // TypeError: an operation on values of types that do not support it
    | ValueFault                 // ValueError raised by int()
    | IndexFault                 // IndexError from a list write
    | HelperFault                // remove_start_spaces given something other than text
    // A branch outside this model: console input; the call and index branches of
    // get_value; item assignment on a dict, a node or a list nested in a Data in
    // set_list_value; str() of floats and containers, and iteration over a dict
    // or node, in to_string.
    | NotModelled

  datatype Result<+T> = Ok(value: T) | Err(fault: Fault)
  {
    predicate IsFailure() { Err? }
    function PropagateFailure<U>(): Result<U> requires Err? { Err(fault) }
    function Extract(): T requires Ok? { value }
  }

  datatype Outcome = Pass | Fail(fault: Fault)

  /** What `get_var` returns: a bound `Data`, or at the root the parsed literal. */
  datatype Found = Bound(data: Data) | Literal(raw: Raw)

  /** One write into one scope's `variables`: `scope.variables[name] = data`. */
  datatype Binding = Binding(scope: Memory, name: string, data: Data)

  // ---------------------------------------------------------------------
  // Scope references held by values
  // ---------------------------------------------------------------------

  ghost function Refs(v: Raw): set<Memory>
    decreases v
  {
    match v
    case PyList(items) => RefsOfItems(items)
    case PyNode(n) => {n.memory}
    case PyDict(e) => if e.Some? then {e.value.memory} else {}
    case PyData(d) => DataRefs(d)
    case _ => {}
  }

  ghost function RefsOfItems(items: seq<Raw>): set<Memory>
    decreases items
  {
    if items == [] then {} else Refs(items[0]) + RefsOfItems(items[1..])
  }

  ghost function DataRefs(d: Data): set<Memory>
    decreases d
  {
    {d.memory} + (if d.mem.Some? then {d.mem.value} else {}) + Refs(d.payload)
  }

  /** Every scope in `Full` has a finite parent chain inside `Full`, and its bound values refer only to `Full`. */
  ghost predicate Closed(Full: set<Memory>)
    reads Full`parent, Full`variables
  {
    forall m | m in Full ::
      m.ChainIn(Full) && forall k | k in m.variables :: DataRefs(m.variables[k]) <= Full
  }

  // ---------------------------------------------------------------------
  // Helpers from functions.py (that file is not part of this model)
  // ---------------------------------------------------------------------

  /** `is_string`, taken to mean: text of two or more characters that starts and ends with the same quote. */
  predicate IsQuoted(s: string) {
    |s| >= 2 && (s[0] == '\'' || s[0] == '"') && s[|s| - 1] == s[0]
  }

  predicate IsString(v: Raw) {
    v.PyStr? && IsQuoted(v.s)
  }

  /** Text made of blanks only. */
  predicate AllBlanks(s: string) {
    forall i | 0 <= i < |s| :: s[i] == ' '
  }

  /** `remove_start_spaces`, taken to mean: drop the leading blanks. */
  function RemoveStartSpaces(s: string): (r: string)
    ensures |r| <= |s|
    ensures r == [] || r[0] != ' '
    decreases |s|
  {
    if |s| > 0 && s[0] == ' ' then RemoveStartSpaces(s[1..]) else s
  }

  /** What `remove_start_spaces` drops is a run of blanks, and what it keeps is the rest of the text. */
  lemma {:induction false} RemoveStartSpacesDropsBlanks(s: string)
    ensures var r := RemoveStartSpaces(s);
      s == s[..|s| - |r|] + r && AllBlanks(s[..|s| - |r|])
    decreases |s|
  {
    if |s| > 0 && s[0] == ' ' {
      RemoveStartSpacesDropsBlanks(s[1..]);
      var r := RemoveStartSpaces(s);
      assert s[..|s| - |r|] == [' '] + s[1..][..|s| - 1 - |r|];
    }
  }

  /** `add_str`, taken to mean: wrap in single quotes, so that `is_string` accepts the result. */
  function AddStr(s: string): (r: string)
    ensures IsQuoted(r) && r[1..|r| - 1] == s
  {
    "'" + s + "'"
  }

  // ---------------------------------------------------------------------
  // Python built-ins on runtime values
  // ---------------------------------------------------------------------

  /** Python's `int(v)`: text is parsed, floats truncate toward zero, bools are 0 and 1. */
  function PyIntOf(v: Raw): (r: Option<int>)
    ensures r.Some? ==> IsNumber(v) || v.PyStr?
    ensures v.PyFloat? ==> r.Some? && (if v.f >= 0.0 then 0.0 <= v.f - r.value as real < 1.0
                                       else 0.0 <= r.value as real - v.f < 1.0)
  {
    match v
    case PyStr(s) => ParseInt(s)
    case PyInt(i) => Some(i)
    case PyBool(b) => Some(if b then 1 else 0)
    case PyFloat(f) => Some(if f >= 0.0 then f.Floor else -((-f).Floor))
    case _ => None
  }

  /** `int(value)` is attempted, and succeeds, on anything but a float. */
  predicate IntClassifiable(v: Raw) {
    !v.PyFloat? && PyIntOf(v).Some?
  }

  /** Python's `float(v)`. */
  function PyFloatOf(v: Raw): (r: Option<real>)
    ensures r.Some? ==> IsNumber(v) || v.PyStr?
    ensures IsNumber(v) ==> r == Some(NumValue(v))
  {
    match v
    case PyStr(s) => ParseFloat(s)
    case PyInt(i) => Some(i as real)
    case PyBool(b) => Some(if b then 1.0 else 0.0)
    case PyFloat(f) => Some(f)
    case _ => None
  }

  predicate IsNumber(v: Raw) {
    v.PyInt? || v.PyFloat? || v.PyBool?
  }

  function NumValue(v: Raw): real
    requires IsNumber(v)
  {
    match v
    case PyInt(i) => i as real
    case PyFloat(f) => f
    case PyBool(b) => if b then 1.0 else 0.0
  }

  /**
   * Python's `a == b`: numbers by value, text by content, lists element by
   * element, tree nodes by identity, and two `Data` by comparing their
   * attributes (`Data.__eq__` compares `__dict__`). Different types are unequal.
   */
  predicate PyEq(a: Raw, b: Raw)
    decreases a
  {
    if IsNumber(a) && IsNumber(b) then NumValue(a) == NumValue(b)
    else match (a, b)
      case (PyStr(x), PyStr(y)) => x == y
      case (PyNone, PyNone) => true
      case (PyList(xs), PyList(ys)) => ItemsEq(xs, ys)
      case (PyNode(x), PyNode(y)) => x == y
      case (PyDict(x), PyDict(y)) => x == y
      case (PyData(d), PyData(e)) =>
        d.kind == e.kind && d.varName == e.varName && d.memory == e.memory && d.mem == e.mem
        && PyEq(d.payload, e.payload)
      case _ => false
  }

  predicate ItemsEq(xs: seq<Raw>, ys: seq<Raw>)
    decreases xs
  {
    |xs| == |ys| && (xs == [] || (PyEq(xs[0], ys[0]) && ItemsEq(xs[1..], ys[1..])))
  }

  /**
   * Python's `a < b`: numbers by value, text lexicographically, lists by their
   * first unequal elements (then by length); any other pairing raises TypeError.
   */
  function PyLess(a: Raw, b: Raw): Result<bool>
    decreases a
  {
    if IsNumber(a) && IsNumber(b) then Ok(NumValue(a) < NumValue(b))
    else match (a, b)
      case (PyStr(x), PyStr(y)) => Ok(LexLess(x, y))
      case (PyList(xs), PyList(ys)) => ItemsLess(xs, ys)
      case _ => Err(TypeFault)
  }

  function ItemsLess(xs: seq<Raw>, ys: seq<Raw>): Result<bool>
    decreases xs
  {
    if xs == [] || ys == [] then Ok(|xs| < |ys|)
    else if !PyEq(xs[0], ys[0]) then PyLess(xs[0], ys[0])
    else ItemsLess(xs[1..], ys[1..])
  }

  // ---------------------------------------------------------------------
  // to_value, and the size that bounds classification
  // ---------------------------------------------------------------------

  /**
   * `to_value`: unwraps a `Data` through its `value` property; any other
   * value is returned as it is. The result is never a `Data`.
   */
  function ToValue(v: Raw): (r: Result<Raw>)
    ensures r.Ok? ==> !r.value.PyData? && Refs(r.value) <= Refs(v) && Size(r.value) <= Size(v)
    ensures !v.PyData? ==> r == Ok(v)
    decreases v, 1
  {
    match v
    case PyData(d) => if d.kind == List then ToValue(d.payload) else d.Value()
    case _ => Ok(v)
  }

  /**
   * A measure that every step of classification decreases: three per
   * character of unquoted text (operands and name tails are shorter than the
   * text they come from), nothing for quoted text (it is taken as a string
   * literal at once), and structure for lists and wrapped values.
   */
  function Size(v: Raw): nat
    decreases v
  {
    match v
    case PyStr(s) => if IsQuoted(s) then 0 else 3 * |s|
    case PyList(items) => 1 + SizeOfItems(items)
    case PyData(d) => 1 + Size(d.payload)
    case _ => 0
  }

  function SizeOfItems(items: seq<Raw>): nat
    decreases items
  {
    if items == [] then 0 else Size(items[0]) + 1 + SizeOfItems(items[1..])
  }

  // ---------------------------------------------------------------------
  // The special-literal table of clear_parse_value
  // ---------------------------------------------------------------------

  /** `space`, `none` and the escape tokens, with the text each stands for. */
  const Specials: map<string, string> := map[
    "space" := " ",
    "none" := "",
    "\\0" := "\0",
    "\\n" := "\n",
    "\\r" := "\r",
    "\\t" := "\t",
    "\\v" := "\U{000B}",
    "\\\\" := "\\",
    "'" := "'",
    "\"" := "\"",
    "\\a" := "\U{0007}"
  ]

  /** `'=' in value or '>' in value or '<' in value`. */
  predicate HasComparison(s: string) {
    '=' in s || '>' in s || '<' in s
  }

  /** The first dot-separated segment of a name. */
  function Head(name: string): (r: string)
    ensures '.' !in r && |r| <= |name|
    ensures '.' !in name ==> r == name
  {
    SplitPiecesFree(name, '.');
    SplitPieceLength(name, '.', 0);
    if '.' in name then Split(name, '.')[0]
    else SplitWithoutSep(name, '.'); Split(name, '.')[0]
  }

  /**
   * The two operands `get_bool_value` compares: the first two pieces of the
   * expression once every occurrence of the operator is replaced by a blank
   * and the result is split on blanks. Each is shorter than the expression.
   */
  function Operands(expr: string, op: string): (r: (string, string))
    requires |op| > 0 && Contains(expr, op)
    ensures |r.0| < |expr| && |r.1| < |expr|
  {
    var replaced := Replace(expr, op, " ");
    ReplaceIntroduces(expr, op, ' ');
    ReplaceLength(expr, op, " ");
    SplitWithSep(replaced, ' ');
    SplitPieceLength(replaced, ' ', 0);
    SplitPieceLength(replaced, ' ', 1);
    var parts := Split(replaced, ' ');
    (parts[0], parts[1])
  }

  // ---------------------------------------------------------------------
  // Memory: one scope
  // ---------------------------------------------------------------------

  class Memory {
    var parent: Memory?
    var children: seq<Memory>
    var variables: map<string, Data>
    var block: bool

    /** `Memory(parent, children)`: a scope with no bindings that is not a block boundary. */
    constructor (parent: Memory?, children: seq<Memory>)
      ensures this.parent == parent && this.children == children
      ensures variables == map[] && !block
    {
      this.parent := parent;
      this.children := children;
      variables := map[];
      block := false;
    }

    /** The parent chain from this scope is finite, without repetition, and inside `U`. */
    ghost predicate ChainIn(U: set<Memory>)
      reads U`parent
      decreases U
    {
      this in U && (parent != null ==> parent.ChainIn(U - {this}))
    }

    /** The scopes from this one to the root, this one first. */
    ghost function Chain(U: set<Memory>): (c: seq<Memory>)
      reads U`parent
      requires ChainIn(U)
      ensures |c| >= 1 && c[0] == this
      decreases U
    {
      if parent == null then [this] else [this] + parent.Chain(U - {this})
    }

    /** The nearest scope on the chain whose `variables` has `key`, if any. */
    function Holder(ghost U: set<Memory>, key: string): (h: Memory?)
      reads U`parent, U`variables
      requires ChainIn(U)
      ensures h != null ==> h in U && key in h.variables
      decreases U
    {
      if key in variables then this
      else if parent != null then parent.Holder(U - {this}, key)
      else null
    }

    /**
     * `in_memory`: whether the part of `name` before the first '.' is bound
     * in some scope from here to the root. It never raises.
     */
    function InMemory(ghost U: set<Memory>, name: string): (b: bool)
      reads U`parent, U`variables
      requires ChainIn(U)
      ensures b <==> Holder(U, Head(name)) != null
      decreases U
    {
      var head := Head(name);
      HeadIdempotent(name);
      if head in variables then true
      else if parent != null then parent.InMemory(U - {this}, head)
      else false
    }

    /** `get_global_memory`: the scope at the end of the parent chain. */
    function GetGlobalMemory(ghost U: set<Memory>): (root: Memory)
      reads U`parent
      requires ChainIn(U)
      ensures root in U && root.parent == null
      decreases U
    {
      if parent != null then parent.GetGlobalMemory(U - {this}) else this
    }

    /**
     * The scope `add_global_var` writes into: the first on the chain that has
     * no parent or is a block boundary.
     */
    function GlobalScope(ghost U: set<Memory>): (g: Memory)
      reads U`parent, U`block
      requires ChainIn(U)
      ensures g in U && (g.parent == null || g.block)
      decreases U
    {
      if parent != null && !block then parent.GlobalScope(U - {this}) else this
    }

    /**
     * `get_var`: the binding of the head segment in the nearest scope that
     * holds it, followed into member scopes for the remaining segments; when
     * no scope holds the head, the root parses the head segment as a literal.
     */
    function GetVar(ghost Full: set<Memory>, name: string): (r: Result<Found>)
      reads Full
      requires Closed(Full) && this in Full
      ensures r.Ok? && r.value.Bound? ==> DataRefs(r.value.data) <= Full
      ensures r.Ok? && r.value.Literal? ==> Refs(r.value.raw) <= Full
      decreases 3 * |name| + 2, 2
    {
      var head := Head(name);
      SplitPieceLength(name, '.', 0);
      if Holder(Full, head) != null then BoundMember(Full, this, name)
      else
        var root := GetGlobalMemory(Full);
        var v :- ClearParseValue(Full, root, PyStr(head));
        Ok(Literal(v))
    }

    /**
     * What `add_var` writes: for a single segment, `name` bound here to the
     * classified value; for `a.rest`, the same write made by `a`'s member
     * scope for `rest`. It fails when the head is not a value with a member
     * scope, or when classification fails.
     */
    function AddVarEffect(ghost Full: set<Memory>, value: Raw, name: string): (r: Result<Option<Binding>>)
      reads Full
      requires Closed(Full) && this in Full && Refs(value) <= Full
      ensures r.Ok? ==> r.value.Some?
      ensures r.Ok? ==> var b := r.value.value;
        b.scope in Full && '.' !in b.name && b.data.memory == b.scope
        && DataRefs(b.data) <= Full
      decreases |name|
    {
      var names := Split(name, '.');
      if |names| == 1 then
        assert '.' !in name by {
          if '.' in name { SplitWithSep(name, '.'); }
        }
        var cleared :- ClearParseValue(Full, this, value);
        var d :- NewData(Full, this, cleared, name, false);
        Ok(Some(Binding(this, name, d)))
      else
        var f :- GetVar(Full, names[0]);
        match f
        case Literal(_) => Err(AttributeFault)
        case Bound(d) =>
          if d.mem.None? then Err(AttributeFault)
          else
            HeadAndTailLength(name, '.');
            d.mem.value.AddVarEffect(Full, value, Join('.', names[1..]))
    }

    /**
     * What `set_var` writes: nothing when no scope on the chain holds `name`;
     * otherwise the nearest holder's entry with only its payload replaced.
     */
    function SetVarEffect(ghost U: set<Memory>, ghost Full: set<Memory>, value: Raw, name: string): (r: Result<Option<Binding>>)
      reads Full
      requires Closed(Full) && U <= Full && ChainIn(U) && Refs(value) <= Full
      ensures r.Ok? && r.value.Some? ==> r.value.value.scope in Full && DataRefs(r.value.value.data) <= Full
      ensures r.Ok? && r.value.Some? ==> ClearParseValue(Full, r.value.value.scope, value) == Ok(r.value.value.data.payload)
    {
      var h := Holder(U, name);
      if h == null then Ok(None)
      else
        var c :- ClearParseValue(Full, h, value);
        Ok(Some(Binding(h, name, h.variables[name].(payload := c))))
    }

    /**
     * `add_var`. A single-segment name is bound in this scope only,
     * replacing any earlier binding here; a dotted name is forwarded to the
     * member scope of its head. No other scope changes.
     */
    method AddVar(ghost Full: set<Memory>, value: Raw, varName: string) returns (r: Outcome)
      requires Closed(Full) && this in Full && Refs(value) <= Full
      modifies Full`variables
      ensures Closed(Full)
      ensures Applied(Full, old(AddVarEffect(Full, value, varName)), r)
      decreases |varName|
    {
      var names := Split(varName, '.');
      if |names| == 1 {
        var cleared := ClearParseValue(Full, this, value);
        if cleared.Err? {
          return Fail(cleared.fault);
        }
        var d := NewData(Full, this, cleared.value, varName, false);
        if d.Err? {
          return Fail(d.fault);
        }
        variables := variables[varName := d.value];
        r := Pass;
      } else {
        var f := GetVar(Full, names[0]);
        if f.Err? {
          return Fail(f.fault);
        }
        match f.value
        case Literal(_) =>
          r := Fail(AttributeFault);
        case Bound(d) =>
          if d.mem.None? {
            return Fail(AttributeFault);
          }
          HeadAndTailLength(varName, '.');
          r := d.mem.value.AddVar(Full, value, Join('.', names[1..]));
      }
    }

    /**
     * `add_global_var`: climbs to the first scope that has no parent or is a
     * block boundary and binds the name there.
     */
    method AddGlobalVar(ghost U: set<Memory>, ghost Full: set<Memory>, value: Raw, varName: string) returns (r: Outcome)
      requires Closed(Full) && U <= Full && ChainIn(U) && Refs(value) <= Full
      modifies Full`variables
      ensures Closed(Full)
      ensures Applied(Full, old(GlobalScope(U).AddVarEffect(Full, value, varName)), r)
      decreases U
    {
      if parent != null && !block {
        r := parent.AddGlobalVar(U - {this}, Full, value, varName);
      } else {
        r := AddVar(Full, value, varName);
      }
    }

    /**
     * `set_var`: replaces the payload of the nearest existing binding of
     * `varName`, leaving its kind and name; does nothing when the name is
     * bound nowhere on the chain.
     */
    method SetVar(ghost U: set<Memory>, ghost Full: set<Memory>, value: Raw, varName: string) returns (r: Outcome)
      requires Closed(Full) && U <= Full && ChainIn(U) && Refs(value) <= Full
      modifies Full`variables
      ensures Closed(Full)
      ensures Applied(Full, old(SetVarEffect(U, Full, value, varName)), r)
      decreases U
    {
      if varName in variables {
        var cleared := ClearParseValue(Full, this, value);
        if cleared.Err? {
          return Fail(cleared.fault);
        }
        variables := variables[varName := variables[varName].(payload := cleared.value)];
        r := Pass;
      } else if parent != null {
        r := parent.SetVar(U - {this}, Full, value, varName);
      } else {
        r := Pass;
      }
    }
  }

  /** The head of a name has no '.' and is its own head. */
  lemma HeadIdempotent(name: string)
    ensures '.' !in Head(name) && Head(Head(name)) == Head(name)
  {
    SplitPiecesFree(name, '.');
    SplitWithoutSep(Head(name), '.');
  }

  /**
   * The state after a write: on failure, and when there is nothing to write,
   * no scope changes; otherwise exactly the one entry of the one scope.
   */
  twostate predicate Applied(Full: set<Memory>, eff: Result<Option<Binding>>, r: Outcome)
    reads Full`variables
  {
    match eff
    case Err(f) =>
      r == Fail(f) && forall x | x in Full :: x.variables == old(x.variables)
    case Ok(None) =>
      r == Pass && forall x | x in Full :: x.variables == old(x.variables)
    case Ok(Some(b)) =>
      r == Pass && b.scope in Full
      && b.scope.variables == old(b.scope.variables)[b.name := b.data]
      && forall x | x in Full && x != b.scope :: x.variables == old(x.variables)
  }

  // ---------------------------------------------------------------------
  // Name resolution through member scopes
  // ---------------------------------------------------------------------

  /**
   * The part of `get_var` after the head was found bound to `d`: with no
   * segments left it is `d`; otherwise the rest is looked up in `d`'s member
   * scope, and a value without one fails.
   */
  function Member(ghost Full: set<Memory>, d: Data, tail: seq<string>): (r: Result<Found>)
    reads Full
    requires Closed(Full) && DataRefs(d) <= Full
    ensures r.Ok? && r.value.Bound? ==> DataRefs(r.value.data) <= Full
    ensures r.Ok? && r.value.Literal? ==> Refs(r.value.raw) <= Full
    decreases if tail == [] then 0 else 3 * |Join('.', tail)| + 2, 3
  {
    if tail == [] then Ok(Bound(d))
    else if d.mem.None? then Err(AttributeFault)
    else d.mem.value.GetVar(Full, Join('.', tail))
  }

  /** `get_var(name)` when `in_memory(name)` holds: the head is found on the chain. */
  function BoundMember(ghost Full: set<Memory>, m: Memory, name: string): (r: Result<Found>)
    reads Full
    requires Closed(Full) && m in Full && m.Holder(Full, Head(name)) != null
    ensures r.Ok? && r.value.Bound? ==> DataRefs(r.value.data) <= Full
    ensures r.Ok? && r.value.Literal? ==> Refs(r.value.raw) <= Full
    decreases 3 * |name|, 4
  {
    var names := Split(name, '.');
    var h := m.Holder(Full, names[0]);
    if |names| >= 2 then
      HeadAndTailLength(name, '.');
      Member(Full, h.variables[names[0]], names[1..])
    else Member(Full, h.variables[names[0]], [])
  }

  // ---------------------------------------------------------------------
  // Classification: Data.__init__, clear_parse_value, get_value, get_bool_value
  // ---------------------------------------------------------------------

  /**
   * `Data(memory, value, var_name, skip_unknown)`: an ordered classifier. A
   * quoted string (quotes stripped), then anything `int()` accepts unless it
   * is already a float, then anything `float()` accepts, then a list (its
   * elements boxed), a tree node, an object descriptor, text with a
   * comparison (evaluated), and last a name: a bound name is adopted, an
   * unbound one is a 'variable' placeholder when `skipUnknown`, else fails.
   */
  function NewData(ghost Full: set<Memory>, memory: Memory, value: Raw, varName: string, skipUnknown: bool): (r: Result<Data>)
    reads Full
    requires Closed(Full) && memory in Full && Refs(value) <= Full
    ensures r.Ok? ==> r.value.memory == memory && DataRefs(r.value) <= Full
    decreases Size(value), 6
  {
    if IsString(value) then
      Ok(Data(Str, PyStr(value.s[1..|value.s| - 1]), varName, memory, None))
    else if IntClassifiable(value) then
      Ok(Data(Int, PyInt(PyIntOf(value).value), varName, memory, None))
    else if PyFloatOf(value).Some? then
      Ok(Data(Float, PyFloat(PyFloatOf(value).value), varName, memory, None))
    else
      match value
      case PyList(items) =>
        assert Size(value) == 1 + SizeOfItems(items);
        var boxed :- BoxItems(Full, memory, items);
        Ok(Data(List, PyList(boxed), varName, memory, None))
      case PyNode(_) =>
        Ok(Data(Node, value, varName, memory, None))
      case PyDict(entry) =>
        Ok(Data(Class, value, varName, memory, if entry.Some? then Some(entry.value.memory) else None))
      case PyStr(s) =>
        if HasComparison(s) then
          var b :- GetBoolValue(Full, memory, s);
          Ok(Data(Bool, b, varName, memory, None))
        else
          var name := RemoveStartSpaces(s);
          if memory.InMemory(Full, name) then
            var f :- BoundMember(Full, memory, name);
            match f
            case Bound(d) => Ok(Data(d.kind, d.payload, d.varName, memory, None))
            case Literal(_) => Err(AttributeFault)
          else if skipUnknown then Ok(Data(Variable, PyNone, name, memory, None))
          else Err(UnknownType(name))
      case PyNone => Err(HelperFault)
      // A `Data` instance: `'=' in value` raises TypeError. Numbers never get here.
      case _ => Err(TypeFault)
  }

  /**
   * The element loop of `Data.__init__` for lists: every element that is not
   * yet a `Data` is replaced by one built in the same scope (with no
   * deferral); elements that are already `Data` stay as they are. The first
   * element that cannot be classified decides the failure.
   */
  function BoxItems(ghost Full: set<Memory>, memory: Memory, items: seq<Raw>): (r: Result<seq<Raw>>)
    reads Full
    requires Closed(Full) && memory in Full && RefsOfItems(items) <= Full
    ensures r.Ok? ==> |r.value| == |items| && RefsOfItems(r.value) <= Full
    ensures r.Ok? ==> forall i :: 0 <= i < |items| ==>
      r.value[i].PyData?
      && (items[i].PyData? ==> r.value[i] == items[i])
      && (!items[i].PyData? ==> r.value[i].data.memory == memory)
    decreases SizeOfItems(items), 6
  {
    if items == [] then Ok([])
    else
      var first :- BoxOne(Full, memory, items[0]);
      var rest :- BoxItems(Full, memory, items[1..]);
      var boxed := [first] + rest;
      assert forall i | 1 <= i < |items| :: boxed[i] == rest[i - 1] && items[i] == items[1..][i - 1];
      Ok(boxed)
  }

  /** One step of that loop: `Data(memory=self.memory, value=dat)` unless `dat` is a `Data` already. */
  function BoxOne(ghost Full: set<Memory>, memory: Memory, item: Raw): (r: Result<Raw>)
    reads Full
    requires Closed(Full) && memory in Full && Refs(item) <= Full
    ensures r.Ok? ==> r.value.PyData? && Refs(r.value) <= Full
    ensures r.Ok? && item.PyData? ==> r.value == item
    ensures r.Ok? && !item.PyData? ==> r.value.data.memory == memory
    decreases Size(item), 7
  {
    if item.PyData? then Ok(item)
    else
      var d :- NewData(Full, memory, item, "None", false);
      Ok(PyData(d))
  }

  /**
   * The same loop as Python runs it, in place over the list's elements: on
   * success the array holds the boxed list; on failure the elements before
   * the failing one are already boxed and the rest are untouched.
   */
  method BoxInPlace(ghost Full: set<Memory>, memory: Memory, a: array<Raw>) returns (r: Outcome, ghost failedAt: nat)
    requires Closed(Full) && memory in Full && RefsOfItems(a[..]) <= Full
    modifies a
    ensures var boxed := BoxItems(Full, memory, old(a[..]));
      (r.Pass? <==> boxed.Ok?) && (boxed.Ok? ==> a[..] == boxed.value)
    ensures r.Fail? ==>
      failedAt < a.Length
      && RefsOfItems(old(a[..failedAt])) <= Full && Refs(old(a[failedAt])) <= Full
      && BoxItems(Full, memory, old(a[..failedAt])).Ok?
      && a[..failedAt] == BoxItems(Full, memory, old(a[..failedAt])).value
      && BoxOne(Full, memory, old(a[failedAt])) == Err(r.fault)
      && a[failedAt..] == old(a[failedAt..])
  {
    ghost var original := a[..];
    var i := 0;
    failedAt := 0;
    while i < a.Length
      invariant 0 <= i <= a.Length
      invariant a[i..] == original[i..]
      invariant RefsOfItems(original[..i]) <= Full && RefsOfItems(original[i..]) <= Full
      invariant BoxItems(Full, memory, original[..i]).Ok?
      invariant a[..i] == BoxItems(Full, memory, original[..i]).value
    {
      var item := a[i];
      assert item == original[i] == original[i..][0];
      RefsOfItemsSplit(original[i..]);
      assert original[i..][1..] == original[i + 1..];
      var boxed := BoxOne(Full, memory, item);
      BoxItemsSnoc(Full, memory, original[..i], item);
      assert original[..i + 1] == original[..i] + [item];
      if boxed.Err? {
        BoxItemsFailure(Full, memory, original, i);
        return Fail(boxed.fault), i;
      }
      a[i] := boxed.value;
      assert a[..i + 1] == a[..i] + [boxed.value];
      i := i + 1;
    }
    assert a[..] == a[..a.Length] && original[..a.Length] == original;
    r := Pass;
  }

  lemma {:induction false} RefsOfItemsSplit(items: seq<Raw>)
    requires items != []
    ensures RefsOfItems(items) == Refs(items[0]) + RefsOfItems(items[1..])
  {
  }

  lemma {:induction false} RefsOfItemsAppend(xs: seq<Raw>, ys: seq<Raw>)
    ensures RefsOfItems(xs + ys) == RefsOfItems(xs) + RefsOfItems(ys)
    decreases |xs|
  {
    if xs != [] {
      assert (xs + ys)[1..] == xs[1..] + ys;
      RefsOfItemsAppend(xs[1..], ys);
    } else {
      assert xs + ys == ys;
    }
  }

  /** Boxing a list one element longer is boxing the shorter list, then boxing the new element. */
  lemma {:induction false} BoxItemsSnoc(Full: set<Memory>, memory: Memory, items: seq<Raw>, item: Raw)
    requires Closed(Full) && memory in Full && RefsOfItems(items) <= Full && Refs(item) <= Full
    ensures RefsOfItems(items + [item]) <= Full
    ensures BoxItems(Full, memory, items + [item]) ==
      match BoxItems(Full, memory, items)
      case Err(f) => Err(f)
      case Ok(prefix) =>
        match BoxOne(Full, memory, item)
        case Err(f) => Err(f)
        case Ok(b) => Ok(prefix + [b])
    decreases |items|
  {
    RefsOfItemsAppend(items, [item]);
    RefsOfItemsSplit([item]);
    if items == [] {
      assert [item][1..] == [];
      assert items + [item] == [item];
      match BoxOne(Full, memory, item)
      case Err(f) =>
      case Ok(b) =>
        assert [b] + [] == [] + [b];
    } else {
      var longer := items + [item];
      RefsOfItemsSplit(items);
      RefsOfItemsSplit(longer);
      assert longer[1..] == items[1..] + [item];
      assert longer[0] == items[0];
      BoxItemsSnoc(Full, memory, items[1..], item);
      match BoxOne(Full, memory, items[0])
      case Err(f) =>
      case Ok(first) =>
        match BoxItems(Full, memory, items[1..])
        case Err(f) =>
        case Ok(rest) =>
          match BoxOne(Full, memory, item)
          case Err(f) =>
          case Ok(b) =>
            assert [first] + (rest + [b]) == ([first] + rest) + [b];
    }
  }

  /** When element `i` is the first that fails, the whole list fails with its fault. */
  lemma {:induction false} BoxItemsFailure(Full: set<Memory>, memory: Memory, items: seq<Raw>, i: nat)
    requires Closed(Full) && memory in Full && RefsOfItems(items) <= Full
    requires i < |items| && RefsOfItems(items[..i]) <= Full && Refs(items[i]) <= Full
    requires BoxItems(Full, memory, items[..i]).Ok? && BoxOne(Full, memory, items[i]).Err?
    ensures BoxItems(Full, memory, items) == Err(BoxOne(Full, memory, items[i]).fault)
    decreases i
  {
    RefsOfItemsSplit(items);
    if i > 0 {
      assert items[..i][0] == items[0] && items[..i][1..] == items[1..][..i - 1];
      RefsOfItemsSplit(items[..i]);
      assert items[1..][i - 1] == items[i];
      BoxItemsFailure(Full, memory, items[1..], i - 1);
    }
  }

  /**
   * `clear_parse_value` (and `parse_value`, which only calls it): unwrap,
   * substitute the special literals, classify with deferral allowed, and
   * return the classified value's `value` property.
   */
  function ClearParseValue(ghost Full: set<Memory>, memory: Memory, value: Raw): (r: Result<Raw>)
    reads Full
    requires Closed(Full) && memory in Full && Refs(value) <= Full
    ensures r.Ok? ==> Refs(r.value) <= Full
    decreases Size(value) + 2, 1
  {
    var v :- ToValue(value);
    if v == PyStr("input") then Err(NotModelled)
    else
      var subst := if v.PyStr? && v.s in Specials then PyStr(AddStr(Specials[v.s])) else v;
      var d :- NewData(Full, memory, subst, "None", true);
      d.Value()
  }

  /**
   * Parsing a list gives back a list of the same length whose elements are
   * all `Data`: those that already were stay as they are, the others are
   * built in the parsing scope.
   */
  lemma ClearParseKeepsList(Full: set<Memory>, memory: Memory, items: seq<Raw>)
    requires Closed(Full) && memory in Full && RefsOfItems(items) <= Full
    ensures var c := ClearParseValue(Full, memory, PyList(items));
      c.Ok? ==> c.value.PyList? && |c.value.items| == |items|
    ensures var c := ClearParseValue(Full, memory, PyList(items));
      c.Ok? ==> forall i :: 0 <= i < |items| ==>
        c.value.items[i].PyData?
        && (items[i].PyData? ==> c.value.items[i] == items[i])
        && (!items[i].PyData? ==> c.value.items[i].data.memory == memory)
  {
  }

  /**
   * `Memory.get_value`. Text ending in ')' whose name part is bound is a
   * call: applying a tree node or an object descriptor is not part of this
   * model, and any other bound value makes the call yield None. Text ending
   * in ']' whose name part is bound is an index (not part of this model).
   * Any other text is parsed as a literal or an expression.
   */
  function GetValue(ghost Full: set<Memory>, m: Memory, variable: string): (r: Result<Raw>)
    reads Full
    requires Closed(Full) && m in Full
    ensures r.Ok? ==> Refs(r.value) <= Full
    decreases 3 * |variable| + 2, 2
  {
    var ends := if |variable| > 0 then variable[|variable| - 1] else ' ';
    var callee := Split(variable, '(')[0];
    SplitPieceLength(variable, '(', 0);
    if m.InMemory(Full, callee) && ends == ')' then
      var f :- BoundMember(Full, m, callee);
      match f
      case Literal(_) => Err(AttributeFault)
      case Bound(d) =>
        var c :- d.Value();
        if c.PyNode? || c.PyDict? then Err(NotModelled) else Ok(PyNone)
    else if m.InMemory(Full, Split(variable, '[')[0]) && ends == ']' then Err(NotModelled)
    else ClearParseValue(Full, m, PyStr(variable))
  }

  /** The comparison operators of `get_bool_value`, in the order it tries them. */
  const Operators: seq<string> := ["==", "!=", ">", "<"]

  /**
   * One comparison of `get_bool_value`: both operands are evaluated with
   * `get_value`, left first, and compared as Python compares them.
   */
  function Compare(ghost Full: set<Memory>, m: Memory, expr: string, op: string): (r: Result<Raw>)
    reads Full
    requires Closed(Full) && m in Full && op in Operators && Contains(expr, op)
    ensures r.Ok? ==> r.value.PyBool?
    decreases 3 * |expr|, 4
  {
    var (a, b) := Operands(expr, op);
    var x :- GetValue(Full, m, a);
    var y :- GetValue(Full, m, b);
    if op == "==" then Ok(PyBool(PyEq(x, y)))
    else if op == "!=" then Ok(PyBool(!PyEq(x, y)))
    else if op == ">" then
      var c :- PyLess(y, x);
      Ok(PyBool(c))
    else
      var c :- PyLess(x, y);
      Ok(PyBool(c))
  }

  /**
   * `get_bool_value`: the first of `==`, `!=`, `>`, `<` that occurs decides
   * the comparison; without any, a bound name yields its value and anything
   * else yields None.
   */
  function GetBoolValue(ghost Full: set<Memory>, m: Memory, expr: string): (r: Result<Raw>)
    reads Full
    requires Closed(Full) && m in Full
    ensures r.Ok? ==> Refs(r.value) <= Full
    decreases 3 * |expr|, 5
  {
    if Contains(expr, "==") then Compare(Full, m, expr, "==")
    else if Contains(expr, "!=") then Compare(Full, m, expr, "!=")
    else if Contains(expr, ">") then Compare(Full, m, expr, ">")
    else if Contains(expr, "<") then Compare(Full, m, expr, "<")
    else if m.InMemory(Full, expr) then
      var f :- BoundMember(Full, m, expr);
      match f
      case Bound(d) => d.Value()
      case Literal(_) => Err(AttributeFault)
    else Ok(PyNone)
  }
  // ---------------------------------------------------------------------
  // Writes through a Data: set_value and set_list_value
  // ---------------------------------------------------------------------

  /** The payload `set_value` stores first: a `Data` argument's value, anything else as it is. */
  function AssignedPayload(value: Raw): (r: Result<Raw>)
    ensures !value.PyData? ==> r == Ok(value)
    ensures r.Ok? && value.PyData? && value.data.kind != List ==> !r.value.PyData?
    ensures r.Ok? ==> Refs(r.value) <= Refs(value)
  {
    if value.PyData? then value.data.Value() else Ok(value)
  }

  /**
   * What `set_value` writes into the scopes: the new payload is classified in
   * the value's scope (no deferral) and handed to `set_var` under the value's
   * name.
   */
  function SetValueEffect(ghost Full: set<Memory>, self: Data, value: Raw): (r: Result<Option<Binding>>)
    reads Full
    requires Closed(Full) && DataRefs(self) <= Full && Refs(value) <= Full
    ensures r.Ok? && r.value.Some? ==> r.value.value.name == self.varName
  {
    var p :- AssignedPayload(value);
    var data :- NewData(Full, self.memory, p, "None", false);
    self.memory.SetVarEffect(Full, Full, PyData(data), self.varName)
  }

  /**
   * The `Data` itself after `set_value`: the assigned payload, with its type,
   * name and scopes kept. A list is the very object that
   * `Data(value=self._value)` then boxes in place, so when that
   * classification succeeds the payload is the boxed list.
   */
  function ValueAfter(ghost Full: set<Memory>, self: Data, value: Raw): (r: Data)
    reads Full
    requires Closed(Full) && DataRefs(self) <= Full && Refs(value) <= Full
    ensures r.kind == self.kind && r.varName == self.varName && r.memory == self.memory && r.mem == self.mem
    ensures AssignedPayload(value).Err? ==> r == self
    ensures AssignedPayload(value).Ok? && !AssignedPayload(value).value.PyList? ==>
      r.payload == AssignedPayload(value).value
    ensures AssignedPayload(value).Ok? && AssignedPayload(value).value.PyList? ==>
      var items := AssignedPayload(value).value.items;
      r.payload.PyList? && |r.payload.items| == |items|
      && (NewData(Full, self.memory, PyList(items), "None", false).Ok? ==>
          forall i | 0 <= i < |items| ::
            r.payload.items[i].PyData?
            && (items[i].PyData? ==> r.payload.items[i] == items[i])
            && (!items[i].PyData? ==> r.payload.items[i].data.memory == self.memory))
  {
    match AssignedPayload(value)
    case Err(_) => self
    case Ok(p) =>
      if p.PyList? then
        match NewData(Full, self.memory, p, "None", false)
        case Ok(d) => self.(payload := d.payload)
        case Err(_) => self.(payload := p)
      else self.(payload := p)
  }

  /**
   * `Data.set_value` (the setter of `value`): the value's own payload becomes
   * the assigned value (unwrapped when it is a `Data`, boxed in place when it
   * is a list), then the nearest binding of its name is updated as `set_var`
   * does.
   */
  method SetValue(ghost Full: set<Memory>, self: Data, value: Raw) returns (updated: Data, r: Outcome)
    requires Closed(Full) && DataRefs(self) <= Full && Refs(value) <= Full
    modifies Full`variables
    ensures Closed(Full)
    ensures updated == old(ValueAfter(Full, self, value))
    ensures Applied(Full, old(SetValueEffect(Full, self, value)), r)
  {
    var p := AssignedPayload(value);
    if p.Err? {
      return self, Fail(p.fault);
    }
    var data := NewData(Full, self.memory, p.value, "None", false);
    updated := if p.value.PyList? && data.Ok? then self.(payload := data.value.payload) else self.(payload := p.value);
    if data.Err? {
      return updated, Fail(data.fault);
    }
    r := self.memory.SetVar(Full, Full, PyData(data.value), self.varName);
  }

  /**
   * The position `set_list_value` writes: the index is unwrapped and passed
   * through `int()`, and a negative one counts from the end of the value's
   * list. A non-integer index, a value that is not a list, and a position
   * outside the list fail, in the order Python meets them.
   */
  function ListIndex(self: Data, index: Raw): (r: Result<nat>)
    ensures r.Ok? ==> self.payload.PyList? && r.value < |self.payload.items|
  {
    var idx :- if index.PyData? then index.data.Value() else Ok(index);
    var vl :- ToValue(PyData(self));
    var k := PyIntOf(idx);
    if k.None? then Err(if idx.PyStr? then ValueFault else TypeFault)
    else
      match vl
      case PyList(items) =>
        if vl != self.payload then Err(NotModelled)
        else if -|items| <= k.value < |items| then
          Ok(if k.value < 0 then k.value + |items| else k.value)
        else Err(IndexFault)
      case PyDict(_) => Err(NotModelled)
      case PyNode(_) => Err(NotModelled)
      case _ => Err(TypeFault)
  }

  /** The value's list after `vl[int(index)] = value`. */
  function ListWrite(self: Data, index: Raw, value: Raw): (r: Result<seq<Raw>>)
    ensures r.Ok? <==> ListIndex(self, index).Ok?
    ensures r.Ok? ==> var pos := ListIndex(self, index).value;
      self.payload.PyList? && |r.value| == |self.payload.items| && r.value[pos] == value
      && forall j | 0 <= j < |r.value| && j != pos :: r.value[j] == self.payload.items[j]
  {
    var pos :- ListIndex(self, index);
    Ok(self.payload.items[pos := value])
  }

  /** What `set_list_value` writes into the scopes: the updated list, handed to `set_var` under the value's name. */
  function SetListValueEffect(ghost Full: set<Memory>, self: Data, index: Raw, value: Raw): (r: Result<Option<Binding>>)
    reads Full
    requires Closed(Full) && DataRefs(self) <= Full && Refs(value) <= Full
    ensures r.Ok? ==> ListWrite(self, index, value).Ok?
  {
    var items :- ListWrite(self, index, value);
    ListWriteRefs(self, index, value);
    self.memory.SetVarEffect(Full, Full, PyList(items), self.varName)
  }

  /**
   * The `Data` itself after `set_list_value`: its list with the write, and,
   * when `set_var` classified that list, the same list with its elements
   * boxed (the list object is shared, so the boxing shows through).
   */
  function ListValueAfter(ghost Full: set<Memory>, self: Data, index: Raw, value: Raw): (r: Data)
    reads Full
    requires Closed(Full) && DataRefs(self) <= Full && Refs(value) <= Full
    ensures r.kind == self.kind && r.varName == self.varName && r.memory == self.memory && r.mem == self.mem
    ensures ListWrite(self, index, value).Err? ==> r == self
    ensures ListWrite(self, index, value).Ok? ==> r.payload.PyList? && |r.payload.items| == |self.payload.items|
    ensures var eff := SetListValueEffect(Full, self, index, value);
      ListWrite(self, index, value).Ok? && !(eff.Ok? && eff.value.Some?) ==>
        r.payload == PyList(ListWrite(self, index, value).value)
    ensures var eff := SetListValueEffect(Full, self, index, value);
      eff.Ok? && eff.value.Some? ==>
        var pos := ListIndex(self, index).value;
        var scope := eff.value.value.scope;
        (value.PyData? ==> r.payload.items[pos] == value)
        && (!value.PyData? ==> r.payload.items[pos].PyData? && r.payload.items[pos].data.memory == scope)
        && forall j | 0 <= j < |r.payload.items| && j != pos ::
             r.payload.items[j].PyData?
             && (self.payload.items[j].PyData? ==> r.payload.items[j] == self.payload.items[j])
             && (!self.payload.items[j].PyData? ==> r.payload.items[j].data.memory == scope)
  {
    match ListWrite(self, index, value)
    case Err(_) => self
    case Ok(items) =>
      match SetListValueEffect(Full, self, index, value)
      case Ok(Some(b)) =>
        ListWriteRefs(self, index, value);
        ClearParseKeepsList(Full, b.scope, items);
        self.(payload := b.data.payload)
      case _ => self.(payload := PyList(items))
  }

  lemma ListWriteRefs(self: Data, index: Raw, value: Raw)
    requires ListWrite(self, index, value).Ok?
    ensures Refs(PyList(ListWrite(self, index, value).value)) <= Refs(self.payload) + Refs(value)
  {
    RefsOfItemsUpdate(self.payload.items, ListIndex(self, index).value, value);
  }

  /** Writing one element brings in no scope references beyond the list's and the element's. */
  lemma {:induction false} RefsOfItemsUpdate(items: seq<Raw>, pos: nat, value: Raw)
    requires pos < |items|
    ensures RefsOfItems(items[pos := value]) <= RefsOfItems(items) + Refs(value)
    decreases pos
  {
    var w := items[pos := value];
    RefsOfItemsSplit(items);
    RefsOfItemsSplit(w);
    if pos > 0 {
      assert w[1..] == items[1..][pos - 1 := value];
      RefsOfItemsUpdate(items[1..], pos - 1, value);
    }
  }

  /** `Data.set_list_value`. */
  method SetListValue(ghost Full: set<Memory>, self: Data, index: Raw, value: Raw) returns (updated: Data, r: Outcome)
    requires Closed(Full) && DataRefs(self) <= Full && Refs(value) <= Full
    modifies Full`variables
    ensures Closed(Full)
    ensures updated == old(ListValueAfter(Full, self, index, value))
    ensures ListWrite(self, index, value).Err? ==>
      updated == self && r == Fail(ListWrite(self, index, value).fault)
      && forall x | x in Full :: x.variables == old(x.variables)
    ensures ListWrite(self, index, value).Ok? ==> Applied(Full, old(SetListValueEffect(Full, self, index, value)), r)
  {
    var w := ListWrite(self, index, value);
    if w.Err? {
      return self, Fail(w.fault);
    }
    ListWriteRefs(self, index, value);
    var eff := self.memory.SetVarEffect(Full, Full, PyList(w.value), self.varName);
    updated := if eff.Ok? && eff.value.Some? then self.(payload := eff.value.value.data.payload)
      else self.(payload := PyList(w.value));
    r := self.memory.SetVar(Full, Full, PyList(w.value), self.varName);
  }

  // ---------------------------------------------------------------------
  // to_string
  // ---------------------------------------------------------------------

  /**
   * `to_string`: a value that is not a `Data` comes back as it is; a list
   * `Data` renders as its elements' renderings joined by ',' inside
   * brackets; any other `Data` renders as `str` of its payload.
   */
  function ToString(v: Raw): (r: Result<Raw>)
    ensures !v.PyData? ==> r == Ok(v)
    ensures v.PyData? && r.Ok? ==> r.value.PyStr?
    decreases v, 1
  {
    match v
    case PyData(d) =>
      if d.kind != List then
        var t :- StrOf(d.payload);
        Ok(PyStr(t))
      else
        var parts :- Rendered(d.payload);
        Ok(PyStr("[" + Join(',', parts) + "]"))
    case _ => Ok(v)
  }

  /** Python's `str(p)` for the payloads this core produces; floats, lists, nodes and objects are not modelled. */
  function StrOf(p: Raw): (r: Result<string>)
    ensures p.PyStr? ==> r == Ok(p.s)
    ensures p.PyInt? ==> r.Ok? && ParseInt(r.value) == Some(p.i)
    decreases p, 2
  {
    match p
    case PyStr(s) => Ok(s)
    case PyInt(i) => IntRoundTrip(i); Ok(IntToString(i))
    case PyBool(b) => Ok(if b then "True" else "False")
    case PyNone => Ok("None")
    case PyData(_) =>
      var t :- ToString(p);
      Ok(t.s)
    case _ => Err(NotModelled)
  }

  /** The renderings `to_string` collects while iterating over a list payload. */
  function Rendered(p: Raw): (r: Result<seq<string>>)
    ensures r.Ok? ==> p.PyList? || p.PyStr?
    ensures r.Ok? && p.PyList? ==> |r.value| == |p.items|
    ensures r.Ok? && p.PyStr? ==> |r.value| == |p.s| && forall i | 0 <= i < |p.s| :: r.value[i] == [p.s[i]]
    decreases p, 2
  {
    match p
    case PyList(items) => RenderedItems(items)
    case PyStr(s) => Ok(seq(|s|, i requires 0 <= i < |s| => [s[i]]))
    case PyDict(_) => Err(NotModelled)
    case PyNode(_) => Err(NotModelled)
    case _ => Err(TypeFault)
  }

  function RenderedItems(items: seq<Raw>): (r: Result<seq<string>>)
    ensures r.Ok? ==> |r.value| == |items|
    ensures r.Ok? ==> forall i | 0 <= i < |items| :: ToString(items[i]) == Ok(PyStr(r.value[i]))
    ensures r.Err? ==> exists i | 0 <= i < |items| :: ToString(items[i]).Err? || !ToString(items[i]).value.PyStr?
    decreases items, 2
  {
    if items == [] then Ok([])
    else
      var first :- ToString(items[0]);
      var rest :- RenderedItems(items[1..]);
      // `",".join` raises TypeError on an element that is not text.
      if first.PyStr? then Ok([first.s] + rest) else Err(TypeFault)
  }
}
