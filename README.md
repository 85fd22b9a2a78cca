# Alany scopes and values, in Dafny

This is a model of the memory core of the Alany interpreter (`alany/memory.py`). It covers two parts.

- **`Memory`, the scope chain.** A scope holds a dictionary of bindings, a link to its parent scope and a `block` flag. The operations walk the parent chain:
  - `add_var` binds a name here, or in a member scope for `a.b`.
  - `add_global_var` binds in the first scope that is the root or a block.
  - `set_var` rewrites the nearest existing binding.
  - `in_memory` tests a name.
  - `get_var` looks a name up; at the root, unbound text is parsed as a literal.
  - `get_global_memory` returns the root.
  - `get_bool_value` evaluates a comparison.
- **`Data`, the value classifier.** `Data.__init__` decides a value's type in a fixed order: quoted text, `int()`, `float()`, list (its elements boxed in place), node, dict/class, comparison text, and finally a name. A name is adopted from its binding, deferred as a `variable` placeholder, or rejected. Around the classifier sit:
  - the `value` property;
  - `set_value` and `set_list_value`;
  - `to_value`, which unwraps nested `Data`;
  - `clear_parse_value`, which substitutes `space`, `none` and escape tokens, then classifies;
  - `to_string`, which renders lists as `[a,b]`.

The files:

- `text.dfy` (module `Text`) holds the Python string built-ins the core relies on, over `seq<char>`: `in`, `replace`, one-character `split` and `join`, `int(str)`, decimal `float(str)` and `str(int)`.
- `memory.dfy` (module `AlanyMemory`) holds the model itself. Its parts:
  - `Memory` is a class with fields `parent`, `children`, `variables` and `block`. `add_var`, `add_global_var` and `set_var` are methods that modify `variables`.
  - Each method is specified by a pure *effect* function. The effect says which single `(scope, name, data)` entry the call writes, or that it writes nothing, or the error it raises. The two-state predicate `Applied` states that the new heap is exactly the old one with that entry written.
  - Python runtime values are the datatype `Raw`, and a `Data` object is the datatype `Data`.
  - The list-boxing loop of `Data.__init__` is the method `BoxInPlace` over an `array<Raw>`. It is proved against the function `BoxItems`.
- `scope_lemmas.dfy` (module `ScopeLemmas`) proves the frame-selection rules of the scope chain.
- `value_lemmas.dfy` (module `ValueLemmas`) proves the classification order, the list rules, the rendering rules and the operator priority.

Exceptions that escape a call are modelled as `Err(fault)` results:

- `AttributeFault`: AttributeError, e.g. a dotted name whose head has no member scope.
- `TypeFault`: TypeError.
- `ValueFault`: ValueError.
- `IndexFault`: IndexError.
- `UnknownType`: the unknown-type runtime error.
- `HelperFault`: a failure inside a helper of `functions.py`.
- `NotModelled`: a branch left out below.

A method that fails writes nothing, and this is proved. Memory safety of the parent walk is expressed by a ghost universe of scopes (`Closed(Full)`). Every parent chain inside it ends at a root, and every stored value refers only to scopes inside it.

The helpers imported from `functions.py` are not part of this model. The model fixes them as follows:
- `is_string(v)`: `v` is text of length at least 2 that starts and ends with the same quote, `'` or `"`.
- `remove_start_spaces(s)`: drops the leading blanks; on a non-text value it fails.
- `add_str(s)`: wraps `s` in single quotes.

## Model

| member | source | states |
|---|---|---|
| AlanyMemory.Memory.constructor | alany/memory.py:8-12 | A new scope has the given parent and children, no bindings, and is not a block |
| AlanyMemory.Memory.Holder | alany/memory.py:42-47 | The scope found on the chain really holds the key and lies in the universe |
| AlanyMemory.Memory.InMemory | alany/memory.py:38-49 | `in_memory(n)` is true exactly when some scope on the chain holds the part of `n` before the first `.`; it never fails |
| AlanyMemory.Memory.GetGlobalMemory | alany/memory.py:67-71 | The scope returned is in the universe and has no parent |
| AlanyMemory.Memory.GlobalScope | alany/memory.py:26-30 | The scope `add_global_var` writes is in the universe and is the root or a block |
| AlanyMemory.Memory.GetVar | alany/memory.py:51-65 | A found binding, or a literal parsed at the root, refers only to scopes of the universe |
| AlanyMemory.Memory.AddVarEffect | alany/memory.py:14-24 | A successful `add_var` writes exactly one entry: a dot-free name, in a scope of the universe, holding a `Data` whose scope is that scope |
| AlanyMemory.Memory.SetVarEffect | alany/memory.py:32-36 | What `set_var` writes is a scope of the universe and a `Data` referring only to scopes of the universe, whose payload is the value as `clear_parse_value` parses it in that scope |
| AlanyMemory.Memory.AddVar | alany/memory.py:14-24 | On success, the one scope named by the effect gains or overwrites that one name and every other scope is unchanged; on failure nothing changes; the universe stays closed |
| AlanyMemory.Memory.AddGlobalVar | alany/memory.py:26-30 | Acts as `add_var` on the first root-or-block scope of the chain; no other scope changes |
| AlanyMemory.Memory.SetVar | alany/memory.py:32-36 | Writes only the entry its effect names, or nothing when the name is unbound or classification fails |
| AlanyMemory.Head | alany/memory.py:52-53 | The first segment of a name holds no `.`, is no longer than the name, and is the whole name when it has no `.` |
| AlanyMemory.HeadIdempotent | alany/memory.py:40 | The part of a name before its first `.` has no `.` and is its own head |
| AlanyMemory.Member | alany/memory.py:59-61 | Walking the member scopes of a dotted name yields values inside the universe |
| AlanyMemory.BoundMember | alany/memory.py:55-61 | A lookup that starts at the nearest binding of the head yields values inside the universe |
| AlanyMemory.Data.Value | alany/memory.py:207-215 | The `value` property never returns a `Data` except inside a list, always returns a quoted text for a 'str', and refers only to the `Data`'s scopes |
| AlanyMemory.IsQuoted | alany/memory.py:154 | `is_string` on text: at least two characters, starting and ending with the same quote |
| AlanyMemory.IsString | alany/memory.py:154 | `is_string` on a runtime value: only quoted text |
| AlanyMemory.RemoveStartSpaces | alany/memory.py:191 | The text never grows, and the result does not start with a blank |
| AlanyMemory.RemoveStartSpacesDropsBlanks | alany/memory.py:191 | The text is a run of blanks followed by the result: only leading blanks are dropped, and the rest is kept as it was |
| AlanyMemory.AddStr | alany/memory.py:291-297 | The result is quoted text whose inside is the argument |
| AlanyMemory.PyIntOf | alany/memory.py:161-163 | Python's `int()`: only numbers and text convert, and a float is truncated toward zero |
| AlanyMemory.IntClassifiable | alany/memory.py:161-164 | The int step applies to anything but a float that `int()` accepts |
| AlanyMemory.PyFloatOf | alany/memory.py:166-168 | Python's `float()`: only numbers and text convert, and a number keeps its value |
| AlanyMemory.PyEq | alany/memory.py:123-128 | Python's `==` on the values compared, including `Data.__eq__` by attributes; the lemmas `PyEqReflexive` and `PyEqSymmetric` state its laws |
| AlanyMemory.ItemsEq | alany/memory.py:123-128 | Python's `==` on two lists, element by element |
| AlanyMemory.PyLess | alany/memory.py:129-138 | Python's `<` on the values compared: numbers, text and lists order, anything else raises TypeError; `PyLessIrreflexive` states its law |
| AlanyMemory.ItemsLess | alany/memory.py:129-138 | Python's `<` on two lists: by the first unequal elements, then by length |
| AlanyMemory.Specials | alany/memory.py:285-295 | The substitution table: `space`, `none` and the nine escape tokens, each with the text it stands for; `SpecialLiteral` states its use |
| AlanyMemory.HasComparison | alany/memory.py:185-186 | The test for `=`, `>` or `<` in the text |
| AlanyMemory.ToValue | alany/memory.py:276-280 | A non-`Data` value is returned unchanged; a `Data` is unwrapped to a non-`Data` value that is no larger and refers to no new scope |
| AlanyMemory.Operands | alany/memory.py:120-137 | Both operands of a comparison are strictly shorter than the expression |
| AlanyMemory.NewData | alany/memory.py:143-205 | A classified `Data` belongs to the scope it was created in and refers only to scopes of the universe |
| AlanyMemory.BoxItems | alany/memory.py:170-174 | Boxing keeps the length, turns every element into a `Data`, leaves elements that already were one as they were, and gives new ones the list's scope |
| AlanyMemory.BoxOne | alany/memory.py:173-174 | One element boxed is a `Data`: the element itself if it was one, otherwise a new one in the list's scope |
| AlanyMemory.BoxInPlace | alany/memory.py:172-174 | The in-place loop passes exactly when `BoxItems` succeeds and leaves the array equal to its result; on failure the prefix before the failing element is boxed, the rest untouched, and the fault is that element's |
| AlanyMemory.BoxItemsSnoc | alany/memory.py:172-174 | Boxing one more element extends the boxed prefix by that element's boxing, or fails with its fault |
| AlanyMemory.BoxItemsFailure | alany/memory.py:172-174 | The first element that fails to box decides the fault of the whole list |
| AlanyMemory.ClearParseKeepsList | alany/memory.py:283-302 | Parsing a list gives back a list of the same length whose elements are all `Data`: old `Data` elements unchanged, the others built in the parsing scope |
| AlanyMemory.ClearParseValue | alany/memory.py:283-302 | Substitution and classification yield a value inside the universe |
| AlanyMemory.GetValue | alany/memory.py:73-116 | The value of an expression refers only to scopes of the universe |
| AlanyMemory.Compare | alany/memory.py:119-138 | A comparison that succeeds yields a bool |
| AlanyMemory.GetBoolValue | alany/memory.py:118-140 | The value of a condition refers only to scopes of the universe |
| AlanyMemory.AssignedPayload | alany/memory.py:218-221 | The payload `set_value` stores: a non-`Data` value as it is, a `Data`'s `value` (never a `Data` unless a list), with no new scope references |
| AlanyMemory.ValueAfter | alany/memory.py:217-224 | After `set_value` the caller's `Data`, taken as a copy separate from the stored binding, keeps its type, name and scopes and holds the assigned payload; an assigned list keeps its length and, when classification succeeds, is the list boxed in place by line 223 |
| AlanyMemory.SetValueEffect | alany/memory.py:217-224 | `set_value` re-registers the value under the `Data`'s own name |
| AlanyMemory.SetValue | alany/memory.py:217-224 | The returned `Data` is `ValueAfter` of the old state (a separate copy; a list boxed in place); the scope's binding of its name is written as `set_var` does, and nothing else changes |
| AlanyMemory.ListIndex | alany/memory.py:240-243 | An accepted index is a position inside the list value |
| AlanyMemory.ListWrite | alany/memory.py:243 | The list after `vl[int(index)] = value`: same length, the indexed position holds the value, every other element is unchanged; it fails exactly when the index is refused |
| AlanyMemory.ListValueAfter | alany/memory.py:239-245 | After `set_list_value` the `Data` keeps its type, name and scopes; a failed index leaves it as it was; when `set_var` writes nothing it holds the list with the one slot replaced; when it writes, the slot holds the value (a non-`Data` value becomes a `Data` in the holder's scope) and every other `Data` element is unchanged, every other element boxed in the holder's scope |
| AlanyMemory.SetListValueEffect | alany/memory.py:239-245 | `set_list_value` re-registers only after the element write succeeded |
| AlanyMemory.SetListValue | alany/memory.py:239-245 | The returned `Data` is `ListValueAfter` of the old state (the one slot written, the rest kept or boxed); a failed index changes no scope and fails with its fault; otherwise `set_var` re-registers the list |
| AlanyMemory.ToString | alany/memory.py:262-273 | A non-`Data` value is returned unchanged and a rendered `Data` is text |
| AlanyMemory.StrOf | alany/memory.py:267 | `str()` of a payload: text is itself, and an int's rendering parses back to the int |
| AlanyMemory.Rendered | alany/memory.py:271 | Iterating a payload: a list gives one rendering per element, text one per character, anything else fails |
| AlanyMemory.RenderedItems | alany/memory.py:270-272 | Each rendered element is exactly that element's `to_string`; rendering fails only if some element fails or is not text |
| ScopeLemmas.ChainLinks | alany/memory.py:44-45 | The chain starts at the scope, follows `parent` links, stays in the universe and ends at a scope with no parent |
| ScopeLemmas.GlobalMemoryEndsChain | alany/memory.py:67-71 | `get_global_memory` is the last scope of the chain |
| ScopeLemmas.ChainAnyUniverse | alany/memory.py:44-45 | The chain does not depend on the universe used to bound it |
| ScopeLemmas.ChainInLarger | alany/memory.py:44-45 | A chain inside a universe is inside every larger one |
| ScopeLemmas.HolderAnyUniverse | alany/memory.py:42-47 | The nearest holder does not depend on the universe |
| ScopeLemmas.HolderNone | alany/memory.py:42-47 | No holder exactly when no scope on the chain holds the key |
| ScopeLemmas.HolderNearest | alany/memory.py:55-63 | The holder is the first scope on the chain that holds the key, so inner bindings shadow outer ones |
| ScopeLemmas.InMemoryOnChain | alany/memory.py:38-47 | `in_memory(n)` holds if and only if the head of `n` is a key of some scope on the chain |
| ScopeLemmas.InMemoryHeadOnly | alany/memory.py:40 | Only the head of a dotted name matters to `in_memory` |
| ScopeLemmas.GlobalMemoryAnyUniverse | alany/memory.py:67-71 | The root does not depend on the universe |
| ScopeLemmas.GlobalScopeIsFirstBoundary | alany/memory.py:26-30 | `add_global_var` targets the first scope on the chain that is the root or a block, passing over every scope before it |
| ScopeLemmas.GlobalScopeOnChain | alany/memory.py:26-30 | That target lies on the receiver's chain |
| ScopeLemmas.GlobalScopeSkipsIntermediate | alany/memory.py:27-28 | A non-block scope with a parent never receives a global binding itself |
| ScopeLemmas.GetVarDotFree | alany/memory.py:51-65 | A dot-free name yields the nearest binding; with none on the chain, the root parses the text as a literal |
| ScopeLemmas.GetVarDotted | alany/memory.py:55-61 | `a.rest` with `a` bound looks `rest` up in the member scope of `a`'s nearest binding, and fails when it has none |
| ScopeLemmas.GetVarForwards | alany/memory.py:62-63 | A scope without the head forwards the whole name to its parent |
| ScopeLemmas.AddVarDotFree | alany/memory.py:14-21 | A dot-free `add_var` binds exactly that name in the receiving scope, and fails if and only if substitution or classification fails |
| ScopeLemmas.AddVarUnboundHead | alany/memory.py:22-24 | `add_var` on `a.rest` with `a` bound nowhere fails |
| ScopeLemmas.SetVarUnboundIsNoOp | alany/memory.py:32-36 | `set_var` on a name no scope of the chain holds writes nothing |
| ScopeLemmas.SetVarKeepsEntry | alany/memory.py:32-36 | Otherwise `set_var` writes the nearest holder under the same name and keeps the entry's kind, name and scopes; it fails if and only if parsing the value fails |
| ScopeLemmas.BindThenLookUp | alany/memory.py:14-21 | After a successful `add_var` of a dot-free name, `get_var` of it from the same scope finds exactly the entry written, shadowing outer scopes |
| ScopeLemmas.AssignFromChild | alany/memory.py:32-36 | `set_var` from a child on a name bound only in its parent rewrites the parent's entry payload to the parsed value and keeps its kind; the child still has no such entry, and `get_var` from the child sees the new entry |
| ValueLemmas.QuotedTextIsStr | alany/memory.py:153-156 | Quoted text is a 'str' with the quotes stripped |
| ValueLemmas.FloatNeverInt | alany/memory.py:161-168 | A float stays a 'float' although `int()` would accept it |
| ValueLemmas.BoolIsInt | alany/memory.py:160-164 | A Python bool becomes the 'int' 0 or 1 |
| ValueLemmas.IntegerTextIsInt | alany/memory.py:160-164 | Unquoted text that `int()` accepts is an 'int' of that value |
| ValueLemmas.DecimalTextIsFloat | alany/memory.py:165-168 | Unquoted text that `int()` refuses and `float()` accepts is a 'float' of that value |
| ValueLemmas.ComparisonTextIsBool | alany/memory.py:185-188 | Non-numeric text with `=`, `>` or `<` is a 'bool' holding the comparison's value, never a name |
| ValueLemmas.NameIsLookedUp | alany/memory.py:190-196 | Text with leading blanks dropped whose head is bound gives what `get_var` gives: a bound entry adopted with its type, payload and name in this scope, a literal result an attribute failure, a failed lookup its failure |
| ValueLemmas.BoundNameIsAdopted | alany/memory.py:190-196 | A dot-free bound name is adopted with its nearest binding's type, payload and name |
| ValueLemmas.UnboundNameIsDeferredOrFails | alany/memory.py:190-203 | Text whose trimmed head is unbound is a 'variable' placeholder named by the text with its leading blanks dropped when deferral is allowed, and an unknown-type failure on that name otherwise |
| ValueLemmas.NoneFails | alany/memory.py:185-191 | `None` falls through to the name step and fails there |
| ValueLemmas.NodeIsNode | alany/memory.py:175-176 | A tree node is a 'node' kept as it is |
| ValueLemmas.DictIsClass | alany/memory.py:177-184 | A dict is a 'class' kept as it is; its `node` entry's scope, if any, becomes the member scope |
| ValueLemmas.ListElementsBoxed | alany/memory.py:170-174 | After classification every list element is a `Data`, new ones in the same scope, and the length is kept |
| ValueLemmas.BoxItemsKeepsBoxed | alany/memory.py:172-174 | A list whose elements are all `Data` is left as it is |
| ValueLemmas.ToValueIdempotent | alany/memory.py:276-280 | Unwrapping twice is unwrapping once |
| ValueLemmas.ValueRoundTrip | alany/memory.py:153-215 | Classifying the `value` of a classified 'str', 'int', 'float' or 'list' gives back the same type and payload |
| ValueLemmas.SpecialLiteral | alany/memory.py:285-301 | `space`, `none` and each escape token become the quoted text they stand for |
| ValueLemmas.NewlineTokenBinds | alany/memory.py:285-297 | Binding the token `\n` stores a 'str' holding one newline |
| ValueLemmas.QuotedTextParses | alany/memory.py:283-302 | Quoted text comes back single-quoted, and parsing that again changes nothing |
| ValueLemmas.ListRendering | alany/memory.py:269-273 | A list renders as `[`, the elements' renderings joined by `,` without blanks, and `]`; it fails only if an element fails or is not text |
| ValueLemmas.IntRenderRoundTrip | alany/memory.py:262-268 | An 'int' renders as its decimal digits, which classify back to the same 'int' |
| ValueLemmas.TwoIntListRendering | alany/memory.py:269-273 | The list of 1 and 23 renders as `[1,23]` |
| ValueLemmas.PyEqReflexive | alany/memory.py:123 | Every value compares equal to itself |
| ValueLemmas.PyEqSymmetric | alany/memory.py:123-128 | `==` and `!=` do not depend on the order of the operands |
| ValueLemmas.PyLessIrreflexive | alany/memory.py:129-138 | `x < x` is never True |
| ValueLemmas.ItemsLessIrreflexive | alany/memory.py:129-138 | A list is never less than itself |
| Text.LexLessIrreflexive | alany/memory.py:134-138 | No text is less than itself |
| ValueLemmas.FirstOperator | alany/memory.py:119-134 | An operator of the priority list that occurs in the text and no earlier one occurs; none when no operator occurs |
| ValueLemmas.OperatorPriority | alany/memory.py:118-140 | `get_bool_value` evaluates the first of `==`, `!=`, `>`, `<` the expression contains; with none and an unbound expression it yields None |
| ValueLemmas.EqualityBeforeOrdering | alany/memory.py:119-133 | Text holding both `==` and `>` is an equality test |
| ValueLemmas.OperandExamples | alany/memory.py:120-122 | The operands of `x==5` are `x` and `5`, while those of `x == 5` are `x` and the empty text |
| ValueLemmas.SetVarStoresQuotedText | alany/memory.py:32-36 | `set_var` on a 'str' binding stores the re-quoted text, so it reads back with a second pair of quotes |
| ValueLemmas.LastIndexWritesLast | alany/memory.py:243 | Index -1 writes the last element |
| ValueLemmas.IntIndexWrite | alany/memory.py:243 | An integer index writes the position it names, counted from the end when negative; it fails with IndexError exactly outside the list, and no other element changes |
| ValueLemmas.StrIndexWriteFails | alany/memory.py:242-243 | Writing into a 'str' raises TypeError |

## Left out

- The call and object branches of `get_value` (alany/memory.py:79-105) are not modelled. They run a `Node` or deep-copy an object graph, and `node.py` is not part of this model. A callee bound to a node or dict yields `NotModelled`. A call of anything else yields None, as the source falls through.
- `get_list_value` (alany/memory.py:226-237) is not modelled, and the indexing branch of `get_value` (alany/memory.py:106-113) yields `NotModelled`. Both depend on `to_len` from `functions.py`, which is not part of this model.
- The `input` substitution in `clear_parse_value` (alany/memory.py:290-291) is a console read, so it yields `NotModelled`.
- Floats:
  - `float()` is modelled for plain decimal literals only, as exact rationals. Exponents, `inf`, `nan` and underscores are not parsed.
  - `str()` of a float, list, node or dict inside `to_string` yields `NotModelled`.
  - Comparisons involving floats are compared as exact rationals, not IEEE doubles.
- `int()` on text accepts ASCII digits with an optional sign and surrounding ASCII whitespace. Underscores and non-ASCII digits are not accepted.
- Nodes are opaque: the node and class branches of `Data.__init__` record the value only. A dict's `node` entry is modelled as an optional node whose scope becomes the member scope.
- `Data.__eq__` (alany/memory.py:247-250) is modelled only as the structural equality used by `==` and `!=` in `get_bool_value`.
- AlanyMemory.Memory.AddVar: aliasing is not modelled. `Data` objects and lists are values, so a `Data` shared by two bindings, or a list shared by two `Data`, does not see the other's update. `set_list_value` rewrites the list and then re-registers it through `set_var`, and the model follows that path.
- AlanyMemory.SetListValue: if boxing a list inside `set_var` fails part way, the source leaves the earlier elements boxed in place. The model reports the fault and changes no binding. `BoxInPlace` shows the partial in-place state on its own array.
- AlanyMemory.SetValue: if boxing an assigned list fails part way, the source leaves the earlier elements boxed in place, while the model leaves the list as assigned and reports the fault.
- AlanyMemory.ValueAfter: the result is the caller's `Data` as a separate copy. `get_var` hands out the stored object itself (alany/memory.py:57), so when `self` is the binding that `set_var` rewrites at line 34, Python's `self` ends with the written entry's payload, the result of `clear_parse_value` (the int 5 for the text "5", a bound name's value for a name). The model gives that payload only as the binding written by `SetValueEffect`.
- AlanyMemory.SetValue: `updated` is `ValueAfter`, the separate copy. When the `Data` is the stored binding itself, Python's `self` ends with the payload `SetValueEffect` writes, not the assigned one; that aliasing is not modelled.
- AlanyMemory.ListIndex: item assignment on a 'class' value (a dict), on a node, or on a list nested inside a `Data` payload yields `NotModelled`. Python inserts or replaces the key of a dict at line 243 and re-registers it through `set_var`; nodes and nested `Data` depend on `node.py` and on aliasing, which are not part of this model.
- AlanyMemory.SetValue: the `memory is None` branches (alany/memory.py:192, 222, 244) are not modelled, because every `Data` here belongs to a scope.
- Error messages printed by `Error.Runtime` (alany/memory.py:202) are not modelled; the error is the `UnknownType` fault.
- The `children` list of a scope (alany/memory.py:8,10), including its shared default, is stored but never used by these operations.
- The `file` argument of `get_value` is not modelled; it is only passed to node execution. `Data.__repr__` is modelled only where `str()` meets a `Data` (the `PyData` case of `StrOf`, through `ToString`).
