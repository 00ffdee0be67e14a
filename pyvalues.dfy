/** Dynamically typed Python values as configuration dictionaries carry them. */
module PyValues {
  import opened Wrappers
  import opened Dicts
  import opened Strings

  datatype PyVal =
    | PNone
    | PBool(b: bool)
    | PInt(i: int)
    | PStr(s: string)
    | PList(items: seq<PyVal>)
    | PDict(d: Dict<PyVal>)
      /** a function object, known by its `__name__` */
    | PFunc(name: string)

  /** Python truthiness: `None`, `False`, `0`, `''`, `[]` and `{}` are false. */
  predicate Truthy(v: PyVal) {
    match v
    case PNone => false
    case PBool(b) => b
    case PInt(i) => i != 0
    case PStr(s) => |s| > 0
    case PList(items) => |items| > 0
    case PDict(d) => |d.keys| > 0
    case PFunc(_) => true
  }

  /** `type(v).__name__`. */
  function TypeName(v: PyVal): string {
    match v
    case PNone => "NoneType"
    case PBool(_) => "bool"
    case PInt(_) => "int"
    case PStr(_) => "str"
    case PList(_) => "list"
    case PDict(_) => "dict"
    case PFunc(_) => "function"
  }

  /** A value Python can hash, so look for among a table's column labels: anything but a list or a dictionary. */
  predicate Hashable(v: PyVal) {
    !v.PList? && !v.PDict?
  }

  /** A hashable value used as a column label. */
  datatype Label = LNone | LBool(b: bool) | LInt(i: int) | LStr(s: string) | LFunc(name: string)

  function AsLabel(v: PyVal): (l: Label)
    requires Hashable(v)
    ensures l.LStr? <==> v.PStr?
    ensures v.PStr? ==> l == LStr(v.s)
  {
    match v
    case PNone => LNone
    case PBool(b) => LBool(b)
    case PInt(i) => LInt(i)
    case PStr(s) => LStr(s)
    case PFunc(n) => LFunc(n)
  }

  /** Python's `repr` of a label; a string is quoted, and a function's memory address is not modelled. */
  function LabelRepr(l: Label): string {
    match l
    case LNone => "None"
    case LBool(b) => if b then "True" else "False"
    case LInt(i) => IntToStr(i)
    case LStr(s) => "'" + s + "'"
    case LFunc(n) => "<function " + n + ">"
  }

  /** `repr` of a list of labels. */
  function LabelsRepr(ls: seq<Label>): string {
    "[" + Join(seq(|ls|, i requires 0 <= i < |ls| => LabelRepr(ls[i])), ", ") + "]"
  }

  /** Column names as labels. */
  function NameLabels(xs: seq<string>): (ls: seq<Label>)
    ensures |ls| == |xs| && forall i :: 0 <= i < |xs| ==> ls[i] == LStr(xs[i])
  {
    seq(|xs|, i requires 0 <= i < |xs| => LStr(xs[i]))
  }

  /** A list of names prints as labels exactly as it prints as strings. */
  lemma LabelsReprNames(xs: seq<string>)
    ensures LabelsRepr(NameLabels(xs)) == ListRepr(xs)
  {
    var ls := NameLabels(xs);
    assert seq(|ls|, i requires 0 <= i < |ls| => LabelRepr(ls[i])) == seq(|xs|, i requires 0 <= i < |xs| => "'" + xs[i] + "'");
  }

  /** What Python raises when asked to hash a list or a dictionary. */
  function UnhashableError(v: PyVal): (f: Failure)
    requires !Hashable(v)
    ensures f.TypeError?
  {
    TypeError("unhashable type: '" + TypeName(v) + "'")
  }

  /** A list of strings as a Python list value. */
  function StrList(xs: seq<string>): (v: PyVal)
    ensures v.PList? && |v.items| == |xs|
    ensures forall i :: 0 <= i < |xs| ==> v.items[i] == PStr(xs[i])
  {
    PList(seq(|xs|, i requires 0 <= i < |xs| => PStr(xs[i])))
  }

  /** A list whose items are all strings. */
  predicate IsStrList(v: PyVal) {
    v.PList? && forall i :: 0 <= i < |v.items| ==> v.items[i].PStr?
  }

  /** The strings of a list of strings. */
  function Strs(v: PyVal): (r: seq<string>)
    requires IsStrList(v)
    ensures |r| == |v.items| && forall i :: 0 <= i < |r| ==> v.items[i] == PStr(r[i])
  {
    seq(|v.items|, i requires 0 <= i < |v.items| => v.items[i].s)
  }

  /** The string items of a list, in order; other items are dropped. */
  function StrItems(items: seq<PyVal>): (r: seq<string>)
    ensures forall x :: x in r <==> PStr(x) in items
  {
    if |items| == 0 then []
    else
      assert forall v :: v in items <==> v == items[0] || v in items[1..];
      (if items[0].PStr? then [items[0].s] else []) + StrItems(items[1..])
  }

  /** `list(v)`: a list's items, a string's characters, a dict's keys; `None`, booleans, integers and functions are not iterable. */
  function Iterate(v: PyVal): (r: Option<seq<PyVal>>)
    ensures r.None? <==> v.PNone? || v.PBool? || v.PInt? || v.PFunc?
    ensures v.PList? ==> r == Some(v.items)
  {
    match v
    case PList(items) => Some(items)
    case PStr(s) => Some(seq(|s|, i requires 0 <= i < |s| => PStr([s[i]])))
    case PDict(d) => Some(seq(|d.keys|, i requires 0 <= i < |d.keys| => PStr(d.keys[i])))
    case _ => None
  }
}
