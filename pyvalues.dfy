/**
 * The Python values the pipeline hands to its logger and unpacks: enough of
 * `str()`, `repr()` and two-target unpacking (`a, b = v`) to say what gets
 * recorded.
 */
module PyValues {
  import opened Strings
  import opened Outcomes

  datatype PyValue =
    | PyNone
    | PyBool(b: bool)
    | PyInt(i: int)
    | PyStr(s: string)
    | PyList(items: seq<PyValue>)
    | PyTuple(items: seq<PyValue>)
    | PyDict(entries: seq<(string, PyValue)>)
      /** A pydantic model: it has `model_dump()`. */
    | PyModel(className: string, fields: seq<(string, PyValue)>)
      /** Any other object: it may have a `.content` attribute; `text` is what `str()` and `repr()` give. */
    | PyObject(className: string, content: Option<string>, text: string)

  function BoolText(b: bool): string {
    if b then "True" else "False"
  }

  /** `repr(v)`. Strings are quoted with `'`; quote escaping is not modelled. */
  function Repr(v: PyValue): string
    decreases v, 1
  {
    match v
    case PyNone => "None"
    case PyBool(b) => BoolText(b)
    case PyInt(i) => IntToString(i)
    case PyStr(s) => "'" + s + "'"
    case PyList(items) => "[" + ReprItems(items) + "]"
    case PyTuple(items) => "(" + ReprItems(items) + (if |items| == 1 then ",)" else ")")
    case PyDict(entries) => "{" + ReprEntries(entries, ": ", true) + "}"
    case PyModel(name, fields) => name + "(" + ReprEntries(fields, "=", false) + ")"
    case PyObject(_, _, text) => text
  }

  /** The reprs of the items, separated by ", ". */
  function ReprItems(items: seq<PyValue>): string
    decreases items, 0
  {
    if items == [] then ""
    else if |items| == 1 then Repr(items[0])
    else Repr(items[0]) + ", " + ReprItems(items[1..])
  }

  /** `key<sep>repr(value)` pairs separated by ", "; dictionary keys are quoted, field names are not. */
  function ReprEntries(entries: seq<(string, PyValue)>, sep: string, quoteKeys: bool): string
    decreases entries, 0
  {
    if entries == [] then ""
    else
      var (k, v) := entries[0];
      assert v < entries[0] && entries[0] in entries;
      var key := if quoteKeys then "'" + k + "'" else k;
      var first := key + sep + Repr(v);
      if |entries| == 1 then first else first + ", " + ReprEntries(entries[1..], sep, quoteKeys)
  }

  /** `str(v)`: a string is itself, a pydantic model lists `field=repr` with
      spaces, everything else is its repr. */
  function Str(v: PyValue): string {
    match v
    case PyStr(s) => s
    case PyModel(_, fields) => FieldsText(fields)
    case _ => Repr(v)
  }

  function FieldsText(fields: seq<(string, PyValue)>): string
    decreases fields
  {
    if fields == [] then ""
    else
      var first := fields[0].0 + "=" + Repr(fields[0].1);
      if |fields| == 1 then first else first + " " + FieldsText(fields[1..])
  }

  /** Python's name for the type of v, as it appears in error messages. */
  function TypeName(v: PyValue): string {
    match v
    case PyNone => "NoneType"
    case PyBool(_) => "bool"
    case PyInt(_) => "int"
    case PyStr(_) => "str"
    case PyList(_) => "list"
    case PyTuple(_) => "tuple"
    case PyDict(_) => "dict"
    case PyModel(name, _) => name
    case PyObject(name, _, _) => name
  }

  /** What iterating over v yields, when v is iterable: the items of a list or
      tuple, the one-character strings of a string, the keys of a dict, the
      `(field, value)` pairs of a pydantic model. */
  function Iterated(v: PyValue): (r: Option<seq<PyValue>>)
    ensures r.Some? <==> !(v.PyNone? || v.PyBool? || v.PyInt? || v.PyObject?)
  {
    match v
    case PyList(items) => Some(items)
    case PyTuple(items) => Some(items)
    case PyStr(s) => Some(seq(|s|, i requires 0 <= i < |s| => PyStr([s[i]])))
    case PyDict(entries) => Some(seq(|entries|, i requires 0 <= i < |entries| => PyStr(entries[i].0)))
    case PyModel(_, fields) => Some(seq(|fields|, i requires 0 <= i < |fields| => PyTuple([PyStr(fields[i].0), fields[i].1])))
    case _ => None
  }

  /** `a, b = v`: the two values, or the exception the unpacking raises. */
  function Unpack2(v: PyValue): (r: Outcome<(PyValue, PyValue)>)
    ensures r.Returned? <==> Iterated(v).Some? && |Iterated(v).value| == 2
    ensures v.PyTuple? && |v.items| == 2 ==> r == Returned((v.items[0], v.items[1]))
  {
    match Iterated(v)
    case None => Raised(TypeError("cannot unpack non-iterable " + TypeName(v) + " object"))
    case Some(xs) =>
      if |xs| == 2 then Returned((xs[0], xs[1]))
      else if |xs| < 2 then Raised(ValueError("not enough values to unpack (expected 2, got " + NatToString(|xs|) + ")"))
      else Raised(ValueError("too many values to unpack (expected 2)"))
  }

  function StrList(ss: seq<string>): (r: PyValue)
    ensures r.PyList? && |r.items| == |ss|
  {
    PyList(seq(|ss|, i requires 0 <= i < |ss| => PyStr(ss[i])))
  }
}
