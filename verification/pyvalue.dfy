/**
  The slice of Python's value semantics that the registry client relies on:
  the values that travel in requests and replies, truthiness (`if x:`),
  membership (`x in y`), subscription by a string key (`y['k']`) and
  iteration (`for e in y`), each with the exception Python raises.
 */
module PyValue {
  import opened Wrappers

  /** A Python float, kept opaque: only whether it compares equal to zero is observable. */
  datatype Float = FloatZero | FloatNonZero(id: int)

  /**
    A Python value. A dict is kept as its list of entries in insertion order,
    because iterating a dict visits its keys in that order; entries that bind
    a key twice (see `UniqueKeys`) stand for no Python value.
   */
  datatype Value =
    | PyNone
    | PyBool(b: bool)
    | PyInt(i: int)
    | PyFloat(f: Float)
    | PyStr(s: string)
    | PyList(items: seq<Value>)
    | PyTuple(elems: seq<Value>)
    | PyDict(entries: seq<(string, Value)>)

  /** The exceptions the modelled code can raise. */
  datatype PyError =
    | KeyError(key: string)
    | TypeError
    | IndexError
    | AttributeError(name: string)
    /** `raise Exception(message)` */
    | Exception(message: string)
    /** `raise Exception(f"create instance error, cancellation instance:{payload}")` */
    | CreateInstanceError(cancellation: Value)

  /** Python truthiness: `None`, `False`, `0`, `0.0`, `""` and empty containers are false. */
  predicate Truthy(v: Value) {
    match v
    case PyNone => false
    case PyBool(b) => b
    case PyInt(i) => i != 0
    case PyFloat(f) => f.FloatNonZero?
    case PyStr(s) => s != ""
    case PyList(items) => items != []
    case PyTuple(elems) => elems != []
    case PyDict(entries) => entries != []
  }

  /** An `Optional[str]` argument as the Python value it stands for. */
  function OptStr(o: Option<string>): Value {
    if o.Some? then PyStr(o.value) else PyNone
  }

  /** `sub in s` for two strings: `sub` occurs in `s` as a contiguous substring. */
  function Contains(s: string, sub: string): bool
    decreases |s|
  {
    if |sub| > |s| then false
    else s[..|sub|] == sub || (s != [] && Contains(s[1..], sub))
  }

  /** `sub` occurs in `s` starting at position `i`. */
  predicate OccursAt(s: string, sub: string, i: int) {
    0 <= i && i + |sub| <= |s| && s[i..i + |sub|] == sub
  }

  /** A slice of `s[1..]` is the slice of `s` one position further on. */
  lemma SliceOfTail(s: string, i: nat, n: nat)
    requires 1 <= i && i + n <= |s|
    ensures s[1..][i - 1..i - 1 + n] == s[i..i + n]
  {
  }

  /** The recursive search agrees with "there is a position where `sub` occurs". */
  lemma {:induction false} ContainsIff(s: string, sub: string)
    ensures Contains(s, sub) <==> exists i :: OccursAt(s, sub, i)
    decreases |s|
  {
    if |sub| > |s| {
    } else if s[..|sub|] == sub {
      assert OccursAt(s, sub, 0);
    } else if s == [] {
    } else {
      ContainsIff(s[1..], sub);
      if Contains(s, sub) {
        var i :| OccursAt(s[1..], sub, i);
        SliceOfTail(s, i + 1, |sub|);
        assert OccursAt(s, sub, i + 1);
      }
      if exists i :: OccursAt(s, sub, i) {
        var i :| OccursAt(s, sub, i);
        if i > 0 {
          SliceOfTail(s, i, |sub|);
          assert OccursAt(s[1..], sub, i - 1);
        }
      }
    }
  }

  /** No key occurs twice among a dict's entries, as in every Python dict. */
  predicate UniqueKeys(entries: seq<(string, Value)>) {
    forall i, j :: 0 <= i < j < |entries| ==> entries[i].0 != entries[j].0
  }

  /**
    The value bound to `key` in a dict's entries: the first binding. A Python
    dict never holds a key twice, so only entries with unique keys
    (`UniqueKeys`) stand for a Python dict; the first binding is then the only one.
   */
  function Lookup(entries: seq<(string, Value)>, key: string): (r: Option<Value>)
    ensures r.Some? <==> exists i :: 0 <= i < |entries| && entries[i].0 == key
  {
    if entries == [] then None
    else if entries[0].0 == key then Some(entries[0].1)
    else Lookup(entries[1..], key)
  }

  /**
    `container[key]` for a string key: a dict yields the bound value or raises
    `KeyError`; a str, list or tuple raises `TypeError` (their indices must be
    integers), and so does every value that is not subscriptable.
   */
  function GetItem(container: Value, key: string): (r: Result<Value, PyError>)
    ensures r.Success? <==> container.PyDict? && Lookup(container.entries, key).Some?
    ensures r.Success? ==> r.value == Lookup(container.entries, key).value
    ensures r.Failure? && container.PyDict? ==> r.error == KeyError(key)
    ensures r.Failure? && !container.PyDict? ==> r.error == TypeError
  {
    if container.PyDict? then
      var found := Lookup(container.entries, key);
      if found.Some? then Success(found.value) else Failure(KeyError(key))
    else Failure(TypeError)
  }

  /** With unique keys, every entry is what subscripting by its key yields. */
  lemma {:induction false} LookupUnique(entries: seq<(string, Value)>, i: nat)
    requires UniqueKeys(entries) && i < |entries|
    ensures Lookup(entries, entries[i].0) == Some(entries[i].1)
    decreases i
  {
    if i > 0 {
      var tail := entries[1..];
      assert UniqueKeys(tail) by {
        forall a, b | 0 <= a < b < |tail| ensures tail[a].0 != tail[b].0 {
          assert tail[a] == entries[a + 1] && tail[b] == entries[b + 1];
        }
      }
      assert entries[0].0 != entries[i].0;
      LookupUnique(tail, i - 1);
      assert tail[i - 1] == entries[i];
    }
  }

  /** The keys of a dict's entries, in insertion order. */
  function Keys(entries: seq<(string, Value)>): (ks: seq<Value>)
    ensures |ks| == |entries|
    ensures forall i :: 0 <= i < |entries| ==> ks[i] == PyStr(entries[i].0)
  {
    if entries == [] then [] else [PyStr(entries[0].0)] + Keys(entries[1..])
  }

  /** The one-character strings of `s`, in order. */
  function Chars(s: string): (cs: seq<Value>)
    ensures |cs| == |s|
    ensures forall i :: 0 <= i < |s| ==> cs[i] == PyStr([s[i]])
  {
    if s == [] then [] else [PyStr([s[0]])] + Chars(s[1..])
  }

  /**
    What `for e in v` visits: the items of a list or tuple, the keys of a dict,
    the characters of a str; anything else raises `TypeError`.
   */
  function Iterate(v: Value): (r: Result<seq<Value>, PyError>)
    ensures r.Failure? <==> !(v.PyList? || v.PyTuple? || v.PyDict? || v.PyStr?)
    ensures r.Failure? ==> r.error == TypeError
    ensures v.PyList? ==> r == Success(v.items)
    ensures v.PyTuple? ==> r == Success(v.elems)
    ensures v.PyDict? ==> r == Success(Keys(v.entries))
    ensures v.PyStr? ==> r == Success(Chars(v.s))
    ensures r.Success? ==> (|r.value| == 0 <==> !Truthy(v))
  {
    match v
    case PyList(items) => Success(items)
    case PyTuple(elems) => Success(elems)
    case PyDict(entries) => Success(Keys(entries))
    case PyStr(s) => Success(Chars(s))
    case _ => Failure(TypeError)
  }

  /**
    `needle in container` for a string needle: substring search in a str, key
    membership in a dict, element equality in a list or tuple; `None`, a bool,
    an int or a float raises `TypeError` (it is not iterable).
   */
  function In(needle: string, container: Value): (r: Result<bool, PyError>)
    ensures r.Failure? <==> container.PyNone? || container.PyBool? || container.PyInt? || container.PyFloat?
    ensures r.Failure? ==> r.error == TypeError
    ensures container.PyStr? ==> r == Success(exists i :: OccursAt(container.s, needle, i))
    ensures container.PyDict? ==> r == Success(exists i :: 0 <= i < |container.entries| && container.entries[i].0 == needle)
    ensures container.PyList? ==> r == Success(PyStr(needle) in container.items)
    ensures container.PyTuple? ==> r == Success(PyStr(needle) in container.elems)
  {
    match container
    case PyStr(s) => ContainsIff(s, needle); Success(Contains(s, needle))
    case PyDict(entries) => Success(Lookup(entries, needle).Some?)
    case PyList(items) => Success(PyStr(needle) in items)
    case PyTuple(elems) => Success(PyStr(needle) in elems)
    case _ => Failure(TypeError)
  }

  /** The failure sentinel `False` is not a container: any membership test on it raises. */
  lemma InFalseRaises(needle: string)
    ensures In(needle, PyBool(false)) == Failure(TypeError)
  {
  }
}
