/** The uniform accessor over a node's result (get_value_at_index).

    A node returns either an ordered container (tuple or list) or a mapping.
    Python values are modelled by `Value`; `Subscript` is Python's `v[k]`
    for the value shapes that occur here, including negative sequence
    indices and the exceptions subscription raises. */
module ResultAccess {

  /** A dictionary key. Node results are indexed with integers, and the
      fallback looks up the string key "result". */
  datatype Key = IntKey(i: int) | StrKey(s: string)

  /** A Python value as far as subscription can tell them apart:
      an opaque object that is not subscriptable, a string, an ordered
      sequence (tuple or list) and a mapping (dict). */
  datatype Value =
    | Atom(id: int)
    | Text(chars: string)
    | Items(elems: seq<Value>)
    | Mapping(entries: map<Key, Value>)

  /** The exceptions a subscription can raise. */
  datatype PyError = IndexError | KeyError | TypeError

  datatype Lookup = Ok(value: Value) | Err(error: PyError)

  /** The reserved key of a mapping-shaped result. */
  const ResultKey: Key := StrKey("result")

  /** Python accepts an index into a sequence of length n when -n <= i < n. */
  predicate InRange(i: int, n: nat) {
    -(n as int) <= i < n
  }

  /** The position a Python index denotes: negative indices count from the end. */
  function Position(i: int, n: nat): (p: nat)
    requires InRange(i, n)
    ensures p < n
    ensures i >= 0 ==> p == i
    ensures i < 0 ==> p + (-i) == n
  {
    if i < 0 then i + n else i
  }

  /** Python's `v[k]`: sequences and strings take integer indices (a string
      index is a TypeError, an index out of range an IndexError), mappings
      take any key (a missing key is a KeyError), and every other object is
      not subscriptable (TypeError). */
  function Subscript(v: Value, k: Key): (r: Lookup)
    ensures r.Err? && r.error == KeyError <==> v.Mapping? && k !in v.entries
    ensures r.Ok? && v.Items? ==> r.value in v.elems
    ensures r.Ok? && v.Mapping? ==> r.value in v.entries.Values
  {
    match v
    case Atom(_) => Err(TypeError)
    case Text(cs) =>
      if k.StrKey? then Err(TypeError)
      else if InRange(k.i, |cs|) then Ok(Text([cs[Position(k.i, |cs|)]]))
      else Err(IndexError)
    case Items(xs) =>
      if k.StrKey? then Err(TypeError)
      else if InRange(k.i, |xs|) then Ok(xs[Position(k.i, |xs|)])
      else Err(IndexError)
    case Mapping(m) =>
      if k in m then Ok(m[k]) else Err(KeyError)
  }

  /** get_value_at_index: `obj[index]`, and only when that raises KeyError,
      `obj["result"][index]`; every other exception propagates, and an
      exception raised by the fallback propagates as well. */
  function GetValueAtIndex(obj: Value, index: int): (r: Lookup)
    // an ordered result: the element at that position, or IndexError
    ensures obj.Items? && InRange(index, |obj.elems|) ==>
      r == Ok(obj.elems[Position(index, |obj.elems|)])
    ensures obj.Items? && !InRange(index, |obj.elems|) ==> r == Err(IndexError)
    // a string: the one-character string at that position, or IndexError
    ensures obj.Text? && InRange(index, |obj.chars|) ==>
      r == Ok(Text([obj.chars[Position(index, |obj.chars|)]]))
    ensures obj.Text? && !InRange(index, |obj.chars|) ==> r == Err(IndexError)
    // a mapping holding the key `index`: that entry, the "result" key unread
    ensures obj.Mapping? && IntKey(index) in obj.entries ==>
      r == Ok(obj.entries[IntKey(index)])
    // a mapping without it: whatever indexing the "result" entry gives
    ensures obj.Mapping? && IntKey(index) !in obj.entries && ResultKey in obj.entries ==>
      r == Subscript(obj.entries[ResultKey], IntKey(index))
    // a mapping with neither key: KeyError, no default
    ensures obj.Mapping? && IntKey(index) !in obj.entries && ResultKey !in obj.entries ==>
      r == Err(KeyError)
    // a value that is neither a sequence nor a mapping is not subscriptable
    ensures obj.Atom? ==> r == Err(TypeError)
  {
    match Subscript(obj, IntKey(index))
    case Ok(v) => Ok(v)
    case Err(e) =>
      if e != KeyError then Err(e)
      else match Subscript(obj, ResultKey)
        case Ok(inner) => Subscript(inner, IntKey(index))
        case Err(e') => Err(e')
  }

  // The lemmas below are corollaries of the contract of GetValueAtIndex,
  // stated one property at a time; Dafny proves each from that contract alone.

  /** Every value the accessor returns is stored in `obj`: either directly
      or inside its "result" entry. Nothing is substituted. */
  lemma GetValueAtIndexStored(obj: Value, index: int)
    requires GetValueAtIndex(obj, index).Ok?
    ensures var v := GetValueAtIndex(obj, index).value;
      || (obj.Items? && v in obj.elems)
      || (obj.Text? && v.Text? && |v.chars| == 1 && v.chars[0] in obj.chars)
      || (obj.Mapping? && v in obj.entries.Values)
      || (obj.Mapping? && ResultKey in obj.entries && IntKey(index) !in obj.entries
          && var inner := obj.entries[ResultKey];
             || (inner.Items? && v in inner.elems)
             || (inner.Mapping? && v in inner.entries.Values)
             || (inner.Text? && v.Text? && |v.chars| == 1 && v.chars[0] in inner.chars))
  {
  }

  /** The ordered payload of a mapping-shaped result: when the mapping has
      no key `index` and its "result" entry is a sequence, the element at
      `index` of that sequence, or IndexError when it is out of range. */
  lemma ResultPayloadIndexed(m: map<Key, Value>, payload: seq<Value>, index: int)
    requires IntKey(index) !in m
    requires ResultKey in m && m[ResultKey] == Items(payload)
    ensures InRange(index, |payload|) ==>
      GetValueAtIndex(Mapping(m), index) == Ok(payload[Position(index, |payload|)])
    ensures !InRange(index, |payload|) ==>
      GetValueAtIndex(Mapping(m), index) == Err(IndexError)
  {
  }

  /** An IndexError never triggers the fallback: for a sequence the
      accessor is plain subscription, whatever the index. */
  lemma SequenceNeverFallsBack(xs: seq<Value>, index: int)
    ensures GetValueAtIndex(Items(xs), index) == Subscript(Items(xs), IntKey(index))
    ensures GetValueAtIndex(Items(xs), index).Err? ==>
      GetValueAtIndex(Items(xs), index).error == IndexError
  {
  }

  /** A KeyError reaches the caller only from a mapping that lacks the key
      `index` and either lacks "result" too or holds there a mapping that
      lacks the key `index`. */
  lemma KeyErrorOnlyFromMappings(obj: Value, index: int)
    requires GetValueAtIndex(obj, index) == Err(KeyError)
    ensures obj.Mapping? && IntKey(index) !in obj.entries
    ensures ResultKey !in obj.entries ||
      (obj.entries[ResultKey].Mapping? && IntKey(index) !in obj.entries[ResultKey].entries)
  {
  }
}
