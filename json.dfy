/** JSON documents as Python's `json` module hands them to the modelled
    code, and the handful of Python operations that code applies to them:
    truthiness, `d[k]`, `x[i]`, `d.get(k, default)`, `k in x` and
    iteration. Each operation returns a `Result`, so that the exception
    Python would raise on a value of the wrong shape is part of the model. */
module Json {
  import opened Py
  import Text

  /** Objects keep their members in document order, as a Python dict
      built by `json.loads` does. Numbers are integers in this model. */
  datatype Json =
    | Null
    | Bool(b: bool)
    | Num(n: int)
    | Str(s: string)
    | Arr(items: seq<Json>)
    | Obj(fields: seq<(string, Json)>)

  /** Python truthiness: None, False, 0, "" and empty containers are false. */
  predicate Truthy(j: Json) {
    match j
    case Null => false
    case Bool(b) => b
    case Num(n) => n != 0
    case Str(s) => s != ""
    case Arr(items) => items != []
    case Obj(fields) => fields != []
  }

  predicate IsDict(j: Json) {
    j.Obj?
  }

  /** The value stored under `key` in a member list (its first occurrence). */
  function Lookup<V>(fields: seq<(string, V)>, key: string): Option<V>
    decreases |fields|
  {
    if fields == [] then None
    else if fields[0].0 == key then Some(fields[0].1)
    else Lookup(fields[1..], key)
  }

  /** `Lookup` finds a key exactly when some member has it, and what it
      returns is the value of such a member. */
  lemma {:induction false} LookupFound<V>(fields: seq<(string, V)>, key: string)
    ensures Lookup(fields, key).Some? <==> exists i :: 0 <= i < |fields| && fields[i].0 == key
    ensures Lookup(fields, key).Some? ==> exists i :: 0 <= i < |fields| && fields[i] == (key, Lookup(fields, key).value)
    decreases |fields|
  {
    if fields != [] && fields[0].0 != key {
      LookupFound(fields[1..], key);
      assert forall i :: 1 <= i < |fields| ==> fields[i] == fields[1..][i - 1];
    }
  }

  /** The member at index `k` decides the lookup when it is the first
      one with that key. */
  lemma {:induction false} LookupAt<V>(fields: seq<(string, V)>, key: string, k: nat)
    requires k < |fields| && fields[k].0 == key
    requires forall j :: 0 <= j < k ==> fields[j].0 != key
    ensures Lookup(fields, key) == Some(fields[k].1)
    decreases k
  {
    if k > 0 {
      LookupAt(fields[1..], key, k - 1);
    }
  }

  predicate HasKey(j: Json, key: string) {
    j.Obj? && Lookup(j.fields, key).Some?
  }

  /** `d[key]` for a string key. */
  function Index(j: Json, key: string): Result<Json> {
    match j
    case Obj(fields) =>
      (match Lookup(fields, key)
       case Some(v) => Ok(v)
       case None => Err(KeyError(Name(key))))
    case _ => Err(TypeError)
  }

  /** `x[i]` for a non-negative integer index. A dict has string keys
      only, so an integer key is never found in it. */
  function At(j: Json, i: nat): Result<Json> {
    match j
    case Arr(items) => if i < |items| then Ok(items[i]) else Err(IndexError)
    case Str(s) => if i < |s| then Ok(Str([s[i]])) else Err(IndexError)
    case Obj(_) => Err(KeyError(Position(i)))
    case _ => Err(TypeError)
  }

  /** `d.get(key, default)`; any non-dict has no `get` attribute. */
  function GetOr(j: Json, key: string, default: Json): Result<Json> {
    match j
    case Obj(fields) =>
      (match Lookup(fields, key)
       case Some(v) => Ok(v)
       case None => Ok(default))
    case _ => Err(AttributeError)
  }

  /** `key in x`: a member name of a dict, an element of a list, a
      substring of a string; numbers, booleans and None are not containers. */
  function Has(j: Json, key: string): Result<bool> {
    match j
    case Obj(fields) => Ok(Lookup(fields, key).Some?)
    case Arr(items) => Ok(Str(key) in items)
    case Str(s) => Ok(Text.Contains(s, key))
    case _ => Err(TypeError)
  }

  /** The elements `for x in j` visits: list elements, dict member names,
      or the characters of a string. */
  function Iter(j: Json): (r: Result<seq<Json>>)
    ensures j.Arr? ==> r == Ok(j.items)
    ensures r.Ok? && Truthy(j) ==> r.value != []
  {
    match j
    case Arr(items) => Ok(items)
    case Obj(fields) => Ok(seq(|fields|, i requires 0 <= i < |fields| => Str(fields[i].0)))
    case Str(s) => Ok(seq(|s|, i requires 0 <= i < |s| => Str([s[i]])))
    case _ => Err(TypeError)
  }

  /** A dict built from string members, in the given order. */
  function StrObj(members: seq<(string, string)>): Json {
    Obj(seq(|members|, i requires 0 <= i < |members| => (members[i].0, Str(members[i].1))))
  }

  /** `str(j)`: a string is itself; anything else is shown by `Repr`. */
  function PyStr(j: Json): string {
    if j.Str? then j.s else Repr(j)
  }

  /** `repr(j)` without escaping inside quoted strings. */
  function Repr(j: Json): string
    decreases j, 1
  {
    match j
    case Null => "None"
    case Bool(b) => if b then "True" else "False"
    case Num(n) => Text.IntToString(n)
    case Str(s) => "'" + s + "'"
    case Arr(items) => "[" + ReprElements(j, 0) + "]"
    case Obj(fields) => "{" + ReprMembers(j, 0) + "}"
  }

  function ReprElements(j: Json, k: nat): string
    requires j.Arr? && k <= |j.items|
    decreases j, 0, |j.items| - k
  {
    if k == |j.items| then ""
    else (if k == 0 then "" else ", ") + Repr(j.items[k]) + ReprElements(j, k + 1)
  }

  function ReprMembers(j: Json, k: nat): string
    requires j.Obj? && k <= |j.fields|
    decreases j, 0, |j.fields| - k
  {
    if k == |j.fields| then ""
    else
      (if k == 0 then "" else ", ") + "'" + j.fields[k].0 + "': "
      + Repr(j.fields[k].1) + ReprMembers(j, k + 1)
  }

  /** `d[key] = value`: an existing member keeps its place and takes the
      new value; a new member goes at the end. */
  function Assign<V>(fields: seq<(string, V)>, key: string, value: V): (r: seq<(string, V)>)
    ensures Lookup(r, key) == Some(value)
    ensures forall k :: k != key ==> Lookup(r, k) == Lookup(fields, k)
    decreases |fields|
  {
    if fields == [] then [(key, value)]
    else if fields[0].0 == key then [(key, value)] + fields[1..]
    else
      var rest := Assign(fields[1..], key, value);
      assert ([fields[0]] + rest)[1..] == rest;
      [fields[0]] + rest
  }

  /** The number of nodes of a document, a measure that shrinks from a
      container to anything stored in it. */
  function Size(j: Json): nat
    ensures Size(j) >= 1
    decreases j, 1
  {
    match j
    case Arr(items) => 1 + ItemsSize(j, 0)
    case Obj(fields) => 1 + FieldsSize(j, 0)
    case _ => 1
  }

  function ItemsSize(j: Json, k: nat): nat
    requires j.Arr? && k <= |j.items|
    decreases j, 0, |j.items| - k
  {
    if k == |j.items| then 0 else Size(j.items[k]) + ItemsSize(j, k + 1)
  }

  function FieldsSize(j: Json, k: nat): nat
    requires j.Obj? && k <= |j.fields|
    decreases j, 0, |j.fields| - k
  {
    if k == |j.fields| then 0 else Size(j.fields[k].1) + FieldsSize(j, k + 1)
  }

  lemma {:induction false} ItemsSizeBound(j: Json, k: nat, i: nat)
    requires j.Arr? && k <= i < |j.items|
    ensures Size(j.items[i]) <= ItemsSize(j, k)
    decreases i - k
  {
    if k < i {
      ItemsSizeBound(j, k + 1, i);
    }
  }

  lemma {:induction false} FieldsSizeBound(j: Json, k: nat, i: nat)
    requires j.Obj? && k <= i < |j.fields|
    ensures Size(j.fields[i].1) <= FieldsSize(j, k)
    decreases i - k
  {
    if k < i {
      FieldsSizeBound(j, k + 1, i);
    }
  }

  /** A member value found by `Lookup` is smaller than its dict. */
  lemma LookupSmaller(j: Json, key: string)
    requires j.Obj? && Lookup(j.fields, key).Some?
    ensures Size(Lookup(j.fields, key).value) < Size(j)
  {
    LookupFound(j.fields, key);
    var i :| 0 <= i < |j.fields| && j.fields[i] == (key, Lookup(j.fields, key).value);
    FieldsSizeBound(j, 0, i);
  }

  /** `d.get(key, default)` on a dict gives a member, smaller than the
      dict, or the default. */
  lemma GetOrSmaller(j: Json, key: string, default: Json)
    requires GetOr(j, key, default).Ok?
    ensures var v := GetOr(j, key, default).value; v == default || Size(v) < Size(j)
  {
    if Lookup(j.fields, key).Some? {
      LookupSmaller(j, key);
    }
  }

  /** Every dict that `for x in j` visits is smaller than `j`. */
  lemma IterSmaller(j: Json)
    requires Iter(j).Ok?
    ensures forall x :: x in Iter(j).value && x.Obj? ==> Size(x) < Size(j)
  {
    if j.Arr? {
      forall x | x in j.items
        ensures Size(x) < Size(j)
      {
        var i :| 0 <= i < |j.items| && j.items[i] == x;
        ItemsSizeBound(j, 0, i);
      }
    }
  }
}
