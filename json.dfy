/** The decoded request body as the handler sees it, with the parts of Python's
    dict, `in`, truthiness and `for` semantics that app.py relies on. */
module Json {
  import opened Wrappers

  /** A value produced by Python's JSON decoder. An object keeps its members in
      document order, duplicates included; numbers are kept as reals. */
  datatype Json =
    | Null
    | Bool(b: bool)
    | Num(n: real)
    | Str(s: string)
    | Arr(items: seq<Json>)
    | Obj(fields: seq<(string, Json)>)

  /** `k in d` for a dictionary `d` decoded from `fields`. */
  predicate HasKey(fields: seq<(string, Json)>, k: string) {
    exists i :: 0 <= i < |fields| && fields[i].0 == k
  }

  /** `d.get(k)`: the decoder keeps the LAST value given for a repeated key. */
  function Get(fields: seq<(string, Json)>, k: string): (r: Option<Json>)
    ensures r.Some? <==> HasKey(fields, k)
    ensures r.Some? ==>
      exists i :: 0 <= i < |fields| && fields[i] == (k, r.value) &&
        forall j :: i < j < |fields| ==> fields[j].0 != k
    decreases |fields|
  {
    if fields == [] then None
    else if fields[|fields| - 1].0 == k then Some(fields[|fields| - 1].1)
    else
      var r := Get(fields[..|fields| - 1], k);
      assert HasKey(fields, k) ==> HasKey(fields[..|fields| - 1], k) by {
        if HasKey(fields, k) {
          var i :| 0 <= i < |fields| && fields[i].0 == k;
          assert fields[..|fields| - 1][i].0 == k;
        }
      }
      r
  }

  /** `d.get(k, default)`. */
  function GetOr(fields: seq<(string, Json)>, k: string, default: Json): (v: Json)
    ensures !HasKey(fields, k) ==> v == default
    ensures HasKey(fields, k) ==> Get(fields, k) == Some(v)
  {
    match Get(fields, k)
    case Some(v) => v
    case None => default
  }

  /** The distinct keys of the dictionary, in the order they first appear. */
  function Keys(fields: seq<(string, Json)>): (ks: seq<string>)
    ensures forall k :: k in ks <==> HasKey(fields, k)
    ensures forall i, j :: 0 <= i < j < |ks| ==> ks[i] != ks[j]
    ensures |ks| == 0 <==> |fields| == 0
    decreases |fields|
  {
    if fields == [] then []
    else
      var init := fields[..|fields| - 1];
      var k := fields[|fields| - 1].0;
      assert forall k' :: HasKey(fields, k') <==> HasKey(init, k') || k' == k by {
        forall k' | HasKey(fields, k') ensures HasKey(init, k') || k' == k {
          var i :| 0 <= i < |fields| && fields[i].0 == k';
          if i < |fields| - 1 { assert init[i].0 == k'; }
        }
        forall k' | HasKey(init, k') ensures HasKey(fields, k') {
          var i :| 0 <= i < |init| && init[i].0 == k';
          assert fields[i].0 == k';
        }
      }
      Keys(init) + (if HasKey(init, k) then [] else [k])
  }

  /** Python truthiness: `None`, `False`, zero, and empty strings, lists and
      dictionaries are false; everything else is true. */
  predicate Truthy(v: Json)
    ensures Truthy(v) <==>
              v != Null && v != Bool(false) && v != Num(0.0) && v != Str([]) && v != Arr([]) && v != Obj([])
  {
    match v
    case Null => false
    case Bool(b) => b
    case Num(n) => n != 0.0
    case Str(s) => s != []
    case Arr(xs) => xs != []
    case Obj(fs) => fs != []
  }

  /** What `for x in v` visits: the items of a list, the keys of a dictionary,
      the one-character strings of a string. `None` is the TypeError Python
      raises for anything else. */
  function Iterate(v: Json): (r: Option<seq<Json>>)
    ensures r.Some? <==> v.Arr? || v.Str? || v.Obj?
    ensures v.Arr? ==> r == Some(v.items)
    ensures r.Some? && !v.Arr? ==> forall i :: 0 <= i < |r.value| ==> r.value[i].Str?
    ensures r.Some? ==> (r.value == [] <==> !Truthy(v))
  {
    match v
    case Arr(xs) => Some(xs)
    case Str(s) => Some(seq(|s|, i requires 0 <= i < |s| => Str([s[i]])))
    case Obj(fs) =>
      var ks := Keys(fs);
      Some(seq(|ks|, i requires 0 <= i < |ks| => Str(ks[i])))
    case _ => None
  }

  /** `a` occurs as a contiguous piece of `s`. */
  predicate IsSubstring(a: string, s: string) {
    exists i :: 0 <= i <= |s| && a <= s[i..]
  }

  /** Python's `item in container` for a string `item`: a key test on a
      dictionary, an element test on a list, a substring test on a string.
      `None` is the TypeError Python raises for any other container. */
  function Contains(container: Json, item: string): (r: Option<bool>)
    ensures r.Some? <==> container.Obj? || container.Arr? || container.Str?
    ensures container.Obj? ==> r == Some(HasKey(container.fields, item))
    ensures r == Some(true) && container.Arr? ==> Str(item) in container.items
  {
    match container
    case Obj(fs) => Some(HasKey(fs, item))
    case Arr(xs) => Some(Str(item) in xs)
    case Str(s) => Some(IsSubstring(item, s))
    case _ => None
  }
}
