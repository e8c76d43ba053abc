/** Plain JSON-like data, as held by the `body` and `parameters` of a raw
    lambda and by the parameters of a property graph-fetch tree, and the
    recursive key pruning (`recursiveOmit`) applied to it. */
module PlainJson {

  /** A JSON value. An object's entries are listed in the object's
      enumeration order; numbers are modelled as integers. */
  datatype Json =
    | Null
    | Bool(b: bool)
    | Num(n: int)
    | Str(s: string)
    | Arr(items: seq<Json>)
    | Obj(entries: seq<(string, Json)>)

  /** JavaScript truthiness of a value: `null`, `false`, `0` and `""` are
      falsy; every array and every object, even an empty one, is truthy. */
  predicate Truthy(j: Json)
  {
    match j
    case Null => false
    case Bool(b) => b
    case Num(n) => n != 0
    case Str(s) => s != ""
    case Arr(_) => true
    case Obj(_) => true
  }

  /** Some object entry at any depth inside `j`, whether reached through
      arrays or through objects, has a key in `keys`. */
  predicate Mentions(j: Json, keys: set<string>)
  {
    match j
    case Arr(items) =>
      exists i :: 0 <= i < |items| && Mentions(items[i], keys)
    case Obj(entries) =>
      exists i :: 0 <= i < |entries| && (entries[i].0 in keys || Mentions(entries[i].1, keys))
    case _ => false
  }

  /** A deep copy of `j` without any object entry keyed by one of `keys`,
      at any depth, including objects nested inside arrays. */
  function Omit(j: Json, keys: set<string>): (r: Json)
    ensures !Mentions(r, keys)
    ensures !Mentions(j, keys) ==> r == j
    ensures r.Arr? <==> j.Arr?
    ensures r.Obj? <==> j.Obj?
    ensures !r.Arr? && !r.Obj? ==> r == j
    ensures r.Arr? ==> |r.items| == |j.items|
    decreases j, 1
  {
    match j
    case Arr(items) => Arr(seq(|items|, i requires 0 <= i < |items| => Omit(items[i], keys)))
    case Obj(entries) => Obj(OmitEntries(entries, keys))
    case _ => j
  }

  /** The entries of one object after pruning: those keyed by one of `keys`
      are dropped, every other one is kept, in order, with its value pruned. */
  function OmitEntries(entries: seq<(string, Json)>, keys: set<string>): (r: seq<(string, Json)>)
    ensures |r| <= |entries|
    ensures !Mentions(Obj(r), keys)
    ensures !Mentions(Obj(entries), keys) ==> r == entries
    decreases entries, 0
  {
    if entries == [] then []
    else
      var (k, v) := entries[0];
      var rest := OmitEntries(entries[1..], keys);
      if k in keys then rest else [(k, Omit(v, keys))] + rest
  }

  /** Pruning drops only the entries keyed by one of `keys`: every other
      entry of the object survives, with its value pruned in turn. */
  lemma {:induction false} OmitEntriesKeepsOthers(entries: seq<(string, Json)>, keys: set<string>, i: nat)
    requires i < |entries| && entries[i].0 !in keys
    ensures (entries[i].0, Omit(entries[i].1, keys)) in OmitEntries(entries, keys)
  {
    if i > 0 {
      OmitEntriesKeepsOthers(entries[1..], keys, i - 1);
    }
  }

  /** Pruning an array prunes each item in place: item i of the result is
      item i of the input, pruned. */
  lemma OmitArrayItems(items: seq<Json>, keys: set<string>, i: nat)
    requires i < |items|
    ensures Omit(Arr(items), keys).Arr?
    ensures |Omit(Arr(items), keys).items| == |items|
    ensures Omit(Arr(items), keys).items[i] == Omit(items[i], keys)
  {
  }

  /** Pruning invents nothing: entry i of a pruned object is an entry of the
      input, at the same or a later index, under a key that is kept, with
      its value pruned. Order and multiplicity follow from
      OmitEntriesDistributes. */
  lemma {:induction false} OmitEntriesComeFromInput(entries: seq<(string, Json)>, keys: set<string>, i: nat)
    returns (j: nat)
    requires i < |OmitEntries(entries, keys)|
    ensures i <= j < |entries|
    ensures entries[j].0 !in keys
    ensures OmitEntries(entries, keys)[i] == (entries[j].0, Omit(entries[j].1, keys))
    decreases entries
  {
    var rest := OmitEntries(entries[1..], keys);
    if entries[0].0 in keys {
      var j' := OmitEntriesComeFromInput(entries[1..], keys, i);
      j := j' + 1;
    } else if i == 0 {
      j := 0;
    } else {
      assert OmitEntries(entries, keys) == [(entries[0].0, Omit(entries[0].1, keys))] + rest;
      var j' := OmitEntriesComeFromInput(entries[1..], keys, i - 1);
      j := j' + 1;
    }
  }

  /** Pruning an object prunes each entry on its own: the result for a
      concatenation is the concatenation of the results, so kept entries
      keep their order and appear once each. */
  lemma {:induction false} OmitEntriesDistributes(a: seq<(string, Json)>, b: seq<(string, Json)>, keys: set<string>)
    ensures OmitEntries(a + b, keys) == OmitEntries(a, keys) + OmitEntries(b, keys)
    decreases a
  {
    if a != [] {
      assert (a + b)[1..] == a[1..] + b;
      OmitEntriesDistributes(a[1..], b, keys);
    } else {
      assert a + b == b;
    }
  }

  /** A single entry is dropped when its key is listed and otherwise kept
      with its value pruned. */
  lemma OmitSingleEntry(k: string, v: Json, keys: set<string>)
    ensures OmitEntries([(k, v)], keys) == if k in keys then [] else [(k, Omit(v, keys))]
  {
  }

  /** Pruning twice is pruning once. */
  lemma OmitIdempotent(j: Json, keys: set<string>)
    ensures Omit(Omit(j, keys), keys) == Omit(j, keys)
  {
  }

  /** Pruning leaves a value unchanged exactly when none of the keys occurs
      in it at any depth. */
  lemma OmitIsIdentityIff(j: Json, keys: set<string>)
    ensures Omit(j, keys) == j <==> !Mentions(j, keys)
  {
  }

  /** Pruning one set of keys and then another is pruning both at once. */
  lemma {:induction false} OmitComposes(j: Json, a: set<string>, b: set<string>)
    ensures Omit(Omit(j, a), b) == Omit(j, a + b)
    decreases j, 1
  {
    match j
    case Arr(items) =>
      forall i | 0 <= i < |items|
        ensures Omit(Omit(items[i], a), b) == Omit(items[i], a + b)
      {
        OmitComposes(items[i], a, b);
      }
    case Obj(entries) =>
      OmitEntriesComposes(entries, a, b);
    case _ =>
  }

  lemma {:induction false} OmitEntriesComposes(entries: seq<(string, Json)>, a: set<string>, b: set<string>)
    ensures OmitEntries(OmitEntries(entries, a), b) == OmitEntries(entries, a + b)
    decreases entries, 0
  {
    if entries != [] {
      OmitEntriesComposes(entries[1..], a, b);
      var (k, v) := entries[0];
      if k !in a {
        var rest := OmitEntries(entries[1..], a);
        assert OmitEntries(entries, a) == [(k, Omit(v, a))] + rest;
        assert ([(k, Omit(v, a))] + rest)[1..] == rest;
        OmitComposes(v, a, b);
      }
    }
  }
}
