/** Merging one JSON value into another. */
module MergeJson {
  import opened Outcomes

  datatype Json =
    | Null
    | Bool(b: bool)
    | Number(n: int)
    | Text(s: string)
    | Array(items: seq<Json>)
    | Object(fields: map<string, Json>)

  function FieldOr(fields: map<string, Json>, key: string): Json {
    if key in fields then fields[key] else Null
  }

  // Objects merge field by field; anything else is replaced.
  function Merge(a: Json, b: Json): Json
    decreases b
  {
    if a.Object? && b.Object? then
      Object(map key | key in a.fields.Keys + b.fields.Keys ::
        if key in b.fields then Merge(FieldOr(a.fields, key), b.fields[key]) else a.fields[key])
    else b
  }

  // The fields of `a` after all keys of `b` but those left have been merged in
  predicate MergedBut(fields: map<string, Json>, a: Json, b: Json, left: set<string>)
    requires a.Object? && b.Object?
  {
    && left <= b.fields.Keys
    && fields.Keys == a.fields.Keys + (b.fields.Keys - left)
    && forall key <- fields.Keys ::
         fields[key] == if key in b.fields && key !in left then Merge(FieldOr(a.fields, key), b.fields[key])
                        else FieldOr(a.fields, key)
  }

  lemma MergedAll(fields: map<string, Json>, a: Json, b: Json)
    requires a.Object? && b.Object? && MergedBut(fields, a, b, {})
    ensures Object(fields) == Merge(a, b)
  {
    assert fields == Merge(a, b).fields;
  }

  lemma MergedOneMore(fields: map<string, Json>, a: Json, b: Json, left: set<string>, key: string)
    requires a.Object? && b.Object? && MergedBut(fields, a, b, left) && key in left
    ensures FieldOr(fields, key) == FieldOr(a.fields, key)
    ensures MergedBut(fields[key := Merge(FieldOr(a.fields, key), b.fields[key])], a, b, left - {key})
  {
  }

  // The place a value is kept in
  class Slot {
    var value: Json

    constructor (value: Json)
      ensures this.value == value
    {
      this.value := value;
    }
  }

  /** Merges into the value `a` holds. The fields of `b` are visited in whatever order its map
      yields them; each is merged into the place of that field, which starts out null if new. */
  method MergeInto(a: Slot, b: Json)
    modifies a
    ensures a.value == Merge(old(a.value), b)
    decreases b
  {
    if !a.value.Object? || !b.Object? {
      a.value := b;
      return;
    }
    var left := b.fields.Keys;
    while left != {}
      invariant a.value.Object? && MergedBut(a.value.fields, old(a.value), b, left)
      decreases |left|
    {
      var key :| key in left;
      MergedOneMore(a.value.fields, old(a.value), b, left, key);
      var child := new Slot(FieldOr(a.value.fields, key));
      MergeInto(child, b.fields[key]);
      a.value := Object(a.value.fields[key := child.value]);
      left := left - {key};
    }
    MergedAll(a.value.fields, old(a.value), b);
  }

  // Paths

  function Lookup(v: Json, path: seq<string>): Option<Json>
    decreases |path|
  {
    if path == [] then Some(v)
    else if v.Object? && path[0] in v.fields then Lookup(v.fields[path[0]], path[1..])
    else None
  }

  // How a path fares in `b`: it ends at a value, leaves an object that lacks the next
  // key, or runs into something that is not an object.
  datatype Fate = At(v: Json) | Lacking | Blocked

  function Follow(b: Json, path: seq<string>): Fate
    decreases |path|
  {
    if path == [] then At(b)
    else if !b.Object? then Blocked
    else if path[0] in b.fields then Follow(b.fields[path[0]], path[1..])
    else Lacking
  }

  lemma {:induction false} FollowIsLookup(b: Json, path: seq<string>)
    ensures Lookup(b, path) == if Follow(b, path).At? then Some(Follow(b, path).v) else None
    decreases |path|
  {
    if path != [] && b.Object? && path[0] in b.fields {
      FollowIsLookup(b.fields[path[0]], path[1..]);
    }
  }

  lemma {:induction false} NullHasNoFields(path: seq<string>)
    ensures path != [] ==> Lookup(Null, path) == None
  {
  }

  // What the merge holds where `b` holds `v`: that value, except that two objects are joined
  predicate Joined(merged: Option<Json>, former: Option<Json>, v: Json) {
    if v.Object? && former.Some? && former.value.Object? then
      && merged.Some? && merged.value.Object?
      && merged.value.fields.Keys == former.value.fields.Keys + v.fields.Keys
    else merged == Some(v)
  }

  /** What the merge holds at every path: where `b` has a value, that value, or an object with
      the keys of both if `a` has an object there too; `a`'s subtree where `b` leaves the path
      open; and nothing where `b` blocks it. An object of `b`, be it empty, replaces whatever
      else `a` holds. */
  lemma {:induction false} MergeAtEveryPath(a: Json, b: Json, path: seq<string>)
    ensures match Follow(b, path)
      case At(v) =>
        && Joined(Lookup(Merge(a, b), path), Lookup(a, path), v)
        && Lookup(Merge(a, b), path) == Some(Merge(Lookup(a, path).GetOr(Null), v))
      case Lacking => Lookup(Merge(a, b), path) == Lookup(a, path)
      case Blocked => Lookup(Merge(a, b), path) == None
    decreases |path|
  {
    if path != [] && b.Object? {
      var key, rest := path[0], path[1..];
      if a.Object? {
        if key in b.fields {
          MergeAtEveryPath(FieldOr(a.fields, key), b.fields[key], rest);
          NullHasNoFields(rest);
        }
      } else {
        FollowIsLookup(b, path);
      }
    }
  }

  /** Merging the same value again changes nothing. */
  lemma {:induction false} MergeIsIdempotent(a: Json, b: Json)
    ensures Merge(Merge(a, b), b) == Merge(a, b)
    decreases b
  {
    if b.Object? {
      forall key | key in b.fields
        ensures Merge(FieldOr(Merge(a, b).fields, key), b.fields[key]) == FieldOr(Merge(a, b).fields, key)
      {
        if a.Object? {
          MergeIsIdempotent(FieldOr(a.fields, key), b.fields[key]);
        } else {
          MergeIsReflexive(b.fields[key]);
        }
      }
    }
  }

  lemma {:induction false} MergeIsReflexive(b: Json)
    ensures Merge(b, b) == b
    decreases b
  {
    if b.Object? {
      forall key | key in b.fields ensures Merge(b.fields[key], b.fields[key]) == b.fields[key] {
        MergeIsReflexive(b.fields[key]);
      }
    }
  }
}
