/** Patches between JSON documents: how they are computed and applied (state-delta.ts). */
module JsonPatch {
  import opened Wrappers
  import opened Json

  datatype Operation =
    | Add(path: seq<Text>, value: Json)
    | Remove(path: seq<Text>)
    | Replace(path: seq<Text>, value: Json)

  type Patch = seq<Operation>

  // ----- computing a patch ----------------------------------------------------------------------------

  function Removals(keys: seq<Text>, right: map<Text, Json>, path: seq<Text>): Patch {
    if keys == [] then [] else
      (if keys[0] in right then [] else [Remove(path + [keys[0]])]) + Removals(keys[1..], right, path)
  }

  /** `diffJSON` */
  function Diff(left: Json, right: Json, path: seq<Text>): Patch
    decreases right, 1
  {
    if left.Arr? && right.Arr? then
      if left.items == right.items then [] else [Replace(path, right)]
    else if left.Obj? && right.Obj? then
      Removals(Ordered(false, left.fields.Keys), right.fields, path)
      + Changes(Ordered(false, right.fields.Keys), left.fields, right, path)
    else if left == right then []
    else [Replace(path, right)]
  }

  function Changes(keys: seq<Text>, left: map<Text, Json>, right: Json, path: seq<Text>): Patch
    requires right.Obj? && forall k <- keys :: k in right.fields
    decreases right, 0, |keys|
  {
    if keys == [] then [] else
      var k := keys[0];
      (if k in left then Diff(left[k], right.fields[k], path + [k]) else [Add(path + [k], right.fields[k])])
      + Changes(keys[1..], left, right, path)
  }

  // ----- applying a patch -----------------------------------------------------------------------------

  function Decimal(s: Text): nat
    requires Digits(s)
  {
    if s == [] then 0 else 10 * Decimal(s[..|s| - 1]) + (s[|s| - 1] - 0x30)
  }

  /** `arrayIndex` */
  function ArrayIndex(s: Text): Option<nat> {
    if s != [] && Digits(s) && (s[0] == 0x30 ==> |s| == 1) && Decimal(s) <= MAX_SAFE_INTEGER then Some(Decimal(s))
    else None
  }

  /** One operation on the container that holds its last segment. */
  function Edit(parent: Json, segment: Text, op: Operation): Option<Json> {
    if parent.Arr? then
      match ArrayIndex(segment)
      case None => None
      case Some(i) =>
        match op
        case Add(_, v) =>
          if i > |parent.items| then None else Some(Arr(parent.items[..i] + [v] + parent.items[i..]))
        case Remove(_) =>
          if i >= |parent.items| then None else Some(Arr(parent.items[..i] + parent.items[i + 1..]))
        case Replace(_, v) =>
          if i >= |parent.items| then None else Some(Arr(parent.items[i := v]))
    else if parent.Obj? then
      match op
      case Remove(_) => if segment in parent.fields then Some(Obj(parent.fields - {segment})) else None
      case Replace(_, v) => if segment in parent.fields then Some(Obj(parent.fields[segment := v])) else None
      case Add(_, v) => Some(Obj(parent.fields[segment := v]))
    else None
  }

  /** Following the path to the container and changing it there. */
  function EditAt(root: Json, path: seq<Text>, op: Operation): Option<Json>
    requires path != []
    decreases |path|
  {
    if |path| == 1 then Edit(root, path[0], op)
    else if root.Arr? then
      var i := ArrayIndex(path[0]);
      if i.None? || i.value >= |root.items| then None else
        match EditAt(root.items[i.value], path[1..], op)
        case None => None
        case Some(child) => Some(Arr(root.items[i.value := child]))
    else if root.Obj? && path[0] in root.fields then
      match EditAt(root.fields[path[0]], path[1..], op)
      case None => None
      case Some(child) => Some(Obj(root.fields[path[0] := child]))
    else None
  }

  function ApplyOperation(document: Json, op: Operation): Option<Json> {
    if op.path == [] then
      if op.Remove? then None else Some(op.value)
    else EditAt(document, op.path, op)
  }

  /** `applyPatch` as a function of the document. */
  function Patched(document: Json, patch: Patch): Option<Json>
    decreases |patch|
  {
    if patch == [] then Some(document) else
      match ApplyOperation(document, patch[0])
      case None => None
      case Some(next) => Patched(next, patch[1..])
  }

  /** The loop of `applyPatch`. */
  method ApplyPatch(document: Json, patch: Patch) returns (r: Option<Json>)
    ensures r == Patched(document, patch)
  {
    var result := document;
    for i := 0 to |patch|
      invariant Patched(document, patch) == Patched(result, patch[i..])
    {
      var next := ApplyOperation(result, patch[i]);
      if next.None? { return None; }
      result := next.value;
      assert patch[i..][1..] == patch[i + 1..];
    }
    return Some(result);
  }

  // ----- the patch of two documents rebuilds the second ------------------------------------------------

  lemma {:induction false} PatchedTwice(document: Json, a: Patch, b: Patch)
    ensures Patched(document, a + b) ==
            match Patched(document, a) { case None => None case Some(d) => Patched(d, b) }
    decreases |a|
  {
    if a == [] {
      assert a + b == b;
    } else {
      assert (a + b)[0] == a[0] && (a + b)[1..] == a[1..] + b;
      var next := ApplyOperation(document, a[0]);
      if next.Some? {
        PatchedTwice(next.value, a[1..], b);
      }
    }
  }

  function Moved(k: Text, op: Operation): Operation {
    match op
    case Add(p, v) => Add([k] + p, v)
    case Remove(p) => Remove([k] + p)
    case Replace(p, v) => Replace([k] + p, v)
  }

  /** The patch for a field, seen from the object that holds it. */
  function Below(k: Text, patch: Patch): Patch
    decreases |patch|
  {
    if patch == [] then [] else [Moved(k, patch[0])] + Below(k, patch[1..])
  }

  lemma {:induction false} BelowJoins(k: Text, a: Patch, b: Patch)
    ensures Below(k, a + b) == Below(k, a) + Below(k, b)
    decreases |a|
  {
    if a == [] {
      assert a + b == b;
    } else {
      assert (a + b)[0] == a[0] && (a + b)[1..] == a[1..] + b;
      BelowJoins(k, a[1..], b);
    }
  }

  lemma {:induction false} RemovalsBelow(k: Text, keys: seq<Text>, right: map<Text, Json>, path: seq<Text>)
    ensures Removals(keys, right, [k] + path) == Below(k, Removals(keys, right, path))
    decreases |keys|
  {
    if keys != [] {
      RemovalsBelow(k, keys[1..], right, path);
      assert ([k] + path) + [keys[0]] == [k] + (path + [keys[0]]);
      var one := if keys[0] in right then [] else [Remove(path + [keys[0]])];
      BelowJoins(k, one, Removals(keys[1..], right, path));
    }
  }

  /** The path handed down is only put in front of the paths of a patch. */
  lemma {:induction false} DiffBelow(k: Text, left: Json, right: Json, path: seq<Text>)
    ensures Diff(left, right, [k] + path) == Below(k, Diff(left, right, path))
    decreases right, 1
  {
    if left.Obj? && right.Obj? {
      var lk, rk := Ordered(false, left.fields.Keys), Ordered(false, right.fields.Keys);
      RemovalsBelow(k, lk, right.fields, path);
      ChangesBelow(k, rk, left.fields, right, path);
      BelowJoins(k, Removals(lk, right.fields, path), Changes(rk, left.fields, right, path));
    }
  }

  lemma {:induction false} ChangesBelow(k: Text, keys: seq<Text>, left: map<Text, Json>, right: Json, path: seq<Text>)
    requires right.Obj? && forall q <- keys :: q in right.fields
    ensures Changes(keys, left, right, [k] + path) == Below(k, Changes(keys, left, right, path))
    decreases right, 0, |keys|
  {
    if keys != [] {
      var q := keys[0];
      ChangesBelow(k, keys[1..], left, right, path);
      assert ([k] + path) + [q] == [k] + (path + [q]);
      if q in left {
        DiffBelow(k, left[q], right.fields[q], path + [q]);
        BelowJoins(k, Diff(left[q], right.fields[q], path + [q]), Changes(keys[1..], left, right, path));
      } else {
        BelowJoins(k, [Add(path + [q], right.fields[q])], Changes(keys[1..], left, right, path));
      }
    }
  }

  predicate NeverRemovesAll(patch: Patch) { forall op <- patch :: op.Remove? ==> op.path != [] }

  lemma MovedEdits(fields: map<Text, Json>, k: Text, op: Operation)
    requires k in fields && (op.Remove? ==> op.path != [])
    ensures ApplyOperation(Obj(fields), Moved(k, op)) ==
            match ApplyOperation(fields[k], op) { case None => None case Some(v) => Some(Obj(fields[k := v])) }
  {
    var moved := Moved(k, op);
    assert moved.path == [k] + op.path && moved.path[1..] == op.path;
    EditKind(fields[k], op.path, op, moved);
  }

  /** An edit reads nothing of an operation but its kind and value. */
  lemma {:induction false} EditKind(root: Json, path: seq<Text>, op: Operation, other: Operation)
    requires op.Add? == other.Add? && op.Remove? == other.Remove?
    requires op.Remove? || op.value == other.value
    ensures path != [] ==> EditAt(root, path, op) == EditAt(root, path, other)
    decreases |path|
  {
    if |path| > 1 {
      if root.Arr? {
        var i := ArrayIndex(path[0]);
        if i.Some? && i.value < |root.items| {
          EditKind(root.items[i.value], path[1..], op, other);
        }
      } else if root.Obj? && path[0] in root.fields {
        EditKind(root.fields[path[0]], path[1..], op, other);
      }
    }
  }

  /** A patch moved below a field changes that field as the patch changes its value. */
  lemma {:induction false} BelowEdits(fields: map<Text, Json>, k: Text, patch: Patch)
    requires k in fields && NeverRemovesAll(patch)
    ensures Patched(Obj(fields), Below(k, patch)) ==
            match Patched(fields[k], patch) { case None => None case Some(v) => Some(Obj(fields[k := v])) }
    decreases |patch|
  {
    if patch == [] {
      assert fields[k := fields[k]] == fields;
    } else {
      MovedEdits(fields, k, patch[0]);
      var next := ApplyOperation(fields[k], patch[0]);
      if next.Some? {
        BelowEdits(fields[k := next.value], k, patch[1..]);
        var last := Patched(next.value, patch[1..]);
        if last.Some? {
          assert fields[k := next.value][k := last.value] == fields[k := last.value];
        }
      }
    }
  }

  lemma {:induction false} DiffNeverRemovesAll(left: Json, right: Json, path: seq<Text>)
    ensures NeverRemovesAll(Diff(left, right, path))
    decreases right, 1
  {
    if left.Obj? && right.Obj? {
      RemovalsNeverRemoveAll(Ordered(false, left.fields.Keys), right.fields, path);
      ChangesNeverRemoveAll(Ordered(false, right.fields.Keys), left.fields, right, path);
    }
  }

  lemma {:induction false} RemovalsNeverRemoveAll(keys: seq<Text>, right: map<Text, Json>, path: seq<Text>)
    ensures NeverRemovesAll(Removals(keys, right, path))
    decreases |keys|
  {
    if keys != [] {
      RemovalsNeverRemoveAll(keys[1..], right, path);
    }
  }

  lemma {:induction false} ChangesNeverRemoveAll(keys: seq<Text>, left: map<Text, Json>, right: Json, path: seq<Text>)
    requires right.Obj? && forall q <- keys :: q in right.fields
    ensures NeverRemovesAll(Changes(keys, left, right, path))
    decreases right, 0, |keys|
  {
    if keys != [] {
      ChangesNeverRemoveAll(keys[1..], left, right, path);
      if keys[0] in left {
        DiffNeverRemovesAll(left[keys[0]], right.fields[keys[0]], path + [keys[0]]);
      }
    }
  }

  lemma {:induction false} RemovalsRemove(fields: map<Text, Json>, keys: seq<Text>, right: map<Text, Json>)
    requires Unrepeated(keys) && forall k <- keys :: k in fields
    ensures Patched(Obj(fields), Removals(keys, right, [])) ==
            Some(Obj(map k | k in fields && (k in keys ==> k in right) :: fields[k]))
    decreases |keys|
  {
    if keys == [] {
      assert (map k | k in fields && (k in keys ==> k in right) :: fields[k]) == fields;
    } else {
      var k := keys[0];
      assert k !in keys[1..];
      assert forall q :: q in keys <==> q == k || q in keys[1..];
      var next := if k in right then fields else fields - {k};
      RemovalsRemove(next, keys[1..], right);
      assert (map q | q in next && (q in keys[1..] ==> q in right) :: next[q])
          == (map q | q in fields && (q in keys ==> q in right) :: fields[q]);
      if k in right {
        assert [] + Removals(keys[1..], right, []) == Removals(keys[1..], right, []);
      } else {
        PatchedTwice(Obj(fields), [Remove([] + [k])], Removals(keys[1..], right, []));
        assert Patched(Obj(fields), [Remove([k])]) == Some(Obj(next));
      }
    }
  }

  function Taken(keys: seq<Text>, right: map<Text, Json>): map<Text, Json>
    requires forall k <- keys :: k in right
  {
    map k | k in keys :: right[k]
  }

  lemma TakenStep(fields: map<Text, Json>, keys: seq<Text>, right: map<Text, Json>)
    requires keys != [] && forall k <- keys :: k in right
    ensures fields[keys[0] := right[keys[0]]] + Taken(keys[1..], right) == fields + Taken(keys, right)
  {
    assert forall q :: q in keys <==> q == keys[0] || q in keys[1..];
  }

  /** The changes for a list of names bring exactly those fields to their new values. */
  lemma {:induction false} ChangesChange(fields: map<Text, Json>, keys: seq<Text>, left: map<Text, Json>, right: Json)
    requires right.Obj? && Unrepeated(keys) && forall k <- keys :: k in right.fields
    requires forall k <- keys :: k in left ==> k in fields && fields[k] == left[k]
    ensures Patched(Obj(fields), Changes(keys, left, right, [])) == Some(Obj(fields + Taken(keys, right.fields)))
    decreases right, 0, |keys|
  {
    hide Diff, Taken;
    if keys == [] {
      TakenNothing(fields, keys, right.fields);
    } else {
      var k := keys[0];
      assert k !in keys[1..];
      var next := fields[k := right.fields[k]];
      ChangesChange(next, keys[1..], left, right);
      TakenStep(fields, keys, right.fields);
      assert [] + [k] == [k];
      if k in left {
        DiffRebuilds(left[k], right.fields[k]);
        FieldChanges(fields, k, left[k], right.fields[k]);
        PatchedTwice(Obj(fields), Diff(left[k], right.fields[k], [k]), Changes(keys[1..], left, right, []));
      } else {
        AddAdds(fields, k, right.fields[k]);
        PatchedTwice(Obj(fields), [Add([k], right.fields[k])], Changes(keys[1..], left, right, []));
      }
    }
  }

  lemma TakenNothing(fields: map<Text, Json>, keys: seq<Text>, right: map<Text, Json>)
    requires keys == []
    ensures fields + Taken(keys, right) == fields
  {
  }

  lemma AddAdds(fields: map<Text, Json>, k: Text, v: Json)
    ensures Patched(Obj(fields), [Add([k], v)]) == Some(Obj(fields[k := v]))
  {
  }

  lemma FieldChanges(fields: map<Text, Json>, k: Text, left: Json, right: Json)
    requires k in fields && fields[k] == left && Patched(left, Diff(left, right, [])) == Some(right)
    ensures Patched(Obj(fields), Diff(left, right, [k])) == Some(Obj(fields[k := right]))
  {
    hide Diff, Patched;
    DiffBelow(k, left, right, []);
    assert [k] + [] == [k];
    DiffNeverRemovesAll(left, right, []);
    BelowEdits(fields, k, Diff(left, right, []));
  }

  /** Applying the difference of two documents to the first gives exactly the second. */
  lemma {:induction false} DiffRebuilds(left: Json, right: Json)
    ensures Patched(left, Diff(left, right, [])) == Some(right)
    decreases right, 1
  {
    if left.Obj? && right.Obj? {
      var lk, rk := Ordered(false, left.fields.Keys), Ordered(false, right.fields.Keys);
      OrderedSorts(false, left.fields.Keys);
      OrderedSorts(false, right.fields.Keys);
      RemovalsRemove(left.fields, lk, right.fields);
      var kept := map k | k in left.fields && (k in lk ==> k in right.fields) :: left.fields[k];
      ChangesChange(kept, rk, left.fields, right);
      PatchedTwice(left, Removals(lk, right.fields, []), Changes(rk, left.fields, right, []));
      KeptAndTaken(left.fields, right.fields, lk, rk);
    } else {
      ReplaceReplaces(left, right);
    }
  }

  lemma ReplaceReplaces(left: Json, right: Json)
    ensures Patched(left, [Replace([], right)]) == Some(right)
  {
  }

  lemma KeptAndTaken(left: map<Text, Json>, right: map<Text, Json>, lk: seq<Text>, rk: seq<Text>)
    requires (forall k :: k in lk <==> k in left) && forall k :: k in rk <==> k in right
    ensures (map k | k in left && (k in lk ==> k in right) :: left[k]) + Taken(rk, right) == right
  {
  }

  /** Nothing is sent for what did not change: the difference is empty exactly for equal documents. */
  lemma DiffEmpty(left: Json, right: Json)
    ensures Diff(left, right, []) == [] <==> left == right
  {
    if Diff(left, right, []) == [] {
      DiffRebuilds(left, right);
    }
    if left == right {
      DiffSame(left, []);
    }
  }

  lemma {:induction false} DiffSame(v: Json, path: seq<Text>)
    ensures Diff(v, v, path) == []
    decreases v, 1
  {
    if v.Obj? {
      var keys := Ordered(false, v.fields.Keys);
      SameRemovals(keys, v.fields, path);
      SameChanges(keys, v, path);
    }
  }

  lemma {:induction false} SameRemovals(keys: seq<Text>, fields: map<Text, Json>, path: seq<Text>)
    requires forall k <- keys :: k in fields
    ensures Removals(keys, fields, path) == []
    decreases |keys|
  {
    if keys != [] {
      SameRemovals(keys[1..], fields, path);
    }
  }

  lemma {:induction false} SameChanges(keys: seq<Text>, v: Json, path: seq<Text>)
    requires v.Obj? && forall k <- keys :: k in v.fields
    ensures Changes(keys, v.fields, v, path) == []
    decreases v, 0, |keys|
  {
    if keys != [] {
      SameChanges(keys[1..], v, path);
      DiffSame(v.fields[keys[0]], path + [keys[0]]);
    }
  }
}
