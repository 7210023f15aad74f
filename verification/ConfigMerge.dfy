/** The configuration merge that runs at container start (internal/resources/statefulset.go) and the
    Go deep merge of self-configuration (internal/controller/selfconfig_apply.go). */
module ConfigMerge {
  import opened Wrappers

  /** A parsed JSON document; the order of an object's keys carries no meaning. */
  datatype Json =
    | JNull
    | JBool(flag: bool)
    | JNum(number: real)
    | JStr(text: string)
    | JArr(items: seq<Json>)
    | JObj(fields: map<string, Json>)

  type Path = keys: seq<string> | |keys| > 0 witness [""]

  const EMPTY := JObj(map[])

  // ----- deep merge -----

  /** dm, which is also deepMerge: objects merge key by key, anything else is replaced by `b`; null is
      an ordinary value. */
  function Merge(a: Json, b: Json): Json
    decreases b
  {
    if a.JObj? && b.JObj? then
      JObj(map k | k in a.fields.Keys + b.fields.Keys ::
        if k !in b.fields then a.fields[k]
        else if k in a.fields then Merge(a.fields[k], b.fields[k])
        else b.fields[k])
    else b
  }

  // ----- deletion of a dot path -----

  /** p.split(".") */
  function Split(s: string): (keys: Path)
    ensures Join(keys) == s
    ensures forall i :: 0 <= i < |keys| ==> '.' !in keys[i]
  {
    if s == "" then [""]
    else
      var rest := Split(s[1..]);
      if s[0] == '.' then [""] + rest else [[s[0]] + rest[0]] + rest[1..]
  }

  function Join(keys: Path): string {
    if |keys| == 1 then keys[0] else keys[0] + "." + Join(keys[1..])
  }

  predicate Digits(s: string) {
    forall i :: 0 <= i < |s| ==> '0' <= s[i] <= '9'
  }

  function Number(s: string): nat
    requires Digits(s)
  {
    if s == "" then 0 else 10 * Number(s[..|s| - 1]) + (s[|s| - 1] as int - '0' as int)
  }

  predicate Canonical(key: string) {
    key != "" && Digits(key) && (key[0] == '0' ==> key == "0")
  }

  /** The position a property name stands for in an array: a canonical decimal below the length. */
  function Slot(key: string, length: nat): (i: Option<nat>)
    ensures i.Some? ==> i.value < length
  {
    if Canonical(key) && Number(key) < length then Some(Number(key)) else None
  }

  /** typeof x === "object" for a truthy x, which holds of arrays as well. */
  predicate Container(v: Json) {
    v.JObj? || v.JArr?
  }

  /** dp: walk down the containers named by all keys but the last, then delete the last. Deleting an
      array element leaves a hole, which is written out as null. */
  function Delete(v: Json, p: Path): Json
    decreases |p|
  {
    match v
    case JObj(fields) =>
      if |p| == 1 then JObj(fields - {p[0]})
      else if p[0] in fields && Container(fields[p[0]]) then JObj(fields[p[0] := Delete(fields[p[0]], p[1..])])
      else v
    case JArr(items) =>
      var i := Slot(p[0], |items|);
      if i.None? then v
      else if |p| == 1 then JArr(items[i.value := JNull])
      else if Container(items[i.value]) then JArr(items[i.value := Delete(items[i.value], p[1..])])
      else v
    case _ => v
  }

  function DeleteAll(v: Json, paths: seq<Path>): Json {
    if paths == [] then v else Delete(DeleteAll(v, paths[..|paths| - 1]), paths[|paths| - 1])
  }

  /** One start with merge mode Merge: delete the forced paths from the volume's config, then merge
      the operator's config over it. */
  function Restart(pvc: Json, paths: seq<Path>, operator: Json): Json {
    Merge(DeleteAll(pvc, paths), operator)
  }

  // ----- looking up -----

  function Get(v: Json, p: seq<string>): Option<Json>
    decreases |p|
  {
    if p == [] then Some(v)
    else if v.JObj? && p[0] in v.fields then Get(v.fields[p[0]], p[1..])
    else None
  }

  predicate Prefix(p: seq<string>, q: seq<string>) {
    |p| <= |q| && q[..|p|] == p
  }

  predicate Comparable(p: seq<string>, q: seq<string>) {
    Prefix(p, q) || Prefix(q, p)
  }

  /** The operator's config sets the path, or replaces something above it. */
  predicate Reached(operator: Json, p: seq<string>)
    decreases |p|
  {
    !operator.JObj? || p == [] || (p[0] in operator.fields && Reached(operator.fields[p[0]], p[1..]))
  }

  // ----- exactness and frame -----

  lemma {:induction false} DeletedIsAbsent(v: Json, p: Path)
    ensures Get(Delete(v, p), p).None?
    decreases |p|
  {
    if v.JObj? && |p| > 1 && p[0] in v.fields {
      if Container(v.fields[p[0]]) {
        DeletedIsAbsent(v.fields[p[0]], p[1..]);
      }
    }
  }

  lemma {:induction false} DeleteNeverAdds(v: Json, p: Path, q: seq<string>)
    requires Get(v, q).None?
    ensures Get(Delete(v, p), q).None?
    decreases |q|
  {
    if q != [] && v.JObj? && |p| > 1 && p[0] == q[0] && p[0] in v.fields && Container(v.fields[p[0]]) {
      DeleteNeverAdds(v.fields[p[0]], p[1..], q[1..]);
    }
  }

  lemma {:induction false} AllDeleted(v: Json, paths: seq<Path>, p: Path)
    requires p in paths
    ensures Get(DeleteAll(v, paths), p).None?
  {
    var init, last := paths[..|paths| - 1], paths[|paths| - 1];
    if p == last {
      DeletedIsAbsent(DeleteAll(v, init), p);
    } else {
      AllDeleted(v, init, p);
      DeleteNeverAdds(DeleteAll(v, init), last, p);
    }
  }

  lemma {:induction false} MergeOverAbsent(a: Json, b: Json, p: seq<string>)
    requires Get(a, p).None?
    ensures Get(Merge(a, b), p) == Get(b, p)
    decreases |p|
  {
    if a.JObj? && b.JObj? && p[0] in a.fields && p[0] in b.fields {
      MergeOverAbsent(a.fields[p[0]], b.fields[p[0]], p[1..]);
    }
  }

  /** A forced path holds exactly what the operator's config holds there, absence included. */
  lemma {:induction false} ForcedPathsAreExact(pvc: Json, paths: seq<Path>, operator: Json, p: Path)
    requires p in paths
    ensures Get(Restart(pvc, paths, operator), p) == Get(operator, p)
  {
    AllDeleted(pvc, paths, p);
    MergeOverAbsent(DeleteAll(pvc, paths), operator, p);
  }

  lemma ComparableTails(p: Path, q: Path)
    ensures Comparable(p, q) <==> p[0] == q[0] && Comparable(p[1..], q[1..])
  {
    assert p == [p[0]] + p[1..] && q == [q[0]] + q[1..];
  }

  lemma {:induction false} DeleteElsewhere(v: Json, p: Path, q: Path)
    requires !Comparable(p, q)
    ensures Get(Delete(v, p), q) == Get(v, q)
    decreases |q|
  {
    ComparableTails(p, q);
    if v.JObj? && p[0] == q[0] && p[0] in v.fields && Container(v.fields[p[0]]) {
      DeleteElsewhere(v.fields[p[0]], p[1..], q[1..]);
    }
  }

  lemma {:induction false} DeleteAllElsewhere(v: Json, paths: seq<Path>, q: Path)
    requires forall p :: p in paths ==> !Comparable(p, q)
    ensures Get(DeleteAll(v, paths), q) == Get(v, q)
  {
    if paths != [] {
      DeleteAllElsewhere(v, paths[..|paths| - 1], q);
      DeleteElsewhere(DeleteAll(v, paths[..|paths| - 1]), paths[|paths| - 1], q);
    }
  }

  lemma {:induction false} MergeElsewhere(a: Json, b: Json, q: seq<string>)
    requires a.JObj? && !Reached(b, q)
    ensures Get(Merge(a, b), q) == Get(a, q)
    decreases |q|
  {
    if q[0] in a.fields && q[0] in b.fields {
      var x, y := a.fields[q[0]], b.fields[q[0]];
      if x.JObj? {
        MergeElsewhere(x, y, q[1..]);
      } else {
        UnreachedIsAbsent(y, q[1..]);
      }
    } else if q[0] in b.fields {
      UnreachedIsAbsent(b.fields[q[0]], q[1..]);
    }
  }

  lemma {:induction false} UnreachedIsAbsent(b: Json, q: seq<string>)
    requires !Reached(b, q)
    ensures q != [] && Get(b, q).None?
    decreases |q|
  {
    if q[0] in b.fields {
      UnreachedIsAbsent(b.fields[q[0]], q[1..]);
    }
  }

  lemma {:induction false} DeleteAllKeepsObjects(v: Json, paths: seq<Path>)
    ensures v.JObj? <==> DeleteAll(v, paths).JObj?
  {
    if paths != [] {
      DeleteAllKeepsObjects(v, paths[..|paths| - 1]);
    }
  }

  /** Everything that is neither related to a forced path nor reached by the operator's config keeps
      the value the volume had. */
  lemma {:induction false} OtherPathsKeepTheirValue(pvc: Json, paths: seq<Path>, operator: Json, q: Path)
    requires pvc.JObj? && (forall p :: p in paths ==> !Comparable(p, q)) && !Reached(operator, q)
    ensures Get(Restart(pvc, paths, operator), q) == Get(pvc, q)
  {
    DeleteAllKeepsObjects(pvc, paths);
    DeleteAllElsewhere(pvc, paths, q);
    MergeElsewhere(DeleteAll(pvc, paths), operator, q);
  }

  /** Every leaf of the operator's config arrives. */
  lemma {:induction false} OperatorLeavesArrive(pvc: Json, paths: seq<Path>, operator: Json, q: seq<string>)
    requires Get(operator, q).Some? && !Get(operator, q).value.JObj?
    ensures Get(Restart(pvc, paths, operator), q) == Get(operator, q)
  {
    MergeLeaf(DeleteAll(pvc, paths), operator, q);
  }

  lemma {:induction false} MergeLeaf(a: Json, b: Json, q: seq<string>)
    requires Get(b, q).Some? && !Get(b, q).value.JObj?
    ensures Get(Merge(a, b), q) == Get(b, q)
    decreases |q|
  {
    if q != [] && a.JObj? && q[0] in a.fields {
      MergeLeaf(a.fields[q[0]], b.fields[q[0]], q[1..]);
    }
  }

  // ----- restarts are stable -----

  lemma {:induction false} MergeTwice(a: Json, b: Json)
    ensures Merge(Merge(a, b), b) == Merge(a, b)
    decreases b
  {
    if b.JObj? {
      forall k | k in b.fields
        ensures Merge(b.fields[k], b.fields[k]) == b.fields[k]
        ensures a.JObj? && k in a.fields ==>
                  Merge(Merge(a.fields[k], b.fields[k]), b.fields[k]) == Merge(a.fields[k], b.fields[k])
      {
        MergeSelf(b.fields[k]);
        if a.JObj? && k in a.fields {
          MergeTwice(a.fields[k], b.fields[k]);
        }
      }
      assert a.JObj? ==> Merge(Merge(a, b), b).fields == Merge(a, b).fields;
      MergeSelf(b);
    }
  }

  lemma {:induction false} MergeSelf(b: Json)
    ensures Merge(b, b) == b
    decreases b
  {
    if b.JObj? {
      forall k | k in b.fields
        ensures Merge(b.fields[k], b.fields[k]) == b.fields[k]
      {
        MergeSelf(b.fields[k]);
      }
      assert Merge(b, b).fields == b.fields;
    }
  }

  /** Merging puts back whatever was deleted from a copy of the operator's own config. */
  lemma {:induction false} MergeRestores(b: Json, p: Path)
    ensures Merge(Delete(b, p), b) == b
    decreases |p|
  {
    MergeSelf(b);
    if b.JObj? {
      forall k | k in b.fields
        ensures Merge(b.fields[k], b.fields[k]) == b.fields[k]
        ensures |p| > 1 && k == p[0] ==> Merge(Delete(b.fields[k], p[1..]), b.fields[k]) == b.fields[k]
      {
        MergeSelf(b.fields[k]);
        if |p| > 1 && k == p[0] {
          MergeRestores(b.fields[k], p[1..]);
        }
      }
      assert Merge(Delete(b, p), b).fields == b.fields;
    }
  }

  lemma {:induction false} AbsorbsKey(a: Json, b: Json, k: string)
    requires a.JObj? && b.JObj?
    ensures Merge(Delete(Merge(a, b), [k]), b) == Merge(Delete(a, [k]), b)
  {
    MergeTwice(a, b);
    assert forall j :: j in b.fields && j in a.fields && j != k ==>
             Merge(Merge(a, b), b).fields[j] == Merge(Merge(a, b).fields[j], b.fields[j]);
    forall j | j in b.fields && j !in a.fields
      ensures Merge(b.fields[j], b.fields[j]) == b.fields[j]
    {
      MergeSelf(b.fields[j]);
    }
    assert Merge(Delete(Merge(a, b), [k]), b).fields == Merge(Delete(a, [k]), b).fields;
  }

  /** The effect of a deletion below key `k`, away from `k`. */
  lemma {:induction false} DeleteBelow(v: Json, p: Path)
    requires v.JObj? && |p| > 1
    ensures Delete(v, p).JObj? && Delete(v, p).fields.Keys == v.fields.Keys
    ensures forall j :: j in v.fields && j != p[0] ==> Delete(v, p).fields[j] == v.fields[j]
    ensures p[0] in v.fields ==> Delete(v, p).fields[p[0]] == Delete(v.fields[p[0]], p[1..])
  {
  }

  lemma {:induction false} AbsorbsBelow(a: Json, b: Json, p: Path)
    requires a.JObj? && b.JObj? && |p| > 1
    requires p[0] in b.fields ==> Merge(Delete(b.fields[p[0]], p[1..]), b.fields[p[0]]) == b.fields[p[0]]
    requires p[0] in a.fields && p[0] in b.fields ==>
      Merge(Delete(Merge(a.fields[p[0]], b.fields[p[0]]), p[1..]), b.fields[p[0]]) ==
      Merge(Delete(a.fields[p[0]], p[1..]), b.fields[p[0]])
    ensures Merge(Delete(Merge(a, b), p), b) == Merge(Delete(a, p), b)
  {
    DeleteBelow(a, p);
    DeleteBelow(Merge(a, b), p);
    var left, right := Merge(Delete(Merge(a, b), p), b), Merge(Delete(a, p), b);
    assert left.fields.Keys == right.fields.Keys;
    forall j | j in right.fields && j != p[0]
      ensures left.fields[j] == right.fields[j]
    {
      if j in b.fields {
        if j in a.fields {
          MergeTwice(a.fields[j], b.fields[j]);
        } else {
          MergeSelf(b.fields[j]);
        }
      }
    }
    assert left.fields == right.fields;
  }

  /** What the operator's config put there before a deletion makes no difference after the merge. */
  lemma {:induction false} MergeAbsorbs(a: Json, b: Json, p: Path)
    ensures Merge(Delete(Merge(a, b), p), b) == Merge(Delete(a, p), b)
    decreases |p|
  {
    MergeRestores(b, p);
    if a.JObj? && b.JObj? {
      if |p| == 1 {
        assert p == [p[0]];
        AbsorbsKey(a, b, p[0]);
      } else {
        if p[0] in b.fields {
          MergeRestores(b.fields[p[0]], p[1..]);
          if p[0] in a.fields {
            MergeAbsorbs(a.fields[p[0]], b.fields[p[0]], p[1..]);
          }
        }
        AbsorbsBelow(a, b, p);
      }
    }
  }

  lemma {:induction false} DeleteTwice(v: Json, p: Path)
    ensures Delete(Delete(v, p), p) == Delete(v, p)
    decreases |p|
  {
    if v.JObj? && |p| > 1 && p[0] in v.fields {
      DeleteTwice(v.fields[p[0]], p[1..]);
    } else if v.JArr? && |p| > 1 && Slot(p[0], |v.items|).Some? {
      DeleteTwice(v.items[Slot(p[0], |v.items|).value], p[1..]);
    }
  }

  lemma {:induction false} CommuteInObject(v: Json, p: Path, q: Path)
    requires v.JObj?
    requires |p| > 1 && |q| > 1 && p[0] == q[0] && p[0] in v.fields ==>
      Delete(Delete(v.fields[p[0]], p[1..]), q[1..]) == Delete(Delete(v.fields[p[0]], q[1..]), p[1..])
    ensures Delete(Delete(v, p), q) == Delete(Delete(v, q), p)
  {
    if |p| > 1 {
      DeleteBelow(v, p);
    }
    if |q| > 1 {
      DeleteBelow(v, q);
    }
    assert Delete(Delete(v, p), q).fields == Delete(Delete(v, q), p).fields;
  }

  lemma {:induction false} CommuteInArray(v: Json, p: Path, q: Path)
    requires v.JArr?
    requires var i := Slot(p[0], |v.items|);
      |p| > 1 && |q| > 1 && i.Some? && i == Slot(q[0], |v.items|) ==>
      Delete(Delete(v.items[i.value], p[1..]), q[1..]) == Delete(Delete(v.items[i.value], q[1..]), p[1..])
    ensures Delete(Delete(v, p), q) == Delete(Delete(v, q), p)
  {
    assert Delete(Delete(v, p), q).items == Delete(Delete(v, q), p).items;
  }

  lemma {:induction false} DeletesCommute(v: Json, p: Path, q: Path)
    ensures Delete(Delete(v, p), q) == Delete(Delete(v, q), p)
    decreases |p|
  {
    if v.JObj? {
      if |p| > 1 && |q| > 1 && p[0] == q[0] && p[0] in v.fields {
        DeletesCommute(v.fields[p[0]], p[1..], q[1..]);
      }
      CommuteInObject(v, p, q);
    } else if v.JArr? {
      var i := Slot(p[0], |v.items|);
      if |p| > 1 && |q| > 1 && i.Some? && i == Slot(q[0], |v.items|) {
        DeletesCommute(v.items[i.value], p[1..], q[1..]);
      }
      CommuteInArray(v, p, q);
    }
  }

  lemma {:induction false} DeleteMovesPast(v: Json, paths: seq<Path>, p: Path)
    ensures Delete(DeleteAll(v, paths), p) == DeleteAll(Delete(v, p), paths)
  {
    if paths != [] {
      var init, last := paths[..|paths| - 1], paths[|paths| - 1];
      DeleteMovesPast(v, init, p);
      DeletesCommute(DeleteAll(v, init), last, p);
    }
  }

  lemma {:induction false} AlreadyDeleted(v: Json, paths: seq<Path>, p: Path)
    requires p in paths
    ensures Delete(DeleteAll(v, paths), p) == DeleteAll(v, paths)
  {
    var init, last := paths[..|paths| - 1], paths[|paths| - 1];
    if p == last {
      DeleteTwice(DeleteAll(v, init), p);
    } else {
      AlreadyDeleted(v, init, p);
      DeletesCommute(DeleteAll(v, init), last, p);
    }
  }

  lemma {:induction false} AllAlreadyDeleted(v: Json, paths: seq<Path>, more: seq<Path>)
    requires forall p :: p in more ==> p in paths
    ensures DeleteAll(DeleteAll(v, paths), more) == DeleteAll(v, paths)
  {
    if more != [] {
      AllAlreadyDeleted(v, paths, more[..|more| - 1]);
      AlreadyDeleted(v, paths, more[|more| - 1]);
    }
  }

  lemma {:induction false} DeletionsCommute(v: Json, paths: seq<Path>, more: seq<Path>)
    ensures DeleteAll(DeleteAll(v, paths), more) == DeleteAll(DeleteAll(v, more), paths)
  {
    if more != [] {
      var init, last := more[..|more| - 1], more[|more| - 1];
      DeletionsCommute(v, paths, init);
      DeleteMovesPast(DeleteAll(v, init), paths, last);
    }
  }

  /** Neither the order of forcePaths nor repetitions in it matter. */
  lemma {:induction false} OrderOfPathsIsIrrelevant(pvc: Json, paths: seq<Path>, paths': seq<Path>, operator: Json)
    requires forall p :: p in paths <==> p in paths'
    ensures Restart(pvc, paths, operator) == Restart(pvc, paths', operator)
  {
    AllAlreadyDeleted(pvc, paths, paths');
    AllAlreadyDeleted(pvc, paths', paths);
    DeletionsCommute(pvc, paths, paths');
  }

  lemma {:induction false} AllAbsorbed(a: Json, b: Json, paths: seq<Path>)
    ensures Merge(DeleteAll(Merge(a, b), paths), b) == Merge(DeleteAll(a, paths), b)
  {
    if paths == [] {
      MergeTwice(a, b);
    } else {
      var init, last := paths[..|paths| - 1], paths[|paths| - 1];
      AllAbsorbed(a, b, init);
      MergeAbsorbs(DeleteAll(Merge(a, b), init), b, last);
      MergeAbsorbs(DeleteAll(a, init), b, last);
    }
  }

  /** Restarting on the result of a restart changes nothing. */
  lemma {:induction false} RestartIsIdempotent(pvc: Json, paths: seq<Path>, operator: Json)
    ensures Restart(Restart(pvc, paths, operator), paths, operator) == Restart(pvc, paths, operator)
  {
    AllAbsorbed(DeleteAll(pvc, paths), operator, paths);
    AllAlreadyDeleted(pvc, paths, paths);
  }

  // ----- arrays -----

  /** Property access as the script does it, through arrays too. */
  function Look(v: Json, p: seq<string>): Option<Json>
    decreases |p|
  {
    if p == [] then Some(v)
    else match v
      case JObj(fields) => if p[0] in fields then Look(fields[p[0]], p[1..]) else None
      case JArr(items) =>
        var i := Slot(p[0], |items|);
        if i.Some? then Look(items[i.value], p[1..]) else None
      case _ => None
  }

  /** The path names an element of an array. */
  predicate Element(v: Json, p: Path)
    decreases |p|
  {
    match v
    case JObj(fields) => |p| > 1 && p[0] in fields && Element(fields[p[0]], p[1..])
    case JArr(items) =>
      var i := Slot(p[0], |items|);
      i.Some? && (|p| == 1 || Element(items[i.value], p[1..]))
    case _ => false
  }

  /** The path names an element of an array that the operator's config does not replace. */
  predicate KeptElement(v: Json, operator: Json, p: Path)
    decreases |p|
  {
    && v.JObj? && operator.JObj? && |p| > 1 && p[0] in v.fields
    && if p[0] in operator.fields then KeptElement(v.fields[p[0]], operator.fields[p[0]], p[1..])
       else Element(v.fields[p[0]], p[1..])
  }

  predicate Cleared(v: Json, p: Path) {
    Look(v, p) == if Element(v, p) then Some(JNull) else None
  }

  lemma LookOne(v: Json, p: Path)
    requires |p| == 1
    ensures Look(v, p) ==
            match v
            case JObj(fields) => if p[0] in fields then Some(fields[p[0]]) else None
            case JArr(items) => if Slot(p[0], |items|).Some? then Some(items[Slot(p[0], |items|).value]) else None
            case _ => None
  {
    assert p[1..] == [];
  }

  lemma {:induction false} DeleteClears(v: Json, p: Path)
    ensures Cleared(Delete(v, p), p)
    decreases |p|
  {
    if |p| > 1 {
      match v
      case JObj(fields) =>
        if p[0] in fields {
          DeleteClears(fields[p[0]], p[1..]);
        }
      case JArr(items) =>
        var i := Slot(p[0], |items|);
        if i.Some? {
          DeleteClears(items[i.value], p[1..]);
        }
      case _ =>
    }
  }

  lemma {:induction false} ClearedStays(v: Json, q: Path, p: Path)
    requires Cleared(v, p)
    ensures Cleared(Delete(v, q), p)
    decreases |p|
  {
    if |p| == 1 {
      LookOne(v, p);
      LookOne(Delete(v, q), p);
      return;
    }
    if |p| > 1 && |q| > 1 {
      match v
      case JObj(fields) =>
        if p[0] in fields && p[0] == q[0] {
          ClearedStays(fields[p[0]], q[1..], p[1..]);
        }
      case JArr(items) =>
        var i := Slot(p[0], |items|);
        if i.Some? && i == Slot(q[0], |items|) {
          ClearedStays(items[i.value], q[1..], p[1..]);
        }
      case _ =>
    }
  }

  lemma {:induction false} AllCleared(v: Json, paths: seq<Path>, p: Path)
    requires p in paths
    ensures Cleared(DeleteAll(v, paths), p)
  {
    var init, last := paths[..|paths| - 1], paths[|paths| - 1];
    if p == last {
      DeleteClears(DeleteAll(v, init), p);
    } else {
      AllCleared(v, init, p);
      ClearedStays(DeleteAll(v, init), last, p);
    }
  }

  lemma {:induction false} MergeOverCleared(v: Json, operator: Json, p: Path)
    requires Cleared(v, p)
    ensures Look(Merge(v, operator), p) == if KeptElement(v, operator, p) then Some(JNull) else Look(operator, p)
    ensures KeptElement(v, operator, p) ==> Look(operator, p).None?
    decreases |p|
  {
    if |p| == 1 {
      LookOne(v, p);
      return;
    }
    if v.JObj? && operator.JObj? && |p| > 1 && p[0] in v.fields && p[0] in operator.fields {
      MergeOverCleared(v.fields[p[0]], operator.fields[p[0]], p[1..]);
    }
  }

  lemma {:induction false} NumberInjective(a: string, b: string)
    requires Canonical(a) && Canonical(b) && Number(a) == Number(b)
    ensures a == b
    decreases |a|
  {
    var x, y := a[..|a| - 1], b[..|b| - 1];
    var c, d := a[|a| - 1], b[|b| - 1];
    assert Number(a) == 10 * Number(x) + (c as int - '0' as int);
    assert Number(b) == 10 * Number(y) + (d as int - '0' as int);
    LastDigits(Number(x), c as int - '0' as int, Number(y), d as int - '0' as int);
    assert c == d && Number(x) == Number(y);
    if x != "" && y != "" {
      assert x[0] == a[0] && y[0] == b[0];
      NumberInjective(x, y);
    } else if x != "" {
      assert x[0] == a[0];
      Positive(x);
    } else if y != "" {
      assert y[0] == b[0];
      Positive(y);
    }
    assert a == x + [c] && b == y + [d];
  }

  lemma LastDigits(m: nat, c: int, n: nat, d: int)
    requires 10 * m + c == 10 * n + d && 0 <= c < 10 && 0 <= d < 10
    ensures m == n && c == d
  {
  }

  lemma {:induction false} Positive(s: string)
    requires s != "" && Digits(s) && s[0] != '0'
    ensures Number(s) > 0
  {
    if |s| > 1 {
      Positive(s[..|s| - 1]);
    } else {
      assert s[..0] == "";
    }
  }

  /** Different property names name different positions. */
  lemma {:induction false} SlotInjective(a: string, b: string, length: nat)
    requires Slot(a, length).Some? && Slot(a, length) == Slot(b, length)
    ensures a == b
  {
    NumberInjective(a, b);
  }

  predicate Above(q: seq<string>, p: seq<string>) {
    Prefix(q, p) && q != p
  }

  lemma AboveTails(q: Path, p: Path)
    ensures Above(q, p) <==> q[0] == p[0] && |p| > 1 && (|q| == 1 || Above(q[1..], p[1..]))
  {
    assert p == [p[0]] + p[1..] && q == [q[0]] + q[1..];
    if |q| == 1 && q[0] == p[0] && |p| > 1 {
      assert p[..1] == q;
    }
    if |q| > 1 && q[0] == p[0] && Above(q[1..], p[1..]) {
      assert p[..|q|] == [p[0]] + p[1..][..|q| - 1];
    }
    if Above(q, p) {
      assert p[..|q|] == q && |q| < |p|;
      assert |q| > 1 ==> p[1..][..|q| - 1] == q[1..];
    }
  }

  /** A deletion takes away the elements below its path and no others. */
  lemma {:induction false} DeleteElements(v: Json, q: Path, p: Path)
    ensures Element(Delete(v, q), p) <==> Element(v, p) && !Above(q, p)
    decreases |p|
  {
    AboveTails(q, p);
    if v.JObj? {
      if q[0] == p[0] && |p| > 1 && |q| > 1 && p[0] in v.fields {
        DeleteElements(v.fields[p[0]], q[1..], p[1..]);
      }
    } else if v.JArr? {
      var i, j := Slot(p[0], |v.items|), Slot(q[0], |v.items|);
      if i.Some? && i == j {
        SlotInjective(p[0], q[0], |v.items|);
        if |p| > 1 && |q| > 1 {
          DeleteElements(v.items[i.value], q[1..], p[1..]);
        }
      }
    }
  }

  lemma {:induction false} DeleteKeptElements(v: Json, operator: Json, q: Path, p: Path)
    ensures KeptElement(Delete(v, q), operator, p) <==> KeptElement(v, operator, p) && !Above(q, p)
    decreases |p|
  {
    AboveTails(q, p);
    if v.JObj? && operator.JObj? && |p| > 1 && |q| > 1 && p[0] in v.fields && q[0] == p[0] {
      if p[0] in operator.fields {
        DeleteKeptElements(v.fields[p[0]], operator.fields[p[0]], q[1..], p[1..]);
      } else {
        DeleteElements(v.fields[p[0]], q[1..], p[1..]);
      }
    }
  }

  lemma {:induction false} AllKeptElements(v: Json, operator: Json, paths: seq<Path>, p: Path)
    ensures KeptElement(DeleteAll(v, paths), operator, p) <==>
      KeptElement(v, operator, p) && forall q :: q in paths ==> !Above(q, p)
  {
    if paths != [] {
      var init, last := paths[..|paths| - 1], paths[|paths| - 1];
      AllKeptElements(v, operator, init, p);
      DeleteKeptElements(DeleteAll(v, init), operator, last, p);
      assert paths == init + [last];
    }
  }

  /** Seen through arrays, a forced path is exact unless it names an element of an array on the volume
      that neither the operator's config replaces nor a shorter forced path takes away: such an element
      is not removed but becomes null. */
  lemma {:induction false} ForcedPathsThroughArrays(pvc: Json, paths: seq<Path>, operator: Json, p: Path)
    requires p in paths
    ensures var exact := !KeptElement(pvc, operator, p) || exists q :: q in paths && Above(q, p);
            Look(Restart(pvc, paths, operator), p) == if exact then Look(operator, p) else Some(JNull)
    ensures Look(Restart(pvc, paths, operator), p) == Look(operator, p) <==>
      !KeptElement(pvc, operator, p) || exists q :: q in paths && Above(q, p)
  {
    AllCleared(pvc, paths, p);
    MergeOverCleared(DeleteAll(pvc, paths), operator, p);
    AllKeptElements(pvc, operator, paths, p);
  }

  /** Such an element. */
  lemma ForcedElementBecomesNull()
    ensures var pvc := JObj(map["list" := JArr([JBool(true)])]);
            Restart(pvc, [["list", "0"]], EMPTY) == JObj(map["list" := JArr([JNull])])
  {
    var pvc := JObj(map["list" := JArr([JBool(true)])]);
    assert Number("0"[..0]) == 0;
    assert Slot("0", 1) == Some(0);
    assert Delete(JArr([JBool(true)]), ["0"]) == JArr([JNull]);
    assert ["list", "0"][1..] == ["0"];
    var paths: seq<Path> := [["list", "0"]];
    assert paths[..0] == [];
    assert DeleteAll(pvc, paths) == Delete(pvc, ["list", "0"]) == JObj(map["list" := JArr([JNull])]);
  }

  // ----- the loops -----

  /** What a merge leaves at one key of `src`. */
  function MergedField(dst: map<string, Json>, src: map<string, Json>, k: string): Json
    requires k in src
  {
    if k in dst then Merge(dst[k], src[k]) else src[k]
  }

  lemma {:induction false} MergeByFields(dst: Json, src: Json, fields: map<string, Json>)
    requires dst.JObj? && src.JObj? && fields.Keys == dst.fields.Keys + src.fields.Keys
    requires forall k :: k in dst.fields && k !in src.fields ==> fields[k] == dst.fields[k]
    requires forall k :: k in src.fields ==> fields[k] == MergedField(dst.fields, src.fields, k)
    ensures JObj(fields) == Merge(dst, src)
  {
    assert fields == Merge(dst, src).fields;
  }

  /** deepMerge, visiting the keys in any order. */
  method DeepMerge(dst: Json, src: Json) returns (result: Json)
    requires dst.JObj? && src.JObj?
    ensures result == Merge(dst, src)
    decreases src
  {
    var fields := dst.fields;
    var todo := src.fields.Keys;
    while todo != {}
      invariant todo <= src.fields.Keys
      invariant fields.Keys == dst.fields.Keys + (src.fields.Keys - todo)
      invariant forall k :: k in dst.fields && (k !in src.fields || k in todo) ==> fields[k] == dst.fields[k]
      invariant forall k :: k in src.fields && k !in todo ==> fields[k] == MergedField(dst.fields, src.fields, k)
      decreases todo
    {
      var k :| k in todo;
      var value := src.fields[k];
      if value.JObj? && k in fields && fields[k].JObj? {
        value := DeepMerge(fields[k], value);
      }
      fields := fields[k := value];
      todo := todo - {k};
    }
    MergeByFields(dst, src, fields);
    result := JObj(fields);
  }
}
