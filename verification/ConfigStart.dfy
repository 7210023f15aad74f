/** The config on the data volume through pod and container starts: the init container's script and the
    postStart hook (internal/resources/statefulset.go), for whatever document the volume holds. */
module ConfigStart {
  import opened Wrappers
  import opened ConfigMerge

  // ----- documents whose root is no object -----

  function Decimal(n: nat): (s: string)
    ensures Canonical(s) && Number(s) == n
  {
    if n < 10 then
      var s := [('0' as int + n) as char];
      assert s[..0] == "";
      s
    else
      var init, last := Decimal(n / 10), ('0' as int + n % 10) as char;
      assert (init + [last])[..|init|] == init;
      assert init != "0" by {
        assert "0"[..0] == "";
      }
      init + [last]
  }

  /** The own properties of an array. */
  function Indexed(items: seq<Json>): map<string, Json> {
    if items == [] then map[] else Indexed(items[..|items| - 1])[Decimal(|items| - 1) := items[|items| - 1]]
  }

  lemma {:induction false} IndexedAt(items: seq<Json>, k: string)
    ensures k in Indexed(items) <==> Slot(k, |items|).Some?
    ensures k in Indexed(items) ==> Indexed(items)[k] == items[Slot(k, |items|).value]
  {
    if items != [] {
      var n := |items| - 1;
      IndexedAt(items[..n], k);
      if Canonical(k) && Number(k) == n {
        NumberInjective(k, Decimal(n));
      }
    }
  }

  function Letters(s: string): seq<Json> {
    seq(|s|, i requires 0 <= i < |s| => JStr([s[i]]))
  }

  /** {...v}: an array or a string contributes its elements by index, other values nothing. */
  function Spread(v: Json): (o: Json)
    ensures o.JObj? && (v.JObj? ==> o == v)
  {
    match v
    case JObj(_) => v
    case JArr(items) => JObj(Indexed(items))
    case JStr(text) => JObj(Indexed(Letters(text)))
    case _ => EMPTY
  }

  // ----- the two scripts -----

  /** The document the merge writes, or None if the script fails: a path cannot be deleted from null. From
      a string nothing can be deleted; an array element that is deleted leaves a hole, which does not
      count as a property. */
  function Merged(base: Json, paths: seq<Path>, operator: Json): Option<Json> {
    if base.JNull? && paths != [] then None
    else if base.JStr? then Some(Merge(Spread(base), Spread(operator)))
    else Some(Restart(Spread(base), paths, Spread(operator)))
  }

  /** A missing file counts as an empty object, and a script that fails leaves the file as it is. */
  function StartMerge(file: Option<Json>, paths: seq<Path>, operator: Json): Option<Json> {
    var result := Merged(if file.Some? then file.value else EMPTY, paths, operator);
    if result.Some? then result else file
  }

  /** How the config reaches the volume: merge mode Merge, else JSON5 conversion, else a plain copy. */
  datatype Mode = Merging | Converting | Copying

  /** The init container. */
  function InitConfig(mode: Mode, file: Option<Json>, paths: seq<Path>, operator: Json): Option<Json> {
    match mode
    case Merging => StartMerge(file, paths, operator)
    case Converting => Some(operator)
    case Copying => Some(operator)
  }

  /** The postStart hook, which is left out for JSON5. */
  function PostStartConfig(mode: Mode, file: Option<Json>, paths: seq<Path>, operator: Json): Option<Json> {
    match mode
    case Merging => StartMerge(file, paths, operator)
    case Converting => file
    case Copying => Some(operator)
  }

  datatype Start = PodStart | ContainerStart

  function Starts(mode: Mode, file: Option<Json>, paths: seq<Path>, operator: Json, starts: seq<Start>): Option<Json> {
    if starts == [] then file
    else
      var before := Starts(mode, file, paths, operator, starts[..|starts| - 1]);
      if starts[|starts| - 1].PodStart? then
        PostStartConfig(mode, InitConfig(mode, before, paths, operator), paths, operator)
      else PostStartConfig(mode, before, paths, operator)
  }

  /** What a start leaves on the volume: the operator's config, where it is copied or converted; merged over
      the volume's object, array or nothing without its forced paths; and null itself where there are any. */
  lemma {:induction false} StartIsExact(mode: Mode, file: Option<Json>, paths: seq<Path>, operator: Json)
    requires operator.JObj?
    ensures var init := InitConfig(mode, file, paths, operator);
            && (!mode.Merging? ==> init == Some(operator))
            && (mode.Merging? && file.None? ==> init == Some(Merge(DeleteAll(EMPTY, paths), operator)))
            && (mode.Merging? && file.Some? && file.value.JObj? ==> init == Some(Merge(DeleteAll(file.value, paths), operator)))
            && (mode.Merging? && file.Some? && file.value.JNull? ==> init == if paths == [] then Some(Merge(EMPTY, operator)) else file)
            && (mode.Merging? && file.Some? && (file.value.JBool? || file.value.JNum?) ==> init == Some(Merge(DeleteAll(EMPTY, paths), operator)))
  {
  }

  /** On the volume, too, a forced path holds what the operator's config holds there. */
  lemma {:induction false} ForcedOnVolume(file: Option<Json>, paths: seq<Path>, operator: Json, p: Path)
    requires operator.JObj? && p in paths && (file.Some? ==> !file.value.JNull? && !file.value.JStr?)
    ensures var after := InitConfig(Merging, file, paths, operator);
            after.Some? && Get(after.value, p) == Get(operator, p)
  {
    ForcedPathsAreExact(Spread(if file.Some? then file.value else EMPTY), paths, operator, p);
  }

  // ----- stability -----

  /** A letter of the string on the volume that is forced away, and not replaced. */
  predicate LetterLost(text: string, operator: Json, p: Path) {
    |p| == 1 && Slot(p[0], |text|).Some? && p[0] !in Spread(operator).fields
  }

  /** Deleting paths from an object of strings takes away the keys that are named alone. */
  lemma {:induction false} DeleteLetters(text: string, paths: seq<Path>, k: string)
    ensures var o := DeleteAll(Spread(JStr(text)), paths);
            && o.JObj? && (k in o.fields <==> Slot(k, |text|).Some? && [k] !in paths)
            && (k in o.fields ==> k in Spread(JStr(text)).fields && o.fields[k].JStr? && o.fields[k] == Spread(JStr(text)).fields[k])
  {
    IndexedAt(Letters(text), k);
    if paths != [] {
      var init, last := paths[..|paths| - 1], paths[|paths| - 1];
      DeleteLetters(text, init, k);
      DeleteLetters(text, init, last[0]);
      assert paths == init + [last];
      if |last| == 1 {
        assert last == [last[0]];
      }
    }
  }

  /** Merging twice over a string is merging once exactly if no forced letter is lost. */
  lemma {:induction false} LettersSettle(text: string, paths: seq<Path>, operator: Json)
    ensures var letters, o := Spread(JStr(text)), Spread(operator);
            Restart(Merge(letters, o), paths, o) == Merge(letters, o) <==>
              forall p :: p in paths ==> !LetterLost(text, operator, p)
  {
    var letters, o := Spread(JStr(text)), Spread(operator);
    AllAbsorbed(letters, o, paths);
    var once, twice := Merge(letters, o), Merge(DeleteAll(letters, paths), o);
    DeleteAllKeepsObjects(letters, paths);
    forall k ensures k in twice.fields ==> k in once.fields && twice.fields[k] == once.fields[k]
             ensures k in once.fields && k !in twice.fields <==> [k] in paths && LetterLost(text, operator, [k])
    {
      DeleteLetters(text, paths, k);
      IndexedAt(Letters(text), k);
    }
    if forall p :: p in paths ==> !LetterLost(text, operator, p) {
      assert once.fields == twice.fields;
    } else {
      var p :| p in paths && LetterLost(text, operator, p);
      assert p == [p[0]];
      assert p[0] in once.fields && p[0] !in twice.fields;
    }
  }

  predicate Stable(file: Option<Json>, paths: seq<Path>, operator: Json) {
    file.Some? && file.value.JStr? ==>
      forall p :: p in paths ==> !LetterLost(file.value.text, operator, p)
  }

  /** A start on the result of a start changes nothing, except where the volume held a bare string and a
      forced path names one of its letters. */
  lemma {:induction false} StartTwice(file: Option<Json>, paths: seq<Path>, operator: Json)
    ensures var once := StartMerge(file, paths, operator);
            && (StartMerge(once, paths, operator) == once <==> Stable(file, paths, operator))
            && var twice := StartMerge(once, paths, operator);
            && StartMerge(twice, paths, operator) == twice
  {
    var base, o := if file.Some? then file.value else EMPTY, Spread(operator);
    if base.JStr? {
      LettersSettle(base.text, paths, operator);
      var once := Merge(Spread(base), o);
      RestartIsIdempotent(once, paths, o);
    } else if !(base.JNull? && paths != []) {
      RestartIsIdempotent(Spread(base), paths, o);
      DeleteAllKeepsObjects(Spread(base), paths);
    }
  }

  /** The init container followed by the hook is either one alone, for every document but such a string. */
  lemma {:induction false} HookRepeatsInit(mode: Mode, file: Option<Json>, paths: seq<Path>, operator: Json)
    ensures var init := InitConfig(mode, file, paths, operator);
            && (!mode.Converting? ==> PostStartConfig(mode, file, paths, operator) == init)
            && (PostStartConfig(mode, init, paths, operator) == init <==>
                  (mode.Merging? ==> Stable(file, paths, operator)))
  {
    StartTwice(file, paths, operator);
  }

  /** However often the pod and its container restart, the config is that of the first pod start. */
  lemma {:induction false} ConfigSettles(mode: Mode, file: Option<Json>, paths: seq<Path>, operator: Json, starts: seq<Start>)
    requires starts != [] && starts[0].PodStart?
    ensures Starts(mode, file, paths, operator, starts) ==
            PostStartConfig(mode, InitConfig(mode, file, paths, operator), paths, operator)
  {
    StartTwice(file, paths, operator);
    var before := starts[..|starts| - 1];
    if |starts| == 1 {
      assert before == [];
    } else {
      ConfigSettles(mode, file, paths, operator, before);
    }
  }

  // ----- the script -----

  /** The merge script: delete every forced path, then merge. */
  method MergeScript(file: Option<Json>, forcePaths: seq<string>, operator: Json) returns (result: Option<Json>)
    ensures result == StartMerge(file, seq(|forcePaths|, i requires 0 <= i < |forcePaths| => Split(forcePaths[i])), operator)
  {
    var base := if file.Some? then file.value else EMPTY;
    if base.JNull? && forcePaths != [] {
      return file;
    }
    var tree := Spread(base);
    if !base.JStr? {
      tree := DeletePaths(tree, forcePaths);
    }
    var merged := DeepMerge(tree, Spread(operator));
    result := Some(merged);
  }

  method DeletePaths(base: Json, forcePaths: seq<string>) returns (result: Json)
    requires base.JObj?
    ensures result == DeleteAll(base, seq(|forcePaths|, i requires 0 <= i < |forcePaths| => Split(forcePaths[i])))
    ensures result.JObj?
  {
    result := base;
    ghost var paths := seq(|forcePaths|, i requires 0 <= i < |forcePaths| => Split(forcePaths[i]));
    for n := 0 to |forcePaths|
      invariant result.JObj? && result == DeleteAll(base, paths[..n])
    {
      result := Delete(result, Split(forcePaths[n]));
      assert paths[..n + 1][..n] == paths[..n];
    }
    assert paths[..|forcePaths|] == paths;
  }
}
