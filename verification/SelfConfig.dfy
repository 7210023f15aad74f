/** Self-configuration requests (internal/controller/selfconfig_apply.go). */
module SelfConfig {
  import opened Wrappers
  import opened ConfigMerge

  datatype Action = Skills | Config | WorkspaceFiles | EnvVars

  datatype EnvVar = EnvVar(name: string, value: string, valueFrom: Option<string>)

  datatype Assignment = Assignment(name: string, value: string)

  datatype Request = Request(
    addSkills: seq<string>, removeSkills: seq<string>, patch: Option<Json>,
    addFiles: map<string, string>, removeFiles: seq<string>,
    addEnv: seq<Assignment>, removeEnv: seq<string>)

  /** The fields of the instance a request may change; an absent config is empty. */
  datatype Target = Target(skills: seq<string>, config: Option<Json>, files: map<string, string>, env: seq<EnvVar>)

  datatype Result<T> = Ok(value: T) | Rejected

  const PROTECTED_ENV := {
    "HOME", "OPENCLAW_DISABLE_BONJOUR", "OPENCLAW_GATEWAY_TOKEN", "OPENCLAW_INSTANCE_NAME", "OPENCLAW_NAMESPACE",
    "PATH", "CHROMIUM_URL", "OLLAMA_HOST", "TS_AUTHKEY", "TS_HOSTNAME", "TS_SOCKET", "NODE_EXTRA_CA_CERTS",
    "NPM_CONFIG_CACHE", "NPM_CONFIG_IGNORE_SCRIPTS" }

  // ----- skills -----

  /** `list` followed by the skills, each if it is neither removed nor there already. */
  function Collect(list: seq<string>, skills: seq<string>, gone: seq<string>): seq<string>
    decreases |skills|
  {
    if skills == [] then list
    else Collect(if skills[0] in gone || skills[0] in list then list else list + [skills[0]], skills[1..], gone)
  }

  function SkillsAfter(current: seq<string>, r: Request): seq<string> {
    Collect([], current + r.addSkills, r.removeSkills)
  }

  predicate NoDuplicates(s: seq<string>) {
    forall i, j :: 0 <= i < j < |s| ==> s[i] != s[j]
  }

  lemma {:induction false} CollectIsExact(list: seq<string>, skills: seq<string>, gone: seq<string>)
    requires NoDuplicates(list)
    ensures NoDuplicates(Collect(list, skills, gone))
    ensures forall x :: x in Collect(list, skills, gone) <==> x in list || (x in skills && x !in gone)
    decreases |skills|
  {
    if skills != [] {
      var x := skills[0];
      CollectIsExact(if x in gone || x in list then list else list + [x], skills[1..], gone);
      assert skills == [x] + skills[1..];
    }
  }

  /** As a set the skills become (current plus adds) minus removes, and no skill is listed twice. */
  lemma {:induction false} SkillsAreExact(current: seq<string>, r: Request)
    ensures NoDuplicates(SkillsAfter(current, r))
    ensures forall x :: x in SkillsAfter(current, r) <==> (x in current || x in r.addSkills) && x !in r.removeSkills
  {
    CollectIsExact([], current + r.addSkills, r.removeSkills);
  }

  lemma {:induction false} CollectConcat(list: seq<string>, a: seq<string>, b: seq<string>, gone: seq<string>)
    ensures Collect(list, a + b, gone) == Collect(Collect(list, a, gone), b, gone)
    decreases |a|
  {
    if a == [] {
      assert a + b == b;
    } else {
      assert (a + b)[0] == a[0] && (a + b)[1..] == a[1..] + b;
      CollectConcat(if a[0] in gone || a[0] in list then list else list + [a[0]], a[1..], b, gone);
    }
  }

  lemma {:induction false} CollectNew(list: seq<string>, skills: seq<string>, gone: seq<string>)
    requires NoDuplicates(list + skills) && forall x :: x in skills ==> x !in gone
    ensures Collect(list, skills, gone) == list + skills
    decreases |skills|
  {
    if skills == [] {
      assert list + skills == list;
    } else {
      var x := skills[0];
      assert list + [x] + skills[1..] == list + skills;
      assert (list + skills)[|list|] == x;
      assert forall i :: 0 <= i < |list| ==> (list + skills)[i] == list[i];
      CollectNew(list + [x], skills[1..], gone);
    }
  }

  lemma {:induction false} CollectOld(list: seq<string>, skills: seq<string>, gone: seq<string>)
    requires forall x :: x in skills ==> x in gone || x in list
    ensures Collect(list, skills, gone) == list
    decreases |skills|
  {
    if skills != [] {
      CollectOld(list, skills[1..], gone);
    }
  }

  /** Repeating a request does not change the list. */
  lemma {:induction false} SkillsAreStable(current: seq<string>, r: Request)
    ensures SkillsAfter(SkillsAfter(current, r), r) == SkillsAfter(current, r)
  {
    var once := SkillsAfter(current, r);
    SkillsAreExact(current, r);
    CollectConcat([], once, r.addSkills, r.removeSkills);
    assert [] + once == once;
    CollectNew([], once, r.removeSkills);
    CollectOld(once, r.addSkills, r.removeSkills);
  }

  /** Where a name is listed first. */
  function First(names: seq<string>, x: string): (n: nat)
    ensures n <= |names| && (n < |names| ==> names[n] == x)
    ensures forall j :: 0 <= j < n ==> names[j] != x
  {
    if names == [] || names[0] == x then 0 else 1 + First(names[1..], x)
  }

  predicate InOrderOf(list: seq<string>, names: seq<string>) {
    forall i, j :: 0 <= i < j < |list| ==> First(names, list[i]) < First(names, list[j])
  }

  lemma {:induction false} CollectKeepsOrder(all: seq<string>, n: nat, list: seq<string>, gone: seq<string>)
    requires n <= |all| && InOrderOf(list, all)
    requires forall x :: x in list ==> First(all, x) < n
    requires forall m :: 0 <= m < n ==> all[m] in gone || all[m] in list
    ensures InOrderOf(Collect(list, all[n..], gone), all)
    decreases |all| - n
  {
    if n < |all| {
      var x := all[n];
      assert all[n..][0] == x && all[n..][1..] == all[n + 1..];
      if x in gone || x in list {
        CollectKeepsOrder(all, n + 1, list, gone);
      } else {
        assert First(all, x) == n;
        CollectKeepsOrder(all, n + 1, list + [x], gone);
      }
    }
  }

  /** The skills stand in the order in which they are first listed, the current ones before the added ones. */
  lemma {:induction false} SkillsKeepTheirOrder(current: seq<string>, r: Request)
    ensures InOrderOf(SkillsAfter(current, r), current + r.addSkills)
  {
    var all := current + r.addSkills;
    assert all[0..] == all;
    CollectKeepsOrder(all, 0, [], r.removeSkills);
  }

  /** Either loop; the list itself serves as the set of skills seen. */
  method AppendSkills(list: seq<string>, skills: seq<string>, removed: seq<string>) returns (result: seq<string>)
    ensures result == Collect(list, skills, removed)
  {
    result := list;
    for n := 0 to |skills|
      invariant Collect(result, skills[n..], removed) == Collect(list, skills, removed)
    {
      assert skills[n..][1..] == skills[n + 1..];
      if skills[n] !in removed && skills[n] !in result {
        result := result + [skills[n]];
      }
    }
  }

  method BuildSkillsApply(current: seq<string>, r: Request) returns (result: seq<string>)
    ensures result == SkillsAfter(current, r)
  {
    result := AppendSkills([], current, r.removeSkills);
    result := AppendSkills(result, r.addSkills, r.removeSkills);
    CollectConcat([], current, r.addSkills, r.removeSkills);
  }

  // ----- workspace files -----

  function FilesAfter(current: map<string, string>, r: Request): map<string, string> {
    (current - (set f | f in r.removeFiles)) + r.addFiles
  }

  lemma FilesAreStable(current: map<string, string>, r: Request)
    ensures FilesAfter(FilesAfter(current, r), r) == FilesAfter(current, r)
  {
  }

  method BuildWorkspaceFilesApply(current: map<string, string>, r: Request) returns (result: map<string, string>)
    ensures result == FilesAfter(current, r)
  {
    var removed := set f | f in r.removeFiles;
    result := map[];
    var todo := current.Keys;
    while todo != {}
      invariant todo <= current.Keys
      invariant result == current - removed - todo
      decreases todo
    {
      var name :| name in todo;
      if name !in removed {
        result := result[name := current[name]];
      }
      todo := todo - {name};
    }
    ghost var kept := result;
    todo := r.addFiles.Keys;
    while todo != {}
      invariant todo <= r.addFiles.Keys
      invariant result == kept + (r.addFiles - todo)
      decreases todo
    {
      var name :| name in todo;
      result := result[name := r.addFiles[name]];
      todo := todo - {name};
    }
  }

  // ----- environment -----

  predicate EnvAccepted(r: Request) {
    && (forall i :: 0 <= i < |r.addEnv| ==> r.addEnv[i].name !in PROTECTED_ENV)
    && (forall name :: name in r.removeEnv ==> name !in PROTECTED_ENV)
  }

  /** The environment as a map: the last entry of a name counts. */
  function EnvMap(env: seq<EnvVar>): map<string, EnvVar> {
    if env == [] then map[] else EnvMap(env[..|env| - 1])[env[|env| - 1].name := env[|env| - 1]]
  }

  /** addByName */
  function LastAdds(adds: seq<Assignment>): map<string, string> {
    if adds == [] then map[] else LastAdds(adds[..|adds| - 1])[adds[|adds| - 1].name := adds[|adds| - 1].value]
  }

  function Plain(name: string, value: string): EnvVar {
    EnvVar(name, value, None)
  }

  /** Entries that stay, with the values a request assigns to them. */
  function Updated(env: seq<EnvVar>, r: Request): seq<EnvVar> {
    if env == [] then []
    else
      var rest, e := Updated(env[..|env| - 1], r), env[|env| - 1];
      if e.name in r.removeEnv then rest
      else if e.name in LastAdds(r.addEnv) then rest + [Plain(e.name, LastAdds(r.addEnv)[e.name])]
      else rest + [e]
  }

  /** Assignments to names that are not there yet, each name once. */
  function Appended(env: seq<EnvVar>, adds: seq<Assignment>): seq<EnvVar> {
    if adds == [] then env
    else
      var rest, a := Appended(env, adds[..|adds| - 1]), adds[|adds| - 1];
      if a.name in EnvMap(rest) then rest else rest + [Plain(a.name, a.value)]
  }

  function EnvAfter(current: seq<EnvVar>, r: Request): seq<EnvVar> {
    Appended(Updated(current, r), r.addEnv)
  }

  function FirstAdds(adds: seq<Assignment>): map<string, string> {
    if adds == [] then map[]
    else
      var rest, a := FirstAdds(adds[..|adds| - 1]), adds[|adds| - 1];
      if a.name in rest then rest else rest[a.name := a.value]
  }

  lemma {:induction false} SameNames(adds: seq<Assignment>)
    ensures FirstAdds(adds).Keys == LastAdds(adds).Keys
  {
    if adds != [] {
      SameNames(adds[..|adds| - 1]);
    }
  }

  lemma EnvMapLast(env: seq<EnvVar>, e: EnvVar)
    ensures EnvMap(env + [e]) == EnvMap(env)[e.name := e]
  {
    assert (env + [e])[..|env|] == env;
  }

  /** `m` is `before` without the removed names and with the assigned values. */
  predicate Revised(before: map<string, EnvVar>, r: Request, m: map<string, EnvVar>) {
    && m.Keys == before.Keys - (set x | x in r.removeEnv)
    && (forall x :: x in m ==> m[x] == Revision(r, before[x]))
    && (forall x :: x in before ==> before[x].name == x)
  }

  function Revision(r: Request, e: EnvVar): EnvVar {
    if e.name in LastAdds(r.addEnv) then Plain(e.name, LastAdds(r.addEnv)[e.name]) else e
  }

  lemma RevisedMore(before: map<string, EnvVar>, r: Request, m: map<string, EnvVar>, e: EnvVar)
    requires Revised(before, r, m)
    ensures Revised(before[e.name := e], r, if e.name in r.removeEnv then m else m[e.name := Revision(r, e)])
  {
  }

  lemma {:induction false} UpdatedMap(env: seq<EnvVar>, r: Request)
    ensures Revised(EnvMap(env), r, EnvMap(Updated(env, r)))
  {
    if env != [] {
      var init, e := env[..|env| - 1], env[|env| - 1];
      UpdatedMap(init, r);
      RevisedMore(EnvMap(init), r, EnvMap(Updated(init, r)), e);
      EnvMapLast(Updated(init, r), Revision(r, e));
    }
  }

  lemma {:induction false} AppendedMap(env: seq<EnvVar>, adds: seq<Assignment>)
    ensures var m := EnvMap(Appended(env, adds));
            && m.Keys == EnvMap(env).Keys + FirstAdds(adds).Keys
            && (forall x :: x in m ==>
                  m[x] == if x in EnvMap(env) then EnvMap(env)[x] else Plain(x, FirstAdds(adds)[x]))
  {
    if adds != [] {
      var init, a := adds[..|adds| - 1], adds[|adds| - 1];
      AppendedMap(env, init);
      var rest := Appended(env, init);
      assert (rest + [Plain(a.name, a.value)])[..|rest|] == rest;
    }
  }

  /** (current minus removes) plus adds, the last assignment of a name counting. */
  function EnvExpected(current: seq<EnvVar>, r: Request): map<string, EnvVar> {
    var adds := LastAdds(r.addEnv);
    (EnvMap(current) - (set x | x in r.removeEnv)) + map x | x in adds :: Plain(x, adds[x])
  }

  /** A name that is assigned twice, with different values, is one the environment keeps. */
  predicate Unambiguous(current: seq<EnvVar>, r: Request) {
    forall x :: x in LastAdds(r.addEnv) && (x !in EnvMap(current) || x in r.removeEnv) ==>
      x in FirstAdds(r.addEnv) && FirstAdds(r.addEnv)[x] == LastAdds(r.addEnv)[x]
  }

  function Names(env: seq<EnvVar>): seq<string> {
    seq(|env|, i requires 0 <= i < |env| => env[i].name)
  }

  function AddedNamesOf(adds: seq<Assignment>): seq<string> {
    seq(|adds|, i requires 0 <= i < |adds| => adds[i].name)
  }

  /** A list without the elements of another. */
  function Without(names: seq<string>, gone: seq<string>): seq<string> {
    if names == [] then []
    else
      var rest, x := Without(names[..|names| - 1], gone), names[|names| - 1];
      if x in gone then rest else rest + [x]
  }

  lemma {:induction false} UpdatedNames(env: seq<EnvVar>, r: Request)
    ensures Names(Updated(env, r)) == Without(Names(env), r.removeEnv)
  {
    if env != [] {
      var init, e := env[..|env| - 1], env[|env| - 1];
      UpdatedNames(init, r);
      assert Names(env)[..|env| - 1] == Names(init);
      assert Names(Updated(init, r) + [Revision(r, e)]) == Names(Updated(init, r)) + [e.name];
    }
  }

  lemma {:induction false} NamesMapped(env: seq<EnvVar>, x: string)
    ensures x in EnvMap(env) <==> x in Names(env)
  {
    if env != [] {
      NamesMapped(env[..|env| - 1], x);
      assert Names(env) == Names(env[..|env| - 1]) + [env[|env| - 1].name];
    }
  }

  lemma {:induction false} AppendedNames(env: seq<EnvVar>, adds: seq<Assignment>)
    ensures Names(Appended(env, adds)) == Collect(Names(env), AddedNamesOf(adds), [])
  {
    if adds != [] {
      var init, a := adds[..|adds| - 1], adds[|adds| - 1];
      AppendedNames(env, init);
      var rest := Appended(env, init);
      assert AddedNamesOf(adds) == AddedNamesOf(init) + [a.name];
      CollectConcat(Names(env), AddedNamesOf(init), [a.name], []);
      NamesMapped(rest, a.name);
      assert Names(rest + [Plain(a.name, a.value)]) == Names(rest) + [a.name];
    }
  }

  /** The variables that stay keep their order, and new names follow in the order in which they are first
      assigned. */
  lemma {:induction false} EnvKeepsItsOrder(current: seq<EnvVar>, r: Request)
    ensures Names(EnvAfter(current, r)) == Collect(Without(Names(current), r.removeEnv), AddedNamesOf(r.addEnv), [])
  {
    UpdatedNames(current, r);
    AppendedNames(Updated(current, r), r.addEnv);
  }

  /** What a request makes of one name. */
  lemma {:induction false} EnvAt(current: seq<EnvVar>, r: Request, x: string)
    ensures var m, kept := EnvMap(EnvAfter(current, r)), x in EnvMap(current) && x !in r.removeEnv;
            && (x in m <==> kept || x in LastAdds(r.addEnv))
            && (x in LastAdds(r.addEnv) ==> x in FirstAdds(r.addEnv))
            && (x in m ==> m[x] == if kept then Revision(r, EnvMap(current)[x]) else Plain(x, FirstAdds(r.addEnv)[x]))
            && (kept ==> EnvMap(current)[x].name == x)
  {
    UpdatedMap(current, r);
    AppendedMap(Updated(current, r), r.addEnv);
    SameNames(r.addEnv);
  }

  /** The environment becomes (current minus removes) plus adds exactly for unambiguous requests. */
  lemma {:induction false} EnvIsExact(current: seq<EnvVar>, r: Request)
    ensures EnvMap(EnvAfter(current, r)) == EnvExpected(current, r) <==> Unambiguous(current, r)
  {
    var out, want := EnvMap(EnvAfter(current, r)), EnvExpected(current, r);
    forall x ensures x in out <==> x in want {
      EnvAt(current, r, x);
    }
    if Unambiguous(current, r) {
      forall x | x in out ensures out[x] == want[x] {
        EnvAt(current, r, x);
      }
      assert out == want;
    } else {
      var x :| x in LastAdds(r.addEnv) && (x !in EnvMap(current) || x in r.removeEnv)
               && !(x in FirstAdds(r.addEnv) && FirstAdds(r.addEnv)[x] == LastAdds(r.addEnv)[x]);
      EnvAt(current, r, x);
      assert out[x] != want[x];
    }
  }

  predicate DistinctNames(adds: seq<Assignment>) {
    forall i, j :: 0 <= i < j < |adds| ==> adds[i].name != adds[j].name
  }

  lemma {:induction false} AddedNames(adds: seq<Assignment>, x: string)
    ensures x in FirstAdds(adds) <==> exists i :: 0 <= i < |adds| && adds[i].name == x
  {
    if adds != [] {
      var init := adds[..|adds| - 1];
      AddedNames(init, x);
      if x in FirstAdds(init) {
        var i :| 0 <= i < |init| && init[i].name == x;
        assert adds[i].name == x;
      } else if exists i :: 0 <= i < |adds| && adds[i].name == x {
        var i :| 0 <= i < |adds| && adds[i].name == x;
        assert i < |init| ==> init[i].name == x;
      }
    }
  }

  lemma {:induction false} DistinctIsUnambiguous(current: seq<EnvVar>, r: Request)
    requires DistinctNames(r.addEnv)
    ensures FirstAdds(r.addEnv) == LastAdds(r.addEnv) && Unambiguous(current, r)
    decreases |r.addEnv|
  {
    if r.addEnv != [] {
      var init, a := r.addEnv[..|r.addEnv| - 1], r.addEnv[|r.addEnv| - 1];
      DistinctIsUnambiguous(current, r.(addEnv := init));
      AddedNames(init, a.name);
    }
  }

  /** A name that is assigned two values is one the environment had, or is removed as well. */
  predicate Repeatable(current: seq<EnvVar>, r: Request) {
    forall x :: x in LastAdds(r.addEnv) && x !in EnvMap(current) && x !in r.removeEnv ==>
      x in FirstAdds(r.addEnv) && FirstAdds(r.addEnv)[x] == LastAdds(r.addEnv)[x]
  }

  /** Repeating a request leaves the environment as it is exactly if it is repeatable. */
  lemma {:induction false} EnvIsStable(current: seq<EnvVar>, r: Request)
    ensures EnvMap(EnvAfter(EnvAfter(current, r), r)) == EnvMap(EnvAfter(current, r)) <==> Repeatable(current, r)
  {
    var once := EnvAfter(current, r);
    var m, n := EnvMap(once), EnvMap(EnvAfter(once, r));
    forall x ensures x in n <==> x in m {
      EnvAt(current, r, x);
      EnvAt(once, r, x);
    }
    if Repeatable(current, r) {
      forall x | x in m ensures n[x] == m[x] {
        EnvAt(current, r, x);
        EnvAt(once, r, x);
      }
      assert n == m;
    } else {
      var x :| x in LastAdds(r.addEnv) && x !in EnvMap(current) && x !in r.removeEnv
               && !(x in FirstAdds(r.addEnv) && FirstAdds(r.addEnv)[x] == LastAdds(r.addEnv)[x]);
      EnvAt(current, r, x);
      EnvAt(once, r, x);
      assert n[x] != m[x];
    }
  }

  /** Two values for a new name: the first is taken, and the next time the second. */
  lemma RepeatedNameFlips()
    ensures var r := Request([], [], None, map[], [], [Assignment("A", "1"), Assignment("A", "2")], []);
            && EnvMap(EnvAfter([], r)) == map["A" := Plain("A", "1")]
            && EnvMap(EnvAfter(EnvAfter([], r), r)) == map["A" := Plain("A", "2")]
  {
    var one, two := Assignment("A", "1"), Assignment("A", "2");
    var r := Request([], [], None, map[], [], [one, two], []);
    assert [one, two][..1] == [one] && [one][..0] == [];
    assert LastAdds([one]) == map["A" := "1"];
    assert LastAdds(r.addEnv) == map["A" := "2"] && FirstAdds([one]) == map["A" := "1"];
    assert FirstAdds(r.addEnv) == map["A" := "1"];
    UpdatedMap([], r);
    AppendedMap([], r.addEnv);
    assert EnvMap(EnvAfter([], r)) == map["A" := Plain("A", "1")];
    UpdatedMap(EnvAfter([], r), r);
    AppendedMap(Updated(EnvAfter([], r), r), r.addEnv);
  }

  // ----- protected entries -----

  function ProtectedEntries(env: seq<EnvVar>): seq<EnvVar> {
    if env == [] then []
    else
      var rest, e := ProtectedEntries(env[..|env| - 1]), env[|env| - 1];
      if e.name in PROTECTED_ENV then rest + [e] else rest
  }

  lemma {:induction false} UpdatedKeepsProtected(env: seq<EnvVar>, r: Request)
    requires EnvAccepted(r)
    ensures ProtectedEntries(Updated(env, r)) == ProtectedEntries(env)
  {
    if env != [] {
      var init, e := env[..|env| - 1], env[|env| - 1];
      UpdatedKeepsProtected(init, r);
      SameNames(r.addEnv);
      AddedNames(r.addEnv, e.name);
      var rest := Updated(init, r);
      assert (rest + [e])[..|rest|] == rest;
      if e.name in LastAdds(r.addEnv) {
        assert (rest + [Plain(e.name, LastAdds(r.addEnv)[e.name])])[..|rest|] == rest;
      }
    }
  }

  lemma {:induction false} AppendedKeepsProtected(env: seq<EnvVar>, adds: seq<Assignment>)
    requires forall i :: 0 <= i < |adds| ==> adds[i].name !in PROTECTED_ENV
    ensures ProtectedEntries(Appended(env, adds)) == ProtectedEntries(env)
  {
    if adds != [] {
      var init, a := adds[..|adds| - 1], adds[|adds| - 1];
      AppendedKeepsProtected(env, init);
      var rest := Appended(env, init);
      assert (rest + [Plain(a.name, a.value)])[..|rest|] == rest;
    }
  }

  // ----- whole requests -----

  function ConfigAfter(current: Option<Json>, patch: Option<Json>): Result<Option<Json>> {
    if patch.None? then Ok(current)
    else if !patch.value.JObj? && !patch.value.JNull? then Rejected
    else
      var changes := if patch.value.JObj? then patch.value else EMPTY;
      if "gateway" in changes.fields then Rejected
      else if current.None? || current.value.JNull? then Ok(Some(Merge(EMPTY, changes)))
      else if current.value.JObj? then Ok(Some(Merge(current.value, changes)))
      else Rejected
  }

  function Requested(r: Request): set<Action> {
    (if r.addSkills != [] || r.removeSkills != [] then {Skills} else {}) +
    (if r.patch.Some? then {Config} else {}) +
    (if r.addFiles != map[] || r.removeFiles != [] then {WorkspaceFiles} else {}) +
    (if r.addEnv != [] || r.removeEnv != [] then {EnvVars} else {})
  }

  /** A request is applied as a whole or not at all. */
  function Submit(t: Target, r: Request, allowed: set<Action>): Result<Target> {
    var config := ConfigAfter(t.config, r.patch);
    if !(Requested(r) <= allowed) || config.Rejected? || !EnvAccepted(r) then Rejected
    else Ok(Target(
      if Skills in Requested(r) then SkillsAfter(t.skills, r) else t.skills,
      config.value,
      if WorkspaceFiles in Requested(r) then FilesAfter(t.files, r) else t.files,
      if EnvVars in Requested(r) then EnvAfter(t.env, r) else t.env))
  }

  datatype Submission = Submission(request: Request, allowed: set<Action>)

  function Run(t: Target, submissions: seq<Submission>): Target {
    if submissions == [] then t
    else
      var before, last := Run(t, submissions[..|submissions| - 1]), submissions[|submissions| - 1];
      var result := Submit(before, last.request, last.allowed);
      if result.Ok? then result.value else before
  }

  function Gateway(config: Option<Json>): Option<Json> {
    if config.Some? then Get(config.value, ["gateway"]) else None
  }

  lemma {:induction false} ConfigKeepsGateway(current: Option<Json>, patch: Option<Json>)
    requires ConfigAfter(current, patch).Ok?
    ensures Gateway(ConfigAfter(current, patch).value) == Gateway(current)
  {
    if patch.Some? {
      var changes := if patch.value.JObj? then patch.value else EMPTY;
      if current.Some? && current.value.JObj? {
        MergeElsewhere(current.value, changes, ["gateway"]);
      } else {
        MergeElsewhere(EMPTY, changes, ["gateway"]);
      }
    }
  }

  /** No sequence of requests changes the gateway's settings or a protected variable, and a field
      whose action is never allowed is never changed. */
  lemma {:induction false} RequestsAreConfined(t: Target, submissions: seq<Submission>)
    ensures var end := Run(t, submissions);
            && Gateway(end.config) == Gateway(t.config)
            && ProtectedEntries(end.env) == ProtectedEntries(t.env)
            && (Never(Skills, submissions) ==> end.skills == t.skills)
            && (Never(Config, submissions) ==> end.config == t.config)
            && (Never(WorkspaceFiles, submissions) ==> end.files == t.files)
            && (Never(EnvVars, submissions) ==> end.env == t.env)
  {
    if submissions != [] {
      var init, last := submissions[..|submissions| - 1], submissions[|submissions| - 1];
      RequestsAreConfined(t, init);
      if Submit(Run(t, init), last.request, last.allowed).Ok? {
        RequestIsConfined(Run(t, init), last.request, last.allowed);
      }
    }
  }

  predicate Never(a: Action, submissions: seq<Submission>) {
    forall i :: 0 <= i < |submissions| ==> a !in submissions[i].allowed
  }

  lemma {:induction false} RequestIsConfined(t: Target, r: Request, allowed: set<Action>)
    requires Submit(t, r, allowed).Ok?
    ensures var end := Submit(t, r, allowed).value;
            && Gateway(end.config) == Gateway(t.config)
            && ProtectedEntries(end.env) == ProtectedEntries(t.env)
            && (Skills !in allowed ==> end.skills == t.skills)
            && (Config !in allowed ==> end.config == t.config)
            && (WorkspaceFiles !in allowed ==> end.files == t.files)
            && (EnvVars !in allowed ==> end.env == t.env)
  {
    ConfigKeepsGateway(t.config, r.patch);
    UpdatedKeepsProtected(t.env, r);
    AppendedKeepsProtected(Updated(t.env, r), r.addEnv);
  }

  // ----- what is protected, and what a request does -----

  function Named(env: seq<EnvVar>, name: string): seq<EnvVar> {
    if env == [] then []
    else
      var rest, e := Named(env[..|env| - 1], name), env[|env| - 1];
      if e.name == name then rest + [e] else rest
  }

  lemma {:induction false} NamedAmongProtected(env: seq<EnvVar>, name: string)
    requires name in PROTECTED_ENV
    ensures Named(ProtectedEntries(env), name) == Named(env, name)
  {
    if env != [] {
      var init, e := env[..|env| - 1], env[|env| - 1];
      NamedAmongProtected(init, name);
      var rest := ProtectedEntries(init);
      assert (rest + [e])[..|rest|] == rest;
    }
  }

  /** The operator's own variables. */
  predicate OperatorOwned(name: string) {
    || name == "OPENCLAW_GATEWAY_TOKEN" || name == "HOME" || name == "PATH" || name == "OPENCLAW_DISABLE_BONJOUR"
    || name == "OPENCLAW_INSTANCE_NAME" || name == "OPENCLAW_NAMESPACE" || name == "CHROMIUM_URL" || name == "OLLAMA_HOST"
    || name == "TS_AUTHKEY" || name == "TS_HOSTNAME" || name == "TS_SOCKET" || name == "NODE_EXTRA_CA_CERTS"
    || name == "NPM_CONFIG_CACHE" || name == "NPM_CONFIG_IGNORE_SCRIPTS"
  }

  lemma OperatorOwnedIsProtected(name: string)
    ensures OperatorOwned(name) <==> name in PROTECTED_ENV
  {
  }

  /** No sequence of requests sets, changes or removes the gateway token, the paths or any other variable of
      the operator's. */
  lemma {:induction false} OperatorVariablesStay(t: Target, submissions: seq<Submission>, name: string)
    requires OperatorOwned(name)
    ensures Named(Run(t, submissions).env, name) == Named(t.env, name)
  {
    OperatorOwnedIsProtected(name);
    RequestsAreConfined(t, submissions);
    NamedAmongProtected(t.env, name);
    NamedAmongProtected(Run(t, submissions).env, name);
  }

  /** A request is rejected exactly if it asks for an action that is not allowed, brings a patch that is no
      object or touches the gateway, meets a config that is no object, or names an operator variable. */
  lemma {:induction false} RejectedExactly(t: Target, r: Request, allowed: set<Action>)
    ensures Submit(t, r, allowed).Rejected? <==>
      || ((r.addSkills != [] || r.removeSkills != []) && Skills !in allowed)
      || (r.patch.Some? && Config !in allowed)
      || ((r.addFiles != map[] || r.removeFiles != []) && WorkspaceFiles !in allowed)
      || ((r.addEnv != [] || r.removeEnv != []) && EnvVars !in allowed)
      || (r.patch.Some? && !r.patch.value.JNull? && !(r.patch.value.JObj? && "gateway" !in r.patch.value.fields))
      || (r.patch.Some? && t.config.Some? && !t.config.value.JObj? && !t.config.value.JNull?)
      || (exists i :: 0 <= i < |r.addEnv| && OperatorOwned(r.addEnv[i].name))
      || (exists i :: 0 <= i < |r.removeEnv| && OperatorOwned(r.removeEnv[i]))
  {
    AcceptedEnv(r);
    ActionsAllowed(r, allowed);
  }

  lemma {:induction false} AcceptedEnv(r: Request)
    ensures EnvAccepted(r) <==>
      && (forall i :: 0 <= i < |r.addEnv| ==> !OperatorOwned(r.addEnv[i].name))
      && (forall i :: 0 <= i < |r.removeEnv| ==> !OperatorOwned(r.removeEnv[i]))
  {
    forall i | 0 <= i < |r.addEnv| ensures OperatorOwned(r.addEnv[i].name) <==> r.addEnv[i].name in PROTECTED_ENV {
      OperatorOwnedIsProtected(r.addEnv[i].name);
    }
    forall i | 0 <= i < |r.removeEnv| ensures OperatorOwned(r.removeEnv[i]) <==> r.removeEnv[i] in PROTECTED_ENV {
      OperatorOwnedIsProtected(r.removeEnv[i]);
    }
  }

  lemma {:induction false} ActionsAllowed(r: Request, allowed: set<Action>)
    ensures Requested(r) <= allowed <==>
      && (r.addSkills != [] || r.removeSkills != [] ==> Skills in allowed)
      && (r.patch.Some? ==> Config in allowed)
      && (r.addFiles != map[] || r.removeFiles != [] ==> WorkspaceFiles in allowed)
      && (r.addEnv != [] || r.removeEnv != [] ==> EnvVars in allowed)
  {
    var q := Requested(r);
    assert Skills in q <==> r.addSkills != [] || r.removeSkills != [];
    assert Config in q <==> r.patch.Some?;
    assert WorkspaceFiles in q <==> r.addFiles != map[] || r.removeFiles != [];
    assert EnvVars in q <==> r.addEnv != [] || r.removeEnv != [];
  }

  /** Files: the added ones with their new content, and the others unless they are removed. */
  lemma {:induction false} FilesAreExact(current: map<string, string>, r: Request, f: string)
    ensures var after := FilesAfter(current, r);
            && (f in after <==> f in r.addFiles || (f in current && f !in r.removeFiles))
            && (f in after ==> after[f] == if f in r.addFiles then r.addFiles[f] else current[f])
  {
  }

  /** Config: every value of the patch arrives, and what the patch does not reach stays. */
  lemma {:induction false} ConfigIsPatched(current: Option<Json>, patch: Json, q: seq<string>)
    requires patch.JObj? && ConfigAfter(current, Some(patch)).Ok?
    ensures var after := ConfigAfter(current, Some(patch)).value;
            var before := if current.Some? && current.value.JObj? then current.value else EMPTY;
            && after.Some? && after.value.JObj?
            && (Get(patch, q).Some? && !Get(patch, q).value.JObj? ==> Get(after.value, q) == Get(patch, q))
            && (!Reached(patch, q) ==> Get(after.value, q) == Get(before, q))
  {
    var before := if current.Some? && current.value.JObj? then current.value else EMPTY;
    if Get(patch, q).Some? && !Get(patch, q).value.JObj? {
      MergeLeaf(before, patch, q);
    }
    if !Reached(patch, q) {
      MergeElsewhere(before, patch, q);
    }
  }

  /** An accepted request changes exactly the fields it speaks of, each as stated. */
  lemma {:induction false} AcceptedChanges(t: Target, r: Request, allowed: set<Action>)
    requires Submit(t, r, allowed).Ok?
    ensures var end := Submit(t, r, allowed).value;
            && end.skills == (if r.addSkills == [] && r.removeSkills == [] then t.skills else SkillsAfter(t.skills, r))
            && Ok(end.config) == ConfigAfter(t.config, r.patch)
            && end.files == FilesAfter(t.files, r)
            && end.env == (if r.addEnv == [] && r.removeEnv == [] then t.env else EnvAfter(t.env, r))
  {
    var q := Requested(r);
    assert Skills in q <==> r.addSkills != [] || r.removeSkills != [];
    assert WorkspaceFiles in q <==> r.addFiles != map[] || r.removeFiles != [];
    assert EnvVars in q <==> r.addEnv != [] || r.removeEnv != [];
    if r.addFiles == map[] && r.removeFiles == [] {
      assert FilesAfter(t.files, r) == t.files;
    }
  }

  // ----- the loops over the environment -----

  method BuildEnvApply(current: seq<EnvVar>, r: Request) returns (result: Result<seq<EnvVar>>)
    ensures result == if EnvAccepted(r) then Ok(EnvAfter(current, r)) else Rejected
  {
    for n := 0 to |r.addEnv|
      invariant forall i :: 0 <= i < n ==> r.addEnv[i].name !in PROTECTED_ENV
    {
      if r.addEnv[n].name in PROTECTED_ENV {
        return Rejected;
      }
    }
    for n := 0 to |r.removeEnv|
      invariant forall i :: 0 <= i < n ==> r.removeEnv[i] !in PROTECTED_ENV
    {
      if r.removeEnv[n] in PROTECTED_ENV {
        return Rejected;
      }
    }
    var addByName := AddsByName(r.addEnv);
    var env := UpdateEnv(current, r, addByName);
    env := AppendEnv(env, r.addEnv);
    result := Ok(env);
  }

  method AddsByName(adds: seq<Assignment>) returns (byName: map<string, string>)
    ensures byName == LastAdds(adds)
  {
    byName := map[];
    for n := 0 to |adds|
      invariant byName == LastAdds(adds[..n])
    {
      byName := byName[adds[n].name := adds[n].value];
      assert adds[..n + 1][..n] == adds[..n];
    }
    assert adds[..|adds|] == adds;
  }

  method UpdateEnv(current: seq<EnvVar>, r: Request, addByName: map<string, string>) returns (env: seq<EnvVar>)
    requires addByName == LastAdds(r.addEnv)
    ensures env == Updated(current, r)
  {
    env := [];
    for n := 0 to |current|
      invariant env == Updated(current[..n], r)
    {
      assert current[..n + 1][..n] == current[..n];
      var e := current[n];
      if e.name in r.removeEnv {
        continue;
      }
      if e.name in addByName {
        env := env + [EnvVar(e.name, addByName[e.name], None)];
        continue;
      }
      env := env + [e];
    }
    assert current[..|current|] == current;
  }

  method AppendEnv(kept: seq<EnvVar>, adds: seq<Assignment>) returns (env: seq<EnvVar>)
    ensures env == Appended(kept, adds)
  {
    env := kept;
    var seen := NamesOf(kept);
    for n := 0 to |adds|
      invariant env == Appended(kept, adds[..n]) && seen == EnvMap(env).Keys
    {
      assert adds[..n + 1][..n] == adds[..n];
      if adds[n].name !in seen {
        ghost var before := env;
        env := env + [EnvVar(adds[n].name, adds[n].value, None)];
        assert env[..|env| - 1] == before;
        seen := seen + {adds[n].name};
      }
    }
    assert adds[..|adds|] == adds;
  }

  method NamesOf(env: seq<EnvVar>) returns (names: set<string>)
    ensures names == EnvMap(env).Keys
  {
    names := {};
    for n := 0 to |env|
      invariant names == EnvMap(env[..n]).Keys
    {
      names := names + {env[n].name};
      assert env[..n + 1][..n] == env[..n];
    }
    assert env[..|env|] == env;
  }

  method BuildConfigApply(current: Option<Json>, patch: Option<Json>) returns (result: Result<Option<Json>>)
    ensures result == ConfigAfter(current, patch)
  {
    if patch.None? {
      return Ok(current);
    }
    if !patch.value.JObj? && !patch.value.JNull? {
      return Rejected;
    }
    var changes := if patch.value.JObj? then patch.value else EMPTY;
    if "gateway" in changes.fields {
      return Rejected;
    }
    var base := EMPTY;
    if current.Some? && current.value.JObj? {
      base := current.value;
    } else if current.Some? && !current.value.JNull? {
      return Rejected;
    }
    var merged := DeepMerge(base, changes);
    result := Ok(Some(merged));
  }
}
