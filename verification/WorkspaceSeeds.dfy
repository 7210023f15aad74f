/** The workspace ConfigMap and the init script that reads it: two renderings of the same declaration
    (internal/resources/workspace_configmap.go, statefulset.go, workspace_files.go). */
module WorkspaceSeeds {
  import opened Wrappers
  import opened Keys

  // ----- declarations -----

  datatype Policy = CreateOnly | Replace

  /** A policy field; the empty string is Unset. */
  datatype Setting = Unset | Set(policy: Policy)

  datatype ManagedPath = ManagedPath(path: string, setting: Setting)

  /** A file by path or key. Files of one source are listed in the order in which they are visited. */
  datatype File = File(path: string, content: string)

  /** Resolved skill packs: contents by key, and the workspace path of each key. */
  datatype Pack = Pack(files: seq<File>, paths: map<string, string>)

  datatype Extra = Extra(name: string, inline: seq<File>, managed: seq<ManagedPath>, setting: Option<Setting>)

  datatype Workspace = Workspace(
    inline: seq<File>, managed: seq<ManagedPath>, setting: Setting, bootstrap: Option<bool>, extras: seq<Extra>)

  /** The texts the operator injects. */
  datatype Texts = Texts(environment: string, bootstrap: string, selfConfig: string, helper: string)

  datatype Declaration = Declaration(
    workspace: Option<Workspace>, selfConfigure: bool, external: seq<File>, extraExternal: map<string, seq<File>>,
    pack: Pack, extraPacks: map<string, Pack>, texts: Texts)

  // ----- policies -----

  function DefaultedPolicy(s: Setting): Policy {
    if s == Set(Replace) then Replace else CreateOnly
  }

  /** The first entry for the path decides; without a policy it means Replace. */
  function ManagedPolicy(managed: seq<ManagedPath>, path: string): Option<Policy> {
    if managed == [] then None
    else if managed[0].path == path then Some(if managed[0].setting.Unset? then Replace else managed[0].setting.policy)
    else ManagedPolicy(managed[1..], path)
  }

  method FindManagedPolicy(managed: seq<ManagedPath>, path: string) returns (policy: Option<Policy>)
    ensures policy == ManagedPolicy(managed, path)
    ensures policy.None? <==> forall k :: 0 <= k < |managed| ==> managed[k].path != path
    ensures policy.Some? ==> exists k :: FirstEntry(managed, path, k) && policy.value == EntryPolicy(managed[k])
  {
    for n := 0 to |managed|
      invariant forall k :: 0 <= k < n ==> managed[k].path != path
      invariant ManagedPolicy(managed, path) == ManagedPolicy(managed[n..], path)
    {
      if managed[n].path == path {
        return Some(if managed[n].setting.Unset? then Replace else managed[n].setting.policy);
      }
      assert managed[n..][1..] == managed[n + 1..];
    }
    policy := None;
  }

  /** An entry means Replace unless it says CreateOnly. */
  function EntryPolicy(entry: ManagedPath): Policy {
    match entry.setting
    case Unset => Replace
    case Set(policy) => if policy.CreateOnly? then CreateOnly else Replace
  }

  predicate FirstEntry(managed: seq<ManagedPath>, path: string, k: int) {
    0 <= k < |managed| && managed[k].path == path && forall j :: 0 <= j < k ==> managed[j].path != path
  }

  /** The first entry for a path decides. */
  lemma {:induction false} FirstEntryDecides(managed: seq<ManagedPath>, path: string, k: nat)
    requires FirstEntry(managed, path, k)
    ensures ManagedPolicy(managed, path) == Some(EntryPolicy(managed[k]))
  {
    if k > 0 {
      assert managed[0].path != path;
      assert forall j :: 0 <= j < |managed| - 1 ==> managed[1..][j] == managed[j + 1];
      FirstEntryDecides(managed[1..], path, k - 1);
    }
  }

  lemma {:induction false} NoEntry(managed: seq<ManagedPath>, path: string)
    requires forall k :: 0 <= k < |managed| ==> managed[k].path != path
    ensures ManagedPolicy(managed, path).None?
  {
    if managed != [] {
      NoEntry(managed[1..], path);
    }
  }

  /** One workspace with everything that is seeded into it; the default workspace has the empty name. */
  datatype Section = Section(
    name: string, inline: seq<File>, external: seq<File>, pack: Pack, injected: seq<File>,
    managed: seq<ManagedPath>, fallback: Policy)

  function PolicyOf(s: Section, path: string): Policy {
    var p := ManagedPolicy(s.managed, path);
    if p.Some? then p.value else s.fallback
  }

  function BootstrapEnabled(d: Declaration): bool {
    d.workspace.None? || d.workspace.value.bootstrap != Some(false)
  }

  function DefaultSection(d: Declaration): Section {
    var injected :=
      [File("ENVIRONMENT.md", d.texts.environment)]
      + (if BootstrapEnabled(d) then [File("BOOTSTRAP.md", d.texts.bootstrap)] else [])
      + (if d.selfConfigure then [File("SELFCONFIG.md", d.texts.selfConfig), File("selfconfig.sh", d.texts.helper)] else []);
    if d.workspace.None? then Section("", [], d.external, d.pack, injected, [], CreateOnly)
    else
      var ws := d.workspace.value;
      Section("", ws.inline, d.external, d.pack, injected, ws.managed, DefaultedPolicy(ws.setting))
  }

  /** An unset policy is inherited from the top level. */
  function ExtraSection(d: Declaration, setting: Setting, e: Extra): Section {
    Section(
      e.name, e.inline,
      if e.name in d.extraExternal then d.extraExternal[e.name] else [],
      if e.name in d.extraPacks then d.extraPacks[e.name] else Pack([], map[]),
      [File("ENVIRONMENT.md", d.texts.environment)],
      e.managed, DefaultedPolicy(if e.setting.Some? then e.setting.value else setting))
  }

  function Sections(d: Declaration): seq<Section> {
    var extras := if d.workspace.Some? then d.workspace.value.extras else [];
    [DefaultSection(d)] +
    seq(|extras|, i requires 0 <= i < |extras| => ExtraSection(d, d.workspace.value.setting, extras[i]))
  }

  // ----- the ConfigMap -----

  /** The key of a file in the ConfigMap, given its key within the workspace. */
  function KeyIn(name: string, key: string): string {
    if name == "" then key else WorkspaceKey(name, key)
  }

  /** Successive writes under a workspace's keys; later ones win. */
  function Written(name: string, files: seq<File>): map<string, string> {
    if files == [] then map[]
    else Written(name, files[..|files| - 1])[KeyIn(name, files[|files| - 1].path) := files[|files| - 1].content]
  }

  function Encoded(files: seq<File>): seq<File> {
    seq(|files|, i requires 0 <= i < |files| => File(Encode(files[i].path), files[i].content))
  }

  /** Injected files win over inline ones, those over external ones, those over pack files. */
  function SectionData(s: Section): map<string, string> {
    Written(s.name, s.pack.files) + Written(s.name, s.external) + Written(s.name, Encoded(s.inline)) + Written(s.name, s.injected)
  }

  function Data(sections: seq<Section>): map<string, string> {
    if sections == [] then map[] else Data(sections[..|sections| - 1]) + SectionData(sections[|sections| - 1])
  }

  // ----- the init script -----

  datatype Line =
    | SeedOnce(key: string, path: string)
    | ApplyManaged(key: string, path: string, hash: string)
    | CopyAlways(key: string, path: string)

  type Hash = string -> string

  /** Successive writes under their own paths. */
  function Contents(files: seq<File>): map<string, string> {
    Written("", files)
  }

  /** User-supplied contents by destination path, inline over external. */
  function Sources(s: Section): map<string, string> {
    Contents(s.external) + Contents(s.inline)
  }

  /** workspaceReplaceSources */
  function ReplaceSources(s: Section, hash: Hash): map<string, string> {
    map p | p in Sources(s) && PolicyOf(s, p).Replace? :: hash(Sources(s)[p])
  }

  /** Paths with a "/" have an encoded key, the others are their own. */
  function SourceKey(s: Section, path: string): string {
    KeyIn(s.name, if '/' in path then Encode(path) else path)
  }

  function LineFor(s: Section, hash: Hash, path: string): Line {
    if path in ReplaceSources(s, hash) then ApplyManaged(SourceKey(s, path), path, ReplaceSources(s, hash)[path])
    else SeedOnce(SourceKey(s, path), path)
  }

  function SeededPaths(s: Section): set<string> {
    Contents(s.external).Keys + Contents(s.inline).Keys + Contents(s.injected).Keys
  }

  function PackLines(s: Section, packPolicy: Policy): set<Line> {
    if s.pack.files == [] then {} else set k | k in s.pack.paths :: PackLine(s, packPolicy, k)
  }

  function PackLine(s: Section, packPolicy: Policy, k: string): Line
    requires k in s.pack.paths
  {
    if packPolicy.CreateOnly? then SeedOnce(KeyIn(s.name, k), s.pack.paths[k])
    else CopyAlways(KeyIn(s.name, k), s.pack.paths[k])
  }

  function SectionLines(s: Section, hash: Hash, packPolicy: Policy): set<Line> {
    (set p | p in SeededPaths(s) :: LineFor(s, hash, p)) + PackLines(s, packPolicy)
  }

  // ----- every declared path has its line -----

  /** A path is converged, with the hash of its source, exactly if it has a source and the policy Replace; it
      is seeded once if it is there in any other way, and otherwise the script does not mention it. */
  lemma {:induction false} LinesAreExact(s: Section, hash: Hash, packPolicy: Policy, p: string)
    ensures var lines := SectionLines(s, hash, packPolicy);
            var managed := p in Sources(s) && PolicyOf(s, p).Replace?;
            && (managed ==> ApplyManaged(SourceKey(s, p), p, hash(Sources(s)[p])) in lines)
            && (!managed && p in SeededPaths(s) ==> SeedOnce(SourceKey(s, p), p) in lines)
            && (forall line :: line in lines && line.ApplyManaged? && line.path == p ==>
                  managed && line == ApplyManaged(SourceKey(s, p), p, hash(Sources(s)[p])))
            && (p in SeededPaths(s) <==> p in Contents(s.external) || p in Contents(s.inline) || p in Contents(s.injected))
  {
    if p in SeededPaths(s) {
      assert LineFor(s, hash, p) in SectionLines(s, hash, packPolicy);
    }
    forall line | line in SectionLines(s, hash, packPolicy) && line.ApplyManaged? && line.path == p
      ensures p in Sources(s) && PolicyOf(s, p).Replace? && line == ApplyManaged(SourceKey(s, p), p, hash(Sources(s)[p]))
    {
      var q :| q in SeededPaths(s) && line == LineFor(s, hash, q);
    }
  }

  /** Pack files are seeded once or copied always, by the policy for packs, and nothing else is ever copied
      always. */
  lemma {:induction false} PackLinesAreExact(s: Section, hash: Hash, packPolicy: Policy)
    ensures var lines := SectionLines(s, hash, packPolicy);
            && (forall k :: k in s.pack.paths && s.pack.files != [] ==>
                  (if packPolicy.CreateOnly? then SeedOnce(KeyIn(s.name, k), s.pack.paths[k]) else CopyAlways(KeyIn(s.name, k), s.pack.paths[k])) in lines)
            && (forall line :: line in lines && line.CopyAlways? ==>
                  packPolicy.Replace? && s.pack.files != [] && exists k :: k in s.pack.paths && line == CopyAlways(KeyIn(s.name, k), s.pack.paths[k]))
  {
    forall k | k in s.pack.paths && s.pack.files != [] ensures PackLine(s, packPolicy, k) in SectionLines(s, hash, packPolicy) {
      assert PackLine(s, packPolicy, k) in PackLines(s, packPolicy);
    }
  }

  /** An additional workspace is seeded with its own files, and with what was resolved under its name. */
  lemma {:induction false} ExtraSources(d: Declaration, setting: Setting, e: Extra, p: string)
    ensures var s := ExtraSection(d, setting, e);
            var named := e.name in d.extraExternal && p in Contents(d.extraExternal[e.name]);
            && s.name == e.name
            && (p in Sources(s) <==> named || p in Contents(e.inline))
            && (p in Sources(s) ==> Sources(s)[p] == if p in Contents(e.inline) then Contents(e.inline)[p] else Contents(d.extraExternal[e.name])[p])
            && (p in s.pack.paths <==> e.name in d.extraPacks && p in d.extraPacks[e.name].paths)
            && (p in Contents(s.pack.files) <==> e.name in d.extraPacks && p in Contents(d.extraPacks[e.name].files))
  {
  }

  /** The default workspace is seeded with the instance's. */
  lemma {:induction false} DefaultSources(d: Declaration, p: string)
    ensures var s := DefaultSection(d);
            var inline := if d.workspace.Some? then Contents(d.workspace.value.inline) else map[];
            && s.name == "" && s.pack == d.pack
            && (p in Sources(s) <==> p in Contents(d.external) || p in inline)
            && (p in Sources(s) ==> Sources(s)[p] == if p in inline then inline[p] else Contents(d.external)[p])
  {
  }

  /** Without an entry of its own a path follows its workspace, and an additional workspace without a policy
      follows the top level; the default is CreateOnly. */
  lemma {:induction false} FallbackPolicies(d: Declaration, e: Extra, p: string)
    requires d.workspace.Some?
    ensures var ws := d.workspace.value;
            && (ManagedPolicy(ws.managed, p).None? ==> (PolicyOf(DefaultSection(d), p).Replace? <==> ws.setting == Set(Replace)))
            && (ManagedPolicy(e.managed, p).None? ==>
                  (PolicyOf(ExtraSection(d, ws.setting, e), p).Replace? <==>
                     if e.setting.Some? then e.setting.value == Set(Replace) else ws.setting == Set(Replace)))
  {
  }

  /** What the operator puts into a workspace: ENVIRONMENT.md everywhere, and in the default one the bootstrap
      file unless it is switched off, and both self-configuration files if that is on. */
  lemma {:induction false} InjectedExactly(d: Declaration, e: Extra, setting: Setting, name: string)
    ensures var off := d.workspace.Some? && d.workspace.value.bootstrap == Some(false);
            var injected := Contents(DefaultSection(d).injected);
            && (name in injected <==>
                  || name == "ENVIRONMENT.md" || (name == "BOOTSTRAP.md" && !off)
                  || (d.selfConfigure && (name == "SELFCONFIG.md" || name == "selfconfig.sh")))
            && (name in Contents(ExtraSection(d, setting, e).injected) <==> name == "ENVIRONMENT.md")
            && (name in injected ==> injected[name] == TextOf(d.texts, name))
            && (name in Contents(ExtraSection(d, setting, e).injected) ==> Contents(ExtraSection(d, setting, e).injected)[name] == d.texts.environment)
  {
    InjectedTexts(d, name);
    ContentsHave(DefaultSection(d).injected, name);
    ContentsHave(ExtraSection(d, setting, e).injected, name);
    var injected := DefaultSection(d).injected;
    if name == "ENVIRONMENT.md" {
      assert injected[0].path == name && ExtraSection(d, setting, e).injected[0].path == name;
    } else if name == "BOOTSTRAP.md" && BootstrapEnabled(d) {
      assert injected[1].path == name;
    } else if d.selfConfigure && name == "SELFCONFIG.md" {
      assert injected[|injected| - 2].path == name;
    } else if d.selfConfigure && name == "selfconfig.sh" {
      assert injected[|injected| - 1].path == name;
    }
  }

  function TextOf(t: Texts, name: string): string {
    match name
    case "ENVIRONMENT.md" => t.environment
    case "BOOTSTRAP.md" => t.bootstrap
    case "SELFCONFIG.md" => t.selfConfig
    case _ => t.helper
  }

  lemma {:induction false} InjectedTexts(d: Declaration, name: string)
    ensures var injected := Contents(DefaultSection(d).injected); name in injected ==> injected[name] == TextOf(d.texts, name)
  {
    WrittenTexts(DefaultSection(d).injected, d.texts, name);
  }

  lemma {:induction false} WrittenTexts(files: seq<File>, t: Texts, name: string)
    requires forall i :: 0 <= i < |files| ==> files[i].content == TextOf(t, files[i].path)
    ensures name in Contents(files) ==> Contents(files)[name] == TextOf(t, name)
  {
    if files != [] {
      WrittenTexts(files[..|files| - 1], t, name);
    }
  }

  // ----- every key the script reads exists -----

  /** What holds of every declaration: keys of other ConfigMaps have no "/", and pack keys have files. */
  predicate Sourced(s: Section) {
    && (forall i :: 0 <= i < |s.external| ==> '/' !in s.external[i].path)
    && (forall i :: 0 <= i < |s.injected| ==> '/' !in s.injected[i].path)
    && s.pack.paths.Keys <= Contents(s.pack.files).Keys
  }

  lemma {:induction false} WrittenKeys(name: string, files: seq<File>, k: string)
    ensures k in Written(name, files) <==> exists i :: 0 <= i < |files| && KeyIn(name, files[i].path) == k
  {
    if files != [] {
      var init := files[..|files| - 1];
      WrittenKeys(name, init, k);
      assert forall i :: 0 <= i < |init| ==> init[i] == files[i];
      if exists i :: 0 <= i < |files| && KeyIn(name, files[i].path) == k {
        var i :| 0 <= i < |files| && KeyIn(name, files[i].path) == k;
        assert i < |init| ==> KeyIn(name, init[i].path) == k;
      }
    }
  }

  lemma {:induction false} KeyWritten(name: string, files: seq<File>, path: string)
    requires path in Contents(files)
    ensures KeyIn(name, path) in Written(name, files) && KeyIn(name, Encode(path)) in Written(name, Encoded(files))
  {
    WrittenKeys("", files, path);
    var i :| 0 <= i < |files| && KeyIn("", files[i].path) == path;
    WrittenKeys(name, files, KeyIn(name, path));
    WrittenKeys(name, Encoded(files), KeyIn(name, Encode(path)));
    assert Encoded(files)[i].path == Encode(path);
  }

  lemma {:induction false} ContentsHave(files: seq<File>, path: string)
    ensures path in Contents(files) <==> exists i :: 0 <= i < |files| && files[i].path == path
  {
    WrittenKeys("", files, path);
    if path in Contents(files) {
      var i :| 0 <= i < |files| && KeyIn("", files[i].path) == path;
      assert files[i].path == path;
    }
    if exists i :: 0 <= i < |files| && files[i].path == path {
      var i :| 0 <= i < |files| && files[i].path == path;
      assert KeyIn("", files[i].path) == path;
    }
  }

  lemma {:induction false} SeedKeyExists(s: Section, path: string)
    requires Sourced(s) && path in SeededPaths(s)
    ensures SourceKey(s, path) in SectionData(s)
  {
    if path in Contents(s.inline) {
      KeyWritten(s.name, s.inline, path);
      if '/' !in path {
        EncodeFlat(path);
      }
    } else if path in Contents(s.external) {
      ContentsHave(s.external, path);
      KeyWritten(s.name, s.external, path);
    } else {
      ContentsHave(s.injected, path);
      KeyWritten(s.name, s.injected, path);
    }
  }

  lemma {:induction false} DataHasSection(sections: seq<Section>, i: nat, k: string)
    requires i < |sections| && k in SectionData(sections[i])
    ensures k in Data(sections)
  {
    if i < |sections| - 1 {
      DataHasSection(sections[..|sections| - 1], i, k);
    }
  }

  /** Every source key the script names is a key of the ConfigMap. */
  lemma {:induction false} SourceKeysExist(sections: seq<Section>, i: nat, hash: Hash, packPolicy: Policy, line: Line)
    requires i < |sections| && Sourced(sections[i]) && line in SectionLines(sections[i], hash, packPolicy)
    ensures line.key in Data(sections)
  {
    var s := sections[i];
    if line in PackLines(s, packPolicy) {
      var k :| k in s.pack.paths && line.key == KeyIn(s.name, k);
      KeyWritten(s.name, s.pack.files, k);
    } else {
      var p :| p in SeededPaths(s) && line == LineFor(s, hash, p);
      SeedKeyExists(s, p);
    }
    DataHasSection(sections, i, line.key);
  }

  // ----- the contents the script expects are there -----

  predicate DistinctPaths(files: seq<File>) {
    forall i, j :: 0 <= i < j < |files| ==> files[i].path != files[j].path
  }

  /** The encodings of the declared paths are distinct. */
  predicate EncodesApart(s: Section) {
    forall p, q :: p in Sources(s) && q in Sources(s) && Encode(p) == Encode(q) ==> p == q
  }

  predicate WellFormed(s: Section) {
    && Sourced(s) && EncodesApart(s)
    && DistinctPaths(s.inline) && DistinctPaths(s.external) && DistinctPaths(s.injected)
    && (forall i :: 0 <= i < |s.injected| ==> FirstDashes(s.injected[i].path).None?)
  }

  lemma {:induction false} KeyInjective(name: string, a: string, b: string)
    ensures KeyIn(name, a) == KeyIn(name, b) <==> a == b
  {
    if name != "" {
      var prefix := SEPARATOR + name + "--";
      assert KeyIn(name, a) == prefix + a && KeyIn(name, b) == prefix + b;
      assert KeyIn(name, a)[|prefix|..] == a && KeyIn(name, b)[|prefix|..] == b;
    }
  }

  /** A key that only one file is written under holds that file's content. */
  lemma {:induction false} WrittenContent(name: string, files: seq<File>, i: nat)
    requires i < |files|
    requires forall j :: 0 <= j < |files| && files[j].path == files[i].path ==> j == i
    ensures KeyIn(name, files[i].path) in Written(name, files)
    ensures Written(name, files)[KeyIn(name, files[i].path)] == files[i].content
  {
    if i < |files| - 1 {
      WrittenContent(name, files[..|files| - 1], i);
      KeyInjective(name, files[i].path, files[|files| - 1].path);
    }
  }

  lemma {:induction false} EncodedHasDashes(path: string)
    requires '/' in path
    ensures FirstDashes(Encode(path)).Some?
  {
    if path[0] == '/' {
      assert DashesAt(Encode(path), 0);
    } else {
      EncodedHasDashes(path[1..]);
      var i := FirstDashes(Encode(path[1..])).value;
      assert DashesAt(Encode(path[1..]), i);
      assert Encode(path)[1..] == Encode(path[1..]);
      assert DashesAt(Encode(path), i + 1);
    }
  }

  /** Within its workspace, a path's key is that of an injected file only if the path is. */
  lemma {:induction false} InjectedKeys(s: Section, p: string)
    requires WellFormed(s)
    ensures SourceKey(s, p) in Written(s.name, s.injected) <==> p in Contents(s.injected)
    ensures p in Contents(s.injected) ==> Written(s.name, s.injected)[SourceKey(s, p)] == Contents(s.injected)[p]
  {
    var key := if '/' in p then Encode(p) else p;
    WrittenKeys(s.name, s.injected, KeyIn(s.name, key));
    ContentsHave(s.injected, p);
    if '/' in p {
      EncodedHasDashes(p);
    }
    if i :| 0 <= i < |s.injected| && KeyIn(s.name, s.injected[i].path) == KeyIn(s.name, key) {
      KeyInjective(s.name, s.injected[i].path, key);
      assert s.injected[i].path == key;
      WrittenContent(s.name, s.injected, i);
      WrittenContent("", s.injected, i);
    }
    if i :| 0 <= i < |s.injected| && s.injected[i].path == p {
      assert KeyIn(s.name, s.injected[i].path) == KeyIn(s.name, key);
    }
  }

  lemma {:induction false} InlineContent(s: Section, p: string)
    requires WellFormed(s) && p in Contents(s.inline)
    ensures SourceKey(s, p) in Written(s.name, Encoded(s.inline))
    ensures Written(s.name, Encoded(s.inline))[SourceKey(s, p)] == Contents(s.inline)[p]
  {
    ContentsHave(s.inline, p);
    var i :| 0 <= i < |s.inline| && s.inline[i].path == p;
    if '/' !in p {
      EncodeFlat(p);
    }
    var enc := Encoded(s.inline);
    forall j | 0 <= j < |enc| && enc[j].path == enc[i].path ensures j == i {
      ContentsHave(s.inline, s.inline[j].path);
      assert s.inline[j].path == p;
    }
    WrittenContent(s.name, enc, i);
    WrittenContent("", s.inline, i);
  }

  lemma {:induction false} ExternalContent(s: Section, p: string)
    requires WellFormed(s) && p in Contents(s.external) && p !in Contents(s.inline)
    ensures SourceKey(s, p) in Written(s.name, s.external) && SourceKey(s, p) !in Written(s.name, Encoded(s.inline))
    ensures Written(s.name, s.external)[SourceKey(s, p)] == Contents(s.external)[p]
  {
    ContentsHave(s.external, p);
    var i :| 0 <= i < |s.external| && s.external[i].path == p;
    WrittenContent(s.name, s.external, i);
    WrittenContent("", s.external, i);
    EncodeFlat(p);
    var enc := Encoded(s.inline);
    WrittenKeys(s.name, enc, SourceKey(s, p));
    if j :| 0 <= j < |enc| && KeyIn(s.name, enc[j].path) == SourceKey(s, p) {
      KeyInjective(s.name, enc[j].path, p);
      ContentsHave(s.inline, s.inline[j].path);
      assert Encode(s.inline[j].path) == Encode(p);
      assert false;
    }
  }

  /** In its own section a source key holds the source, or the operator's text if that is injected. */
  lemma {:induction false} SectionContent(s: Section, p: string)
    requires WellFormed(s) && p in Sources(s)
    ensures SourceKey(s, p) in SectionData(s)
    ensures SectionData(s)[SourceKey(s, p)] == if p in Contents(s.injected) then Contents(s.injected)[p] else Sources(s)[p]
  {
    InjectedKeys(s, p);
    if p in Contents(s.inline) {
      InlineContent(s, p);
    } else {
      ExternalContent(s, p);
    }
  }

  // ----- across workspaces -----

  /** The default workspace comes first and keeps away from reserved keys; the other names follow the
      schema and are distinct. */
  ghost predicate Coexist(sections: seq<Section>) {
    && (forall i :: 0 <= i < |sections| ==> (i == 0 <==> sections[i].name == ""))
    && (forall i :: 0 < i < |sections| ==> Slug(sections[i].name))
    && (forall i, j :: 0 <= i < j < |sections| ==> sections[i].name != sections[j].name)
    && (sections != [] ==> forall p :: p in Sources(sections[0]) ==> !Reserved(Encode(p)))
  }

  lemma {:induction false} KeysCarryName(name: string, files: seq<File>, k: string)
    requires name != "" && k in Written(name, files)
    ensures exists x :: k == WorkspaceKey(name, x)
  {
    WrittenKeys(name, files, k);
    var i :| 0 <= i < |files| && KeyIn(name, files[i].path) == k;
    assert k == WorkspaceKey(name, files[i].path);
  }

  lemma {:induction false} SectionKeysCarryName(s: Section, k: string)
    requires s.name != "" && k in SectionData(s)
    ensures exists x :: k == WorkspaceKey(s.name, x)
  {
    if k in Written(s.name, s.injected) {
      KeysCarryName(s.name, s.injected, k);
    } else if k in Written(s.name, Encoded(s.inline)) {
      KeysCarryName(s.name, Encoded(s.inline), k);
    } else if k in Written(s.name, s.external) {
      KeysCarryName(s.name, s.external, k);
    } else {
      KeysCarryName(s.name, s.pack.files, k);
    }
  }

  /** No later workspace writes under a source key of an earlier one. */
  lemma {:induction false} LaterKeysDiffer(sections: seq<Section>, i: nat, j: nat, p: string)
    requires Coexist(sections) && i < j < |sections| && p in Sources(sections[i])
    ensures SourceKey(sections[i], p) !in SectionData(sections[j])
  {
    var k, later := SourceKey(sections[i], p), sections[j].name;
    if k in SectionData(sections[j]) {
      SectionKeysCarryName(sections[j], k);
      var x :| k == WorkspaceKey(later, x);
      var key := if '/' in p then Encode(p) else p;
      if i == 0 {
        WorkspaceKeysAreReserved(later, x);
        if '/' !in p {
          EncodeFlat(p);
        }
      } else {
        SchemaNamesRoundTrip(later, x);
        SchemaNamesRoundTrip(sections[i].name, key);
      }
      assert false;
    }
  }

  lemma {:induction false} DataContent(sections: seq<Section>, i: nat, k: string)
    requires i < |sections| && k in SectionData(sections[i])
    requires forall j :: i < j < |sections| ==> k !in SectionData(sections[j])
    ensures k in Data(sections) && Data(sections)[k] == SectionData(sections[i])[k]
  {
    if i < |sections| - 1 {
      var init := sections[..|sections| - 1];
      assert forall j :: i < j < |init| ==> init[j] == sections[j];
      DataContent(init, i, k);
    }
  }

  /** For every managed line the ConfigMap holds, under the line's key, exactly the content whose hash
      the line carries; only under the name of an injected file it holds the operator's text instead. */
  lemma {:induction false} HashesAgree(sections: seq<Section>, i: nat, hash: Hash, packPolicy: Policy, line: Line)
    requires Coexist(sections) && i < |sections| && WellFormed(sections[i])
    requires line in SectionLines(sections[i], hash, packPolicy) && line.ApplyManaged?
    ensures var s := sections[i];
            && line.path in Sources(s) && PolicyOf(s, line.path).Replace? && line.hash == hash(Sources(s)[line.path])
            && line.key in Data(sections)
            && Data(sections)[line.key] ==
               (if line.path in Contents(s.injected) then Contents(s.injected)[line.path] else Sources(s)[line.path])
  {
    var s := sections[i];
    var p :| p in SeededPaths(s) && line == LineFor(s, hash, p);
    SectionContent(s, p);
    forall j | i < j < |sections| ensures line.key !in SectionData(sections[j]) {
      LaterKeysDiffer(sections, i, j, p);
    }
    DataContent(sections, i, line.key);
  }

  // ----- whole declarations -----

  /** What is asked of the sources of one workspace. */
  predicate ProperSources(s: Section) {
    && EncodesApart(s) && DistinctPaths(s.inline) && DistinctPaths(s.external)
    && (forall i :: 0 <= i < |s.external| ==> '/' !in s.external[i].path)
    && s.pack.paths.Keys <= Contents(s.pack.files).Keys
  }

  ghost predicate Proper(d: Declaration) {
    var sections := Sections(d);
    && (forall i :: 0 <= i < |sections| ==> ProperSources(sections[i]))
    && (forall p :: p in Sources(sections[0]) ==> !Reserved(Encode(p)))
    && (d.workspace.Some? ==> ProperNames(d.workspace.value.extras))
  }

  /** Names of additional workspaces follow the schema and are distinct. */
  predicate ProperNames(extras: seq<Extra>) {
    && (forall i :: 0 <= i < |extras| ==> Slug(extras[i].name))
    && (forall i, j :: 0 <= i < j < |extras| ==> extras[i].name != extras[j].name)
  }

  predicate ProperInjected(files: seq<File>) {
    DistinctPaths(files) && forall i :: 0 <= i < |files| ==> '-' !in files[i].path && '/' !in files[i].path
  }

  lemma NoDash(s: string)
    requires '-' !in s
    ensures FirstDashes(s).None?
  {
  }

  lemma {:induction false} InjectedAreProper(d: Declaration, i: nat)
    requires i < |Sections(d)|
    ensures ProperInjected(Sections(d)[i].injected)
  {
    InjectedInDefault(d);
    InjectedNames();
    if i > 0 {
      ExtraAt(d, i);
    }
  }

  lemma ExtraAt(d: Declaration, i: nat)
    requires 0 < i < |Sections(d)|
    ensures d.workspace.Some? && i <= |d.workspace.value.extras|
    ensures Sections(d)[i] == ExtraSection(d, d.workspace.value.setting, d.workspace.value.extras[i - 1])
  {
  }

  lemma InjectedNames()
    ensures '-' !in "ENVIRONMENT.md" && '/' !in "ENVIRONMENT.md" && '-' !in "BOOTSTRAP.md" && '/' !in "BOOTSTRAP.md"
    ensures '-' !in "SELFCONFIG.md" && '/' !in "SELFCONFIG.md" && '-' !in "selfconfig.sh" && '/' !in "selfconfig.sh"
    ensures "SELFCONFIG.md" != "selfconfig.sh"
  {
    assert "SELFCONFIG.md"[0] != "selfconfig.sh"[0];
  }

  lemma {:induction false} InjectedInDefault(d: Declaration)
    ensures ProperInjected(DefaultSection(d).injected)
  {
    InjectedNames();
  }

  lemma {:induction false} ProperCoexist(d: Declaration)
    requires Proper(d)
    ensures Coexist(Sections(d)) && forall i :: 0 <= i < |Sections(d)| ==> WellFormed(Sections(d)[i])
  {
    var sections := Sections(d);
    forall i | 0 <= i < |sections| ensures WellFormed(sections[i]) {
      InjectedAreProper(d, i);
      forall j | 0 <= j < |sections[i].injected| ensures FirstDashes(sections[i].injected[j].path).None? {
        NoDash(sections[i].injected[j].path);
      }
    }
    forall i: nat | 0 < i < |sections| ensures d.workspace.Some? && i <= |d.workspace.value.extras|
      && sections[i].name == d.workspace.value.extras[i - 1].name
    {
      ExtraAt(d, i);
    }
  }

  /** ConfigMap and script agree: the key of every line exists, and the hash a managed line carries is
      that of the content under its key, except for a path whose name the operator injects. */
  lemma {:induction false} ConfigMapMatchesScript(d: Declaration, i: nat, hash: Hash, packPolicy: Policy, line: Line)
    requires Proper(d) && i < |Sections(d)| && line in SectionLines(Sections(d)[i], hash, packPolicy)
    ensures line.key in Data(Sections(d))
    ensures line.ApplyManaged? ==>
      (line.hash == hash(Data(Sections(d))[line.key]) <==>
        var injected := Contents(Sections(d)[i].injected);
        line.path in injected ==> hash(injected[line.path]) == line.hash)
  {
    ProperCoexist(d);
    SourceKeysExist(Sections(d), i, hash, packPolicy, line);
    if line.ApplyManaged? {
      HashesAgree(Sections(d), i, hash, packPolicy, line);
    }
  }

  // ----- the helper is there when it is called -----

  /** WorkspaceHasReplaceFiles */
  predicate HasReplaceFiles(ws: Workspace) {
    || DefaultedPolicy(ws.setting).Replace?
    || SomeReplace(ws.managed)
    || exists i :: 0 <= i < |ws.extras| && ExtraReplaces(ws.extras[i])
  }

  predicate SomeReplace(managed: seq<ManagedPath>) {
    exists i :: 0 <= i < |managed| && ManagedPolicy(managed, managed[i].path) == Some(Replace)
  }

  predicate ExtraReplaces(e: Extra) {
    (e.setting.Some? && DefaultedPolicy(e.setting.value).Replace?) || SomeReplace(e.managed)
  }

  lemma {:induction false} ManagedIsListed(managed: seq<ManagedPath>, path: string)
    requires ManagedPolicy(managed, path).Some?
    ensures exists i :: 0 <= i < |managed| && managed[i].path == path
  {
    if managed[0].path != path {
      ManagedIsListed(managed[1..], path);
      var i :| 0 <= i < |managed[1..]| && managed[1..][i].path == path;
      assert managed[i + 1].path == path;
    }
  }

  lemma {:induction false} ReplaceIsSeen(managed: seq<ManagedPath>, path: string)
    requires ManagedPolicy(managed, path) == Some(Replace)
    ensures SomeReplace(managed)
  {
    ManagedIsListed(managed, path);
    var i :| 0 <= i < |managed| && managed[i].path == path;
    assert ManagedPolicy(managed, managed[i].path) == Some(Replace);
  }

  lemma {:induction false} DefaultReplaces(d: Declaration, p: string)
    requires PolicyOf(DefaultSection(d), p).Replace?
    ensures d.workspace.Some? && HasReplaceFiles(d.workspace.value)
  {
    if d.workspace.Some? && ManagedPolicy(d.workspace.value.managed, p).Some? {
      ReplaceIsSeen(d.workspace.value.managed, p);
    }
  }

  lemma {:induction false} ExtraIsSeen(d: Declaration, ws: Workspace, i: nat, p: string)
    requires i < |ws.extras| && PolicyOf(ExtraSection(d, ws.setting, ws.extras[i]), p).Replace?
    ensures HasReplaceFiles(ws)
  {
    var e := ws.extras[i];
    if ManagedPolicy(e.managed, p).Some? {
      ReplaceIsSeen(e.managed, p);
    }
    assert ManagedPolicy(e.managed, p).Some? || e.setting.Some? ==> ExtraReplaces(e);
  }

  lemma {:induction false} ManagedLine(s: Section, hash: Hash, packPolicy: Policy, line: Line) returns (p: string)
    requires line in SectionLines(s, hash, packPolicy) && line.ApplyManaged?
    ensures PolicyOf(s, p).Replace?
  {
    p :| p in SeededPaths(s) && line == LineFor(s, hash, p);
  }

  lemma {:induction false} SectionIsSeen(d: Declaration, i: nat, p: string)
    requires i < |Sections(d)| && PolicyOf(Sections(d)[i], p).Replace?
    ensures d.workspace.Some? && HasReplaceFiles(d.workspace.value)
  {
    if i == 0 {
      DefaultReplaces(d, p);
    } else {
      ExtraAt(d, i);
      ExtraIsSeen(d, d.workspace.value, i - 1, p);
    }
  }

  /** A script that calls the helper for some file also defines it. */
  lemma {:induction false} HelperIsDefined(d: Declaration, i: nat, hash: Hash, packPolicy: Policy, line: Line)
    requires i < |Sections(d)| && line in SectionLines(Sections(d)[i], hash, packPolicy) && line.ApplyManaged?
    ensures d.workspace.Some? && HasReplaceFiles(d.workspace.value)
  {
    var p := ManagedLine(Sections(d)[i], hash, packPolicy, line);
    SectionIsSeen(d, i, p);
  }

  // ----- the loop that fills the ConfigMap -----

  lemma PlusPut(a: map<string, string>, b: map<string, string>, k: string, v: string)
    ensures (a + b)[k := v] == a + b[k := v]
  {
  }

  method WriteFiles(data: map<string, string>, name: string, files: seq<File>, encode: bool) returns (result: map<string, string>)
    ensures result == data + Written(name, if encode then Encoded(files) else files)
  {
    result := data;
    ghost var all := if encode then Encoded(files) else files;
    for n := 0 to |files|
      invariant result == data + Written(name, all[..n])
    {
      assert all[..n + 1][..n] == all[..n];
      ghost var before := Written(name, all[..n]);
      var key := KeyIn(name, if encode then Encode(files[n].path) else files[n].path);
      PlusPut(data, before, key, files[n].content);
      result := result[key := files[n].content];
    }
    assert all[..|files|] == all;
  }

  lemma PlusAssociates(a: map<string, string>, b: map<string, string>, c: map<string, string>)
    ensures a + b + c == a + (b + c)
  {
  }

  method WriteSection(before: map<string, string>, s: Section) returns (data: map<string, string>)
    ensures data == before + SectionData(s)
  {
    data := WriteFiles(before, s.name, s.pack.files, false);
    data := WriteFiles(data, s.name, s.external, false);
    data := WriteFiles(data, s.name, s.inline, true);
    data := WriteFiles(data, s.name, s.injected, false);
    ghost var p, e, i, j := Written(s.name, s.pack.files), Written(s.name, s.external), Written(s.name, Encoded(s.inline)), Written(s.name, s.injected);
    PlusAssociates(before, p, e);
    PlusAssociates(before, p + e, i);
    PlusAssociates(before, p + e + i, j);
  }

  /** BuildWorkspaceConfigMap */
  method BuildWorkspaceConfigMap(d: Declaration) returns (data: map<string, string>)
    ensures data == Data(Sections(d))
  {
    var sections := Sections(d);
    data := map[];
    for n := 0 to |sections|
      invariant data == Data(sections[..n])
    {
      assert sections[..n + 1][..n] == sections[..n];
      data := WriteSection(data, sections[n]);
    }
    assert sections[..|sections|] == sections;
  }
}
