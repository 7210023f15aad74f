/** Replace-mode synchronisation of skill-pack files with a manifest on the data volume
    (internal/resources/statefulset.go). */
module SkillPackSync {
  import opened Wrappers

  /** One file of a pack revision, at a path relative to the workspace root. */
  datatype Seed = Seed(path: string, content: string)

  type Revision = seq<Seed>

  /** The workspace (files and directories by relative path), the two manifest files, and whether the
      shell is still pruning directories. */
  datatype Volume = Volume(
    files: map<string, string>, dirs: set<string>,
    manifest: Option<string>, staging: Option<string>, pruning: bool)

  // ----- manifest text -----

  function LineEnd(text: string): (n: nat)
    ensures n <= |text| && (n < |text| ==> text[n] == '\n')
    ensures forall i :: 0 <= i < n ==> text[i] != '\n'
  {
    if text == "" || text[0] == '\n' then 0 else 1 + LineEnd(text[1..])
  }

  /** The lines `read` delivers. */
  function Lines(text: string): seq<string>
    decreases |text|
  {
    var n := LineEnd(text);
    if n == |text| then [] else [text[..n]] + Lines(text[n + 1..])
  }

  /** printf '%s\n' ... */
  function Print(paths: seq<string>): string {
    if paths == [] then "" else paths[0] + "\n" + Print(paths[1..])
  }

  predicate OneLine(path: string) {
    '\n' !in path
  }

  lemma {:induction false} ManifestRoundTrip(paths: seq<string>)
    requires forall p :: p in paths ==> OneLine(p)
    ensures Lines(Print(paths)) == paths
  {
    if paths != [] {
      var text := Print(paths);
      assert OneLine(paths[0]);
      assert text[|paths[0]|] == '\n';
      assert LineEnd(text) == |paths[0]|;
      assert text[..|paths[0]|] == paths[0] && text[|paths[0]| + 1..] == Print(paths[1..]);
      ManifestRoundTrip(paths[1..]);
    }
  }

  function Paths(r: Revision): seq<string> {
    seq(|r|, i requires 0 <= i < |r| => r[i].path)
  }

  // ----- paths -----

  function LastSlash(p: string): (n: int)
    ensures -1 <= n < |p| && (n >= 0 ==> p[n] == '/')
  {
    if p == "" then -1 else if p[|p| - 1] == '/' then |p| - 1 else LastSlash(p[..|p| - 1])
  }

  function Dirname(p: string): string {
    var n := LastSlash(p);
    if n < 0 then "." else if n == 0 then "/" else p[..n]
  }

  predicate Top(d: string) {
    d == "." || d == "/"
  }

  /** The directories above a path, inside the workspace. */
  function Above(p: string): set<string>
    decreases |p|
  {
    var d := Dirname(p);
    if Top(d) then {} else {d} + Above(d)
  }

  predicate HasDots(f: string) {
    exists i :: 0 <= i < |f| - 1 && f[i] == '.' && f[i + 1] == '.'
  }

  /** Manifest entries the cleanup looks at: neither empty, nor absolute, nor with ".." in them. */
  predicate Inside(f: string) {
    f != "" && f[0] != '/' && !HasDots(f)
  }

  // ----- commands -----

  datatype Command =
    | Stage(text: string)
    | Remove(file: string)
    | Rmdir(dir: string)
    | MakeDirs(dir: string)
    | Copy(path: string, content: string)
    | Promote
    | Drop

  predicate EmptyDir(v: Volume, d: string) {
    (forall f :: f in v.files ==> Dirname(f) != d) && (forall e :: e in v.dirs ==> Dirname(e) != d)
  }

  function Exec(v: Volume, c: Command): Volume {
    match c
    case Stage(text) => v.(staging := Some(text))
    case Remove(f) => v.(files := v.files - {f}, pruning := true)
    case Rmdir(d) =>
      if !v.pruning then v
      else if d in v.dirs && EmptyDir(v, d) then v.(dirs := v.dirs - {d})
      else v.(pruning := false)
    case MakeDirs(d) =>
      if v.files.Keys !! Above(d) + {d} then v.(dirs := v.dirs + Above(d) + {d}) else v
    case Copy(p, content) =>
      if p !in v.dirs && (Top(Dirname(p)) || Dirname(p) in v.dirs) then v.(files := v.files[p := content]) else v
    case Promote => if v.staging.Some? then v.(manifest := v.staging, staging := None) else v
    case Drop => v.(manifest := None, staging := None)
  }

  function ExecAll(v: Volume, cs: seq<Command>): Volume {
    if cs == [] then v else Exec(ExecAll(v, cs[..|cs| - 1]), cs[|cs| - 1])
  }

  // ----- the script -----

  /** rmdir upwards until one fails. */
  function Chain(d: string): seq<Command>
    decreases |d|
  {
    if Top(d) then [] else [Rmdir(d)] + if LastSlash(d) < 0 then [] else Chain(Dirname(d))
  }

  function Clean(f: string, staging: string): seq<Command> {
    if !Inside(f) || f in Lines(staging) then [] else [Remove(f)] + Chain(Dirname(f))
  }

  function Cleanup(lines: seq<string>, staging: string): seq<Command> {
    if lines == [] then [] else Cleanup(lines[..|lines| - 1], staging) + Clean(lines[|lines| - 1], staging)
  }

  function Put(s: Seed): seq<Command> {
    (if Top(Dirname(s.path)) then [] else [MakeDirs(Dirname(s.path))]) + [Copy(s.path, s.content)]
  }

  function Copies(r: Revision): seq<Command> {
    if r == [] then [] else Copies(r[..|r| - 1]) + Put(r[|r| - 1])
  }

  /** Stage the new manifest, then clean up after the old one. */
  function Prepare(manifest: Option<string>, staging: string): seq<Command> {
    [Stage(staging)] + if manifest.Some? then Cleanup(Lines(manifest.value), staging) else []
  }

  /** Everything but the last command. */
  function Body(v: Volume, r: Revision): seq<Command> {
    Prepare(v.manifest, Print(Paths(r))) + Copies(r)
  }

  /** With no pack files and no manifest there is nothing to do. */
  function Script(v: Volume, r: Revision): seq<Command> {
    if r == [] && v.manifest.None? then [] else Body(v, r) + [if r == [] then Drop else Promote]
  }

  function Sync(v: Volume, r: Revision): Volume {
    ExecAll(v, Script(v, r))
  }

  // ----- what it achieves -----

  /** The declared contents. */
  function Declared(r: Revision): map<string, string> {
    if r == [] then map[] else Declared(r[..|r| - 1])[r[|r| - 1].path := r[|r| - 1].content]
  }

  /** The files a previous revision left that `r` no longer declares. */
  function Dropped(lines: seq<string>, kept: seq<string>): set<string> {
    set f | f in lines && Inside(f) && f !in kept
  }

  function Outdated(v: Volume, r: Revision): set<string> {
    if v.manifest.None? then {} else Dropped(Lines(v.manifest.value), Paths(r))
  }

  /** `declared` holds every path any revision uses: no path lies inside another, none is taken by a
      directory, and no directory it needs is taken by a file. */
  predicate Flat(declared: set<string>) {
    forall p, q :: p in declared && q in declared ==> q !in Above(p)
  }

  predicate Room(declared: set<string>, v: Volume) {
    forall p :: p in declared ==> p !in v.dirs && Above(p) !! v.files.Keys
  }

  ghost predicate From(declared: set<string>, r: Revision) {
    forall i :: 0 <= i < |r| ==> r[i].path in declared && OneLine(r[i].path)
  }

  lemma {:induction false} ExecConcat(v: Volume, a: seq<Command>, b: seq<Command>)
    ensures ExecAll(v, a + b) == ExecAll(ExecAll(v, a), b)
  {
    if b == [] {
      assert a + b == a;
    } else {
      ExecConcat(v, a, b[..|b| - 1]);
      assert (a + b)[..|a + b| - 1] == a + b[..|b| - 1];
    }
  }

  lemma ExecOne(v: Volume, c: Command)
    ensures ExecAll(v, [c]) == Exec(v, c)
  {
    assert [c][..0] == [];
    assert ExecAll(v, []) == v;
  }

  lemma {:induction false} UnfoldChain(v: Volume, d: string)
    requires !Top(d)
    ensures ExecAll(v, Chain(d)) ==
            ExecAll(Exec(v, Rmdir(d)), if LastSlash(d) < 0 then [] else Chain(Dirname(d)))
  {
    ExecConcat(v, [Rmdir(d)], if LastSlash(d) < 0 then [] else Chain(Dirname(d)));
    ExecOne(v, Rmdir(d));
  }

  /** After a failed rmdir the rest of the chain does nothing. */
  lemma {:induction false} ChainStops(v: Volume, d: string)
    requires !v.pruning
    ensures ExecAll(v, Chain(d)) == v
    decreases |d|
  {
    if !Top(d) {
      UnfoldChain(v, d);
      if LastSlash(d) >= 0 {
        ChainStops(v, Dirname(d));
      }
    }
  }

  /** rmdir leaves files and manifests alone, and directories only disappear. */
  lemma {:induction false} ChainEffect(v: Volume, d: string)
    ensures var w := ExecAll(v, Chain(d));
            w.files == v.files && w.manifest == v.manifest && w.staging == v.staging && w.dirs <= v.dirs
    decreases |d|
  {
    if !Top(d) {
      var rest := if LastSlash(d) < 0 then [] else Chain(Dirname(d));
      ExecConcat(v, [Rmdir(d)], rest);
      ExecOne(v, Rmdir(d));
      if LastSlash(d) >= 0 {
        ChainEffect(Exec(v, Rmdir(d)), Dirname(d));
      }
    }
  }

  lemma {:induction false} CleanEffect(v: Volume, f: string, staging: string)
    ensures var w := ExecAll(v, Clean(f, staging));
            && w.files == v.files - Dropped([f], Lines(staging))
            && w.manifest == v.manifest && w.staging == v.staging && w.dirs <= v.dirs
  {
    if Inside(f) && f !in Lines(staging) {
      ExecConcat(v, [Remove(f)], Chain(Dirname(f)));
      ExecOne(v, Remove(f));
      ChainEffect(Exec(v, Remove(f)), Dirname(f));
      assert Dropped([f], Lines(staging)) == {f};
    } else {
      assert Dropped([f], Lines(staging)) == {};
    }
  }

  lemma DropMore(files: map<string, string>, lines: seq<string>, kept: seq<string>)
    requires lines != []
    ensures var init, f := lines[..|lines| - 1], lines[|lines| - 1];
            files - Dropped(init, kept) - Dropped([f], kept) == files - Dropped(lines, kept)
  {
    var init, f := lines[..|lines| - 1], lines[|lines| - 1];
    assert lines == init + [f];
    assert Dropped(lines, kept) == Dropped(init, kept) + Dropped([f], kept);
  }

  lemma {:induction false} CleanupEffect(v: Volume, lines: seq<string>, staging: string)
    ensures var w := ExecAll(v, Cleanup(lines, staging));
            && w.files == v.files - Dropped(lines, Lines(staging))
            && w.manifest == v.manifest && w.staging == v.staging && w.dirs <= v.dirs
  {
    if lines != [] {
      var init, f := lines[..|lines| - 1], lines[|lines| - 1];
      CleanupEffect(v, init, staging);
      ExecConcat(v, Cleanup(init, staging), Clean(f, staging));
      CleanEffect(ExecAll(v, Cleanup(init, staging)), f, staging);
      DropMore(v.files, lines, Lines(staging));
    }
  }

  lemma {:induction false} PutEffect(declared: set<string>, v: Volume, s: Seed)
    requires Flat(declared) && Room(declared, v) && s.path in declared
    ensures var w := ExecAll(v, Put(s));
            && w.files == v.files[s.path := s.content] && Room(declared, w)
            && w.manifest == v.manifest && w.staging == v.staging
  {
    var d, copy := Dirname(s.path), Copy(s.path, s.content);
    if Top(d) {
      assert Put(s) == [copy];
      ExecOne(v, copy);
    } else {
      var v1 := Exec(v, MakeDirs(d));
      ExecConcat(v, [MakeDirs(d)], [copy]);
      ExecOne(v, MakeDirs(d));
      ExecOne(v1, copy);
      assert Above(s.path) == {d} + Above(d);
    }
  }

  lemma DeclareMore(files: map<string, string>, r: Revision)
    requires r != []
    ensures var init, s := r[..|r| - 1], r[|r| - 1];
            (files + Declared(init))[s.path := s.content] == files + Declared(r)
  {
  }

  lemma {:induction false} CopiesEffect(declared: set<string>, v: Volume, r: Revision)
    requires Flat(declared) && Room(declared, v) && From(declared, r)
    ensures var w := ExecAll(v, Copies(r));
            && w.files == v.files + Declared(r) && Room(declared, w)
            && w.manifest == v.manifest && w.staging == v.staging
  {
    if r != [] {
      var init, s := r[..|r| - 1], r[|r| - 1];
      CopiesEffect(declared, v, init);
      ExecConcat(v, Copies(init), Put(s));
      PutEffect(declared, ExecAll(v, Copies(init)), s);
      DeclareMore(v.files, r);
    }
  }

  lemma PathsAreLines(declared: set<string>, r: Revision)
    requires From(declared, r)
    ensures Lines(Print(Paths(r))) == Paths(r)
  {
    ManifestRoundTrip(Paths(r));
  }

  lemma {:induction false} PrepareEffect(v: Volume, staging: string)
    ensures var w := ExecAll(v, Prepare(v.manifest, staging));
            && w.files == v.files - (if v.manifest.None? then {} else Dropped(Lines(v.manifest.value), Lines(staging)))
            && w.manifest == v.manifest && w.staging == Some(staging) && w.dirs <= v.dirs
  {
    var cleanup := if v.manifest.Some? then Cleanup(Lines(v.manifest.value), staging) else [];
    ExecConcat(v, [Stage(staging)], cleanup);
    ExecOne(v, Stage(staging));
    if v.manifest.Some? {
      CleanupEffect(Exec(v, Stage(staging)), Lines(v.manifest.value), staging);
    }
  }

  lemma {:induction false} BodyEffect(declared: set<string>, v: Volume, r: Revision)
    requires Flat(declared) && Room(declared, v) && From(declared, r)
    ensures var w := ExecAll(v, Body(v, r));
            && w.files == (v.files - Outdated(v, r)) + Declared(r) && Room(declared, w)
            && w.manifest == v.manifest && w.staging == Some(Print(Paths(r)))
  {
    var text := Print(Paths(r));
    PathsAreLines(declared, r);
    PrepareEffect(v, text);
    ExecConcat(v, Prepare(v.manifest, text), Copies(r));
    CopiesEffect(declared, ExecAll(v, Prepare(v.manifest, text)), r);
  }

  lemma {:induction false} SyncByBody(v: Volume, r: Revision)
    requires r != [] || v.manifest.Some?
    ensures Sync(v, r) == Exec(ExecAll(v, Body(v, r)), if r == [] then Drop else Promote)
  {
    var last := if r == [] then Drop else Promote;
    ExecConcat(v, Body(v, r), [last]);
    ExecOne(ExecAll(v, Body(v, r)), last);
  }

  lemma SyncIdle(v: Volume)
    requires v.manifest.None?
    ensures Sync(v, []) == v
  {
  }

  predicate Synced(v: Volume, r: Revision, w: Volume) {
    && w.files == (v.files - Outdated(v, r)) + Declared(r)
    && (w.manifest.Some? <==> r != []) && (r != [] ==> Lines(w.manifest.value) == Paths(r))
    && (r != [] || v.manifest.Some? ==> w.staging.None?)
  }

  /** The last command makes the work of the others official. */
  lemma {:induction false} Finishes(declared: set<string>, v: Volume, r: Revision, b: Volume)
    requires b.files == (v.files - Outdated(v, r)) + Declared(r) && Room(declared, b)
    requires b.staging == Some(Print(Paths(r))) && Lines(Print(Paths(r))) == Paths(r)
    ensures var w := Exec(b, if r == [] then Drop else Promote);
            Synced(v, r, w) && Room(declared, w)
  {
  }

  /** A sync removes exactly the outdated files and writes exactly the declared ones, and its manifest
      lists the declared paths. */
  lemma {:induction false} SyncIsExact(declared: set<string>, v: Volume, r: Revision)
    requires Flat(declared) && Room(declared, v) && From(declared, r)
    ensures Synced(v, r, Sync(v, r)) && Room(declared, Sync(v, r))
  {
    if r == [] && v.manifest.None? {
      SyncIdle(v);
      assert v.files - {} + map[] == v.files;
    } else {
      PathsAreLines(declared, r);
      BodyEffect(declared, v, r);
      Finishes(declared, v, r, ExecAll(v, Body(v, r)));
      SyncByBody(v, r);
    }
  }
}
