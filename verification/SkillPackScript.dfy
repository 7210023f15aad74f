/** The synchronisation script as it runs: nested loops over the manifest on the data volume. */
module SkillPackScript {
  import opened Wrappers
  import opened SkillPackSync

  class DataVolume {
    var files: map<string, string>
    var dirs: set<string>
    var manifest: Option<string>
    var staging: Option<string>
    /** Whether the last rmdir of the current chain succeeded. */
    ghost var pruning: bool

    ghost function Now(): Volume
      reads this
    {
      Volume(files, dirs, manifest, staging, pruning)
    }

    constructor (files: map<string, string>, dirs: set<string>, manifest: Option<string>)
      ensures Now() == Volume(files, dirs, manifest, None, false)
    {
      this.files, this.dirs, this.manifest, this.staging := files, dirs, manifest, None;
      this.pruning := false;
    }

    /** rm -f, then rmdir upwards until one fails. */
    method RemoveAndPrune(f: string)
      modifies this
      ensures Now() == ExecAll(old(Now()), [Remove(f)] + Chain(Dirname(f)))
    {
      files := files - {f};
      pruning := true;
      ghost var removed := Now();
      ExecConcat(old(Now()), [Remove(f)], Chain(Dirname(f)));
      ExecOne(old(Now()), Remove(f));
      var d := Dirname(f);
      while !Top(d)
        invariant pruning && ExecAll(Now(), Chain(d)) == ExecAll(removed, Chain(Dirname(f)))
        decreases |d|
      {
        ghost var before := Now();
        UnfoldChain(before, d);
        if !(d in dirs && EmptyDir(Volume(files, dirs, manifest, staging, true), d)) {
          pruning := false;
          ChainStops(Now(), Dirname(d));
          break;
        }
        dirs := dirs - {d};
        if LastSlash(d) < 0 {
          break;
        }
        d := Dirname(d);
      }
      if Top(d) {
        assert Chain(d) == [];
      }
    }

    method CleanUp(lines: seq<string>, text: string)
      modifies this
      ensures Now() == ExecAll(old(Now()), Cleanup(lines, text))
    {
      var desired := Lines(text);
      for n := 0 to |lines|
        invariant Now() == ExecAll(old(Now()), Cleanup(lines[..n], text))
      {
        assert lines[..n + 1][..n] == lines[..n];
        ghost var before := Now();
        ExecConcat(old(Now()), Cleanup(lines[..n], text), Clean(lines[n], text));
        if Inside(lines[n]) && lines[n] !in desired {
          RemoveAndPrune(lines[n]);
        }
      }
      assert lines[..|lines|] == lines;
    }

    method CopySeed(s: Seed)
      modifies this
      ensures Now() == ExecAll(old(Now()), Put(s))
    {
      var d := Dirname(s.path);
      ghost var start := Now();
      if !Top(d) {
        if files.Keys !! Above(d) + {d} {
          dirs := dirs + Above(d) + {d};
        }
        ExecConcat(start, [MakeDirs(d)], [Copy(s.path, s.content)]);
        ExecOne(start, MakeDirs(d));
      } else {
        assert Put(s) == [Copy(s.path, s.content)];
      }
      ExecOne(Now(), Copy(s.path, s.content));
      if s.path !in dirs && (Top(d) || d in dirs) {
        files := files[s.path := s.content];
      }
    }

    method CopyAll(r: Revision)
      modifies this
      ensures Now() == ExecAll(old(Now()), Copies(r))
    {
      for n := 0 to |r|
        invariant Now() == ExecAll(old(Now()), Copies(r[..n]))
      {
        assert r[..n + 1][..n] == r[..n];
        ExecConcat(old(Now()), Copies(r[..n]), Put(r[n]));
        CopySeed(r[n]);
      }
      assert r[..|r|] == r;
    }

    /** One start of the pod in Replace mode. */
    method SyncPacks(r: Revision)
      modifies this
      ensures Now() == Sync(old(Now()), r)
    {
      if r == [] && manifest.None? {
        SyncIdle(Now());
        return;
      }
      SyncByBody(Now(), r);
      RunBody(r);
      Finish(r);
    }

    method Finish(r: Revision)
      modifies this
      ensures Now() == Exec(old(Now()), if r == [] then Drop else Promote)
    {
      if r == [] {
        manifest, staging := None, None;
      } else if staging.Some? {
        manifest, staging := staging, None;
      }
    }

    method RunBody(r: Revision)
      modifies this
      ensures Now() == ExecAll(old(Now()), Body(old(Now()), r))
    {
      var text := Print(Paths(r));
      Prepared(text);
      ExecConcat(old(Now()), Prepare(old(Now()).manifest, text), Copies(r));
      CopyAll(r);
    }

    method Prepared(text: string)
      modifies this
      ensures Now() == ExecAll(old(Now()), Prepare(old(Now()).manifest, text))
    {
      ghost var start := Now();
      staging := Some(text);
      ExecOne(start, Stage(text));
      if manifest.Some? {
        ExecConcat(start, [Stage(text)], Cleanup(Lines(manifest.value), text));
        CleanUp(Lines(manifest.value), text);
      }
    }
  }
}
