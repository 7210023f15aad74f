/** The directories a restart leaves behind: an interrupted synchronisation, run again, ends with the
    directories of an uninterrupted one exactly if it was not cut off before an rmdir that nothing else
    would make up for. */
module SkillPackDirs {
  import opened Wrappers
  import opened SkillPackSync
  import opened SkillPackHistory

  // ----- clean directories -----

  /** rmdir fails: the directory is not there, or not empty. */
  predicate Full(v: Volume, d: string) {
    d !in v.dirs || !EmptyDir(v, d)
  }

  /** The file is gone and its directory not left empty. */
  predicate Tidy(v: Volume, f: string) {
    f !in v.files && (Top(Dirname(f)) || Full(v, Dirname(f)))
  }

  predicate AllTidy(v: Volume, lines: seq<string>, staging: string) {
    forall i :: 0 <= i < |lines| && Inside(lines[i]) && lines[i] !in Lines(staging) ==> Tidy(v, lines[i])
  }

  /** A chain of rmdirs leaves nothing empty that was not: where it takes away the last entry of a directory
      it goes on with that directory. */
  lemma {:induction false} ChainTidies(v: Volume, d: string, x: string)
    requires v.pruning && !Top(x) && (x == d || Full(v, x))
    ensures Full(ExecAll(v, Chain(d)), x)
    decreases |d|
  {
    if !Top(d) {
      UnfoldChain(v, d);
      var v1 := Exec(v, Rmdir(d));
      if d in v.dirs && EmptyDir(v, d) {
        RmdirElsewhere(v, d, x);
        if LastSlash(d) >= 0 {
          ChainTidies(v1, Dirname(d), x);
        }
      } else {
        assert Full(v1, x);
        if LastSlash(d) >= 0 {
          ChainStops(v1, Dirname(d));
        }
      }
    }
  }

  lemma {:induction false} RmdirElsewhere(v: Volume, d: string, x: string)
    requires x == d || x == Dirname(d) || Full(v, x)
    ensures x == Dirname(d) || Full(v.(dirs := v.dirs - {d}), x)
  {
    var v1 := v.(dirs := v.dirs - {d});
    if x != d && x != Dirname(d) && x in v.dirs {
      if f :| f in v.files && Dirname(f) == x {
        assert !EmptyDir(v1, x);
      } else {
        var e :| e in v.dirs && Dirname(e) == x;
        assert e in v1.dirs;
      }
    }
  }

  lemma {:induction false} CleanTidies(v: Volume, f: string, staging: string, g: string)
    requires Inside(f) && f !in Lines(staging)
    requires g == f || Tidy(v, g)
    ensures Tidy(ExecAll(v, Clean(f, staging)), g)
  {
    var v1 := Exec(v, Remove(f));
    var w := ExecAll(v1, Chain(Dirname(f)));
    ExecConcat(v, [Remove(f)], Chain(Dirname(f)));
    ExecOne(v, Remove(f));
    ChainEffect(v1, Dirname(f));
    var x := Dirname(g);
    if !Top(x) {
      if x != Dirname(f) {
        RemoveElsewhere(v, f, x);
      }
      ChainTidies(v1, Dirname(f), x);
    }
  }

  lemma {:induction false} RemoveElsewhere(v: Volume, f: string, x: string)
    requires Full(v, x) && x != Dirname(f)
    ensures Full(v.(files := v.files - {f}, pruning := true), x)
  {
    var v1 := v.(files := v.files - {f}, pruning := true);
    if x in v.dirs {
      if h :| h in v.files && Dirname(h) == x {
        assert h in v1.files;
      } else {
        var e :| e in v.dirs && Dirname(e) == x;
        assert e in v1.dirs;
      }
    }
  }

  lemma {:induction false} CleanKeepsTidy(v: Volume, f: string, staging: string, lines: seq<string>)
    requires AllTidy(v, lines, staging)
    ensures AllTidy(ExecAll(v, Clean(f, staging)), lines, staging)
  {
    if Inside(f) && f !in Lines(staging) {
      forall i | 0 <= i < |lines| && Inside(lines[i]) && lines[i] !in Lines(staging)
        ensures Tidy(ExecAll(v, Clean(f, staging)), lines[i])
      {
        CleanTidies(v, f, staging, lines[i]);
      }
    }
  }

  lemma {:induction false} CleanupTidies(v: Volume, lines: seq<string>, staging: string)
    ensures AllTidy(ExecAll(v, Cleanup(lines, staging)), lines, staging)
  {
    if lines != [] {
      var init, f := lines[..|lines| - 1], lines[|lines| - 1];
      var u := ExecAll(v, Cleanup(init, staging));
      CleanupTidies(v, init, staging);
      ExecConcat(v, Cleanup(init, staging), Clean(f, staging));
      CleanKeepsTidy(u, f, staging, init);
      if Inside(f) && f !in Lines(staging) {
        CleanTidies(u, f, staging, f);
      }
      AllTidyLast(ExecAll(u, Clean(f, staging)), lines, staging);
    }
  }

  lemma AllTidyLast(v: Volume, lines: seq<string>, staging: string)
    requires lines != [] && AllTidy(v, lines[..|lines| - 1], staging)
    requires var f := lines[|lines| - 1]; Inside(f) && f !in Lines(staging) ==> Tidy(v, f)
    ensures AllTidy(v, lines, staging)
  {
    var init := lines[..|lines| - 1];
    forall i | 0 <= i < |lines| && Inside(lines[i]) && lines[i] !in Lines(staging) ensures Tidy(v, lines[i]) {
      assert i < |init| ==> init[i] == lines[i];
    }
  }

  // ----- stopped while copying -----

  /** The directories the files of a revision need. */
  function Needed(r: Revision): set<string> {
    if r == [] then {} else Needed(r[..|r| - 1]) + Above(r[|r| - 1].path)
  }

  predicate UpClosed(a: set<string>) {
    forall e :: e in a ==> Top(Dirname(e)) || Dirname(e) in a
  }

  lemma {:induction false} AboveUpClosed(p: string)
    ensures UpClosed(Above(p))
    decreases |p|
  {
    if !Top(Dirname(p)) {
      AboveUpClosed(Dirname(p));
    }
  }

  lemma {:induction false} NeededUpClosed(r: Revision)
    ensures UpClosed(Needed(r))
  {
    if r != [] {
      NeededUpClosed(r[..|r| - 1]);
      AboveUpClosed(r[|r| - 1].path);
    }
  }

  /** `x` has the directories of `u` but for those in `a`, and all its files. */
  predicate Over(u: Volume, a: set<string>, x: Volume) {
    && (forall e :: e in u.dirs ==> e in x.dirs || e in a)
    && (forall e :: e in x.dirs ==> e in u.dirs || e in a)
    && u.files.Keys <= x.files.Keys
  }

  lemma {:induction false} FullOver(u: Volume, a: set<string>, x: Volume, d: string)
    requires Over(u, a, x) && UpClosed(a) && Full(u, d) && d !in a && !Top(d)
    ensures Full(x, d)
  {
    if d in x.dirs {
      if f :| f in u.files && Dirname(f) == d {
        assert f in x.files;
      } else {
        var e :| e in u.dirs && Dirname(e) == d;
        assert e !in a;
        assert e in x.dirs;
      }
    }
  }

  lemma {:induction false} ChainOver(u: Volume, a: set<string>, x: Volume, d: string)
    requires Over(u, a, x) && UpClosed(a) && (d in a || Top(d))
    ensures Over(u, a, ExecAll(x, Chain(d)))
    decreases |d|
  {
    if !Top(d) {
      UnfoldChain(x, d);
      var x1 := Exec(x, Rmdir(d));
      assert Over(u, a, x1);
      if LastSlash(d) >= 0 {
        ChainOver(u, a, x1, Dirname(d));
      }
    }
  }

  lemma {:induction false} CleanOver(u: Volume, a: set<string>, x: Volume, f: string, staging: string)
    requires Over(u, a, x) && UpClosed(a) && (Inside(f) && f !in Lines(staging) ==> Tidy(u, f))
    ensures Over(u, a, ExecAll(x, Clean(f, staging)))
  {
    if Inside(f) && f !in Lines(staging) {
      var d, x1 := Dirname(f), Exec(x, Remove(f));
      ExecConcat(x, [Remove(f)], Chain(d));
      ExecOne(x, Remove(f));
      assert Over(u, a, x1);
      if d in a || Top(d) {
        ChainOver(u, a, x1, d);
      } else {
        FullOver(u, a, x1, d);
        UnfoldChain(x1, d);
        if LastSlash(d) >= 0 {
          ChainStops(Exec(x1, Rmdir(d)), Dirname(d));
        }
      }
    }
  }

  lemma {:induction false} CleanupOver(u: Volume, a: set<string>, x: Volume, lines: seq<string>, staging: string)
    requires Over(u, a, x) && UpClosed(a) && AllTidy(u, lines, staging)
    ensures Over(u, a, ExecAll(x, Cleanup(lines, staging)))
  {
    if lines != [] {
      var init, f := lines[..|lines| - 1], lines[|lines| - 1];
      assert AllTidy(u, init, staging) by {
        forall i | 0 <= i < |init| && Inside(init[i]) && init[i] !in Lines(staging) ensures Tidy(u, init[i]) {
          assert init[i] == lines[i];
        }
      }
      CleanupOver(u, a, x, init, staging);
      ExecConcat(x, Cleanup(init, staging), Clean(f, staging));
      CleanOver(u, a, ExecAll(x, Cleanup(init, staging)), f, staging);
    }
  }

  predicate Copying(a: set<string>, c: Command) {
    c.Copy? || (c.MakeDirs? && Above(c.dir) + {c.dir} <= a)
  }

  lemma {:induction false} CopiesAreCopying(r: Revision, a: set<string>)
    requires Needed(r) <= a
    ensures forall i :: 0 <= i < |Copies(r)| ==> Copying(a, Copies(r)[i])
  {
    if r != [] {
      CopiesAreCopying(r[..|r| - 1], a);
      var p := r[|r| - 1].path;
      assert !Top(Dirname(p)) ==> Above(p) == {Dirname(p)} + Above(Dirname(p));
    }
  }

  lemma {:induction false} CopyingOver(u: Volume, a: set<string>, x: Volume, cs: seq<Command>)
    requires Over(u, a, x) && forall i :: 0 <= i < |cs| ==> Copying(a, cs[i])
    ensures Over(u, a, ExecAll(x, cs))
  {
    if cs != [] {
      CopyingOver(u, a, x, cs[..|cs| - 1]);
      assert Copying(a, cs[|cs| - 1]);
    }
  }

  // ----- the directories of a whole synchronisation -----

  lemma {:induction false} CopiesDirs(declared: set<string>, v: Volume, r: Revision)
    requires Flat(declared) && Room(declared, v) && From(declared, r)
    ensures ExecAll(v, Copies(r)).dirs == v.dirs + Needed(r)
  {
    if r != [] {
      var init, s := r[..|r| - 1], r[|r| - 1];
      CopiesDirs(declared, v, init);
      CopiesEffect(declared, v, init);
      ExecConcat(v, Copies(init), Put(s));
      PutDirs(declared, ExecAll(v, Copies(init)), s);
    }
  }

  lemma {:induction false} PutDirs(declared: set<string>, v: Volume, s: Seed)
    requires Room(declared, v) && s.path in declared
    ensures ExecAll(v, Put(s)).dirs == v.dirs + Above(s.path)
  {
    var d, copy := Dirname(s.path), Copy(s.path, s.content);
    if Top(d) {
      assert Put(s) == [copy];
      ExecOne(v, copy);
    } else {
      ExecConcat(v, [MakeDirs(d)], [copy]);
      ExecOne(v, MakeDirs(d));
      ExecOne(Exec(v, MakeDirs(d)), copy);
      assert Above(s.path) == {d} + Above(d);
    }
  }

  function Entries(v: Volume): seq<string> {
    if v.manifest.Some? then Lines(v.manifest.value) else []
  }

  /** The volume after staging and cleanup. */
  function Cleaned(v: Volume, text: string): Volume {
    ExecAll(Exec(v, Stage(text)), Cleanup(Entries(v), text))
  }

  lemma {:induction false} PreparedIsCleaned(v: Volume, text: string)
    ensures ExecAll(v, Prepare(v.manifest, text)) == Cleaned(v, text)
    ensures Prepare(v.manifest, text) == [Stage(text)] + Cleanup(Entries(v), text)
  {
    ExecConcat(v, [Stage(text)], Cleanup(Entries(v), text));
    ExecOne(v, Stage(text));
  }

  lemma {:induction false} CleanedRoom(declared: set<string>, v: Volume, text: string)
    requires Room(declared, v)
    ensures Room(declared, Cleaned(v, text))
  {
    CleanupEffect(Exec(v, Stage(text)), Entries(v), text);
  }

  lemma {:induction false} BodyDirs(declared: set<string>, v: Volume, r: Revision)
    requires Flat(declared) && Room(declared, v) && From(declared, r)
    ensures ExecAll(v, Body(v, r)).dirs == Cleaned(v, Print(Paths(r))).dirs + Needed(r)
  {
    var text := Print(Paths(r));
    PreparedIsCleaned(v, text);
    ExecConcat(v, Prepare(v.manifest, text), Copies(r));
    CleanedRoom(declared, v, text);
    CopiesDirs(declared, Cleaned(v, text), r);
  }

  lemma LastKeepsDirs(b: Volume, r: Revision)
    ensures Exec(b, if r == [] then Drop else Promote).dirs == b.dirs
  {
  }

  lemma {:induction false} SyncDirs(declared: set<string>, v: Volume, r: Revision)
    requires Flat(declared) && Room(declared, v) && From(declared, r) && (r != [] || v.manifest.Some?)
    ensures Sync(v, r).dirs == Cleaned(v, Print(Paths(r))).dirs + Needed(r)
  {
    BodyDirs(declared, v, r);
    LastKeepsDirs(ExecAll(v, Body(v, r)), r);
    SyncByBody(v, r);
  }

  // ----- the commands of a cleanup -----

  predicate AllRmdirs(cs: seq<Command>) {
    forall i :: 0 <= i < |cs| ==> cs[i].Rmdir?
  }

  lemma {:induction false} ChainIsRmdirs(d: string)
    ensures AllRmdirs(Chain(d))
    decreases |d|
  {
    if !Top(d) && LastSlash(d) >= 0 {
      ChainIsRmdirs(Dirname(d));
    }
  }

  /** The next rmdir of a chain would still do something. */
  predicate WouldPrune(w: Volume, c: Command) {
    c.Rmdir? && w.pruning && c.dir in w.dirs && EmptyDir(w, c.dir)
  }

  predicate Cleaning(c: Command) {
    c.Remove? || c.Rmdir?
  }

  /** Every rmdir follows the removal of something in its directory, and is followed by the rmdir of the
      directory above. */
  predicate Linked(cs: seq<Command>) {
    forall m :: 0 <= m < |cs| ==> Cleaning(cs[m]) && (cs[m].Rmdir? ==> LinkedAt(cs, m))
  }

  predicate LinkedAt(cs: seq<Command>, m: nat)
    requires m < |cs| && cs[m].Rmdir?
  {
    var d := cs[m].dir;
    && !Top(d) && m > 0
    && (cs[m - 1].Remove? ==> Dirname(cs[m - 1].file) == d)
    && (cs[m - 1].Rmdir? ==> Dirname(cs[m - 1].dir) == d)
    && (Top(Dirname(d)) || (m + 1 < |cs| && cs[m + 1] == Rmdir(Dirname(d))))
  }

  lemma {:induction false} LinkedConcat(a: seq<Command>, b: seq<Command>)
    requires Linked(a) && Linked(b)
    ensures Linked(a + b)
  {
    var cs := a + b;
    forall m: nat | m < |cs| ensures Cleaning(cs[m]) && (cs[m].Rmdir? ==> LinkedAt(cs, m)) {
      if m < |a| {
        assert cs[m] == a[m];
        assert a[m].Rmdir? ==> LinkedAt(a, m);
      } else {
        assert cs[m] == b[m - |a|];
        assert b[m - |a|].Rmdir? ==> LinkedAt(b, m - |a|);
      }
    }
  }

  lemma {:induction false} ChainLinked(c: Command, d: string)
    requires (c.Remove? && Dirname(c.file) == d) || (c.Rmdir? && Dirname(c.dir) == d)
    ensures var cs := [c] + Chain(d);
            && (forall m :: 0 < m < |cs| ==> cs[m].Rmdir? && LinkedAt(cs, m))
            && (!Top(d) ==> |cs| > 1 && cs[1] == Rmdir(d))
    decreases |d|
  {
    if !Top(d) {
      var above := Dirname(d);
      var rest := if LastSlash(d) < 0 then [] else Chain(above);
      assert LastSlash(d) < 0 ==> Chain(above) == [];
      var cs := [c] + Chain(d);
      assert Chain(d) == [Rmdir(d)] + rest && rest == Chain(above);
      if |above| < |d| {
        ChainLinked(Rmdir(d), above);
      }
      var tail := [Rmdir(d)] + rest;
      forall m: nat | 0 < m < |cs| ensures cs[m].Rmdir? && LinkedAt(cs, m) {
        assert cs[m] == tail[m - 1];
        if m > 1 {
          assert tail[m - 1].Rmdir? && LinkedAt(tail, m - 1);
        }
      }
    }
  }

  lemma {:induction false} CleanLinked(f: string, staging: string)
    ensures Linked(Clean(f, staging))
  {
    ChainLinked(Remove(f), Dirname(f));
  }

  lemma {:induction false} CleanupLinked(lines: seq<string>, staging: string)
    ensures Linked(Cleanup(lines, staging))
  {
    if lines != [] {
      CleanupLinked(lines[..|lines| - 1], staging);
      CleanLinked(lines[|lines| - 1], staging);
      LinkedConcat(Cleanup(lines[..|lines| - 1], staging), Clean(lines[|lines| - 1], staging));
    }
  }

  /** Every file that is removed lies directly in one of the directories `seeds`. */
  predicate SeededBy(seeds: set<string>, cs: seq<Command>) {
    forall m :: 0 <= m < |cs| && cs[m].Remove? ==> Dirname(cs[m].file) in seeds
  }

  function Seeds(lines: seq<string>, staging: string): set<string> {
    set f | f in Dropped(lines, Lines(staging)) :: Dirname(f)
  }

  lemma {:induction false} CleanupSeeded(lines: seq<string>, staging: string)
    ensures SeededBy(Seeds(lines, staging), Cleanup(lines, staging))
  {
    var cs := Cleanup(lines, staging);
    CleanupIsHarmless({}, lines, staging);
    forall m | 0 <= m < |cs| && cs[m].Remove? ensures Dirname(cs[m].file) in Seeds(lines, staging) {
      assert Harmless(Dropped(lines, Lines(staging)), {}, cs[m]);
    }
  }

  // ----- no directory is left empty -----

  /** A directory that has lost one of the subdirectories it had in `start` is not left empty, unless it
      is to be looked at on its own account or is exempt. */
  predicate NoneLeftEmpty(start: Volume, x: Volume, seeds: set<string>, exempt: set<string>) {
    forall e :: e in start.dirs && e !in x.dirs ==>
      Top(Dirname(e)) || Dirname(e) in seeds || Dirname(e) in exempt || Full(x, Dirname(e))
  }

  /** The directory the next command is about to try. */
  function Pending(x: Volume, cs: seq<Command>, m: nat): set<string> {
    if m < |cs| && cs[m].Rmdir? && x.pruning then {cs[m].dir} else {}
  }

  lemma {:induction false} StepLeavesNoneEmpty(start: Volume, x: Volume, seeds: set<string>, exempt: set<string>, cs: seq<Command>, m: nat)
    requires Linked(cs) && SeededBy(seeds, cs) && m < |cs|
    requires NoneLeftEmpty(start, x, seeds, exempt + Pending(x, cs, m))
    ensures NoneLeftEmpty(start, Exec(x, cs[m]), seeds, exempt + Pending(Exec(x, cs[m]), cs, m + 1))
  {
    var c, y := cs[m], Exec(x, cs[m]);
    forall e | e in start.dirs && e !in y.dirs
      ensures Top(Dirname(e)) || Dirname(e) in seeds || Dirname(e) in exempt + Pending(y, cs, m + 1) || Full(y, Dirname(e))
    {
      var p := Dirname(e);
      if c.Remove? {
        if p != Dirname(c.file) && Full(x, p) {
          RemoveElsewhere(x, c.file, p);
        }
      } else {
        assert LinkedAt(cs, m);
        if WouldPrune(x, c) {
          if p == c.dir || Full(x, p) {
            RmdirElsewhere(x, c.dir, p);
          }
        }
      }
    }
  }

  lemma {:induction false} LeavesNoneEmpty(start: Volume, x: Volume, seeds: set<string>, exempt: set<string>, cs: seq<Command>, m: nat)
    requires Linked(cs) && SeededBy(seeds, cs) && m <= |cs| && NoneLeftEmpty(start, x, seeds, exempt)
    ensures NoneLeftEmpty(start, ExecAll(x, cs[..m]), seeds, exempt + Pending(ExecAll(x, cs[..m]), cs, m))
  {
    if m == 0 {
      assert cs[..0] == [];
    } else {
      LeavesNoneEmpty(start, x, seeds, exempt, cs, m - 1);
      assert cs[..m][..m - 1] == cs[..m - 1];
      StepLeavesNoneEmpty(start, ExecAll(x, cs[..m - 1]), seeds, exempt, cs, m - 1);
    }
  }

  // ----- no directory is pruned that need not be -----

  predicate Below(start: Volume, x: Volume) {
    x.dirs <= start.dirs
  }

  /** What is gone in `x` is gone in `final` or belongs to `a`. */
  predicate Within(start: Volume, x: Volume, final: Volume, a: set<string>) {
    forall y :: y in start.dirs && y !in x.dirs ==> y !in final.dirs || y in a
  }

  /** The end of a cleanup: no directory is left empty that was looked at or has lost a subdirectory. */
  predicate Settled(start: Volume, final: Volume, seeds: set<string>, a: set<string>) {
    && final.dirs <= start.dirs
    && (forall y :: y in seeds && !Top(y) && y !in a ==> Full(final, y))
    && (forall e :: e in start.dirs && e !in final.dirs && !Top(Dirname(e)) && Dirname(e) !in a ==> Full(final, Dirname(e)))
  }

  lemma {:induction false} EmptyInTheEnd(start: Volume, x: Volume, final: Volume, a: set<string>, y: string)
    requires UpClosed(a) && final.dirs <= start.dirs && Within(start, x, final, a) && final.files.Keys <= x.files.Keys
    requires EmptyDir(x, y) && y !in a && !Top(y)
    ensures EmptyDir(final, y)
  {
    forall h | h in final.dirs && h !in x.dirs ensures Dirname(h) != y {
      assert h in start.dirs;
    }
  }

  lemma {:induction false} PruneIsDue(start: Volume, before: Volume, x: Volume, final: Volume, a: set<string>, seeds: set<string>, cs: seq<Command>, m: nat)
    requires Linked(cs) && SeededBy(seeds, cs) && UpClosed(a) && Settled(start, final, seeds, a)
    requires 0 < m < |cs| && x == Exec(before, cs[m - 1]) && before.dirs <= start.dirs && Within(start, x, final, a)
    requires WouldPrune(x, cs[m]) && final.files.Keys <= x.files.Keys
    ensures cs[m].dir !in final.dirs || cs[m].dir in a
  {
    var y := cs[m].dir;
    assert LinkedAt(cs, m) && Cleaning(cs[m - 1]);
    if y !in a {
      EmptyInTheEnd(start, x, final, a, y);
      assert Full(final, y);
    }
  }

  /** One more command: `before` is the state two commands ago, if the last one was an rmdir. */
  lemma {:induction false} StepStaysWithin(start: Volume, before: Volume, x: Volume, final: Volume, a: set<string>, seeds: set<string>, cs: seq<Command>, m: nat)
    requires Linked(cs) && SeededBy(seeds, cs) && UpClosed(a) && Settled(start, final, seeds, a) && m < |cs|
    requires x.dirs <= start.dirs && Within(start, x, final, a) && final.files.Keys <= x.files.Keys
    requires cs[m].Rmdir? && m > 0 ==> x == Exec(before, cs[m - 1]) && before.dirs <= start.dirs
    ensures Within(start, Exec(x, cs[m]), final, a) && Exec(x, cs[m]).dirs <= start.dirs
  {
    assert Cleaning(cs[m]);
    if WouldPrune(x, cs[m]) {
      assert LinkedAt(cs, m);
      PruneIsDue(start, before, x, final, a, seeds, cs, m);
    }
  }

  lemma {:induction false} StaysWithin(start: Volume, x: Volume, final: Volume, a: set<string>, seeds: set<string>, cs: seq<Command>, m: nat)
    requires Linked(cs) && SeededBy(seeds, cs) && UpClosed(a) && Settled(start, final, seeds, a) && m <= |cs|
    requires x.dirs <= start.dirs && Within(start, x, final, a) && final.files.Keys <= ExecAll(x, cs[..m]).files.Keys
    ensures Within(start, ExecAll(x, cs[..m]), final, a) && ExecAll(x, cs[..m]).dirs <= start.dirs
  {
    if m == 0 {
      assert cs[..0] == [];
    } else {
      var w := ExecAll(x, cs[..m - 1]);
      var before := if m > 1 then ExecAll(x, cs[..m - 2]) else x;
      ExecNext(x, cs, m - 1);
      assert Cleaning(cs[m - 1]);
      StaysWithin(start, x, final, a, seeds, cs, m - 1);
      if m > 1 {
        ExecNext(x, cs, m - 2);
        assert Cleaning(cs[m - 2]);
        CleaningRemoves(x, cs[..m - 2]);
      }
      StepStaysWithin(start, before, w, final, a, seeds, cs, m - 1);
    }
  }

  lemma ExecNext(x: Volume, cs: seq<Command>, m: nat)
    requires m < |cs|
    ensures ExecAll(x, cs[..m + 1]) == Exec(ExecAll(x, cs[..m]), cs[m])
  {
    assert cs[..m + 1][..m] == cs[..m];
  }

  // ----- what a cleanup prunes -----

  /** Everything that is gone from `x` was left empty. */
  predicate PrunedEmpty(start: Volume, x: Volume) {
    x.dirs <= start.dirs && x.files.Keys <= start.files.Keys && forall e :: e in start.dirs && e !in x.dirs ==> EmptyDir(x, e)
  }

  lemma {:induction false} PrunesOnlyEmpty(v: Volume, cs: seq<Command>)
    requires forall i :: 0 <= i < |cs| ==> Cleaning(cs[i])
    ensures PrunedEmpty(v, ExecAll(v, cs))
  {
    if cs != [] {
      PrunesOnlyEmpty(v, cs[..|cs| - 1]);
      assert Cleaning(cs[|cs| - 1]);
    }
  }

  /** A cleanup prunes a directory only if nothing is left in it, and leaves none empty that a dropped file
      lay in or that it took a subdirectory from. */
  lemma {:induction false} PruningIsExact(v: Volume, lines: seq<string>, staging: string)
    ensures var x := ExecAll(v, Cleanup(lines, staging));
            && PrunedEmpty(v, x)
            && (forall f :: f in Dropped(lines, Lines(staging)) && !Top(Dirname(f)) ==> Full(x, Dirname(f)))
            && (forall e :: e in v.dirs && e !in x.dirs && !Top(Dirname(e)) ==> Full(x, Dirname(e)))
  {
    CleanupLinked(lines, staging);
    PrunesOnlyEmpty(v, Cleanup(lines, staging));
    WholeSettles(v, lines, staging, {});
  }

  // ----- where a run can be cut off -----

  lemma {:induction false} CleanupIsCleaning(lines: seq<string>, staging: string)
    ensures forall i :: 0 <= i < |Cleanup(lines, staging)| ==> Cleaning(Cleanup(lines, staging)[i])
  {
    CleanupLinked(lines, staging);
  }

  lemma {:induction false} CleaningKeepsManifests(v: Volume, cs: seq<Command>)
    requires forall i :: 0 <= i < |cs| ==> Cleaning(cs[i])
    ensures ExecAll(v, cs).staging == v.staging && ExecAll(v, cs).manifest == v.manifest
  {
    if cs != [] {
      CleaningKeepsManifests(v, cs[..|cs| - 1]);
      assert Cleaning(cs[|cs| - 1]);
    }
  }

  /** The run is cut off before an rmdir that would carry a chain on. */
  predicate CutsChain(v: Volume, r: Revision, cut: Cut) {
    var cs := Script(v, r);
    0 < cut.done < |cs| && cs[cut.done - 1].Rmdir? && WouldPrune(ExecAll(v, cs[..cut.done]), cs[cut.done])
  }

  /** What the script looks like at its `n`-th command. */
  lemma {:induction false} ScriptParts(v: Volume, r: Revision)
    requires r != [] || v.manifest.Some?
    ensures var text := Print(Paths(r));
            Script(v, r) == [Stage(text)] + Cleanup(Entries(v), text) + Copies(r) + [if r == [] then Drop else Promote]
  {
    PreparedIsCleaned(v, Print(Paths(r)));
  }

  lemma {:induction false} StagedAlready(w: Volume, text: string)
    requires w.staging == Some(text)
    ensures Exec(w, Stage(text)) == w
  {
  }

  lemma InSecond(a: seq<Command>, b: seq<Command>, rest: seq<Command>, n: nat)
    requires |a| <= n < |a| + |b|
    ensures var all := a + b + rest;
            all[n] == b[n - |a|] && all[..n] == a + b[..n - |a|] && (n > |a| ==> all[n - 1] == b[n - 1 - |a|])
  {
  }

  /** Where the script is when it is cut off during its cleanup. */
  lemma {:induction false} CutPlace(v: Volume, r: Revision, n: nat, cs: seq<Command>)
    requires (r != [] || v.manifest.Some?) && cs == Cleanup(Entries(v), Print(Paths(r))) && 0 < n <= |cs|
    ensures n < |Script(v, r)| && Script(v, r)[n] == cs[n - 1] && Script(v, r)[..n] == [Stage(Print(Paths(r)))] + cs[..n - 1]
    ensures if n > 1 then Script(v, r)[n - 1] == cs[n - 2] else Script(v, r)[n - 1].Stage?
  {
    var stage, rest := [Stage(Print(Paths(r)))], Copies(r) + [if r == [] then Drop else Promote];
    ScriptParts(v, r);
    assert Script(v, r) == stage + cs + rest;
    InSecond(stage, cs, rest, n);
  }

  /** The state it is cut off in. */
  lemma {:induction false} CutState(v: Volume, r: Revision, cut: Cut, cs: seq<Command>)
    requires (r != [] || v.manifest.Some?) && cs == Cleanup(Entries(v), Print(Paths(r))) && 0 < cut.done <= |cs|
    ensures var w, m := ExecAll(Exec(v, Stage(Print(Paths(r)))), cs[..cut.done - 1]), cut.done - 1;
            && Interrupted(v, r, cut) == w
            && cut.done < |Script(v, r)| && Script(v, r)[cut.done] == cs[m]
            && (CutsChain(v, r, cut) <==> 0 < m && cs[m - 1].Rmdir? && WouldPrune(w, cs[m]))
  {
    CutPlace(v, r, cut.done, cs);
    CleanupIsCleaning(Entries(v), Print(Paths(r)));
    assert Cleaning(cs[cut.done - 1]);
    StagedThen(v, Print(Paths(r)), cs[..cut.done - 1]);
    CutBeforeCleaning(v, r, cut, Script(v, r));
  }

  lemma {:induction false} CutBeforeCleaning(v: Volume, r: Revision, cut: Cut, script: seq<Command>)
    requires script == Script(v, r) && cut.done < |script| && Cleaning(script[cut.done])
    ensures Interrupted(v, r, cut) == ExecAll(v, script[..cut.done])
  {
  }

  lemma {:induction false} StagedThen(v: Volume, text: string, cs: seq<Command>)
    ensures ExecAll(v, [Stage(text)] + cs) == ExecAll(Exec(v, Stage(text)), cs)
  {
    ExecConcat(v, [Stage(text)], cs);
    ExecOne(v, Stage(text));
  }

  // ----- a cleanup that is cut off and run again -----

  /** Whatever state a cleanup ends in, its directories are settled, but for those exempt. */
  lemma {:induction false} CleanupSettles(start: Volume, x: Volume, lines: seq<string>, staging: string, exempt: set<string>)
    requires x.dirs <= start.dirs && NoneLeftEmpty(start, x, Seeds(lines, staging), exempt)
    ensures Settled(start, ExecAll(x, Cleanup(lines, staging)), Seeds(lines, staging), exempt)
  {
    var cs, seeds := Cleanup(lines, staging), Seeds(lines, staging);
    var final := ExecAll(x, cs);
    CleanupLinked(lines, staging);
    CleanupSeeded(lines, staging);
    CleanupEffect(x, lines, staging);
    CleanupTidies(x, lines, staging);
    LeavesNoneEmpty(start, x, seeds, exempt, cs, |cs|);
    assert cs[..|cs|] == cs;
    SeedsAreFull(final, lines, staging);
  }

  lemma {:induction false} SeedsAreFull(v: Volume, lines: seq<string>, staging: string)
    requires AllTidy(v, lines, staging)
    ensures forall y :: y in Seeds(lines, staging) && !Top(y) ==> Full(v, y)
  {
    forall y | y in Seeds(lines, staging) && !Top(y) ensures Full(v, y) {
      var f :| f in Dropped(lines, Lines(staging)) && Dirname(f) == y;
      var i :| 0 <= i < |lines| && lines[i] == f;
      assert Tidy(v, lines[i]);
    }
  }

  lemma SettledMore(start: Volume, final: Volume, seeds: set<string>, exempt: set<string>, a: set<string>)
    requires Settled(start, final, seeds, exempt) && (forall y :: y in exempt ==> y in a || y in seeds)
    requires forall y :: y in seeds && !Top(y) ==> Full(final, y)
    ensures Settled(start, final, seeds, a)
  {
  }

  lemma {:induction false} CutSettles(v: Volume, lines: seq<string>, staging: string, m: nat, a: set<string>)
    requires m <= |Cleanup(lines, staging)|
    requires var cs := Cleanup(lines, staging);
             m < |cs| && WouldPrune(ExecAll(v, cs[..m]), cs[m]) ==> cs[m].dir in a || cs[m].dir in Seeds(lines, staging)
    ensures var cs := Cleanup(lines, staging);
            && ExecAll(v, cs[..m]).dirs <= v.dirs
            && Settled(v, ExecAll(ExecAll(v, cs[..m]), cs), Seeds(lines, staging), a)
  {
    var cs, seeds := Cleanup(lines, staging), Seeds(lines, staging);
    var w := ExecAll(v, cs[..m]);
    CleanupLinked(lines, staging);
    CleanupSeeded(lines, staging);
    CleaningShrinks(v, cs, m);
    var pending := if m < |cs| && WouldPrune(w, cs[m]) then {cs[m].dir} else {};
    LeavesNoneEmpty(v, v, seeds, {}, cs, m);
    assert NoneLeftEmpty(v, w, seeds, pending);
    CleanupSettles(v, w, lines, staging, pending);
    CleanupTidies(w, lines, staging);
    SeedsAreFull(ExecAll(w, cs), lines, staging);
    SettledMore(v, ExecAll(w, cs), seeds, pending, a);
  }

  /** What a cut cleanup removes before and after the cut is what an uncut one removes. */
  lemma {:induction false} CutFiles(v: Volume, lines: seq<string>, staging: string, m: nat)
    requires m <= |Cleanup(lines, staging)|
    ensures var cs := Cleanup(lines, staging);
            ExecAll(ExecAll(v, cs[..m]), cs).files.Keys == ExecAll(v, cs).files.Keys
  {
    var cs := Cleanup(lines, staging);
    CleanupLinked(lines, staging);
    CleaningShrinks(v, cs, m);
    CleanupEffect(v, lines, staging);
    CleanupEffect(ExecAll(v, cs[..m]), lines, staging);
  }

  lemma {:induction false} BothWithin(v: Volume, w: Volume, once: Volume, again: Volume, cs: seq<Command>, seeds: set<string>, a: set<string>)
    requires Linked(cs) && SeededBy(seeds, cs) && UpClosed(a)
    requires once == ExecAll(v, cs) && again == ExecAll(w, cs) && again.files.Keys == once.files.Keys
    requires once.dirs <= w.dirs <= v.dirs && Settled(v, once, seeds, a) && Settled(v, again, seeds, a)
    ensures again.dirs + a == once.dirs + a
  {
    assert cs[..|cs|] == cs;
    StaysWithin(v, v, again, a, seeds, cs, |cs|);
    StaysWithin(v, w, once, a, seeds, cs, |cs|);
  }

  /** Cut off after `m` commands and run again, a cleanup ends with the same directories, up to those in
      `a`, if the directory it was about to try is one of them or is looked at on its own account. */
  lemma {:induction false} CleanupConverges(v: Volume, lines: seq<string>, staging: string, m: nat, a: set<string>)
    requires UpClosed(a) && m <= |Cleanup(lines, staging)|
    requires var cs := Cleanup(lines, staging);
             m < |cs| && WouldPrune(ExecAll(v, cs[..m]), cs[m]) ==> cs[m].dir in a || cs[m].dir in Seeds(lines, staging)
    ensures var cs := Cleanup(lines, staging);
            ExecAll(ExecAll(v, cs[..m]), cs).dirs + a == ExecAll(v, cs).dirs + a
  {
    var cs := Cleanup(lines, staging);
    CutSettles(v, lines, staging, m, a);
    WholeSettles(v, lines, staging, a);
    CutFiles(v, lines, staging, m);
    CleanupLinked(lines, staging);
    CleanupSeeded(lines, staging);
    CleaningShrinks(v, cs, m);
    BothWithin(v, ExecAll(v, cs[..m]), ExecAll(v, cs), ExecAll(ExecAll(v, cs[..m]), cs), cs, Seeds(lines, staging), a);
  }

  lemma {:induction false} WholeSettles(v: Volume, lines: seq<string>, staging: string, a: set<string>)
    ensures Settled(v, ExecAll(v, Cleanup(lines, staging)), Seeds(lines, staging), a)
  {
    CleanupSettles(v, v, lines, staging, {});
    CleanupTidies(v, lines, staging);
    SeedsAreFull(ExecAll(v, Cleanup(lines, staging)), lines, staging);
    SettledMore(v, ExecAll(v, Cleanup(lines, staging)), Seeds(lines, staging), {}, a);
  }

  /** The files and directories of an earlier state include those of a later one. */
  lemma {:induction false} CleaningShrinks(v: Volume, cs: seq<Command>, m: nat)
    requires Linked(cs) && m <= |cs|
    ensures ExecAll(v, cs).dirs <= ExecAll(v, cs[..m]).dirs <= v.dirs
    ensures ExecAll(v, cs).files.Keys <= ExecAll(v, cs[..m]).files.Keys <= v.files.Keys
    decreases |cs| - m
  {
    CleaningRemoves(v, cs[..m]);
    var rest := cs[m..];
    assert cs == cs[..m] + rest;
    ExecConcat(v, cs[..m], rest);
    forall i | 0 <= i < |rest| ensures Cleaning(rest[i]) {
      assert rest[i] == cs[m + i];
    }
    CleaningRemoves(ExecAll(v, cs[..m]), rest);
  }

  /** The directory an interrupted run was about to try can be left to the next run: the revision needs
      it, or a dropped file lay directly in it. */
  predicate MadeUpFor(v: Volume, r: Revision, d: string) {
    d in Needed(r) || exists f :: f in Outdated(v, r) && Dirname(f) == d
  }

  lemma {:induction false} OutdatedSeeds(declared: set<string>, v: Volume, r: Revision, d: string)
    requires From(declared, r)
    ensures d in Seeds(Entries(v), Print(Paths(r))) <==> exists f :: f in Outdated(v, r) && Dirname(f) == d
  {
    PathsAreLines(declared, r);
    assert Outdated(v, r) == Dropped(Entries(v), Lines(Print(Paths(r))));
  }

  lemma {:induction false} CutInCleaning(declared: set<string>, v: Volume, r: Revision, cut: Cut, cs: seq<Command>)
    requires From(declared, r) && (r != [] || v.manifest.Some?)
    requires CutsChain(v, r, cut) ==> MadeUpFor(v, r, Script(v, r)[cut.done].dir)
    requires cs == Cleanup(Entries(v), Print(Paths(r))) && 0 < cut.done <= |cs|
    ensures var w, text := Interrupted(v, r, cut), Print(Paths(r));
            w.manifest == v.manifest && Cleaned(w, text).dirs + Needed(r) == Cleaned(v, text).dirs + Needed(r)
  {
    var text := Print(Paths(r));
    var v1, m := Exec(v, Stage(text)), cut.done - 1;
    var w := ExecAll(v1, cs[..m]);
    CutState(v, r, cut, cs);
    CleanupLinked(Entries(v), text);
    CleaningKeepsManifests(v1, cs[..m]);
    StagedAlready(w, text);
    NeededUpClosed(r);
    CleanupSeeded(Entries(v), text);
    if WouldPrune(w, cs[m]) {
      assert LinkedAt(cs, m) && Cleaning(cs[m - 1]);
      OutdatedSeeds(declared, v, r, cs[m].dir);
    }
    CleanupConverges(v1, Entries(v), text, m, Needed(r));
  }

  lemma {:induction false} CutInCopying(v: Volume, r: Revision, cut: Cut)
    requires r != [] || v.manifest.Some?
    requires |Cleanup(Entries(v), Print(Paths(r)))| < cut.done < |Script(v, r)|
    ensures Over(Cleaned(v, Print(Paths(r))), Needed(r), Interrupted(v, r, cut))
  {
    var text := Print(Paths(r));
    PreparedIsCleaned(v, text);
    CopiesAreCopying(r, Needed(r));
    CutWhileCopying(v, r, cut, Prepare(v.manifest, text), Copies(r), Cleaned(v, text), Needed(r));
  }

  lemma {:induction false} CutWhileCopying(v: Volume, r: Revision, cut: Cut, prepare: seq<Command>, copies: seq<Command>, u: Volume, a: set<string>)
    requires Script(v, r) == prepare + copies + [if r == [] then Drop else Promote]
    requires |prepare| <= cut.done < |Script(v, r)| && ExecAll(v, prepare) == u
    requires forall i :: 0 <= i < |copies| ==> Copying(a, copies[i])
    ensures Over(u, a, Interrupted(v, r, cut))
  {
    var m := cut.done - |prepare|;
    var script := Script(v, r);
    assert script[..cut.done] == prepare + copies[..m];
    ExecConcat(v, prepare, copies[..m]);
    CopyingOver(u, a, u, copies[..m]);
  }

  /** From anything between the end of the cleanup and the end of the copying, the same directories. */
  lemma {:induction false} OverConverges(declared: set<string>, v: Volume, r: Revision, w: Volume)
    requires Flat(declared) && Room(declared, v) && Room(declared, w) && From(declared, r) && (r != [] || v.manifest.Some?)
    requires w.manifest == v.manifest && Over(Cleaned(v, Print(Paths(r))), Needed(r), w)
    ensures Sync(w, r).dirs == Sync(v, r).dirs
  {
    var text := Print(Paths(r));
    var u := Cleaned(v, text);
    NeededUpClosed(r);
    CleanupTidies(Exec(v, Stage(text)), Entries(v), text);
    CleanupOver(u, Needed(r), Exec(w, Stage(text)), Entries(v), text);
    SyncDirs(declared, v, r);
    SyncDirs(declared, w, r);
    assert Cleaned(w, text).dirs + Needed(r) == u.dirs + Needed(r);
  }

  lemma {:induction false} NothingToClean(lines: seq<string>, staging: string)
    requires forall i :: 0 <= i < |lines| ==> lines[i] in Lines(staging)
    ensures Cleanup(lines, staging) == []
  {
    if lines != [] {
      NothingToClean(lines[..|lines| - 1], staging);
    }
  }

  lemma {:induction false} CompleteConverges(declared: set<string>, v: Volume, r: Revision)
    requires Flat(declared) && Room(declared, v) && From(declared, r) && r != []
    ensures Sync(Sync(v, r), r).dirs == Sync(v, r).dirs
  {
    var w, text := Sync(v, r), Print(Paths(r));
    SyncIsExact(declared, v, r);
    ManifestOf(v, r);
    PathsAreLines(declared, r);
    NothingToClean(Entries(w), text);
    SyncDirs(declared, v, r);
    SyncDirs(declared, w, r);
  }

  lemma {:induction false} ChainSpares(v: Volume, y: string, d: string)
    requires y != d && d in v.dirs && EmptyDir(v, d)
    ensures d in ExecAll(v, Chain(y)).dirs && EmptyDir(ExecAll(v, Chain(y)), d)
    decreases |y|
  {
    if !Top(y) {
      UnfoldChain(v, y);
      var v1 := Exec(v, Rmdir(y));
      if Dirname(y) == d || !v1.pruning {
        assert !v1.pruning;
        if LastSlash(y) >= 0 {
          ChainStops(v1, Dirname(y));
        }
      } else if LastSlash(y) >= 0 {
        ChainSpares(v1, Dirname(y), d);
      }
    }
  }

  lemma {:induction false} CleanupSpares(v: Volume, lines: seq<string>, staging: string, d: string)
    requires d in v.dirs && EmptyDir(v, d)
    requires forall f :: f in Dropped(lines, Lines(staging)) ==> Dirname(f) != d
    ensures d in ExecAll(v, Cleanup(lines, staging)).dirs
    ensures EmptyDir(ExecAll(v, Cleanup(lines, staging)), d)
  {
    if lines != [] {
      var init, f := lines[..|lines| - 1], lines[|lines| - 1];
      forall g | g in Dropped(init, Lines(staging)) ensures g in Dropped(lines, Lines(staging)) {
      }
      CleanupSpares(v, init, staging, d);
      var u := ExecAll(v, Cleanup(init, staging));
      ExecConcat(v, Cleanup(init, staging), Clean(f, staging));
      if Inside(f) && f !in Lines(staging) {
        assert f in Dropped(lines, Lines(staging));
        ExecConcat(u, [Remove(f)], Chain(Dirname(f)));
        ExecOne(u, Remove(f));
        ChainSpares(Exec(u, Remove(f)), Dirname(f), d);
      }
    }
  }

  /** Commands of the cleanup never bring anything back. */
  lemma {:induction false} CleaningRemoves(v: Volume, cs: seq<Command>)
    requires forall i :: 0 <= i < |cs| ==> Cleaning(cs[i])
    ensures ExecAll(v, cs).dirs <= v.dirs && ExecAll(v, cs).files.Keys <= v.files.Keys
  {
    if cs != [] {
      CleaningRemoves(v, cs[..|cs| - 1]);
      assert Cleaning(cs[|cs| - 1]);
    }
  }

  lemma {:induction false} PrunedForGood(v: Volume, cs: seq<Command>, m: nat)
    requires m < |cs| && WouldPrune(ExecAll(v, cs[..m]), cs[m])
    requires forall i :: 0 <= i < |cs| ==> Cleaning(cs[i])
    ensures cs[m].dir !in ExecAll(v, cs).dirs
  {
    var w, rest := ExecAll(v, cs[..m]), cs[m + 1..];
    assert cs == cs[..m] + ([cs[m]] + rest);
    ExecConcat(v, cs[..m], [cs[m]] + rest);
    ExecConcat(w, [cs[m]], rest);
    ExecOne(w, cs[m]);
    CleaningRemoves(Exec(w, cs[m]), rest);
  }

  /** Cut off before an rmdir that would carry a chain on and that nothing makes up for, a restart leaves
      the directory for good. */
  lemma {:induction false} CutChainLeavesDirectory(declared: set<string>, v: Volume, r: Revision, cut: Cut)
    requires Flat(declared) && Room(declared, v) && From(declared, r) && CutsChain(v, r, cut)
    requires !MadeUpFor(v, r, Script(v, r)[cut.done].dir)
    ensures var d := Script(v, r)[cut.done].dir;
            d in Sync(Interrupted(v, r, cut), r).dirs && d !in Sync(v, r).dirs
  {
    var text := Print(Paths(r));
    var cs, d, w := Cleanup(Entries(v), text), Script(v, r)[cut.done].dir, Interrupted(v, r, cut);
    CutIsInCleaning(v, r, cut);
    CutState(v, r, cut, cs);
    CleanupIsCleaning(Entries(v), text);
    PrunedForGood(Exec(v, Stage(text)), cs, cut.done - 1);
    CutKeepsManifest(declared, v, r, cut);
    PathsAreLines(declared, r);
    DirectoryStays(w, Entries(v), text, d);
    StaysOrGoes(declared, v, w, r, cut, d);
  }

  lemma {:induction false} StaysOrGoes(declared: set<string>, v: Volume, w: Volume, r: Revision, cut: Cut, d: string)
    requires Flat(declared) && Room(declared, v) && From(declared, r) && (r != [] || v.manifest.Some?)
    requires w == Interrupted(v, r, cut) && w.manifest == v.manifest && d !in Needed(r)
    requires d !in Cleaned(v, Print(Paths(r))).dirs && d in Cleaned(w, Print(Paths(r))).dirs
    ensures d in Sync(w, r).dirs && d !in Sync(v, r).dirs
  {
    RestartConverges(declared, v, r, cut);
    SyncDirs(declared, v, r);
    SyncDirs(declared, w, r);
  }

  lemma {:induction false} DirectoryStays(w: Volume, lines: seq<string>, text: string, d: string)
    requires d in w.dirs && EmptyDir(w, d)
    requires forall f :: f in Dropped(lines, Lines(text)) ==> Dirname(f) != d
    ensures d in ExecAll(Exec(w, Stage(text)), Cleanup(lines, text)).dirs
  {
    assert EmptyDir(Exec(w, Stage(text)), d);
    CleanupSpares(Exec(w, Stage(text)), lines, text, d);
  }

  lemma {:induction false} CutIsInCleaning(v: Volume, r: Revision, cut: Cut)
    requires CutsChain(v, r, cut)
    ensures (r != [] || v.manifest.Some?) && 0 < cut.done <= |Cleanup(Entries(v), Print(Paths(r)))|
  {
    var text := Print(Paths(r));
    ScriptParts(v, r);
    CopiesAreCopying(r, Needed(r));
    RmdirsComeFirst(Script(v, r), [Stage(text)] + Cleanup(Entries(v), text), Copies(r), if r == [] then Drop else Promote, Needed(r), cut.done);
  }

  lemma RmdirsComeFirst(cs: seq<Command>, first: seq<Command>, copies: seq<Command>, last: Command, a: set<string>, n: nat)
    requires cs == first + copies + [last] && !last.Rmdir? && n < |cs| && cs[n].Rmdir?
    requires forall i :: 0 <= i < |copies| ==> Copying(a, copies[i])
    ensures n < |first|
  {
    assert forall i :: |first| <= i < |first| + |copies| ==> cs[i] == copies[i - |first|];
  }

  // ----- restarts -----

  /** A revision that is stopped and run again ends with the directories of an uninterrupted run, besides
      its files and manifest, if and only if it was not cut off before an rmdir that would carry a chain
      on and that nothing makes up for. */
  lemma {:induction false} DirectoriesConvergeExactly(declared: set<string>, v: Volume, r: Revision, cut: Cut)
    requires Flat(declared) && Room(declared, v) && From(declared, r)
    ensures Same(Sync(Interrupted(v, r, cut), r), Sync(v, r))
    ensures Sync(Interrupted(v, r, cut), r).dirs == Sync(v, r).dirs <==>
      !(CutsChain(v, r, cut) && !MadeUpFor(v, r, Script(v, r)[cut.done].dir))
  {
    RestartConverges(declared, v, r, cut);
    if CutsChain(v, r, cut) && !MadeUpFor(v, r, Script(v, r)[cut.done].dir) {
      CutChainLeavesDirectory(declared, v, r, cut);
    } else {
      DirectoriesConverge(declared, v, r, cut);
    }
  }

  lemma {:induction false} DirectoriesConverge(declared: set<string>, v: Volume, r: Revision, cut: Cut)
    requires Flat(declared) && Room(declared, v) && From(declared, r)
    requires CutsChain(v, r, cut) ==> MadeUpFor(v, r, Script(v, r)[cut.done].dir)
    ensures Sync(Interrupted(v, r, cut), r).dirs == Sync(v, r).dirs
  {
    if r == [] && v.manifest.None? {
      SyncIdle(v);
    } else if cut.done >= |Script(v, r)| {
      CompleteCut(declared, v, r);
    } else if cut.done > |Cleanup(Entries(v), Print(Paths(r)))| {
      RestartConverges(declared, v, r, cut);
      CutKeepsManifest(declared, v, r, cut);
      CutInCopying(v, r, cut);
      OverConverges(declared, v, r, Interrupted(v, r, cut));
    } else {
      EarlyCut(declared, v, r, cut);
    }
  }

  lemma {:induction false} CompleteCut(declared: set<string>, v: Volume, r: Revision)
    requires Flat(declared) && Room(declared, v) && From(declared, r)
    ensures Sync(Sync(v, r), r).dirs == Sync(v, r).dirs
  {
    if r == [] {
      ManifestOf(v, r);
      SyncIdle(Sync(v, r));
    } else {
      CompleteConverges(declared, v, r);
    }
  }

  lemma {:induction false} EarlyCut(declared: set<string>, v: Volume, r: Revision, cut: Cut)
    requires Flat(declared) && Room(declared, v) && From(declared, r) && (r != [] || v.manifest.Some?)
    requires CutsChain(v, r, cut) ==> MadeUpFor(v, r, Script(v, r)[cut.done].dir)
    requires cut.done <= |Cleanup(Entries(v), Print(Paths(r)))| && cut.done < |Script(v, r)|
    ensures Sync(Interrupted(v, r, cut), r).dirs == Sync(v, r).dirs
  {
    var w, text := Interrupted(v, r, cut), Print(Paths(r));
    RestartConverges(declared, v, r, cut);
    CutKeepsManifest(declared, v, r, cut);
    if cut.done == 0 {
      CutAtOnce(v, r, cut);
    } else {
      CutInCleaning(declared, v, r, cut, Cleanup(Entries(v), text));
    }
    SyncDirs(declared, v, r);
    SyncDirs(declared, w, r);
  }

  lemma {:induction false} CutAtOnce(v: Volume, r: Revision, cut: Cut)
    requires cut.done == 0 && 0 < |Script(v, r)|
    ensures Cleaned(Interrupted(v, r, cut), Print(Paths(r))) == Cleaned(v, Print(Paths(r)))
  {
    var w, text := Interrupted(v, r, cut), Print(Paths(r));
    assert Script(v, r)[0] == Stage(text) && Script(v, r)[..0] == [];
    assert Exec(w, Stage(text)) == Exec(v, Stage(text));
  }
}
