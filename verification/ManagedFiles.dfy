/** Replace-managed workspace files: the shell helper _ocw_apply and its marker files
    (internal/resources/workspace_files.go). */
module ManagedFiles {
  import opened Wrappers

  datatype Entry = Absent | Regular(content: string) | Symlink | Other

  /** What the helper reads and writes: the destination, and the marker file if there is one. */
  datatype Files = Files(dest: Entry, marker: Option<string>)

  /** $(cat file) drops trailing newlines. */
  function Strip(s: string): string {
    if s != "" && s[|s| - 1] == '\n' then Strip(s[..|s| - 1]) else s
  }

  /** How far a call gets: to the end, with the copy failing or not, or stopped before the rename,
      before the marker is opened, or after `written` characters of the marker. */
  datatype Outcome = Done(copied: bool) | BeforeRename | BeforeMarker | InMarker(written: nat)

  predicate UpToDate(f: Files, hash: string) {
    f.dest.Regular? && f.marker.Some? && Strip(f.marker.value) == hash
  }

  function Prefix(s: string, n: nat): string {
    s[..if n <= |s| then n else |s|]
  }

  /** _ocw_apply; the marker is written whether or not the copy succeeded. */
  function Apply(f: Files, source: string, hash: string, outcome: Outcome): Files {
    if f.dest.Symlink? || f.dest.Other? || UpToDate(f, hash) then f
    else match outcome
      case Done(copied) => Files(if copied then Regular(source) else f.dest, Some(hash + "\n"))
      case BeforeRename => f
      case BeforeMarker => f.(dest := Regular(source))
      case InMarker(n) => Files(Regular(source), Some(Prefix(hash + "\n", n)))
  }

  /** The helper on the data volume. */
  class ManagedFile {
    var dest: Entry
    var marker: Option<string>

    ghost function Now(): Files
      reads this
    {
      Files(dest, marker)
    }

    constructor (dest: Entry, marker: Option<string>)
      ensures Now() == Files(dest, marker)
    {
      this.dest, this.marker := dest, marker;
    }

    method OcwApply(source: string, hash: string, outcome: Outcome)
      modifies this
      ensures Now() == Apply(old(Now()), source, hash, outcome)
    {
      if dest.Symlink? {
        return;
      }
      if !dest.Absent? && !dest.Regular? {
        return;
      }
      if dest.Regular? && marker.Some? && Strip(marker.value) == hash {
        return;
      }
      if outcome.BeforeRename? {
        return;
      }
      if !(outcome.Done? && !outcome.copied) {
        dest := Regular(source);
      }
      if outcome.BeforeMarker? {
        return;
      }
      var text := hash + "\n";
      marker := Some(if outcome.InMarker? then Prefix(text, outcome.written) else text);
    }
  }

  // ----- runs -----

  datatype Event = Applied(source: string, outcome: Outcome) | UserPuts(entry: Entry) | MarkerLost

  type Hash = string -> string

  function Step(hash: Hash, f: Files, e: Event): Files {
    match e
    case Applied(source, outcome) => Apply(f, source, hash(source), outcome)
    case UserPuts(entry) => f.(dest := entry)
    case MarkerLost => f.(marker := None)
  }

  function Run(hash: Hash, f: Files, events: seq<Event>): Files {
    if events == [] then f else Step(hash, Run(hash, f, events[..|events| - 1]), events[|events| - 1])
  }

  // ----- what it is meant to do, without hashes and markers -----

  /** The destination and the source that was last applied to it. */
  datatype Ideal = Ideal(dest: Entry, last: Option<string>)

  predicate Rewrites(s: Ideal, source: string) {
    s.dest.Absent? || (s.dest.Regular? && s.last != Some(source))
  }

  /** Rewrite exactly when the destination is missing, was never applied, or the source is another one. */
  function IdealStep(s: Ideal, e: Event, hashLength: nat): Ideal {
    match e
    case UserPuts(entry) => s.(dest := entry)
    case MarkerLost => s.(last := None)
    case Applied(source, outcome) =>
      if !Rewrites(s, source) then s
      else match outcome
        case Done(copied) => Ideal(if copied then Regular(source) else s.dest, Some(source))
        case BeforeRename => s
        case BeforeMarker => s.(dest := Regular(source))
        case InMarker(n) => Ideal(Regular(source), if n < hashLength then None else Some(source))
  }

  function IdealRun(s: Ideal, events: seq<Event>, hashLength: nat): Ideal {
    if events == [] then s
    else IdealStep(IdealRun(s, events[..|events| - 1], hashLength), events[|events| - 1], hashLength)
  }

  // ----- the helper refines it -----

  /** The hash tells the sources of the run apart, and prints as `n` characters on one line. */
  ghost predicate Discerning(hash: Hash, n: nat, sources: set<string>) {
    && (forall a, b :: a in sources && b in sources && hash(a) == hash(b) ==> a == b)
    && (forall a :: a in sources ==> |hash(a)| == n > 0 && '\n' !in hash(a))
  }

  predicate From(sources: set<string>, events: seq<Event>) {
    forall i :: 0 <= i < |events| && events[i].Applied? ==> events[i].source in sources
  }

  ghost predicate Abstracts(hash: Hash, n: nat, sources: set<string>, f: Files, s: Ideal) {
    && f.dest == s.dest
    && (s.last.Some? ==> s.last.value in sources && f.marker.Some? && Strip(f.marker.value) == hash(s.last.value))
    && (s.last.None? ==> f.marker.None? || |Strip(f.marker.value)| < n)
  }

  lemma {:induction false} StripLine(h: string)
    requires '\n' !in h
    ensures Strip(h) == h && Strip(h + "\n") == h
  {
    assert (h + "\n")[..|h|] == h;
  }

  lemma {:induction false} StripTorn(h: string, n: nat)
    requires '\n' !in h
    ensures Strip(Prefix(h + "\n", n)) == if n < |h| then h[..n] else h
  {
    StripLine(h);
    if n < |h| {
      StripLine(h[..n]);
      assert (h + "\n")[..n] == h[..n];
    } else if n == |h| {
      assert (h + "\n")[..n] == h;
    } else {
      assert Prefix(h + "\n", n) == h + "\n";
    }
  }

  lemma {:induction false} StepRefines(hash: Hash, n: nat, sources: set<string>, f: Files, s: Ideal, e: Event)
    requires Discerning(hash, n, sources) && Abstracts(hash, n, sources, f, s) && From(sources, [e])
    ensures Abstracts(hash, n, sources, Step(hash, f, e), IdealStep(s, e, n))
  {
    if e.Applied? {
      assert [e][0] == e;
      var h := hash(e.source);
      StripLine(h);
      if e.outcome.InMarker? {
        StripTorn(h, e.outcome.written);
      }
    }
  }

  /** Over every run of applies, interruptions, edits and deletions the helper does what it is meant
      to do. */
  lemma {:induction false} HelperRefinesIdeal(hash: Hash, n: nat, sources: set<string>, dest: Entry, events: seq<Event>)
    requires Discerning(hash, n, sources) && From(sources, events)
    ensures Abstracts(hash, n, sources, Run(hash, Files(dest, None), events), IdealRun(Ideal(dest, None), events, n))
  {
    if events != [] {
      var init, e := events[..|events| - 1], events[|events| - 1];
      HelperRefinesIdeal(hash, n, sources, dest, init);
      assert From(sources, [e]);
      StepRefines(hash, n, sources, Run(hash, Files(dest, None), init), IdealRun(Ideal(dest, None), init, n), e);
    }
  }

  // ----- consequences -----

  predicate SameSource(events: seq<Event>, source: string) {
    forall i :: 0 <= i < |events| ==> events[i].Applied? && events[i].source == source
  }

  /** An edit survives every apply of the source it was made over, interrupted or not. */
  lemma {:induction false} EditsSurvive(hash: Hash, f: Files, source: string, edit: string, again: seq<Event>)
    requires !f.dest.Symlink? && !f.dest.Other? && '\n' !in hash(source) && SameSource(again, source)
    ensures var g := Apply(f, source, hash(source), Done(true));
            Run(hash, g.(dest := Regular(edit)), again) == g.(dest := Regular(edit))
  {
    StripLine(hash(source));
    if again != [] {
      EditsSurvive(hash, f, source, edit, again[..|again| - 1]);
    }
  }

  /** A symlink or any other non-regular destination is never changed by an apply. */
  lemma {:induction false} SpecialFilesStay(hash: Hash, f: Files, events: seq<Event>)
    requires f.dest.Symlink? || f.dest.Other?
    requires forall i :: 0 <= i < |events| ==> events[i].Applied?
    ensures Run(hash, f, events) == f
  {
    if events != [] {
      SpecialFilesStay(hash, f, events[..|events| - 1]);
    }
  }

  /** Applying the same source again after an attempt that went wrong brings the content, except
      after a copy that failed over an existing file. */
  lemma {:induction false} RetryConverges(hash: Hash, f: Files, source: string, outcome: Outcome)
    requires !f.dest.Symlink? && !f.dest.Other? && !UpToDate(f, hash(source)) && '\n' !in hash(source)
    ensures Apply(Apply(f, source, hash(source), outcome), source, hash(source), Done(true)).dest == Regular(source)
       <==> !(outcome == Done(false) && f.dest.Regular? && f.dest.content != source)
  {
    StripLine(hash(source));
  }

  /** Such a copy is never made up for: the marker already claims it, so the old content stays until
      the source changes. */
  lemma {:induction false} FailedCopyIsForgotten(hash: Hash, f: Files, source: string, again: seq<Event>)
    requires f.dest.Regular? && !UpToDate(f, hash(source)) && '\n' !in hash(source) && SameSource(again, source)
    ensures var g := Apply(f, source, hash(source), Done(false));
            g.dest == f.dest && UpToDate(g, hash(source)) && Run(hash, g, again) == g
  {
    StripLine(hash(source));
    if again != [] {
      FailedCopyIsForgotten(hash, f, source, again[..|again| - 1]);
    }
  }
}
