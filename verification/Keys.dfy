/** Encodings of workspace paths: ConfigMap keys and marker files
    (internal/resources/skillpacks.go, workspace_configmap.go, workspace_files.go). */
module Keys {
  import opened Wrappers

  /** SkillPackCMKey: every "/" becomes "--". */
  function Encode(path: string): (key: string)
    ensures '/' !in key
  {
    if path == "" then ""
    else if path[0] == '/' then "--" + Encode(path[1..])
    else [path[0]] + Encode(path[1..])
  }

  /** The reading that takes every "--", from the left, for a "/". */
  function Decode(key: string): string {
    if key == "" then ""
    else if |key| > 1 && key[0] == '-' && key[1] == '-' then "/" + Decode(key[2..])
    else [key[0]] + Decode(key[1..])
  }

  /** No "-" stands before another "-" or before a "/". */
  predicate Clean(path: string) {
    forall i :: 0 <= i < |path| - 1 && path[i] == '-' ==> path[i + 1] != '-' && path[i + 1] != '/'
  }

  lemma CleanTail(path: string)
    requires path != ""
    ensures Clean(path) <==>
      Clean(path[1..]) && (path[0] == '-' && |path| > 1 ==> path[1] != '-' && path[1] != '/')
  {
    var tail := path[1..];
    if Clean(path) {
      forall i | 0 <= i < |tail| - 1 && tail[i] == '-' ensures tail[i + 1] != '-' && tail[i + 1] != '/' {
        assert path[i + 1] == tail[i];
      }
    } else {
      var i :| 0 <= i < |path| - 1 && path[i] == '-' && (path[i + 1] == '-' || path[i + 1] == '/');
      if i > 0 {
        assert tail[i - 1] == '-' && tail[i] == path[i + 1];
      }
    }
  }

  /** A key can be read back exactly if its path is clean. */
  lemma {:induction false} KeyRoundTrip(path: string)
    ensures Decode(Encode(path)) == path <==> Clean(path)
  {
    if path != "" {
      var tail := path[1..];
      CleanTail(path);
      KeyRoundTrip(tail);
      assert path == [path[0]] + tail;
      if path[0] == '/' {
        assert Encode(path)[2..] == Encode(tail);
        assert Decode(Encode(path)) == "/" + Decode(Encode(tail));
      } else {
        assert Encode(path)[1..] == Encode(tail);
        assert tail != "" && tail[0] == '/' ==> Encode(tail)[0] == '-';
        if path[0] == '-' && tail != "" && (tail[0] == '-' || tail[0] == '/') {
          assert Decode(Encode(path))[0] == '/';
        } else {
          assert Decode(Encode(path)) == [path[0]] + Decode(Encode(tail));
        }
      }
    }
  }

  lemma {:induction false} KeysAreInjective(p: string, q: string)
    requires Clean(p) && Clean(q) && Encode(p) == Encode(q)
    ensures p == q
  {
    KeyRoundTrip(p);
    KeyRoundTrip(q);
  }

  /** Without the condition different paths share a key. */
  lemma KeysCollide()
    ensures Encode("a/b") == Encode("a--b")
    ensures Encode("a/-b") == Encode("a-/b")
  {
    assert "a/b"[1..] == "/b" && "/b"[1..] == "b" && "b"[1..] == "";
    assert Encode("/b") == "--b" && Encode("a/b") == "a--b";
    assert "a--b"[1..] == "--b" && "--b"[1..] == "-b" && "-b"[1..] == "b";
    assert Encode("-b") == "-b" && Encode("--b") == "--b" && Encode("a--b") == "a--b";
    assert "a/-b"[1..] == "/-b" && "/-b"[1..] == "-b";
    assert Encode("/-b") == "---b" && Encode("a/-b") == "a---b";
    assert "a-/b"[1..] == "-/b" && "-/b"[1..] == "/b";
    assert Encode("-/b") == "---b" && Encode("a-/b") == "a---b";
  }

  // ----- keys of additional workspaces -----

  const SEPARATOR := "--ws--"

  function WorkspaceKey(name: string, file: string): string {
    SEPARATOR + name + "--" + file
  }

  predicate DashesAt(s: string, i: int) {
    0 <= i && i + 1 < |s| && s[i] == '-' && s[i + 1] == '-'
  }

  /** strings.Index(s, "--") */
  function FirstDashes(s: string): (at: Option<nat>)
    ensures at.Some? ==> DashesAt(s, at.value)
    ensures forall i :: DashesAt(s, i) ==> at.Some? && at.value <= i
  {
    if |s| < 2 then None
    else if s[0] == '-' && s[1] == '-' then Some(0)
    else
      var rest := FirstDashes(s[1..]);
      assert forall i :: DashesAt(s, i) ==> DashesAt(s[1..], i - 1);
      if rest.Some? then Some(rest.value + 1) else None
  }

  /** Keys set aside for additional workspaces. */
  predicate Reserved(key: string) {
    |key| >= |SEPARATOR| && key[..|SEPARATOR|] == SEPARATOR
  }

  /** ParseAdditionalWorkspaceCMKey */
  function ParseWorkspaceKey(key: string): Option<(string, string)> {
    if !Reserved(key) then None
    else
      var rest := key[|SEPARATOR|..];
      var at := FirstDashes(rest);
      if at.None? then None else Some((rest[..at.value], rest[at.value + 2..]))
  }

  predicate Unbroken(name: string) {
    && (forall i :: 0 <= i < |name| ==> !DashesAt(name, i))
    && (name != "" ==> name[|name| - 1] != '-')
  }

  lemma {:induction false} FirstDashesAfterName(name: string, file: string)
    ensures FirstDashes(name + "--" + file).Some?
    ensures FirstDashes(name + "--" + file).value == |name| <==> Unbroken(name)
  {
    var s := name + "--" + file;
    assert DashesAt(s, |name|);
    var at := FirstDashes(s).value;
    assert forall i :: DashesAt(name, i) ==> DashesAt(s, i);
    if name != "" && name[|name| - 1] == '-' {
      assert DashesAt(s, |name| - 1);
    }
    assert DashesAt(s, at) && at < |name| - 1 ==> DashesAt(name, at);
  }

  /** Parsing returns name and file exactly if the name contains no "--" and does not end in "-". */
  lemma {:induction false} WorkspaceKeyRoundTrip(name: string, file: string)
    ensures ParseWorkspaceKey(WorkspaceKey(name, file)) == Some((name, file)) <==> Unbroken(name)
  {
    var key, rest := WorkspaceKey(name, file), name + "--" + file;
    assert key == SEPARATOR + rest;
    assert key[..|SEPARATOR|] == SEPARATOR && key[|SEPARATOR|..] == rest;
    FirstDashesAfterName(name, file);
    var at := FirstDashes(rest).value;
    assert rest[..|name|] == name && rest[|name| + 2..] == file;
    if at != |name| {
      assert |rest[..at]| != |name|;
    }
  }

  predicate Alphanumeric(c: char) {
    'a' <= c <= 'z' || '0' <= c <= '9'
  }

  /** The schema's pattern for workspace names: [a-z0-9]+(-[a-z0-9]+)* */
  predicate Slug(s: string) {
    && s != "" && Alphanumeric(s[0])
    && (|s| == 1 || Slug(s[1..]) || (s[1] == '-' && Slug(s[2..])))
  }

  lemma {:induction false} SlugShape(s: string)
    requires Slug(s)
    ensures Unbroken(s) && (forall i :: 0 <= i < |s| ==> Alphanumeric(s[i]) || s[i] == '-')
  {
    if |s| > 1 {
      var n := if Slug(s[1..]) then 1 else 2;
      var t := s[n..];
      SlugShape(t);
      forall i | 0 <= i < |s| ensures !DashesAt(s, i) {
        assert s[n] == t[0];
        assert i >= n ==> (DashesAt(s, i) <==> DashesAt(t, i - n));
      }
      assert s[|s| - 1] == t[|t| - 1];
      forall i | 0 <= i < |s| ensures Alphanumeric(s[i]) || s[i] == '-' {
        assert i >= n ==> s[i] == t[i - n];
      }
    }
  }

  /** Every key of a workspace the schema admits parses back. */
  lemma {:induction false} SchemaNamesRoundTrip(name: string, file: string)
    requires Slug(name)
    ensures ParseWorkspaceKey(WorkspaceKey(name, file)) == Some((name, file))
  {
    SlugShape(name);
    WorkspaceKeyRoundTrip(name, file);
  }

  lemma WorkspaceKeysAreReserved(name: string, file: string)
    ensures Reserved(WorkspaceKey(name, file))
  {
    assert WorkspaceKey(name, file) == SEPARATOR + (name + "--" + file);
  }

  /** A clean relative path of the default workspace never takes a key of another workspace. */
  lemma {:induction false} DefaultKeysAreApart(path: string)
    requires Clean(path) && (path != "" ==> path[0] != '/')
    ensures !Reserved(Encode(path))
  {
    var key := Encode(path);
    if Reserved(key) {
      assert key[..6][0] == '-' && key[..6][1] == '-';
      assert key[0] == '-' && key[1] == '-';
      assert path[0] == '-' && Encode(path[1..]) == key[1..];
      assert false;
    }
  }

  // ----- marker files -----

  const MARKERS := "/data/.workspace-managed/"

  /** managedMarkerPath; the default workspace has the empty name. */
  function Marker(workspace: string, path: string): string {
    MARKERS + MarkerName(workspace, path)
  }

  function MarkerName(workspace: string, path: string): string {
    if workspace == "" then Encode(path) else "ws-" + (workspace + "--" + Encode(path))
  }

  lemma SamePrefix(prefix: string, a: string, b: string)
    requires prefix + a == prefix + b
    ensures a == b
  {
    assert (prefix + a)[|prefix|..] == a && (prefix + b)[|prefix|..] == b;
  }

  lemma {:induction false} MarkersAreInjective(workspace: string, p: string, q: string)
    requires Clean(p) && Clean(q) && Marker(workspace, p) == Marker(workspace, q)
    ensures p == q
  {
    SamePrefix(MARKERS, MarkerName(workspace, p), MarkerName(workspace, q));
    if workspace != "" {
      SamePrefix("ws-", workspace + "--" + Encode(p), workspace + "--" + Encode(q));
      SamePrefix(workspace + "--", Encode(p), Encode(q));
    }
    KeysAreInjective(p, q);
  }

  /** Markers of two additional workspaces differ. */
  lemma {:induction false} MarkersNameTheirWorkspace(v: string, p: string, w: string, q: string)
    requires v != "" && w != "" && Unbroken(v) && Unbroken(w) && Marker(v, p) == Marker(w, q)
    ensures v == w
  {
    SamePrefix(MARKERS, MarkerName(v, p), MarkerName(w, q));
    SamePrefix("ws-", v + "--" + Encode(p), w + "--" + Encode(q));
    SameName(v, Encode(p), w, Encode(q));
  }

  lemma {:induction false} SameName(v: string, x: string, w: string, y: string)
    requires Unbroken(v) && Unbroken(w) && v + "--" + x == w + "--" + y
    ensures v == w
  {
    var s, t := v + "--" + x, w + "--" + y;
    FirstDashesAfterName(v, x);
    FirstDashesAfterName(w, y);
    assert s[..|v|] == v && t[..|w|] == w;
  }

  lemma {:induction false} EncodeConcat(p: string, q: string)
    ensures Encode(p + q) == Encode(p) + Encode(q)
  {
    if p == "" {
      assert p + q == q;
    } else {
      var tail := p[1..];
      var head := if p[0] == '/' then "--" else [p[0]];
      EncodeConcat(tail, q);
      assert (p + q)[0] == p[0] && (p + q)[1..] == tail + q;
      assert Encode(p + q) == head + (Encode(tail) + Encode(q));
      assert Encode(p) == head + Encode(tail);
    }
  }

  lemma {:induction false} EncodeFlat(p: string)
    requires '/' !in p
    ensures Encode(p) == p
  {
    if p != "" {
      EncodeFlat(p[1..]);
      assert p == [p[0]] + p[1..];
    }
  }

  /** A marker of the default workspace is that of workspace `name` exactly for the path
      ws-<name>/<path>: there the two do collide. */
  lemma {:induction false} MarkersCollideExactly(p: string, name: string, q: string)
    requires Clean(p) && Clean(q) && Slug(name)
    ensures Marker("", p) == Marker(name, q) <==> p == "ws-" + name + "/" + q
  {
    var twin := "ws-" + name + "/" + q;
    EncodeTwin(name, q);
    TwinIsClean(name, q);
    if Marker("", p) == Marker("", twin) {
      MarkersAreInjective("", p, twin);
    }
  }

  lemma {:induction false} EncodeTwin(name: string, q: string)
    requires Slug(name)
    ensures Encode("ws-" + name + "/" + q) == MarkerName(name, q)
  {
    var flat := "ws-" + name;
    SlugShape(name);
    EncodeFlat(flat);
    EncodeConcat(flat, "/" + q);
    assert flat + "/" + q == flat + ("/" + q);
    assert ("/" + q)[1..] == q;
    assert flat + ("--" + Encode(q)) == "ws-" + (name + "--" + Encode(q));
  }

  lemma {:induction false} TwinIsClean(name: string, q: string)
    requires Slug(name) && Clean(q)
    ensures Clean("ws-" + name + "/" + q)
  {
    SlugShape(name);
    var twin := "ws-" + name + "/" + q;
    var n := 3 + |name|;
    assert twin[3] == name[0] && twin[n - 1] == name[|name| - 1] && twin[n] == '/';
    forall i | 0 <= i < |twin| - 1 && twin[i] == '-' ensures twin[i + 1] != '-' && twin[i + 1] != '/' {
      if 3 <= i < n - 1 {
        assert twin[i] == name[i - 3] && twin[i + 1] == name[i - 2];
        assert !DashesAt(name, i - 3);
      } else if i > n {
        assert twin[i] == q[i - n - 1] && twin[i + 1] == q[i - n];
      }
    }
  }
}
