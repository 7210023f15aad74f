/** Quoting of shell arguments (internal/resources/statefulset.go) against sections 2.2.1 and 2.2.2 of
    the POSIX Shell Command Language. */
module ShellQuote {
  import opened Wrappers
  import opened Keys

  /** strings.ReplaceAll(s, "'", "'\\''") */
  function Escape(s: string): string {
    if s == "" then ""
    else (if s[0] == '\'' then "'\\''" else [s[0]]) + Escape(s[1..])
  }

  function Quote(s: string): string {
    "'" + Escape(s) + "'"
  }

  // ----- the shell's side -----

  datatype State = Between | Word(text: string) | Quoted(text: string)

  predicate Blank(c: char) {
    c == ' ' || c == '\t'
  }

  /** Characters that mean something besides themselves when unquoted, other than blanks, the
      backslash and the single quote. */
  predicate Special(c: char) {
    || c == '|' || c == '&' || c == ';' || c == '<' || c == '>' || c == '(' || c == ')' || c == '$'
    || c == '`' || c == '"' || c == '\n' || c == '*' || c == '?' || c == '[' || c == '#' || c == '~'
    || c == '=' || c == '%'
  }

  /** Split a command line into words and remove quotes. None: an unfinished quotation, or an
      unquoted special character, which is not a matter of plain words. */
  function Scan(s: string, state: State): Option<seq<string>> {
    if s == "" then
      match state
      case Between => Some([])
      case Word(text) => Some([text])
      case Quoted(_) => None
    else if state.Quoted? then
      if s[0] == '\'' then Scan(s[1..], Word(state.text)) else Scan(s[1..], Quoted(state.text + [s[0]]))
    else
      var text := if state.Word? then state.text else "";
      if Blank(s[0]) then
        var rest := Scan(s[1..], Between);
        if state.Word? && rest.Some? then Some([text] + rest.value) else rest
      else if s[0] == '\'' then Scan(s[1..], Quoted(text))
      else if s[0] == '\\' then
        if |s| == 1 then None
        else if s[1] == '\n' then Scan(s[2..], state)
        else Scan(s[2..], Word(text + [s[1]]))
      else if Special(s[0]) then None
      else Scan(s[1..], Word(text + [s[0]]))
  }

  function Words(line: string): Option<seq<string>> {
    Scan(line, Between)
  }

  // ----- quoting and reading -----

  lemma {:induction false} ReadEscapedQuote(tail: string, text: string)
    ensures Scan("'\\''" + tail, Quoted(text)) == Scan(tail, Quoted(text + ['\'']))
  {
    var line := "'\\''" + tail;
    assert line[1..][2..][1..] == tail;
    assert Scan(line, Quoted(text)) == Scan(line[1..], Word(text));
    assert Scan(line[1..], Word(text)) == Scan(line[1..][2..], Word(text + ['\'']));
  }

  lemma {:induction false} ReadEscaped(s: string, rest: string, text: string)
    ensures Scan(Escape(s) + "'" + rest, Quoted(text)) == Scan(rest, Word(text + s))
    decreases |s|
  {
    var line := Escape(s) + "'" + rest;
    if s == "" {
      assert line[1..] == rest;
      assert text + s == text;
    } else {
      var tail := Escape(s[1..]) + "'" + rest;
      ReadEscaped(s[1..], rest, text + [s[0]]);
      assert text + [s[0]] + s[1..] == text + s;
      if s[0] == '\'' {
        assert line == "'\\''" + tail;
        ReadEscapedQuote(tail, text);
      } else {
        assert line == [s[0]] + tail;
        assert line[1..] == tail;
      }
    }
  }

  /** A quoted string adds exactly itself to the word it stands in. */
  lemma {:induction false} ReadQuoted(s: string, rest: string, state: State)
    requires !state.Quoted?
    ensures Scan(Quote(s) + rest, state) == Scan(rest, Word((if state.Word? then state.text else "") + s))
  {
    var line := Quote(s) + rest;
    assert line[1..] == Escape(s) + "'" + rest;
    ReadEscaped(s, rest, if state.Word? then state.text else "");
  }

  /** Reading a quoted string gives the string, as one word. */
  lemma {:induction false} QuoteRoundTrip(s: string)
    ensures Words(Quote(s)) == Some([s])
  {
    ReadQuoted(s, "", Between);
    assert Quote(s) + "" == Quote(s);
    assert "" + s == s;
  }

  predicate Ordinary(s: string) {
    forall i :: 0 <= i < |s| ==> !Blank(s[i]) && !Special(s[i]) && s[i] != '\'' && s[i] != '\\'
  }

  lemma {:induction false} ReadOrdinary(s: string, rest: string, text: string)
    requires Ordinary(s)
    ensures Scan(s + rest, Word(text)) == Scan(rest, Word(text + s))
    decreases |s|
  {
    if s == "" {
      assert s + rest == rest && text + s == text;
    } else {
      assert (s + rest)[1..] == s[1..] + rest;
      ReadOrdinary(s[1..], rest, text + [s[0]]);
      assert text + [s[0]] + s[1..] == text + s;
    }
  }

  // ----- rendered lines -----

  /** One argument of a rendered line: ordinary text followed by a quoted string. */
  datatype Argument = Argument(plain: string, quoted: Option<string>)

  function Render(a: Argument): string {
    a.plain + if a.quoted.Some? then Quote(a.quoted.value) else ""
  }

  function Meaning(a: Argument): string {
    a.plain + if a.quoted.Some? then a.quoted.value else ""
  }

  predicate Renderable(a: Argument) {
    Ordinary(a.plain) && (a.plain != "" || a.quoted.Some?)
  }

  function RenderLine(args: seq<Argument>): string
    requires args != []
  {
    if |args| == 1 then Render(args[0]) else Render(args[0]) + " " + RenderLine(args[1..])
  }

  function Meanings(args: seq<Argument>): seq<string> {
    seq(|args|, i requires 0 <= i < |args| => Meaning(args[i]))
  }

  lemma {:induction false} ReadArgument(a: Argument, rest: string)
    requires Renderable(a)
    ensures Scan(Render(a) + rest, Between) == Scan(rest, Word(Meaning(a)))
  {
    if a.quoted.None? {
      assert Render(a) == a.plain && Meaning(a) == a.plain;
      ReadFirst(a.plain, rest);
    } else {
      var tail := Quote(a.quoted.value) + rest;
      assert Render(a) + rest == a.plain + tail;
      if a.plain == "" {
        assert Render(a) + rest == tail;
        ReadQuoted(a.quoted.value, rest, Between);
      } else {
        ReadFirst(a.plain, tail);
        ReadQuoted(a.quoted.value, rest, Word(a.plain));
      }
    }
  }

  lemma {:induction false} ReadFirst(s: string, rest: string)
    requires s != "" && Ordinary(s)
    ensures Scan(s + rest, Between) == Scan(rest, Word(s))
  {
    assert (s + rest)[1..] == s[1..] + rest && (s + rest)[0] == s[0];
    assert "" + [s[0]] == [s[0]];
    assert Scan(s + rest, Between) == Scan(s[1..] + rest, Word([s[0]]));
    ReadOrdinary(s[1..], rest, [s[0]]);
    assert [s[0]] + s[1..] == s;
  }

  /** A rendered line reads back as the meanings of its arguments, whatever is quoted. */
  lemma {:induction false} LineRoundTrip(args: seq<Argument>)
    requires args != [] && forall i :: 0 <= i < |args| ==> Renderable(args[i])
    ensures Words(RenderLine(args)) == Some(Meanings(args))
  {
    if |args| == 1 {
      ReadArgument(args[0], "");
      assert Render(args[0]) + "" == Render(args[0]);
      assert Meanings(args) == [Meaning(args[0])];
    } else {
      var rest := " " + RenderLine(args[1..]);
      assert RenderLine(args) == Render(args[0]) + rest;
      ReadArgument(args[0], rest);
      assert rest[1..] == RenderLine(args[1..]);
      LineRoundTrip(args[1..]);
      assert Meanings(args) == [Meaning(args[0])] + Meanings(args[1..]);
    }
  }

  /** managedFileApplyLine: only the workspace root stands unquoted. */
  function ApplyArguments(srcKey: string, root: string, workspace: string, path: string, hash: string): seq<Argument> {
    [Argument("_ocw_apply", None),
     Argument("/workspace-init/", Some(srcKey)),
     Argument(root + "/", Some(path)),
     Argument("", Some(hash)),
     Argument("", Some(Marker(workspace, path)))]
  }

  function ApplyLine(srcKey: string, root: string, workspace: string, path: string, hash: string): string {
    RenderLine(ApplyArguments(srcKey, root, workspace, path, hash))
  }

  /** Every rendered line calls _ocw_apply with its four intended arguments. */
  lemma {:induction false} ApplyLineRoundTrip(srcKey: string, root: string, workspace: string, path: string, hash: string)
    requires Ordinary(root)
    ensures Words(ApplyLine(srcKey, root, workspace, path, hash)) == Some([
      "_ocw_apply", "/workspace-init/" + srcKey, root + "/" + path, hash, Marker(workspace, path)])
  {
    var args := ApplyArguments(srcKey, root, workspace, path, hash);
    ApplyIsRenderable(srcKey, root, workspace, path, hash);
    ApplyMeanings(srcKey, root, workspace, path, hash);
    LineRoundTrip(args);
  }

  lemma {:induction false} ApplyIsRenderable(srcKey: string, root: string, workspace: string, path: string, hash: string)
    requires Ordinary(root)
    ensures var args := ApplyArguments(srcKey, root, workspace, path, hash);
            forall i :: 0 <= i < |args| ==> Renderable(args[i])
  {
    assert Ordinary("_ocw_apply") && Ordinary("/workspace-init/") && Ordinary(root + "/");
  }

  lemma {:induction false} ApplyMeanings(srcKey: string, root: string, workspace: string, path: string, hash: string)
    ensures Meanings(ApplyArguments(srcKey, root, workspace, path, hash)) ==
      ["_ocw_apply", "/workspace-init/" + srcKey, root + "/" + path, hash, Marker(workspace, path)]
  {
    var args := ApplyArguments(srcKey, root, workspace, path, hash);
    assert "_ocw_apply" + "" == "_ocw_apply" && "" + hash == hash && "" + Marker(workspace, path) == Marker(workspace, path);
    assert Meanings(args) == ["_ocw_apply", "/workspace-init/" + srcKey, root + "/" + path, hash, Marker(workspace, path)];
  }

  /** The roots the operator writes unquoted are ordinary text. */
  lemma {:induction false} RootsAreOrdinary(name: string)
    requires Slug(name)
    ensures Ordinary("/data/workspace") && Ordinary("/data/workspace-" + name)
  {
    SlugShape(name);
    var root := "/data/workspace-" + name;
    forall i | 0 <= i < |root| ensures !Blank(root[i]) && !Special(root[i]) && root[i] != '\'' && root[i] != '\\' {
      if i >= 16 {
        assert root[i] == name[i - 16];
      }
    }
  }
}
