/** The enriched config, path by path: what stands where the user set nothing, and that nothing else is
    added. */
module EnrichedPaths {
  import opened Wrappers
  import opened ConfigMerge
  import opened Enrichment
  import opened ConfigExtension

  function Lookup(f: Fields, k: string): Option<Json> {
    if k in f then Some(f[k]) else None
  }

  lemma {:induction false} GetBelow(f: Fields, k: string, p: Path)
    ensures Get(JObj(f), [k] + p) == Get(JObj(Child(f, k)), p)
  {
    assert ([k] + p)[1..] == p;
  }

  lemma {:induction false} Get1(f: Fields, k: string)
    ensures Get(JObj(f), [k]) == Lookup(f, k)
  {
    assert [k][1..] == [];
  }

  /** The values at paths of two, three and four keys. */
  function At2(f: Fields, k: string, j: string): Option<Json> {
    Lookup(Child(f, k), j)
  }

  function At3(f: Fields, k: string, j: string, l: string): Option<Json> {
    At2(Child(f, k), j, l)
  }

  function At4(f: Fields, k: string, j: string, l: string, m: string): Option<Json> {
    At3(Child(f, k), j, l, m)
  }

  lemma {:induction false} ValuesAtPaths(f: Fields, k: string, j: string, l: string, m: string)
    ensures Get(JObj(f), [k, j]) == At2(f, k, j)
    ensures Get(JObj(f), [k, j, l]) == At3(f, k, j, l)
    ensures Get(JObj(f), [k, j, l, m]) == At4(f, k, j, l, m)
  {
    PathOf2(f, k, j);
    PathOf2(Child(f, k), j, l);
    PathOf2(Child(Child(f, k), j), l, m);
    assert [k, j, l] == [k] + [j, l] && [k, j, l, m] == [k] + [j, l, m] && [j, l, m] == [j] + [l, m];
    GetBelow(f, k, [j, l]);
    GetBelow(f, k, [j, l, m]);
    GetBelow(Child(f, k), j, [l, m]);
  }

  lemma {:induction false} PathOf2(f: Fields, k: string, j: string)
    ensures Get(JObj(f), [k, j]) == At2(f, k, j)
  {
    assert [k, j] == [k] + [j];
    GetBelow(f, k, [j]);
    Get1(Child(f, k), j);
  }

  /** What the user set, or else `v`. */
  function Or(given: Option<Json>, v: Json): Option<Json> {
    if given.Some? then given else Some(v)
  }

  // ----- gateway -----

  /** gateway.mode and gateway.bind. */
  lemma {:induction false} GatewayFilled(s: Settings, c: Fields)
    ensures At2(Enrich(s, c), "gateway", "mode") == Or(At2(c, "gateway", "mode"), JStr("local"))
    ensures At2(Enrich(s, c), "gateway", "bind") == Or(At2(c, "gateway", "bind"), JStr(if s.proxy then "loopback" else "0.0.0.0"))
  {
    SectionsOf(s, c);
    ModeAndBind(s, Child(c, "gateway"));
  }

  lemma {:induction false} ModeAndBind(s: Settings, g: Fields)
    ensures var h := GatewaySection(s, g);
            && Lookup(h, "mode") == Or(Lookup(g, "mode"), JStr("local"))
            && Lookup(h, "bind") == Or(Lookup(g, "bind"), JStr(if s.proxy then "loopback" else "0.0.0.0"))
  {
    var first := FirstGateway(s, g);
    assert Lookup(first, "mode") == Or(Lookup(g, "mode"), JStr("local"));
    assert Lookup(first, "bind") == Lookup(g, "bind");
    BindAfter(s, first);
  }

  lemma {:induction false} BindAfter(s: Settings, g: Fields)
    ensures var h := LaterGateway(s, g);
            && Lookup(h, "mode") == Lookup(g, "mode")
            && Lookup(h, "bind") == Or(Lookup(g, "bind"), JStr(if s.proxy then "loopback" else "0.0.0.0"))
  {
  }

  /** gateway.controlUi.allowedOrigins: the derived origins, in order. */
  lemma {:induction false} OriginsFilled(s: Settings, c: Fields, origins: seq<Json>)
    requires |origins| == |s.origins| > 0 && forall i :: 0 <= i < |origins| ==> origins[i] == JStr(s.origins[i])
    ensures At3(Enrich(s, c), "gateway", "controlUi", "allowedOrigins") ==
            Or(At3(c, "gateway", "controlUi", "allowedOrigins"), JArr(origins))
  {
    SectionsOf(s, c);
    GatewayKeys(s, Child(c, "gateway"));
    assert origins == Strings(s.origins);
  }

  /** gateway.trustedProxies: the user's list, and the loopback range if it was missing. */
  lemma {:induction false} ProxiesFilled(s: Settings, c: Fields)
    ensures var given := At2(c, "gateway", "trustedProxies");
            var listed := if given.Some? && given.value.JArr? then given.value.items else [];
            At2(Enrich(s, c), "gateway", "trustedProxies") ==
            Some(JArr(if JStr("127.0.0.0/8") in listed then listed else listed + [JStr("127.0.0.0/8")]))
  {
    SectionsOf(s, c);
    GatewayKeys(s, Child(c, "gateway"));
  }

  /** gateway.auth: the mode and token of token authentication, unless the user has a token or a trusted
      proxy, and the tailnet login. */
  lemma {:induction false} AuthFilled(s: Settings, c: Fields)
    ensures var d, auth := Enrich(s, c), AuthOf(c);
            var login := s.token != "" && !HasToken(auth) && !ProxyMode(auth);
            && At3(d, "gateway", "auth", "mode") ==
               (if login then Or(At3(c, "gateway", "auth", "mode"), JStr("token")) else At3(c, "gateway", "auth", "mode"))
            && At3(d, "gateway", "auth", "token") == (if login then Some(JStr(s.token)) else At3(c, "gateway", "auth", "token"))
            && At3(d, "gateway", "auth", "allowTailscale") ==
               (if s.tailscaleSso then Or(At3(c, "gateway", "auth", "allowTailscale"), JBool(true)) else At3(c, "gateway", "auth", "allowTailscale"))
  {
    AuthAfter(s, c);
    AuthValues(s, AuthOf(c));
  }

  lemma {:induction false} AuthValues(s: Settings, auth: Fields)
    ensures var out := AuthSection(s, auth);
            var login := s.token != "" && !HasToken(auth) && !ProxyMode(auth);
            && Lookup(out, "mode") == (if login then Or(Lookup(auth, "mode"), JStr("token")) else Lookup(auth, "mode"))
            && Lookup(out, "token") == (if login then Some(JStr(s.token)) else Lookup(auth, "token"))
            && Lookup(out, "allowTailscale") ==
               (if s.tailscaleSso then Or(Lookup(auth, "allowTailscale"), JBool(true)) else Lookup(auth, "allowTailscale"))
  {
  }

  // ----- metrics -----

  /** diagnostics.otel: switched on and pointed at the collector, unless it is no object or switched off. */
  lemma {:induction false} OTelFilled(s: Settings, c: Fields)
    requires s.metrics
    ensures var d, otel := Enrich(s, c), At2(c, "diagnostics", "otel");
            var off := otel.Some? && (otel.value.JObj? ==> Lookup(otel.value.fields, "enabled") == Some(JBool(false)));
            if off then At2(d, "diagnostics", "otel") == otel
            else
              && At3(d, "diagnostics", "otel", "enabled") == Or(At3(c, "diagnostics", "otel", "enabled"), JBool(true))
              && At3(d, "diagnostics", "otel", "metrics") == Or(At3(c, "diagnostics", "otel", "metrics"), JBool(true))
              && At3(d, "diagnostics", "otel", "endpoint") == Or(At3(c, "diagnostics", "otel", "endpoint"), JStr("http://localhost:4318"))
  {
    var diagnostics := Child(c, "diagnostics");
    DiagnosticsOf(s, c);
    OTelIsOff(diagnostics);
    OTelValues(Child(diagnostics, "otel"));
  }

  lemma {:induction false} DiagnosticsOf(s: Settings, c: Fields)
    requires s.metrics
    ensures Child(Enrich(s, c), "diagnostics") == OTelSection(Child(c, "diagnostics"))
  {
    SectionsOf(s, c);
  }

  lemma {:induction false} OTelIsOff(diagnostics: Fields)
    ensures var otel := Lookup(diagnostics, "otel");
            OptedOut(diagnostics) <==> otel.Some? && (otel.value.JObj? ==> Lookup(otel.value.fields, "enabled") == Some(JBool(false)))
  {
  }

  lemma {:induction false} OTelValues(otel: Fields)
    ensures var out := FillOTel(otel);
            && Lookup(out, "enabled") == Or(Lookup(otel, "enabled"), JBool(true))
            && Lookup(out, "metrics") == Or(Lookup(otel, "metrics"), JBool(true))
            && Lookup(out, "endpoint") == Or(Lookup(otel, "endpoint"), JStr("http://localhost:4318"))
  {
  }

  // ----- browser -----

  /** browser: the default profile, attaching only, and both profiles pointed at the sidecar unless they
      name a URL or a port. */
  lemma {:induction false} BrowserFilled(s: Settings, c: Fields)
    requires s.chromium
    ensures At2(Enrich(s, c), "browser", "defaultProfile") == Or(At2(c, "browser", "defaultProfile"), JStr("default"))
    ensures At2(Enrich(s, c), "browser", "attachOnly") == Or(At2(c, "browser", "attachOnly"), JBool(true))
    ensures ProfileFilled(c, Enrich(s, c), "default") && ProfileFilled(c, Enrich(s, c), "chrome")
  {
    SectionsOf(s, c);
    BrowserValues(Child(c, "browser"));
    ProfileValue(Child(Child(Child(c, "browser"), "profiles"), "default"));
    ProfileValue(Child(Child(Child(c, "browser"), "profiles"), "chrome"));
  }

  predicate ProfileFilled(c: Fields, d: Fields, name: string) {
    At4(d, "browser", "profiles", name, "cdpUrl") ==
    if At4(c, "browser", "profiles", name, "cdpPort").Some? then At4(c, "browser", "profiles", name, "cdpUrl")
    else Or(At4(c, "browser", "profiles", name, "cdpUrl"), JStr("${OPENCLAW_CHROMIUM_CDP}"))
  }

  lemma {:induction false} ProfileValue(p: Fields)
    ensures Lookup(Profile(p), "cdpUrl") ==
            if Lookup(p, "cdpPort").Some? then Lookup(p, "cdpUrl") else Or(Lookup(p, "cdpUrl"), JStr("${OPENCLAW_CHROMIUM_CDP}"))
  {
  }

  lemma {:induction false} BrowserValues(b: Fields)
    ensures var out := BrowserSection(b);
            && Lookup(out, "defaultProfile") == Or(Lookup(b, "defaultProfile"), JStr("default"))
            && Lookup(out, "attachOnly") == Or(Lookup(b, "attachOnly"), JBool(true))
            && Child(Child(out, "profiles"), "default") == Profile(Child(Child(b, "profiles"), "default"))
            && Child(Child(out, "profiles"), "chrome") == Profile(Child(Child(b, "profiles"), "chrome"))
  {
    var b1 := Default(Default(b, "defaultProfile", JStr("default")), "attachOnly", JBool(true));
    assert Child(b1, "profiles") == Child(b, "profiles");
    ProfileValues(Child(b, "profiles"));
  }

  lemma {:induction false} ProfileValues(p: Fields)
    ensures var out := WithProfile(WithProfile(p, "default"), "chrome");
            Child(out, "default") == Profile(Child(p, "default")) && Child(out, "chrome") == Profile(Child(p, "chrome"))
  {
  }

  // ----- skill packs -----

  /** skills.entries: every entry of the packs that the user has not set. */
  lemma {:induction false} EntriesFilled(s: Settings, c: Fields, k: string)
    requires k in s.entries
    ensures At3(Enrich(s, c), "skills", "entries", k) == Or(At3(c, "skills", "entries", k), s.entries[k])
  {
    SectionsOf(s, c);
  }

  // ----- and nothing else -----

  /** Whatever is in `b` and not in `a` lies on the way to one of the paths `added`, or below one. */
  ghost predicate OnlyAdds(a: Fields, b: Fields, added: set<Path>) {
    forall p: Path :: Get(JObj(b), p).Some? && Get(JObj(a), p).None? ==> exists q :: q in added && Comparable(p, q)
  }

  function Under(k: string, added: set<Path>): set<Path> {
    set q | q in added :: [k] + q
  }

  lemma {:induction false} ComparableBelow(k: string, p: Path, q: Path)
    requires Comparable(p, q)
    ensures Comparable([k] + p, [k] + q) && Comparable([k], [k] + q)
  {
    assert ([k] + p)[1..] == p && ([k] + q)[1..] == q;
    ComparableTails([k] + p, [k] + q);
    assert ([k] + q)[..1] == [k];
  }

  /** One more field set. */
  lemma {:induction false} SetOnlyAdds(a: Fields, b: Fields, k: string, v: Json, added: set<Path>)
    requires OnlyAdds(a, b, added) && [k] in added
    ensures OnlyAdds(a, b[k := v], added) && OnlyAdds(a, Default(b, k, v), added)
  {
    var d := b[k := v];
    forall p: Path | Get(JObj(d), p).Some? && Get(JObj(a), p).None? ensures exists q :: q in added && Comparable(p, q) {
      if p[0] != k {
        assert Get(JObj(d), p) == Get(JObj(b), p);
      } else {
        assert p[..1] == [k];
        assert Comparable(p, [k]);
      }
    }
  }

  /** One more object written over `b`, which extends `a`. */
  lemma {:induction false} PutOnlyAdds(a: Fields, b: Fields, k: string, x: Fields, below: set<Path>, added: set<Path>)
    requires OnlyAdds(a, b, added) && OnlyAdds(Child(a, k), x, below) && below != {}
    requires forall q :: q in below ==> [k] + q in added
    ensures OnlyAdds(a, Put(b, k, x), added)
  {
    var d := Put(b, k, x);
    forall p: Path | Get(JObj(d), p).Some? && Get(JObj(a), p).None? ensures exists q :: q in added && Comparable(p, q) {
      if p[0] != k {
        assert Get(JObj(d), p) == Get(JObj(b), p);
      } else if |p| == 1 {
        var q :| q in below;
        assert p == [k];
        ComparableBelow(k, q, q);
        assert [k] + q in added;
      } else {
        var tail: Path := p[1..];
        assert p == [k] + tail;
        GetBelow(a, k, tail);
        GetBelow(d, k, tail);
        assert Child(d, k) == x;
        var q :| q in below && Comparable(tail, q);
        ComparableBelow(k, tail, q);
        assert [k] + q in added;
      }
    }
  }

  lemma OnlyAddsItself(a: Fields, added: set<Path>)
    ensures OnlyAdds(a, a, added)
  {
  }

  /** Paths of one key. */
  function Keys(keys: set<string>): set<Path> {
    set k | k in keys :: [k]
  }

  function AuthAdded(s: Settings): set<Path> {
    (if s.token != "" then Keys({"mode", "token"}) else {}) + (if s.tailscaleSso then Keys({"allowTailscale"}) else {})
  }

  function GatewayAdded(s: Settings): set<Path> {
    Keys({"mode", "bind", "trustedProxies"}) + Under("auth", AuthAdded(s))
    + (if s.origins != [] then Under("controlUi", Keys({"allowedOrigins"})) else {})
  }

  function OTelAdded(): set<Path> {
    Under("otel", Keys({"enabled", "metrics", "endpoint"}))
  }

  function BrowserAdded(): set<Path> {
    Keys({"defaultProfile", "attachOnly"}) + Under("profiles", ProfilesAdded())
  }

  function ProfilesAdded(): set<Path> {
    Under("default", Keys({"cdpUrl"})) + Under("chrome", Keys({"cdpUrl"}))
  }

  function SkillsAdded(s: Settings): set<Path> {
    Under("entries", Keys(s.entries.Keys))
  }

  /** All paths the pipeline may fill. */
  function Added(s: Settings): set<Path> {
    Under("gateway", GatewayAdded(s))
    + (if s.metrics then Under("diagnostics", OTelAdded()) else {})
    + (if s.chromium then Under("browser", BrowserAdded()) else {})
    + (if s.entries != map[] then Under("skills", SkillsAdded(s)) else {})
  }

  lemma KeyIn(k: string, keys: set<string>)
    requires k in keys
    ensures [k] in Keys(keys)
  {
  }

  lemma {:induction false} AuthOnlyAdds(s: Settings, auth: Fields)
    ensures OnlyAdds(auth, AuthSection(s, auth), AuthAdded(s))
  {
    OnlyAddsItself(auth, AuthAdded(s));
    var a1 := if s.token == "" || HasToken(auth) || ProxyMode(auth) then auth
              else Default(auth, "mode", JStr("token"))["token" := JStr(s.token)];
    if s.token != "" {
      KeyIn("mode", {"mode", "token"});
      KeyIn("token", {"mode", "token"});
      SetOnlyAdds(auth, auth, "mode", JStr("token"), AuthAdded(s));
      SetOnlyAdds(auth, Default(auth, "mode", JStr("token")), "token", JStr(s.token), AuthAdded(s));
    }
    assert OnlyAdds(auth, a1, AuthAdded(s));
    if s.tailscaleSso {
      KeyIn("allowTailscale", {"allowTailscale"});
      SetOnlyAdds(auth, a1, "allowTailscale", JBool(true), AuthAdded(s));
    }
  }

  lemma {:induction false} FirstOnlyAdds(s: Settings, g: Fields)
    ensures OnlyAdds(g, FirstGateway(s, g), GatewayAdded(s))
  {
    var added, g1 := GatewayAdded(s), Default(g, "mode", JStr("local"));
    OnlyAddsItself(g, added);
    KeyIn("mode", {"mode", "bind", "trustedProxies"});
    SetOnlyAdds(g, g, "mode", JStr("local"), added);
    if s.token != "" || s.tailscaleSso {
      assert Child(g1, "auth") == Child(g, "auth");
      AuthOnlyAdds(s, Child(g, "auth"));
      SomeAuth(s);
      PutOnlyAdds(g, g1, "auth", AuthSection(s, Child(g, "auth")), AuthAdded(s), added);
    }
  }

  lemma SomeAuth(s: Settings)
    requires s.token != "" || s.tailscaleSso
    ensures AuthAdded(s) != {}
  {
    if s.token != "" {
      KeyIn("mode", {"mode", "token"});
    } else {
      KeyIn("allowTailscale", {"allowTailscale"});
    }
  }

  lemma {:induction false} LaterOnlyAdds(s: Settings, a: Fields, g: Fields)
    requires OnlyAdds(a, g, GatewayAdded(s)) && Child(g, "controlUi") == Child(a, "controlUi")
    ensures OnlyAdds(a, LaterGateway(s, g), GatewayAdded(s))
  {
    var added := GatewayAdded(s);
    var bind := JStr(if s.proxy then "loopback" else "0.0.0.0");
    var g1 := Default(g, "bind", bind);
    var g2 := g1["trustedProxies" := JArr(ProxySection(g1))];
    KeyIn("bind", {"mode", "bind", "trustedProxies"});
    KeyIn("trustedProxies", {"mode", "bind", "trustedProxies"});
    SetOnlyAdds(a, g, "bind", bind, added);
    SetOnlyAdds(a, g1, "trustedProxies", JArr(ProxySection(g1)), added);
    if s.origins != [] {
      assert Child(g2, "controlUi") == Child(a, "controlUi");
      UiOnlyAdds(s, Child(a, "controlUi"));
      KeyIn("allowedOrigins", {"allowedOrigins"});
      PutOnlyAdds(a, g2, "controlUi", UiSection(s, Child(a, "controlUi")), Keys({"allowedOrigins"}), added);
    }
  }

  lemma {:induction false} UiOnlyAdds(s: Settings, ui: Fields)
    ensures OnlyAdds(ui, UiSection(s, ui), Keys({"allowedOrigins"}))
  {
    OnlyAddsItself(ui, Keys({"allowedOrigins"}));
    KeyIn("allowedOrigins", {"allowedOrigins"});
    SetOnlyAdds(ui, ui, "allowedOrigins", JArr(Strings(s.origins)), Keys({"allowedOrigins"}));
  }

  lemma {:induction false} GatewayOnlyAdds(s: Settings, g: Fields)
    ensures OnlyAdds(g, GatewaySection(s, g), GatewayAdded(s))
  {
    FirstOnlyAdds(s, g);
    assert Child(FirstGateway(s, g), "controlUi") == Child(g, "controlUi");
    LaterOnlyAdds(s, g, FirstGateway(s, g));
  }

  lemma {:induction false} OTelOnlyAdds(d: Fields)
    ensures OnlyAdds(d, OTelSection(d), OTelAdded())
  {
    OnlyAddsItself(d, OTelAdded());
    if !OptedOut(d) {
      var otel, below := Child(d, "otel"), Keys({"enabled", "metrics", "endpoint"});
      FillOnlyAdds(otel);
      KeyIn("enabled", {"enabled", "metrics", "endpoint"});
      PutOnlyAdds(d, d, "otel", FillOTel(otel), below, OTelAdded());
    }
  }

  lemma {:induction false} FillOnlyAdds(otel: Fields)
    ensures OnlyAdds(otel, FillOTel(otel), Keys({"enabled", "metrics", "endpoint"}))
  {
    var keys := {"enabled", "metrics", "endpoint"};
    var added := Keys(keys);
    OnlyAddsItself(otel, added);
    KeyIn("enabled", keys);
    KeyIn("metrics", keys);
    KeyIn("endpoint", keys);
    var o1 := Default(otel, "enabled", JBool(true));
    var o2 := Default(o1, "metrics", JBool(true));
    SetOnlyAdds(otel, otel, "enabled", JBool(true), added);
    SetOnlyAdds(otel, o1, "metrics", JBool(true), added);
    SetOnlyAdds(otel, o2, "endpoint", JStr("http://localhost:4318"), added);
  }

  lemma {:induction false} ProfileOnlyAdds(p: Fields)
    ensures OnlyAdds(p, Profile(p), Keys({"cdpUrl"}))
  {
    OnlyAddsItself(p, Keys({"cdpUrl"}));
    KeyIn("cdpUrl", {"cdpUrl"});
    SetOnlyAdds(p, p, "cdpUrl", JStr("${OPENCLAW_CHROMIUM_CDP}"), Keys({"cdpUrl"}));
  }

  lemma {:induction false} ProfilesOnlyAdd(p: Fields)
    ensures OnlyAdds(p, WithProfile(WithProfile(p, "default"), "chrome"), ProfilesAdded())
  {
    var below := Keys({"cdpUrl"});
    OnlyAddsItself(p, ProfilesAdded());
    KeyIn("cdpUrl", {"cdpUrl"});
    ProfileOnlyAdds(Child(p, "default"));
    ProfileOnlyAdds(Child(p, "chrome"));
    PutOnlyAdds(p, p, "default", Profile(Child(p, "default")), below, ProfilesAdded());
    assert Child(WithProfile(p, "default"), "chrome") == Child(p, "chrome");
    PutOnlyAdds(p, WithProfile(p, "default"), "chrome", Profile(Child(p, "chrome")), below, ProfilesAdded());
  }

  lemma {:induction false} BrowserOnlyAdds(b: Fields)
    ensures OnlyAdds(b, BrowserSection(b), BrowserAdded())
  {
    var keys, added := {"defaultProfile", "attachOnly"}, BrowserAdded();
    var b1 := Default(b, "defaultProfile", JStr("default"));
    var b2 := Default(b1, "attachOnly", JBool(true));
    OnlyAddsItself(b, added);
    KeyIn("defaultProfile", keys);
    KeyIn("attachOnly", keys);
    SetOnlyAdds(b, b, "defaultProfile", JStr("default"), added);
    SetOnlyAdds(b, b1, "attachOnly", JBool(true), added);
    assert Child(b2, "profiles") == Child(b, "profiles");
    ProfilesOnlyAdd(Child(b, "profiles"));
    SomeProfile();
    PutOnlyAdds(b, b2, "profiles", WithProfile(WithProfile(Child(b, "profiles"), "default"), "chrome"), ProfilesAdded(), added);
  }

  lemma SomeProfile()
    ensures ProfilesAdded() != {}
  {
    KeyIn("cdpUrl", {"cdpUrl"});
    assert ["default"] + ["cdpUrl"] in Under("default", Keys({"cdpUrl"}));
  }

  lemma {:induction false} SkillsOnlyAdd(s: Settings, k: Fields)
    requires s.entries != map[]
    ensures OnlyAdds(k, SkillsSection(s, k), SkillsAdded(s)) && SkillsAdded(s) != {}
  {
    var e, below := Child(k, "entries"), Keys(s.entries.Keys);
    var some :| some in s.entries;
    KeyIn(some, s.entries.Keys);
    EntriesOnlyAdd(s, e);
    OnlyAddsItself(k, SkillsAdded(s));
    PutOnlyAdds(k, k, "entries", s.entries + e, below, SkillsAdded(s));
    assert ["entries"] + [some] in SkillsAdded(s);
  }

  lemma {:induction false} EntriesOnlyAdd(s: Settings, e: Fields)
    ensures OnlyAdds(e, s.entries + e, Keys(s.entries.Keys))
  {
    var d, added := s.entries + e, Keys(s.entries.Keys);
    forall p: Path | Get(JObj(d), p).Some? && Get(JObj(e), p).None? ensures exists q :: q in added && Comparable(p, q) {
      assert p[0] in s.entries;
      KeyIn(p[0], s.entries.Keys);
      assert p[..1] == [p[0]];
      assert Comparable(p, [p[0]]);
    }
  }

  lemma {:induction false} PutSection(c: Fields, b: Fields, k: string, x: Fields, below: set<Path>, added: set<Path>)
    requires OnlyAdds(c, b, added) && OnlyAdds(Child(c, k), x, below) && below != {} && Under(k, below) <= added
    ensures OnlyAdds(c, Put(b, k, x), added)
  {
    PutOnlyAdds(c, b, k, x, below, added);
  }

  /** Whatever the enriched config has and the user's has not lies on the way to one of the paths the
      enabled features fill, or below one. */
  lemma {:induction false} NothingElseIsAdded(s: Settings, c: Fields)
    ensures OnlyAdds(c, Enrich(s, c), Added(s))
  {
    var added := Added(s);
    var c1 := PutIf(s.metrics, c, "diagnostics", OTelSection(Child(c, "diagnostics")));
    var c2 := PutIf(s.chromium, c1, "browser", BrowserSection(Child(c, "browser")));
    var c3 := PutIf(s.entries != map[], c2, "skills", SkillsSection(s, Child(c, "skills")));
    OnlyAddsItself(c, added);
    if s.metrics {
      OTelOnlyAdds(Child(c, "diagnostics"));
      SomeOTel();
      PutSection(c, c, "diagnostics", OTelSection(Child(c, "diagnostics")), OTelAdded(), added);
    }
    if s.chromium {
      BrowserOnlyAdds(Child(c, "browser"));
      KeyIn("attachOnly", {"defaultProfile", "attachOnly"});
      PutSection(c, c1, "browser", BrowserSection(Child(c, "browser")), BrowserAdded(), added);
    }
    if s.entries != map[] {
      SkillsOnlyAdd(s, Child(c, "skills"));
      PutSection(c, c2, "skills", SkillsSection(s, Child(c, "skills")), SkillsAdded(s), added);
    }
    GatewayOnlyAdds(s, Child(c, "gateway"));
    KeyIn("mode", {"mode", "bind", "trustedProxies"});
    PutSection(c, c3, "gateway", GatewaySection(s, Child(c, "gateway")), GatewayAdded(s), added);
    EnrichByParts(s, c);
  }

  lemma SomeOTel()
    ensures OTelAdded() != {}
  {
    KeyIn("enabled", {"enabled", "metrics", "endpoint"});
    assert ["otel"] + ["enabled"] in OTelAdded();
  }

  lemma {:induction false} EnrichByParts(s: Settings, c: Fields)
    ensures var c1 := PutIf(s.metrics, c, "diagnostics", OTelSection(Child(c, "diagnostics")));
            var c2 := PutIf(s.chromium, c1, "browser", BrowserSection(Child(c, "browser")));
            var c3 := PutIf(s.entries != map[], c2, "skills", SkillsSection(s, Child(c, "skills")));
            Enrich(s, c) == Put(c3, "gateway", GatewaySection(s, Child(c, "gateway")))
  {
    EnrichBySection(s, c);
    PutFour(c, s.metrics, "diagnostics", OTelSection(Child(c, "diagnostics")),
            s.chromium, "browser", BrowserSection(Child(c, "browser")),
            s.entries != map[], "skills", SkillsSection(s, Child(c, "skills")),
            "gateway", GatewaySection(s, Child(c, "gateway")));
  }
}
