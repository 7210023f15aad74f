/** The nine-step enrichment of the user's config (internal/resources/configmap.go). */
module Enrichment {
  import opened Wrappers
  import opened ConfigMerge

  type Fields = map<string, Json>

  const LOOPBACK := "127.0.0.0/8"

  /** What the pipeline reads besides the config. An empty token means none was generated; `origins`
      are the derived Control UI origins and `entries` the combined entries of the skill packs. */
  datatype Settings = Settings(
    metrics: bool, token: string, tailscaleSso: bool, chromium: bool, proxy: bool,
    origins: seq<string>, entries: Fields)

  // ----- building blocks of every step -----

  /** The object under a key, or an empty one to be created. */
  function Child(f: Fields, k: string): Fields {
    if k in f && f[k].JObj? then f[k].fields else map[]
  }

  function Put(f: Fields, k: string, child: Fields): Fields {
    f[k := JObj(child)]
  }

  function Default(f: Fields, k: string, v: Json): Fields {
    if k in f then f else f[k := v]
  }

  // ----- the steps -----

  function GatewayMode(c: Fields): Fields {
    var gateway := Child(c, "gateway");
    if "mode" in gateway then c else Put(c, "gateway", gateway["mode" := JStr("local")])
  }

  function FillOTel(otel: Fields): Fields {
    Default(Default(Default(otel, "enabled", JBool(true)), "metrics", JBool(true)),
            "endpoint", JStr("http://localhost:4318"))
  }

  /** A value that is no object, and an explicit opt-out, are left alone. */
  predicate OptedOut(diagnostics: Fields) {
    "otel" in diagnostics &&
    var otel := diagnostics["otel"];
    otel.JObj? ==> "enabled" in otel.fields && otel.fields["enabled"] == JBool(false)
  }

  function OTelMetrics(c: Fields): Fields {
    var diagnostics := Child(c, "diagnostics");
    if OptedOut(diagnostics) then c
    else Put(c, "diagnostics", Put(diagnostics, "otel", FillOTel(Child(diagnostics, "otel"))))
  }

  predicate HasToken(auth: Fields) {
    "token" in auth && auth["token"].JStr? && auth["token"].text != ""
  }

  predicate ProxyMode(auth: Fields) {
    "mode" in auth && auth["mode"] == JStr("trusted-proxy")
  }

  function GatewayAuth(c: Fields, token: string): Fields {
    var gateway := Child(c, "gateway");
    var auth := Child(gateway, "auth");
    if HasToken(auth) || ProxyMode(auth) then c
    else Put(c, "gateway", Put(gateway, "auth", Default(auth, "mode", JStr("token"))["token" := JStr(token)]))
  }

  function Tailscale(c: Fields): Fields {
    var gateway := Child(c, "gateway");
    Put(c, "gateway", Put(gateway, "auth", Default(Child(gateway, "auth"), "allowTailscale", JBool(true))))
  }

  function Profile(profile: Fields): Fields {
    if "cdpPort" in profile then profile else Default(profile, "cdpUrl", JStr("${OPENCLAW_CHROMIUM_CDP}"))
  }

  function WithProfile(profiles: Fields, name: string): Fields {
    Put(profiles, name, Profile(Child(profiles, name)))
  }

  function BrowserSection(browser: Fields): Fields {
    var browser := Default(Default(browser, "defaultProfile", JStr("default")), "attachOnly", JBool(true));
    Put(browser, "profiles", WithProfile(WithProfile(Child(browser, "profiles"), "default"), "chrome"))
  }

  function Browser(c: Fields): Fields {
    Put(c, "browser", BrowserSection(Child(c, "browser")))
  }

  function GatewayBind(c: Fields, proxy: bool): Fields {
    var gateway := Child(c, "gateway");
    if "bind" in gateway then c
    else Put(c, "gateway", gateway["bind" := JStr(if proxy then "loopback" else "0.0.0.0")])
  }

  function Proxies(gateway: Fields): seq<Json> {
    if "trustedProxies" in gateway && gateway["trustedProxies"].JArr? then gateway["trustedProxies"].items else []
  }

  function TrustedProxies(c: Fields): Fields {
    var gateway := Child(c, "gateway");
    if JStr(LOOPBACK) in Proxies(gateway) then c
    else Put(c, "gateway", gateway["trustedProxies" := JArr(Proxies(gateway) + [JStr(LOOPBACK)])])
  }

  function Strings(s: seq<string>): seq<Json> {
    seq(|s|, i requires 0 <= i < |s| => JStr(s[i]))
  }

  function ControlUiOrigins(c: Fields, origins: seq<string>): Fields {
    var gateway := Child(c, "gateway");
    var controlUi := Child(gateway, "controlUi");
    if "allowedOrigins" in controlUi || origins == [] then c
    else Put(c, "gateway", Put(gateway, "controlUi", controlUi["allowedOrigins" := JArr(Strings(origins))]))
  }

  /** Entries the user set win. */
  function SkillPacks(c: Fields, entries: Fields): Fields {
    var skills := Child(c, "skills");
    Put(c, "skills", Put(skills, "entries", entries + Child(skills, "entries")))
  }

  /** The steps in order, up to the mesh provider's and from there on. */
  function Enrich(s: Settings, c: Fields): Fields {
    LaterSteps(s, FirstSteps(s, c))
  }

  function FirstSteps(s: Settings, c: Fields): Fields {
    var c := GatewayMode(c);
    var c := if s.metrics then OTelMetrics(c) else c;
    var c := if s.token != "" then GatewayAuth(c, s.token) else c;
    if s.tailscaleSso then Tailscale(c) else c
  }

  function LaterSteps(s: Settings, c: Fields): Fields {
    var c := if s.chromium then Browser(c) else c;
    var c := GatewayBind(c, s.proxy);
    var c := TrustedProxies(c);
    var c := ControlUiOrigins(c, s.origins);
    if s.entries != map[] then SkillPacks(c, s.entries) else c
  }

  // ----- the steps, grouped by the section they write -----

  function OTelSection(diagnostics: Fields): Fields {
    if OptedOut(diagnostics) then diagnostics else Put(diagnostics, "otel", FillOTel(Child(diagnostics, "otel")))
  }

  function SkillsSection(s: Settings, skills: Fields): Fields {
    Put(skills, "entries", s.entries + Child(skills, "entries"))
  }

  function AuthSection(s: Settings, auth: Fields): Fields {
    var auth := if s.token == "" || HasToken(auth) || ProxyMode(auth) then auth
                else Default(auth, "mode", JStr("token"))["token" := JStr(s.token)];
    if s.tailscaleSso then Default(auth, "allowTailscale", JBool(true)) else auth
  }

  function ProxySection(gateway: Fields): seq<Json> {
    if JStr(LOOPBACK) in Proxies(gateway) then Proxies(gateway) else Proxies(gateway) + [JStr(LOOPBACK)]
  }

  function UiSection(s: Settings, controlUi: Fields): Fields {
    Default(controlUi, "allowedOrigins", JArr(Strings(s.origins)))
  }

  /** gateway.mode and gateway.auth */
  function FirstGateway(s: Settings, g: Fields): Fields {
    var g := Default(g, "mode", JStr("local"));
    if s.token == "" && !s.tailscaleSso then g else Put(g, "auth", AuthSection(s, Child(g, "auth")))
  }

  /** gateway.bind, gateway.trustedProxies and gateway.controlUi */
  function LaterGateway(s: Settings, g: Fields): Fields {
    var g := Default(g, "bind", JStr(if s.proxy then "loopback" else "0.0.0.0"));
    var g := g["trustedProxies" := JArr(ProxySection(g))];
    if s.origins == [] then g else Put(g, "controlUi", UiSection(s, Child(g, "controlUi")))
  }

  function PutIf(b: bool, c: Fields, k: string, x: Fields): Fields {
    if b then Put(c, k, x) else c
  }

  lemma PutAgain(c: Fields, k: string, x: Fields, y: Fields)
    ensures Put(Put(c, k, x), k, y) == Put(c, k, y)
    ensures Child(Put(c, k, x), k) == x
  {
  }

  lemma PutsCommute(b: bool, c: Fields, k: string, x: Fields, j: string, y: Fields)
    requires k != j
    ensures PutIf(b, Put(c, k, x), j, y) == Put(PutIf(b, c, j, y), k, x)
    ensures Child(Put(c, k, x), j) == Child(c, j)
    ensures Child(PutIf(b, c, j, y), k) == Child(c, k)
  {
  }

  lemma {:induction false} OTelStep(c: Fields)
    ensures OTelMetrics(c) == Put(c, "diagnostics", OTelSection(Child(c, "diagnostics")))
  {
  }

  lemma {:induction false} ModeStep(c: Fields)
    ensures GatewayMode(c) == Put(c, "gateway", Default(Child(c, "gateway"), "mode", JStr("local")))
  {
  }

  lemma {:induction false} TokenStep(s: Settings, c: Fields, g: Fields)
    requires "gateway" in c && c["gateway"] == JObj(g) && s.token != ""
    ensures GatewayAuth(c, s.token) == Put(c, "gateway", Put(g, "auth", AuthSection(s.(tailscaleSso := false), Child(g, "auth"))))
  {
    var auth := Child(g, "auth");
    assert HasToken(auth) || ProxyMode(auth) ==> g == Put(g, "auth", auth);
  }

  lemma {:induction false} AuthStep(s: Settings, c: Fields, g: Fields)
    requires "mode" in g
    ensures var d := Put(c, "gateway", g);
            var d := if s.token != "" then GatewayAuth(d, s.token) else d;
            (if s.tailscaleSso then Tailscale(d) else d) == Put(c, "gateway", FirstGateway(s, g))
  {
    var d := Put(c, "gateway", g);
    if s.token != "" {
      TokenStep(s, d, g);
      var auth := AuthSection(s.(tailscaleSso := false), Child(g, "auth"));
      PutAgain(c, "gateway", g, Put(g, "auth", auth));
      if s.tailscaleSso {
        PutAgain(g, "auth", auth, Default(auth, "allowTailscale", JBool(true)));
        PutAgain(c, "gateway", Put(g, "auth", auth), FirstGateway(s, g));
      }
    } else {
      PutAgain(c, "gateway", g, FirstGateway(s, g));
    }
  }

  lemma {:induction false} FirstBySection(s: Settings, c: Fields)
    ensures FirstSteps(s, c) ==
            Put(PutIf(s.metrics, c, "diagnostics", OTelSection(Child(c, "diagnostics"))),
                "gateway", FirstGateway(s, Child(c, "gateway")))
  {
    var g := Default(Child(c, "gateway"), "mode", JStr("local"));
    var x := OTelSection(Child(c, "diagnostics"));
    ModeStep(c);
    OTelStep(Put(c, "gateway", g));
    PutsCommute(s.metrics, c, "gateway", g, "diagnostics", x);
    AuthStep(s, PutIf(s.metrics, c, "diagnostics", x), g);
  }

  lemma {:induction false} BindStep(s: Settings, c: Fields, g: Fields)
    ensures ControlUiOrigins(TrustedProxies(GatewayBind(Put(c, "gateway", g), s.proxy)), s.origins)
         == Put(c, "gateway", LaterGateway(s, g))
  {
    var g1 := Default(g, "bind", JStr(if s.proxy then "loopback" else "0.0.0.0"));
    assert GatewayBind(Put(c, "gateway", g), s.proxy) == Put(c, "gateway", g1);
    var g2 := g1["trustedProxies" := JArr(ProxySection(g1))];
    assert JStr(LOOPBACK) in Proxies(g1) ==> g2 == g1;
    assert TrustedProxies(Put(c, "gateway", g1)) == Put(c, "gateway", g2);
    UiStep(s, c, g2);
  }

  lemma {:induction false} UiStep(s: Settings, c: Fields, g: Fields)
    ensures ControlUiOrigins(Put(c, "gateway", g), s.origins) ==
            Put(c, "gateway", PutIf(s.origins != [], g, "controlUi", UiSection(s, Child(g, "controlUi"))))
  {
    PutAgain(c, "gateway", g, PutIf(s.origins != [], g, "controlUi", UiSection(s, Child(g, "controlUi"))));
    assert "allowedOrigins" in Child(g, "controlUi") ==> Put(g, "controlUi", Child(g, "controlUi")) == g;
  }

  function GatewaySection(s: Settings, g: Fields): Fields {
    LaterGateway(s, FirstGateway(s, g))
  }

  function OtherSections(s: Settings, c: Fields): Fields {
    var c := PutIf(s.metrics, c, "diagnostics", OTelSection(Child(c, "diagnostics")));
    var c := PutIf(s.chromium, c, "browser", BrowserSection(Child(c, "browser")));
    PutIf(s.entries != map[], c, "skills", SkillsSection(s, Child(c, "skills")))
  }

  /** The pipeline writes four sections, each on its own. */
  lemma {:induction false} EnrichBySection(s: Settings, c: Fields)
    ensures Enrich(s, c) == Put(OtherSections(s, c), "gateway", GatewaySection(s, Child(c, "gateway")))
  {
    FirstBySection(s, c);
    LaterBySection(s, PutIf(s.metrics, c, "diagnostics", OTelSection(Child(c, "diagnostics"))),
                   FirstGateway(s, Child(c, "gateway")));
  }

  lemma {:induction false} LaterBySection(s: Settings, c: Fields, g: Fields)
    ensures var d := PutIf(s.chromium, c, "browser", BrowserSection(Child(c, "browser")));
            LaterSteps(s, Put(c, "gateway", g)) ==
            Put(PutIf(s.entries != map[], d, "skills", SkillsSection(s, Child(d, "skills"))),
                "gateway", LaterGateway(s, g))
  {
    var x := BrowserSection(Child(c, "browser"));
    var d := PutIf(s.chromium, c, "browser", x);
    PutsCommute(s.chromium, c, "gateway", g, "browser", x);
    BindStep(s, d, g);
    PutsCommute(s.entries != map[], d, "gateway", LaterGateway(s, g), "skills", SkillsSection(s, Child(d, "skills")));
  }

  // ----- idempotence -----

  lemma {:induction false} OTelTwice(d: Fields)
    ensures OTelSection(OTelSection(d)) == OTelSection(d)
  {
    if !OptedOut(d) {
      var otel := FillOTel(Child(d, "otel"));
      assert FillOTel(otel) == otel;
    }
  }

  lemma {:induction false} ProfileTwice(profiles: Fields, name: string)
    requires name in profiles && profiles[name].JObj? && Profile(profiles[name].fields) == profiles[name].fields
    ensures WithProfile(profiles, name) == profiles
  {
  }

  lemma {:induction false} ProfilesTwice(profiles: Fields)
    ensures var done := WithProfile(WithProfile(profiles, "default"), "chrome");
            WithProfile(WithProfile(done, "default"), "chrome") == done
  {
    var one := WithProfile(profiles, "default");
    var done := WithProfile(one, "chrome");
    ProfileTwice(done, "default");
    ProfileTwice(done, "chrome");
  }

  lemma {:induction false} BrowserTwice(b: Fields)
    ensures BrowserSection(BrowserSection(b)) == BrowserSection(b)
  {
    var b1 := Default(Default(b, "defaultProfile", JStr("default")), "attachOnly", JBool(true));
    ProfilesTwice(Child(b1, "profiles"));
  }

  lemma {:induction false} SkillsTwice(s: Settings, k: Fields)
    ensures SkillsSection(s, SkillsSection(s, k)) == SkillsSection(s, k)
  {
    var e := s.entries + Child(k, "entries");
    assert s.entries + e == e;
    PutAgain(k, "entries", e, e);
  }

  lemma {:induction false} AuthTwice(s: Settings, auth: Fields)
    ensures AuthSection(s, AuthSection(s, auth)) == AuthSection(s, auth)
  {
  }

  /** What the gateway section holds once it is enriched. */
  predicate GatewayDone(s: Settings, g: Fields) {
    && "mode" in g && "bind" in g
    && (s.token != "" || s.tailscaleSso ==> "auth" in g && g["auth"].JObj? && AuthSection(s, g["auth"].fields) == g["auth"].fields)
    && "trustedProxies" in g && g["trustedProxies"].JArr? && JStr(LOOPBACK) in g["trustedProxies"].items
    && (s.origins != [] ==> "controlUi" in g && g["controlUi"].JObj? && "allowedOrigins" in g["controlUi"].fields)
  }

  lemma {:induction false} GatewayGetsDone(s: Settings, g: Fields)
    ensures GatewayDone(s, GatewaySection(s, g))
  {
    AuthTwice(s, Child(Default(g, "mode", JStr("local")), "auth"));
    var g1 := FirstGateway(s, g);
    assert "mode" in g1;
    assert s.token != "" || s.tailscaleSso ==>
      "auth" in g1 && g1["auth"].JObj? && AuthSection(s, g1["auth"].fields) == g1["auth"].fields;
    LaterGatewayKeeps(s, g1);
  }

  lemma {:induction false} LaterGatewayKeeps(s: Settings, g: Fields)
    ensures var h := LaterGateway(s, g);
            && (forall k :: k in g && k != "trustedProxies" && k != "controlUi" ==> k in h && h[k] == g[k])
            && "bind" in h
            && "trustedProxies" in h && h["trustedProxies"].JArr? && JStr(LOOPBACK) in h["trustedProxies"].items
            && (s.origins != [] ==> "controlUi" in h && h["controlUi"].JObj? && "allowedOrigins" in h["controlUi"].fields)
  {
  }

  lemma {:induction false} GatewayStays(s: Settings, g: Fields)
    requires GatewayDone(s, g)
    ensures GatewaySection(s, g) == g
  {
    assert FirstGateway(s, g) == g;
    assert g["trustedProxies" := JArr(ProxySection(g))] == g;
    assert LaterGateway(s, g) == g;
  }

  lemma PutSame(b: bool, c: Fields, k: string)
    requires b ==> k in c && c[k].JObj?
    ensures PutIf(b, c, k, Child(c, k)) == c
  {
  }

  /** Enriching an enriched config changes nothing. */
  lemma {:induction false} EnrichIsIdempotent(s: Settings, c: Fields)
    ensures Enrich(s, Enrich(s, c)) == Enrich(s, c)
  {
    EnrichBySection(s, c);
    var d := Enrich(s, c);
    EnrichBySection(s, d);
    SectionsOf(s, c);
    OTelTwice(Child(c, "diagnostics"));
    BrowserTwice(Child(c, "browser"));
    SkillsTwice(s, Child(c, "skills"));
    GatewayGetsDone(s, Child(c, "gateway"));
    GatewayStays(s, GatewaySection(s, Child(c, "gateway")));
    PutSame(s.metrics, d, "diagnostics");
    PutSame(s.chromium, d, "browser");
    PutSame(s.entries != map[], d, "skills");
    PutSame(true, d, "gateway");
  }

  predicate At(b: bool, c: Fields, k: string, x: Fields) {
    b ==> k in c && c[k] == JObj(x)
  }

  /** The top-level keys the pipeline may write. */
  predicate Written(s: Settings, k: string) {
    k == "gateway" || (s.metrics && k == "diagnostics") || (s.chromium && k == "browser") || (s.entries != map[] && k == "skills")
  }

  /** What each section of the result is, and that nothing else changes. */
  lemma {:induction false} SectionsOf(s: Settings, c: Fields)
    ensures var d := Enrich(s, c);
            && At(true, d, "gateway", GatewaySection(s, Child(c, "gateway")))
            && At(s.metrics, d, "diagnostics", OTelSection(Child(c, "diagnostics")))
            && At(s.chromium, d, "browser", BrowserSection(Child(c, "browser")))
            && At(s.entries != map[], d, "skills", SkillsSection(s, Child(c, "skills")))
    ensures forall k :: k in c && !Written(s, k) ==> k in Enrich(s, c) && Enrich(s, c)[k] == c[k]
  {
    EnrichBySection(s, c);
    PutFour(c, s.metrics, "diagnostics", OTelSection(Child(c, "diagnostics")),
             s.chromium, "browser", BrowserSection(Child(c, "browser")),
             s.entries != map[], "skills", SkillsSection(s, Child(c, "skills")),
             "gateway", GatewaySection(s, Child(c, "gateway")));
  }

  /** Writes under different keys do not disturb each other. */
  lemma {:induction false} PutFour(c: Fields, b1: bool, k1: string, x1: Fields, b2: bool, k2: string, x2: Fields, b3: bool, k3: string, x3: Fields, k4: string, x4: Fields)
    requires k1 != k2 && k1 != k3 && k2 != k3 && k4 != k1 && k4 != k2 && k4 != k3
    ensures var c1 := PutIf(b1, c, k1, x1);
            var c2 := PutIf(b2, c1, k2, x2);
            var d := Put(PutIf(b3, c2, k3, x3), k4, x4);
            && Child(c1, k2) == Child(c, k2) && Child(c2, k3) == Child(c, k3)
            && At(b1, d, k1, x1) && At(b2, d, k2, x2) && At(b3, d, k3, x3) && At(true, d, k4, x4)
            && (forall k :: k in c && k != k4 && !(b1 && k == k1) && !(b2 && k == k2) && !(b3 && k == k3) ==> k in d && d[k] == c[k])
  {
  }

  // ----- the steps as they run -----

  /** A document that is not an object passes through; the literal null is none the pipeline survives. */
  function EnrichConfig(s: Settings, config: Json): Json
    requires !config.JNull?
  {
    if config.JObj? then JObj(Enrich(s, config.fields)) else config
  }

  method AddTrustedProxy(config: Fields) returns (result: Fields)
    ensures result == TrustedProxies(config)
  {
    var gateway := Child(config, "gateway");
    var proxies := Proxies(gateway);
    for n := 0 to |proxies|
      invariant JStr(LOOPBACK) !in proxies[..n]
    {
      if proxies[n] == JStr(LOOPBACK) {
        return config;
      }
    }
    proxies := proxies + [JStr(LOOPBACK)];
    gateway := gateway["trustedProxies" := JArr(proxies)];
    result := config["gateway" := JObj(gateway)];
  }

  method AddBrowser(config: Fields) returns (result: Fields)
    ensures result == Browser(config)
  {
    var browser := Child(config, "browser");
    browser := Default(browser, "defaultProfile", JStr("default"));
    browser := Default(browser, "attachOnly", JBool(true));
    var profiles := AddProfiles(Child(browser, "profiles"));
    browser := browser["profiles" := JObj(profiles)];
    result := config["browser" := JObj(browser)];
  }

  method AddProfiles(profiles: Fields) returns (result: Fields)
    ensures result == WithProfile(WithProfile(profiles, "default"), "chrome")
  {
    result := profiles;
    var names := ["default", "chrome"];
    for n := 0 to 2
      invariant n == 0 ==> result == profiles
      invariant n == 1 ==> result == WithProfile(profiles, names[0])
      invariant n == 2 ==> result == WithProfile(WithProfile(profiles, names[0]), names[1])
    {
      var profile := Child(result, names[n]);
      if "cdpUrl" !in profile && "cdpPort" !in profile {
        profile := profile["cdpUrl" := JStr("${OPENCLAW_CHROMIUM_CDP}")];
      }
      result := result[names[n] := JObj(profile)];
    }
  }

  /** The pack entries the user has not set, added in any order. */
  method AddEntries(user: Fields, packs: Fields) returns (result: Fields)
    ensures result == packs + user
  {
    result := user;
    var todo := packs.Keys;
    while todo != {}
      invariant todo <= packs.Keys
      invariant result.Keys == user.Keys + (packs.Keys - todo)
      invariant forall k :: k in result ==> result[k] == if k in user then user[k] else packs[k]
      decreases todo
    {
      var name :| name in todo;
      if name !in result {
        result := result[name := packs[name]];
      }
      todo := todo - {name};
    }
    assert result == packs + user;
  }

  method AddSkillPacks(config: Fields, packs: Fields) returns (result: Fields)
    ensures result == SkillPacks(config, packs)
  {
    var skills := Child(config, "skills");
    var entries := AddEntries(Child(skills, "entries"), packs);
    skills := skills["entries" := JObj(entries)];
    result := config["skills" := JObj(skills)];
  }

  /** The whole pipeline. */
  method BuildConfig(s: Settings, base: Json) returns (config: Json)
    requires !base.JNull?
    ensures config == EnrichConfig(s, base)
  {
    if !base.JObj? {
      return base;
    }
    var fields := GatewayMode(base.fields);
    if s.metrics {
      fields := OTelMetrics(fields);
    }
    if s.token != "" {
      fields := GatewayAuth(fields, s.token);
    }
    if s.tailscaleSso {
      fields := Tailscale(fields);
    }
    if s.chromium {
      fields := AddBrowser(fields);
    }
    fields := GatewayBind(fields, s.proxy);
    fields := AddTrustedProxy(fields);
    fields := ControlUiOrigins(fields, s.origins);
    if s.entries != map[] {
      fields := AddSkillPacks(fields, s.entries);
    }
    config := JObj(fields);
  }
}
