/** What enrichment leaves of the user's config, and when it overrides it. */
module ConfigExtension {
  import opened Wrappers
  import opened ConfigMerge
  import opened Enrichment

  /** Every value set in `a` is set the same in `b`. */
  predicate Extends(a: Json, b: Json) {
    if a.JObj? then
      b.JObj? && forall k :: k in a.fields ==> k in b.fields && Extends(a.fields[k], b.fields[k])
    else a == b
  }

  predicate Kept(a: Fields, b: Fields) {
    forall k :: k in a ==> k in b && Extends(a[k], b[k])
  }

  /** The one exception: an entry appended to gateway.trustedProxies. */
  predicate Appended(a: Json, b: Json) {
    b == a || (a.JArr? && JStr(LOOPBACK) !in a.items && b == JArr(a.items + [JStr(LOOPBACK)]))
  }

  predicate GatewayKeptAt(a: Fields, b: Fields, k: string)
    requires k in a
  {
    k in b && if k == "trustedProxies" then Appended(a[k], b[k]) else Extends(a[k], b[k])
  }

  predicate GatewayKept(a: Fields, b: Fields) {
    forall k :: k in a ==> GatewayKeptAt(a, b, k)
  }

  predicate KeptAt(c: Fields, d: Fields, k: string)
    requires k in c
  {
    && k in d
    && if k == "gateway" then c[k].JObj? && d[k].JObj? && GatewayKept(c[k].fields, d[k].fields)
       else Extends(c[k], d[k])
  }

  predicate ConfigKept(c: Fields, d: Fields) {
    forall k :: k in c ==> KeptAt(c, d, k)
  }

  // ----- the shape a config must have -----

  predicate ObjectAt(f: Fields, k: string) {
    k in f ==> f[k].JObj?
  }

  predicate TokenFits(s: Settings, auth: Fields) {
    s.token != "" && "token" in auth ==> HasToken(auth) || ProxyMode(auth)
  }

  predicate GatewayFits(s: Settings, g: Fields) {
    && (s.token != "" || s.tailscaleSso ==> ObjectAt(g, "auth"))
    && TokenFits(s, Child(g, "auth"))
    && ("trustedProxies" in g ==> g["trustedProxies"].JArr?)
    && (s.origins != [] ==> ObjectAt(g, "controlUi"))
  }

  predicate BrowserFits(b: Fields) {
    var profiles := Child(b, "profiles");
    ObjectAt(b, "profiles") && ObjectAt(profiles, "default") && ObjectAt(profiles, "chrome")
  }

  /** Wherever an enabled feature needs a container the config has none or an object, an existing
      token is a non-empty string unless trusted-proxy mode is on, and trustedProxies is an array. */
  predicate WellShaped(s: Settings, c: Fields) {
    && ObjectAt(c, "gateway") && GatewayFits(s, Child(c, "gateway"))
    && (s.metrics ==> ObjectAt(c, "diagnostics"))
    && (s.chromium ==> ObjectAt(c, "browser") && BrowserFits(Child(c, "browser")))
    && (s.entries != map[] ==> ObjectAt(c, "skills") && ObjectAt(Child(c, "skills"), "entries"))
  }

  // ----- sections -----

  lemma {:induction false} ExtendsItself(a: Json)
    ensures Extends(a, a)
    decreases a
  {
    if a.JObj? {
      forall k | k in a.fields
        ensures Extends(a.fields[k], a.fields[k])
      {
        ExtendsItself(a.fields[k]);
      }
    }
  }

  predicate Within(a: Fields, b: Fields) {
    forall k :: k in a ==> k in b && b[k] == a[k]
  }

  lemma {:induction false} WithinIsKept(a: Fields, b: Fields)
    requires Within(a, b)
    ensures Kept(a, b)
  {
    forall k | k in a
      ensures Extends(a[k], b[k])
    {
      ExtendsItself(a[k]);
    }
  }

  /** Writing an object under one key keeps the rest, and what was there if it extends it. */
  lemma {:induction false} PutKeeps(a: Fields, b: Fields, k: string, x: Fields)
    requires Within(a, b)
    ensures Kept(a, Put(b, k, x)) <==> ObjectAt(a, k) && Kept(Child(a, k), x)
  {
    WithinIsKept(a, b);
    if k in a {
      assert Extends(a[k], JObj(x)) <==> a[k].JObj? && Kept(a[k].fields, x);
    }
  }

  lemma {:induction false} OTelKeeps(d: Fields)
    ensures Kept(d, OTelSection(d))
  {
    var otel := Child(d, "otel");
    assert Within(otel, FillOTel(otel));
    WithinIsKept(otel, FillOTel(otel));
    WithinIsKept(d, d);
    PutKeeps(d, d, "otel", FillOTel(otel));
  }

  lemma {:induction false} ProfileKeeps(p: Fields)
    ensures Kept(p, Profile(p))
  {
    WithinIsKept(p, Profile(p));
  }

  lemma {:induction false} ProfilesKeep(p: Fields)
    ensures Kept(p, WithProfile(WithProfile(p, "default"), "chrome")) <==> ObjectAt(p, "default") && ObjectAt(p, "chrome")
  {
    var q := WithProfile(p, "default");
    var r := WithProfile(q, "chrome");
    ProfileKeeps(Child(p, "default"));
    ProfileKeeps(Child(p, "chrome"));
    TwoPuts(p, "default", Profile(Child(p, "default")), "chrome", Profile(Child(p, "chrome")));
  }

  lemma {:induction false} TwoPuts(a: Fields, k: string, x: Fields, j: string, y: Fields)
    requires k != j
    ensures Kept(a, Put(Put(a, k, x), j, y)) <==>
      ObjectAt(a, k) && Kept(Child(a, k), x) && ObjectAt(a, j) && Kept(Child(a, j), y)
  {
    var b := Put(Put(a, k, x), j, y);
    forall i | i in a && i != k && i != j
      ensures Extends(a[i], b[i])
    {
      ExtendsItself(a[i]);
    }
    assert k in a ==> b[k] == JObj(x);
    assert j in a ==> b[j] == JObj(y);
  }

  lemma {:induction false} BrowserKeeps(b: Fields)
    ensures Kept(b, BrowserSection(b)) <==> BrowserFits(b)
  {
    var b1 := Default(Default(b, "defaultProfile", JStr("default")), "attachOnly", JBool(true));
    assert Within(b, b1) && Child(b1, "profiles") == Child(b, "profiles");
    PutKeeps(b, b1, "profiles", WithProfile(WithProfile(Child(b, "profiles"), "default"), "chrome"));
    ProfilesKeep(Child(b, "profiles"));
  }

  lemma {:induction false} SkillsKeep(s: Settings, k: Fields)
    ensures Kept(k, SkillsSection(s, k)) <==> ObjectAt(k, "entries")
  {
    var e := Child(k, "entries");
    WithinIsKept(e, s.entries + e);
    PutKeeps(k, k, "entries", s.entries + e);
  }

  lemma {:induction false} AuthKeeps(s: Settings, auth: Fields)
    ensures Kept(auth, AuthSection(s, auth)) <==> TokenFits(s, auth)
  {
    var out := AuthSection(s, auth);
    if TokenFits(s, auth) {
      assert Within(auth, out);
      WithinIsKept(auth, out);
    } else {
      assert out["token"] == JStr(s.token) != auth["token"];
      assert !Extends(auth["token"], out["token"]);
    }
  }

  lemma UiKeeps(s: Settings, ui: Fields)
    ensures Kept(ui, UiSection(s, ui))
  {
    WithinIsKept(ui, UiSection(s, ui));
  }

  /** The gateway section, key by key. */
  lemma {:induction false} GatewayKeys(s: Settings, g: Fields)
    ensures var h := GatewaySection(s, g);
            && (forall k :: k in g && k != "auth" && k != "trustedProxies" && k != "controlUi" ==> k in h && h[k] == g[k])
            && ("auth" in g && s.token == "" && !s.tailscaleSso ==> "auth" in h && h["auth"] == g["auth"])
            && (s.token != "" || s.tailscaleSso ==> "auth" in h && h["auth"] == JObj(AuthSection(s, Child(g, "auth"))))
            && "trustedProxies" in h && h["trustedProxies"] == JArr(ProxySection(g))
            && ("controlUi" in g && s.origins == [] ==> "controlUi" in h && h["controlUi"] == g["controlUi"])
            && (s.origins != [] ==> "controlUi" in h && h["controlUi"] == JObj(UiSection(s, Child(g, "controlUi"))))
  {
    FirstKeys(s, g);
    LaterKeys(s, FirstGateway(s, g));
  }

  lemma {:induction false} FirstKeys(s: Settings, g: Fields)
    ensures var h := FirstGateway(s, g);
            && (forall k :: k in g && k != "auth" ==> k in h && h[k] == g[k])
            && ("auth" in g && s.token == "" && !s.tailscaleSso ==> "auth" in h && h["auth"] == g["auth"])
            && (s.token != "" || s.tailscaleSso ==> "auth" in h && h["auth"] == JObj(AuthSection(s, Child(g, "auth"))))
            && ProxySection(h) == ProxySection(g) && Child(h, "controlUi") == Child(g, "controlUi")
  {
  }

  lemma {:induction false} LaterKeys(s: Settings, g: Fields)
    ensures var h := LaterGateway(s, g);
            && (forall k :: k in g && k != "trustedProxies" && k != "controlUi" ==> k in h && h[k] == g[k])
            && "trustedProxies" in h && h["trustedProxies"] == JArr(ProxySection(g))
            && ("controlUi" in g && s.origins == [] ==> "controlUi" in h && h["controlUi"] == g["controlUi"])
            && (s.origins != [] ==> "controlUi" in h && h["controlUi"] == JObj(UiSection(s, Child(g, "controlUi"))))
  {
  }

  lemma {:induction false} AuthKeptAt(s: Settings, g: Fields)
    ensures ("auth" in g ==> GatewayKeptAt(g, GatewaySection(s, g), "auth")) <==>
      (s.token != "" || s.tailscaleSso ==> ObjectAt(g, "auth")) && TokenFits(s, Child(g, "auth"))
  {
    GatewayKeys(s, g);
    AuthKeeps(s, Child(g, "auth"));
    if "auth" in g {
      ExtendsItself(g["auth"]);
    }
  }

  lemma {:induction false} ProxiesKeptAt(s: Settings, g: Fields)
    ensures ("trustedProxies" in g ==> GatewayKeptAt(g, GatewaySection(s, g), "trustedProxies")) <==>
      ("trustedProxies" in g ==> g["trustedProxies"].JArr?)
  {
    GatewayKeys(s, g);
  }

  lemma {:induction false} UiKeptAt(s: Settings, g: Fields)
    ensures ("controlUi" in g ==> GatewayKeptAt(g, GatewaySection(s, g), "controlUi")) <==>
      (s.origins != [] ==> ObjectAt(g, "controlUi"))
  {
    GatewayKeys(s, g);
    UiKeeps(s, Child(g, "controlUi"));
    if "controlUi" in g {
      ExtendsItself(g["controlUi"]);
    }
  }

  lemma {:induction false} GatewayKeeps(s: Settings, g: Fields)
    ensures GatewayKept(g, GatewaySection(s, g)) <==> GatewayFits(s, g)
  {
    AuthKeptAt(s, g);
    ProxiesKeptAt(s, g);
    UiKeptAt(s, g);
    forall k | k in g && k != "auth" && k != "trustedProxies" && k != "controlUi"
      ensures GatewayKeptAt(g, GatewaySection(s, g), k)
    {
      GatewayKeys(s, g);
      ExtendsItself(g[k]);
    }
  }

  lemma {:induction false} GatewayAt(s: Settings, c: Fields)
    ensures ("gateway" in c ==> KeptAt(c, Enrich(s, c), "gateway")) <==>
      ObjectAt(c, "gateway") && GatewayFits(s, Child(c, "gateway"))
  {
    SectionsOf(s, c);
    GatewayKeeps(s, Child(c, "gateway"));
  }

  /** The other sections are kept exactly if they are absent or objects that fit. */
  lemma {:induction false} SectionAt(b: bool, c: Fields, d: Fields, k: string, x: Fields)
    requires At(b, d, k, x) && k != "gateway"
    ensures (b && k in c ==> KeptAt(c, d, k)) <==> (b ==> ObjectAt(c, k) && Kept(Child(c, k), x))
  {
  }

  lemma {:induction false} OthersAt(s: Settings, c: Fields, k: string)
    requires k in c && !Written(s, k)
    ensures KeptAt(c, Enrich(s, c), k)
  {
    SectionsOf(s, c);
    ExtendsItself(c[k]);
  }

  /** Enrichment keeps everything the user set, up to one appended trusted proxy, exactly for the
      well-shaped configs. */
  lemma {:induction false} EnrichExtendsExactly(s: Settings, c: Fields)
    ensures ConfigKept(c, Enrich(s, c)) <==> WellShaped(s, c)
  {
    var d := Enrich(s, c);
    SectionsOf(s, c);
    GatewayAt(s, c);
    OTelKeeps(Child(c, "diagnostics"));
    BrowserKeeps(Child(c, "browser"));
    SkillsKeep(s, Child(c, "skills"));
    SectionAt(s.metrics, c, d, "diagnostics", OTelSection(Child(c, "diagnostics")));
    SectionAt(s.chromium, c, d, "browser", BrowserSection(Child(c, "browser")));
    SectionAt(s.entries != map[], c, d, "skills", SkillsSection(s, Child(c, "skills")));
    forall k | k in c && !Written(s, k)
      ensures KeptAt(c, d, k)
    {
      OthersAt(s, c, k);
    }
    KeptByKey(s, c, d);
  }

  lemma {:induction false} KeptByKey(s: Settings, c: Fields, d: Fields)
    requires forall k :: k in c && !Written(s, k) ==> KeptAt(c, d, k)
    ensures ConfigKept(c, d) <==>
      && ("gateway" in c ==> KeptAt(c, d, "gateway"))
      && (s.metrics && "diagnostics" in c ==> KeptAt(c, d, "diagnostics"))
      && (s.chromium && "browser" in c ==> KeptAt(c, d, "browser"))
      && (s.entries != map[] && "skills" in c ==> KeptAt(c, d, "skills"))
  {
  }

  // ----- path by path -----

  lemma {:induction false} ExtendsAlong(a: Json, b: Json, p: seq<string>)
    requires Extends(a, b) && Get(a, p).Some?
    ensures Get(b, p).Some? && Extends(Get(a, p).value, Get(b, p).value)
    decreases |p|
  {
    if p != [] {
      ExtendsAlong(a.fields[p[0]], b.fields[p[0]], p[1..]);
    }
  }

  /** Every value the user set outside gateway.trustedProxies is in the result unchanged. */
  lemma {:induction false} SetValuesSurvive(s: Settings, c: Fields, p: Path)
    requires WellShaped(s, c) && Get(JObj(c), p).Some? && !Get(JObj(c), p).value.JObj?
    requires !(|p| > 1 && p[0] == "gateway" && p[1] == "trustedProxies")
    ensures Get(JObj(Enrich(s, c)), p) == Get(JObj(c), p)
  {
    var d := Enrich(s, c);
    EnrichExtendsExactly(s, c);
    assert KeptAt(c, d, p[0]);
    if p[0] != "gateway" {
      ExtendsAlong(c[p[0]], d[p[0]], p[1..]);
    } else {
      var g, h := c[p[0]].fields, d[p[0]].fields;
      assert p[1..][0] == p[1] && GatewayKeptAt(g, h, p[1]);
      ExtendsAlong(g[p[1]], h[p[1]], p[1..][1..]);
    }
  }

  // ----- trusted-proxy mode -----

  function AuthOf(c: Fields): Fields {
    Child(Child(c, "gateway"), "auth")
  }

  predicate IsTrustedProxy(config: Json) {
    config.JObj? && ProxyMode(AuthOf(config.fields))
  }

  /** The Secret the token variable is read from, or "" for none. `config` is the inline or the
      referenced config, if it could be read. */
  function TokenSecret(token: string, config: Option<Json>, existing: string, generated: string): string {
    if token != "" && !(config.Some? && IsTrustedProxy(config.value)) then
      if existing != "" then existing else generated
    else ""
  }

  /** In trusted-proxy mode neither the config nor the environment gains a token; in any other mode
      with a token at hand the config ends up with the user's own or that one. The mode itself is
      never turned on or off. */
  lemma {:induction false} TokenOutcome(s: Settings, c: Fields, existing: string, generated: string)
    ensures var before, after := AuthOf(c), AuthOf(Enrich(s, c));
            && (IsTrustedProxy(JObj(Enrich(s, c))) <==> IsTrustedProxy(JObj(c)))
            && (IsTrustedProxy(JObj(c)) ==>
                  && ("token" in after <==> "token" in before)
                  && ("token" in before ==> after["token"] == before["token"])
                  && TokenSecret(s.token, Some(JObj(c)), existing, generated) == "")
            && (!IsTrustedProxy(JObj(c)) ==>
                  TokenSecret(s.token, Some(JObj(c)), existing, generated) ==
                  if s.token == "" then "" else if existing == "" then generated else existing)
            && (!IsTrustedProxy(JObj(c)) && s.token != "" ==>
                  "token" in after && after["token"] == if HasToken(before) then before["token"] else JStr(s.token))
  {
    AuthAfter(s, c);
    AuthOutcome(s, AuthOf(c));
  }

  /** Without a token and without tailnet login the section is not touched, nor does AuthSection touch it. */
  lemma {:induction false} AuthAfter(s: Settings, c: Fields)
    ensures AuthOf(Enrich(s, c)) == AuthSection(s, AuthOf(c))
  {
    SectionsOf(s, c);
    var g := Child(c, "gateway");
    GatewayAuthAfter(s, g);
  }

  lemma {:induction false} GatewayAuthAfter(s: Settings, g: Fields)
    ensures Child(GatewaySection(s, g), "auth") == AuthSection(s, Child(g, "auth"))
  {
    var first := FirstGateway(s, g);
    assert Child(first, "auth") == AuthSection(s, Child(g, "auth"));
    assert Child(LaterGateway(s, first), "auth") == Child(first, "auth");
  }

  lemma {:induction false} AuthOutcome(s: Settings, before: Fields)
    ensures var after := AuthSection(s, before);
            && (ProxyMode(after) <==> ProxyMode(before))
            && (ProxyMode(before) ==>
                  && ("token" in after <==> "token" in before)
                  && ("token" in before ==> after["token"] == before["token"]))
            && (!ProxyMode(before) && s.token != "" ==>
                  "token" in after && after["token"] == if HasToken(before) then before["token"] else JStr(s.token))
  {
  }
}
