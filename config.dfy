/** Application settings: the per-environment token cache file and the
    choice of broker credentials for an environment, with the single
    legacy settings as fallback. */
module Config {
  import opened Models
  import opened DailyOrders
  import opened Portfolio

  /** The settings `resolve_kis` and `get_token_cache_path` read, each at
      the value the environment gave it. */
  datatype Settings = Settings(
    kisBase: string,
    kisBaseProd: string, kisAppKeyProd: string, kisAppSecretProd: string, kisAccount8Prod: string, kisAccountPdProd: string,
    kisBaseDev: string, kisAppKeyDev: string, kisAppSecretDev: string, kisAccount8Dev: string, kisAccountPdDev: string,
    kisAppKey: string, kisAppSecret: string, kisAccount8: string, kisAccountPd: string,
    tokenCachePath: string)

  /** The settings when the environment sets none of them. */
  const DefaultSettings: Settings := Settings(
    "",
    "", "", "", "", "01",
    "", "", "", "", "01",
    "", "", "", "01",
    "token/kis.json")

  /** The five values `resolve_kis` returns, under the keys base,
      app_key, app_secret, account_8 and account_pd. */
  datatype KisCredentials = KisCredentials(base: string, appKey: string, appSecret: string, account8: string, accountPd: string)

  const JsonSuffix: string := ".json"

  predicate EndsWith(s: string, suffix: string) {
    |suffix| <= |s| && s[|s| - |suffix|..] == suffix
  }

  /** `get_token_cache_path`: drop a trailing ".json", then append
      "_{env}.json". */
  function TokenCachePath(s: Settings, env: string): string {
    var base := if EndsWith(s.tokenCachePath, JsonSuffix) then s.tokenCachePath[..|s.tokenCachePath| - 5] else s.tokenCachePath;
    base + "_" + env + JsonSuffix
  }

  /** The cache file is the configured path without its ".json", followed
      by "_{env}.json"; a path without ".json" is kept whole. */
  lemma TokenCachePathShape(s: Settings, env: string)
    ensures var p := TokenCachePath(s, env);
      var tail := "_" + env + JsonSuffix;
      && EndsWith(p, tail)
      && (EndsWith(s.tokenCachePath, JsonSuffix) ==> p == s.tokenCachePath[..|s.tokenCachePath| - 5] + tail)
      && (!EndsWith(s.tokenCachePath, JsonSuffix) ==> p == s.tokenCachePath + tail)
  {
  }

  /** Two environments never share a cache file. */
  lemma TokenCachePathPerEnv(s: Settings, a: string, b: string)
    ensures a != b ==> TokenCachePath(s, a) != TokenCachePath(s, b)
  {
    var pa := TokenCachePath(s, a);
    var pb := TokenCachePath(s, b);
    var base := if EndsWith(s.tokenCachePath, JsonSuffix) then s.tokenCachePath[..|s.tokenCachePath| - 5] else s.tokenCachePath;
    if a != b && |pa| == |pb| {
      assert pa[|base| + 1..|pa| - 5] == a;
      assert pb[|base| + 1..|pb| - 5] == b;
    }
  }

  /** The default cache file for "prod" is "token/kis_prod.json". */
  lemma DefaultTokenCachePath()
    ensures TokenCachePath(DefaultSettings, "prod") == "token/kis_prod.json"
  {
    assert EndsWith(DefaultSettings.tokenCachePath, JsonSuffix);
  }

  /** `a or b` on text: the first unless it is empty. */
  function OrText(a: string, b: string): (r: string)
    ensures r == a || r == b
    ensures a != "" ==> r == a
    ensures r == "" <==> a == "" && b == ""
  {
    if a != "" then a else b
  }

  /** `(env or "").strip().lower()`, with None for a missing env. */
  function EnvKey(env: Option<string>): string {
    Lower(Strip(if env.Some? then env.value else ""))
  }

  const ProdNames: seq<string> := ["prod", "production", "real", "live"]

  predicate IsProd(env: Option<string>) {
    EnvKey(env) in ProdNames
  }

  /** The production credentials, each falling back to the legacy one. */
  function ProdCredentials(s: Settings): KisCredentials {
    KisCredentials(OrText(s.kisBaseProd, s.kisBase), OrText(s.kisAppKeyProd, s.kisAppKey),
                   OrText(s.kisAppSecretProd, s.kisAppSecret), OrText(s.kisAccount8Prod, s.kisAccount8),
                   OrText(s.kisAccountPdProd, s.kisAccountPd))
  }

  /** The development credentials, each falling back to the legacy one. */
  function DevCredentials(s: Settings): KisCredentials {
    KisCredentials(OrText(s.kisBaseDev, s.kisBase), OrText(s.kisAppKeyDev, s.kisAppKey),
                   OrText(s.kisAppSecretDev, s.kisAppSecret), OrText(s.kisAccount8Dev, s.kisAccount8),
                   OrText(s.kisAccountPdDev, s.kisAccountPd))
  }

  /** `resolve_kis` */
  function ResolveKis(s: Settings, env: Option<string>): KisCredentials {
    if IsProd(env) then ProdCredentials(s) else DevCredentials(s)
  }

  /** `own or legacy` on a credential: its own value unless that is empty,
      then the legacy one. */
  predicate FallsBack(r: string, own: string, legacy: string) {
    && (own != "" ==> r == own)
    && (own == "" ==> r == legacy)
  }

  /** Each production credential falls back to its legacy value only when
      empty. */
  lemma ProdFallback(s: Settings)
    ensures var r := ProdCredentials(s);
      && FallsBack(r.base, s.kisBaseProd, s.kisBase)
      && FallsBack(r.appKey, s.kisAppKeyProd, s.kisAppKey)
      && FallsBack(r.appSecret, s.kisAppSecretProd, s.kisAppSecret)
      && FallsBack(r.account8, s.kisAccount8Prod, s.kisAccount8)
      && FallsBack(r.accountPd, s.kisAccountPdProd, s.kisAccountPd)
  {
  }

  /** Each development credential falls back to its legacy value only when
      empty. */
  lemma DevFallback(s: Settings)
    ensures var r := DevCredentials(s);
      && FallsBack(r.base, s.kisBaseDev, s.kisBase)
      && FallsBack(r.appKey, s.kisAppKeyDev, s.kisAppKey)
      && FallsBack(r.appSecret, s.kisAppSecretDev, s.kisAppSecret)
      && FallsBack(r.account8, s.kisAccount8Dev, s.kisAccount8)
      && FallsBack(r.accountPd, s.kisAccountPdDev, s.kisAccountPd)
  {
  }

  /** The production credentials are used exactly for a production env,
      each of the five falling back to its legacy value only when empty;
      every other env gets the development ones, likewise. */
  lemma ResolveKisFallback(s: Settings, env: Option<string>)
    ensures var r := ResolveKis(s, env);
      && (IsProd(env) ==>
            && FallsBack(r.base, s.kisBaseProd, s.kisBase)
            && FallsBack(r.appKey, s.kisAppKeyProd, s.kisAppKey)
            && FallsBack(r.appSecret, s.kisAppSecretProd, s.kisAppSecret)
            && FallsBack(r.account8, s.kisAccount8Prod, s.kisAccount8)
            && FallsBack(r.accountPd, s.kisAccountPdProd, s.kisAccountPd))
      && (!IsProd(env) ==>
            && FallsBack(r.base, s.kisBaseDev, s.kisBase)
            && FallsBack(r.appKey, s.kisAppKeyDev, s.kisAppKey)
            && FallsBack(r.appSecret, s.kisAppSecretDev, s.kisAppSecret)
            && FallsBack(r.account8, s.kisAccount8Dev, s.kisAccount8)
            && FallsBack(r.accountPd, s.kisAccountPdDev, s.kisAccountPd))
  {
    ProdFallback(s);
    DevFallback(s);
  }

  /** A missing env and an empty one select the development credentials. */
  lemma NoEnvIsDev(s: Settings)
    ensures !IsProd(None) && !IsProd(Some(""))
    ensures ResolveKis(s, None) == ResolveKis(s, Some(""))
  {
    assert StripLeft("") == "" && StripRight("") == "";
    assert Lower("") == "";
    assert EnvKey(None) == "" && EnvKey(Some("")) == "";
    assert forall k :: k in ProdNames ==> k != "";
  }

  /** With the default settings every env resolves to account product "01". */
  lemma DefaultAccountProduct(env: Option<string>)
    ensures ResolveKis(DefaultSettings, env).accountPd == "01"
  {
  }

  /** Blanks around an env name do not change the choice. */
  lemma PaddingIgnored(e: string)
    requires e != [] && !IsSpace(e[0]) && !IsSpace(e[|e| - 1])
    ensures EnvKey(Some(" " + e + "\n")) == EnvKey(Some(e))
  {
    var padded := " " + e + "\n";
    assert padded[1..] == e + "\n";
    assert StripLeft(padded) == StripLeft(e + "\n");
    assert StripLeft(e + "\n") == e + "\n";
    assert (e + "\n")[..|e|] == e;
    assert StripRight(e + "\n") == StripRight(e);
    assert StripLeft(e) == e && StripRight(e) == e;
  }

  /** "dev" selects the development credentials. */
  lemma DevIsNotProd()
    ensures !IsProd(Some("dev"))
  {
    var d := "dev";
    assert StripLeft(d) == d;
    assert StripRight(d) == d;
    assert Lower(d) == d;
    assert EnvKey(Some(d)) == d;
  }

  /** Text with no whitespace at either end is its own `strip()`. */
  lemma NoEdgeSpace(e: string)
    requires e != [] && !IsSpace(e[0]) && !IsSpace(e[|e| - 1])
    ensures Strip(e) == e
  {
  }

  /** "live" selects the production credentials. */
  lemma LiveIsProd()
    ensures IsProd(Some("live"))
  {
    var l := "live";
    assert StripLeft(l) == l;
    assert StripRight(l) == l;
    assert Lower(l) == l;
    assert EnvKey(Some(l)) == l;
    assert ProdNames[3] == l;
  }
}
