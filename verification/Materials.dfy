/** When an allowed intent can be materialized at all: which texts the renderer and the site paths accept, and which
    error each other text gets. */
module Materials {
  import opened Text
  import opened UnixPath
  import opened DeployPath
  import opened SitePaths
  import opened Render
  import opened RenderRoundTrip
  import opened Protocol
  import opened NginxLeg
  import opened NginxRuns
  import opened NginxIntents

  // ---------------------------------------------------------------- the texts

  /** A server name: at most 253 letters, digits, dots and hyphens. */
  predicate NameText(domain: string) {
    var d := Trim(domain);
    0 < |d| <= 253 && forall c :: c in d ==> 'a' <= c <= 'z' || 'A' <= c <= 'Z' || '0' <= c <= '9' || c == '.' || c == '-'
  }

  /** An absolute path without characters that mean something to nginx. */
  predicate PathText(path: string) {
    var p := Trim(path);
    IsAbs(p) && forall c :: c in p ==> c !in ";\n\r`\"'$\\"
  }

  /** A fastcgi address, which a runtime with PHP must have. */
  predicate PassText(runtimeType: string, phpPass: string) {
    var pass := Trim(phpPass);
    (ServesPhp(runtimeType) ==> pass != "") && forall c :: c in pass ==> c !in ";\n\r`\"'\\"
  }

  lemma {:induction false} AsciiBytes(s: string)
    requires forall i :: 0 <= i < |s| ==> s[i] < '\U{80}'
    ensures ByteLength(s) == |s|
  {
    if s != "" {
      AsciiBytes(s[1..]);
    }
  }

  lemma NameChecked(domain: string)
    ensures ValidateDomain(domain).None? <==> NameText(domain)
    ensures ValidateDomain(domain) == Some(EmptyDomain) <==> Trim(domain) == ""
    ensures ValidateDomain(domain) == Some(DomainTooLong) <==> ByteLength(Trim(domain)) > 253
  {
    var d := Trim(domain);
    if forall i :: 0 <= i < |d| ==> DomainChar(d[i]) {
      AsciiBytes(d);
    }
    if NameText(domain) {
      assert forall i :: 0 <= i < |d| ==> d[i] in d;
    }
  }

  lemma PathChecked(path: string)
    ensures ValidateLinuxPath(path).None? <==> PathText(path)
    ensures ValidateLinuxPath(path) == Some(EmptyLinuxPath) <==> Trim(path) == ""
    ensures ValidateLinuxPath(path) == Some(RelativeLinuxPath) <==> Trim(path) != "" && !IsAbs(Trim(path))
  {
  }

  lemma PassChecked(runtimeType: string, phpPass: string)
    ensures var r := PhpLocations(RuntimeKind(runtimeType), phpPass);
      && (r.Success? <==> PassText(runtimeType, phpPass))
      && (r == Failure(FastcgiPassRequired) <==> ServesPhp(runtimeType) && Trim(phpPass) == "")
      && (r.Failure? && r.error != FastcgiPassRequired ==> r.error == InvalidFastcgiPass)
  {
    RuntimeRead(runtimeType);
  }

  // ---------------------------------------------------------------- rendering

  predicate TlsText(tls: Option<Tls>) {
    tls.Some? ==> PathText(tls.value.certificate) && PathText(tls.value.key)
  }

  lemma TlsChecked(domain: string, webRoot: string, tls: Tls, locationTry: string, phpBlock: string)
    ensures RenderTls(domain, webRoot, tls, locationTry, phpBlock).Success? <==> PathText(tls.certificate) && PathText(tls.key)
  {
    PathChecked(tls.certificate);
    PathChecked(tls.key);
    TrimIsTrimmed(tls.certificate);
    TrimIsTrimmed(tls.key);
  }

  /** A site file is rendered exactly from a proper name, web root, site id, fastcgi address and TLS paths. */
  lemma RendersExactly(input: RenderInput)
    ensures RenderSiteConfig(input).Success? <==>
      && NameText(input.domain) && PathText(input.webRoot) && Trim(input.site) != ""
      && PassText(input.runtimeType, input.phpPass) && TlsText(input.tls)
  {
    NameChecked(input.domain);
    PathChecked(input.webRoot);
    PassChecked(input.runtimeType, input.phpPass);
    var php := PhpLocations(RuntimeKind(input.runtimeType), input.phpPass);
    if input.tls.Some? && php.Success? {
      TlsChecked(input.domain, input.webRoot, input.tls.value, php.value.0, php.value.1);
    }
  }

  // ---------------------------------------------------------------- the file name

  /** A site id that makes a file name: no slash, no `..`, and no dot at its end, which would meet the suffix's. */
  predicate SiteText(site: string) {
    var key := ToLower(Trim(site));
    key != "" && '/' !in key && !Contains(key, "..") && key[|key| - 1] != '.'
  }

  lemma DotsInName(key: string)
    ensures Contains("rp-" + key + ".conf", "..") <==> Contains(key, "..") || (key != "" && key[|key| - 1] == '.')
  {
    var name := "rp-" + key + ".conf";
    ContainsDots(name);
    ContainsDots(key);
    if i :| 0 <= i < |key| - 1 && key[i] == '.' && key[i + 1] == '.' {
      assert name[i + 3] == '.' && name[i + 3 + 1] == '.';
    }
    if key != "" && key[|key| - 1] == '.' {
      assert name[|key| + 2] == '.' && name[|key| + 2 + 1] == '.';
    }
    if i :| 0 <= i < |name| - 1 && name[i] == '.' && name[i + 1] == '.' {
      DotsWithin(key, i);
    }
  }

  lemma DotsWithin(key: string, i: nat)
    requires var name := "rp-" + key + ".conf"; i < |name| - 1 && name[i] == '.' && name[i + 1] == '.'
    ensures (i >= 3 && i - 3 < |key| - 1 && key[i - 3] == '.' && key[i - 3 + 1] == '.') || (key != "" && key[|key| - 1] == '.')
  {
    var name := "rp-" + key + ".conf";
    assert name[..3] == "rp-" && name[3 + |key|..] == ".conf";
  }

  lemma SlashInName(key: string)
    ensures '/' in "rp-" + key + ".conf" <==> '/' in key
  {
  }

  /** With roots as configuration loading leaves them the managed paths exist exactly for a proper site id. */
  lemma PathsExactly(availableRoot: string, enabledRoot: string, site: string)
    requires RootLoaded(availableRoot) && RootLoaded(enabledRoot)
    ensures var r := SiteConfigPaths(availableRoot, enabledRoot, site);
      && (r.Success? <==> SiteText(site))
      && (r == Failure(EmptySite) <==> Trim(site) == "")
      && (r.Failure? ==> r.error == EmptySite || r.error == InvalidSite)
  {
    var key := ToLower(Trim(site));
    PathsInsideRoots(availableRoot, enabledRoot, site);
    NameIs(site);
    SlashFree(FileName(site));
    DotsInName(key);
    SlashInName(key);
  }

  lemma NameIs(site: string)
    ensures FileName(site) == "rp-" + ToLower(Trim(site)) + ".conf"
  {
  }

  // ---------------------------------------------------------------- the intent

  /** An intent the checks allow can be materialized exactly when its name, web root, site id and TLS paths and the
      fastcgi address are proper. */
  lemma ReadyExactly(cfg: Config, intent: ApplyIntent, echo: string)
    requires RootsLoaded(cfg) && Hostable(cfg, intent)
    ensures Ready(PlanFor(cfg, intent, echo)) <==>
      && NameText(intent.domain) && PathText(RootFor(intent)) && SiteText(intent.site)
      && PassText(intent.runtimeType, cfg.phpPass)
      && (intent.tlsEnabled ==> PathText(Trim(intent.certPath)) && PathText(Trim(intent.keyPath)))
  {
    var input := Input(cfg, intent);
    PlanRenders(cfg, intent, echo);
    PlanPlaces(cfg, intent, echo);
    RendersExactly(input);
    PathsExactly(cfg.availableRoot, cfg.enabledRoot, intent.site);
    InputIs(cfg, intent);
    HostableRoot(cfg, intent);
  }

  lemma PlanPlaces(cfg: Config, intent: ApplyIntent, echo: string)
    ensures PlanFor(cfg, intent, echo).paths == SiteConfigPaths(cfg.availableRoot, cfg.enabledRoot, intent.site)
  {
  }

  lemma HostableRoot(cfg: Config, intent: ApplyIntent)
    requires Hostable(cfg, intent)
    ensures Input(cfg, intent).webRoot == RootFor(intent)
  {
    TrimIsTrimmed(intent.deployPath);
    ResolvesExactly(Trim(intent.deployPath), intent.runtimeType);
  }
}
