/** The fixed nginx template of one site. */
module Render {
  import opened Text
  import opened UnixPath
  import opened DeployPath

  datatype Tls = Tls(certificate: string, key: string, redirect: bool)

  datatype RenderInput = RenderInput(
    site: string, domain: string, webRoot: string, runtimeType: string, phpPass: string, tls: Option<Tls>)

  datatype RenderError =
    | EmptyDomain | DomainTooLong | InvalidDomainCharacter
    | EmptyLinuxPath | RelativeLinuxPath | InvalidPathCharacters
    | EmptySiteId | FastcgiPassRequired | InvalidFastcgiPass | EmptyTlsPaths

  predicate DomainChar(c: char) {
    'a' <= c <= 'z' || 'A' <= c <= 'Z' || '0' <= c <= '9' || c == '.' || c == '-'
  }

  function ValidateDomain(domain: string): Option<RenderError> {
    var d := Trim(domain);
    if d == "" then Some(EmptyDomain)
    else if ByteLength(d) > 253 then Some(DomainTooLong)
    else if forall i :: 0 <= i < |d| ==> DomainChar(d[i]) then None
    else Some(InvalidDomainCharacter)
  }

  function ValidateLinuxPath(path: string): Option<RenderError> {
    var p := Trim(path);
    if p == "" then Some(EmptyLinuxPath)
    else if !IsAbs(p) then Some(RelativeLinuxPath)
    else if ContainsAny(p, ";\n\r`\"'$\\") then Some(InvalidPathCharacters)
    else None
  }

  function ValidateFastcgiPass(pass: string): Option<RenderError> {
    if pass == "" then None
    else if ContainsAny(pass, ";\n\r`\"'\\") then Some(InvalidFastcgiPass)
    else None
  }

  function RuntimeKind(runtimeType: string): string {
    var rt := RuntimeOf(runtimeType);
    if rt == "wp" then "wordpress" else rt
  }

  predicate IncludesPhp(rt: string) {
    rt == "laravel" || rt == "wordpress" || rt == "php" || rt == "custom"
  }

  function TryFiles(rt: string): string {
    "try_files $uri $uri/ "
    + (if rt == "laravel" || rt == "php" then "/index.php?$query_string"
       else if rt == "wordpress" then "/index.php?$args"
       else if rt == "static" then "=404"
       else if rt == "custom" then "/index.php?$query_string"
       else "=404")
    + ";"
  }

  function PhpBlock(pass: string): string {
    "\n" + "    location ~ \\.php$ {\n"
    + "        include fastcgi_params;\n"
    + ("        fastcgi_param " + "SCRIPT_FILENAME " + "$document_root$fastcgi_script_name" + ";\n")
    + ("        fastcgi_pass " + pass + ";\n")
    + "    }\n"
  }

  /** The try_files text and the PHP block (empty for runtimes without PHP). */
  function PhpLocations(rt: string, phpPass: string): Result<(string, string), RenderError> {
    var pass := Trim(phpPass);
    if IncludesPhp(rt) && pass == "" then Failure(FastcgiPassRequired)
    else match ValidateFastcgiPass(pass)
      case Some(e) => Failure(e)
      case None => Success((TryFiles(rt), if IncludesPhp(rt) then PhpBlock(pass) else ""))
  }

  /** The block as the source's builder writes it, line by line. */
  method WritePhpBlock(pass: string) returns (b: string)
    ensures b == PhpBlock(pass)
  {
    b := "\n" + "    location ~ \\.php$ {\n";
    b := b + "        include fastcgi_params;\n";
    b := b + ("        fastcgi_param " + "SCRIPT_FILENAME " + "$document_root$fastcgi_script_name" + ";\n");
    b := b + ("        fastcgi_pass " + pass + ";\n");
    b := b + "    }\n";
  }

  function AppCore(webRoot: string, locationTry: string, phpBlock: string): string {
    ("    root " + webRoot + ";\n")
    + "    index index.html index.php;\n"
    + "\n"
    + ("    location / {\n" + ("        " + locationTry + "\n") + "    }")
    + phpBlock
  }

  function NameLine(domain: string): string {
    "    server_name " + domain + ";\n"
  }

  function HttpServer(domain: string, core: string): string {
    "server {\n"
    + ("    listen 80;\n" + "    listen [::]:80;\n" + NameLine(domain) + (core + "\n"))
    + "}\n"
  }

  function RedirectServer(domain: string): string {
    "server {\n"
    + ("    listen 80;\n" + "    listen [::]:80;\n" + NameLine(domain)
       + ("    return 301 " + "https://$host$request_uri" + ";\n"))
    + "}\n"
  }

  function HttpsServer(domain: string, cert: string, key: string, core: string): string {
    "server {\n"
    + ("    listen 443 ssl;\n" + "    listen [::]:443 ssl;\n" + NameLine(domain)
       + ("    ssl_certificate " + cert + ";\n") + ("    ssl_certificate_key " + key + ";\n") + (core + "\n"))
    + "}\n"
  }

  function RenderTls(domain: string, webRoot: string, tls: Tls, locationTry: string, phpBlock: string): Result<string, RenderError> {
    var cert, key := Trim(tls.certificate), Trim(tls.key);
    if cert == "" || key == "" then Failure(EmptyTlsPaths)
    else match ValidateLinuxPath(cert)
      case Some(e) => Failure(e)
      case None =>
        match ValidateLinuxPath(key)
        case Some(e) => Failure(e)
        case None =>
          var core := AppCore(webRoot, locationTry, phpBlock);
          var http := if tls.redirect then RedirectServer(domain) else HttpServer(domain, core);
          Success(http + HttpsServer(domain, cert, key, core))
  }

  /** The comment line; `\U{2014}` is an em dash. */
  function Header(site: string): string {
    "#" + (" ReleasePanel bounded nginx site " + "\U{2014} site_ulid=" + site + " \U{2014} agent-managed") + "\n"
  }

  function RenderSiteConfig(input: RenderInput): Result<string, RenderError> {
    match ValidateDomain(input.domain)
    case Some(e) => Failure(e)
    case None =>
      match ValidateLinuxPath(input.webRoot)
      case Some(e) => Failure(e)
      case None =>
        var site := Trim(input.site);
        if site == "" then Failure(EmptySiteId)
        else match PhpLocations(RuntimeKind(input.runtimeType), input.phpPass)
          case Failure(e) => Failure(e)
          case Success((locationTry, phpBlock)) =>
            match input.tls
            case None =>
              Success(Header(site) + HttpServer(input.domain, AppCore(input.webRoot, locationTry, phpBlock)))
            case Some(tls) =>
              match RenderTls(input.domain, input.webRoot, tls, locationTry, phpBlock)
              case Failure(e) => Failure(e)
              case Success(body) => Success(Header(site) + body)
  }
}
