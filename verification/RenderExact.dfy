/** The condition on paths is exact: a rendered file with a path that is not one plain word is not read back. */
module RenderExact {
  import opened Text
  import opened NginxSyntax
  import opened Render
  import opened ServerView
  import opened RenderRoundTrip

  // ---------------------------------------------------------------- words the lexer can produce

  /** No white space or semicolon, no brace unless the word has a `$`, and a first character that starts a word. */
  predicate WordLike(w: string) {
    && w != "" && w[0] != '}' && w[0] != '#' && w[0] != '"' && w[0] != '\''
    && (forall i :: 0 <= i < |w| ==> !White(w[i]) && w[i] != ';')
    && ('$' in w || '{' !in w)
  }

  /** Every backslash escapes a dot. */
  predicate SafeText(s: string) {
    forall i :: 0 <= i < |s| && s[i] == '\\' ==> i + 1 < |s| && s[i + 1] == '.'
  }

  lemma SafeRest(s: string, k: nat)
    requires SafeText(s) && k <= |s|
    ensures SafeText(s[k..])
  {
    forall i | 0 <= i < |s[k..]| && s[k..][i] == '\\' ensures i + 1 < |s[k..]| && s[k..][i + 1] == '.' {
      assert s[k + i] == '\\';
    }
  }

  lemma {:induction false} AfterLineIsRest(s: string)
    ensures AfterLine(s) == s[|s| - |AfterLine(s)|..]
  {
    if s != "" && s[0] != '\n' {
      AfterLineIsRest(s[1..]);
    }
  }

  predicate GoodTokens(ts: seq<Token>) {
    forall i :: 0 <= i < |ts| ==> ts[i].Word? ==> WordLike(ts[i].text)
  }

  lemma ConsGood(t: Token, ts: Option<seq<Token>>)
    requires (t.Word? ==> WordLike(t.text)) && (ts.Some? ==> GoodTokens(ts.value))
    ensures NginxSyntax.Cons(t, ts).Some? ==> GoodTokens(NginxSyntax.Cons(t, ts).value)
  {
  }

  lemma GrowWord(word: string, c: char)
    requires WordLike(word) && !White(c) && c != ';' && (c == '{' ==> '$' in word)
    ensures WordLike(word + [c]) && ('$' in word ==> '$' in word + [c]) && (c == '$' ==> '$' in word + [c])
  {
    assert (word + [c])[|word|] == c;
  }

  lemma GrowEscaped(word: string)
    requires WordLike(word)
    ensures WordLike(word + Escaped('.'))
  {
    assert Escaped('.') == ['\\', '.'];
    GrowWord(word, '\\');
    GrowWord(word + ['\\'], '.');
    assert word + ['\\'] + ['.'] == word + ['\\', '.'];
  }

  lemma {:induction false} LexGood(s: string)
    requires SafeText(s)
    ensures Lex(s).Some? ==> GoodTokens(Lex(s).value)
    decreases |s|, 0
  {
    if s != "" {
      SafeRest(s, 1);
      if White(s[0]) {
        LexGood(s[1..]);
      } else if s[0] == ';' || s[0] == '{' || s[0] == '}' {
        LexGood(s[1..]);
        ConsGood(if s[0] == ';' then Semi else if s[0] == '{' then Open else Close, Lex(s[1..]));
      } else if s[0] == '#' {
        var rest := s[1..];
        AfterLineIsRest(rest);
        SafeRest(rest, |rest| - |AfterLine(rest)|);
        LexGood(AfterLine(rest));
      } else if s[0] == '\\' {
        SafeRest(s, 2);
        assert Escaped('.') == ['\\', '.'];
        LexWordGood(s[2..], Escaped('.'), false);
      } else if s[0] != '"' && s[0] != '\'' {
        LexWordGood(s[1..], [s[0]], s[0] == '$');
      }
    }
  }

  lemma {:induction false} LexWordGood(s: string, word: string, variable: bool)
    requires SafeText(s) && WordLike(word) && (variable ==> '$' in word)
    ensures LexWord(s, word, variable).Some? ==> GoodTokens(LexWord(s, word, variable).value)
    decreases |s|, 1
  {
    if s != "" {
      SafeRest(s, 1);
      if s[0] == '{' && variable {
        GrowWord(word, '{');
        LexWordGood(s[1..], word + ['{'], true);
      } else if s[0] == '\\' {
        SafeRest(s, 2);
        GrowEscaped(word);
        LexWordGood(s[2..], word + Escaped('.'), false);
      } else if White(s[0]) || s[0] == ';' || s[0] == '{' {
        LexGood(s);
        ConsGood(Word(word), Lex(s));
      } else {
        GrowWord(word, s[0]);
        LexWordGood(s[1..], word + [s[0]], s[0] == '$');
      }
    }
  }

  // ---------------------------------------------------------------- words the parser hands on

  predicate GoodWords(ws: seq<string>) {
    forall i :: 0 <= i < |ws| ==> WordLike(ws[i])
  }

  predicate GoodItem(item: Item) {
    match item
    case Directive(words) => GoodWords(words)
    case Block(heading, body) => forall it :: it in body ==> GoodItem(it)
  }

  predicate GoodItems(items: seq<Item>) {
    forall it :: it in items ==> GoodItem(it)
  }

  lemma {:induction false} LeadingGood(ts: seq<Token>)
    requires GoodTokens(ts)
    ensures GoodWords(LeadingWords(ts))
  {
    if ts != [] && ts[0].Word? {
      assert GoodTokens(ts[1..]);
      LeadingGood(ts[1..]);
    }
  }

  lemma TokensRest(ts: seq<Token>, k: nat)
    requires GoodTokens(ts) && k <= |ts|
    ensures GoodTokens(ts[k..])
  {
  }

  lemma PutInFront(item: Item, items: seq<Item>)
    requires GoodItem(item) && GoodItems(items)
    ensures GoodItems([item] + items)
  {
  }

  predicate GoodParse(p: Option<Parsed>) {
    p.Some? ==> GoodItems(p.value.items) && GoodTokens(p.value.rest)
  }

  lemma {:induction false} ParseGood(ts: seq<Token>)
    requires GoodTokens(ts)
    ensures GoodParse(ParseItems(ts))
    decreases |ts|
  {
    if ts != [] && !ts[0].Close? {
      var words := LeadingWords(ts);
      var after := ts[|words|..];
      LeadingGood(ts);
      if words != [] && after != [] && !after[0].Close? {
        TokensRest(ts, |words|);
        TokensRest(after, 1);
        ParseGood(after[1..]);
        if after[0].Semi? {
          if ParseItems(after[1..]).Some? {
            PutInFront(Directive(words), ParseItems(after[1..]).value.items);
          }
        } else {
          BlockGood(words, after);
        }
      }
    }
  }

  /** After a heading: the body, its closing brace, and the items behind it. */
  lemma {:induction false} BlockGood(words: seq<string>, after: seq<Token>)
    requires after != [] && GoodParse(ParseItems(after[1..]))
    ensures var body := ParseItems(after[1..]);
      body.Some? && body.value.rest != [] && ParseItems(body.value.rest[1..]).Some? ==>
        GoodParse(Some(Parsed([Block(words, body.value.items)] + ParseItems(body.value.rest[1..]).value.items,
                              ParseItems(body.value.rest[1..]).value.rest)))
    decreases |after|, 0
  {
    var body := ParseItems(after[1..]);
    if body.Some? && body.value.rest != [] && ParseItems(body.value.rest[1..]).Some? {
      TokensRest(body.value.rest, 1);
      ParseGood(body.value.rest[1..]);
      PutInFront(Block(words, body.value.items), ParseItems(body.value.rest[1..]).value.items);
    }
  }

  lemma {:induction false} ArgsGood(items: seq<Item>, name: string)
    requires GoodItems(items)
    ensures forall a :: a in Args(items, name) ==> GoodWords(a)
  {
    if items != [] {
      assert items[0] in items && GoodItem(items[0]);
      ArgsGood(items[1..], name);
      forall a | a in ArgsOf(items[0], name) ensures GoodWords(a) {
        assert a == items[0].words[1..];
      }
    }
  }

  /** What the reader collects as roots, certificates and keys. */
  predicate GoodServer(s: Server) {
    && (forall a :: a in s.roots ==> GoodWords(a))
    && (forall a :: a in s.certificates ==> GoodWords(a))
    && (forall a :: a in s.keys ==> GoodWords(a))
  }

  lemma {:induction false} ServersGood(items: seq<Item>)
    requires GoodItems(items) && ReadServers(items).Some?
    ensures forall s :: s in ReadServers(items).value ==> GoodServer(s)
  {
    if items != [] {
      assert items[0] in items && GoodItem(items[0]);
      var body := items[0].body;
      assert GoodItems(body);
      ArgsGood(body, "root");
      ArgsGood(body, "ssl_certificate");
      ArgsGood(body, "ssl_certificate_key");
      ServersGood(items[1..]);
    }
  }

  lemma ReadGood(text: string)
    requires SafeText(text) && ReadSite(text).Some?
    ensures forall s :: s in ReadSite(text).value ==> GoodServer(s)
  {
    LexGood(text);
    ParseGood(Lex(text).value);
    ServersGood(ParseItems(Lex(text).value).value.items);
  }

  // ---------------------------------------------------------------- the rendered text is safe

  lemma SafeAppend(a: string, b: string)
    requires SafeText(a) && SafeText(b)
    ensures SafeText(a + b)
  {
    forall i | 0 <= i < |a + b| && (a + b)[i] == '\\' ensures i + 1 < |a + b| && (a + b)[i + 1] == '.' {
      if i >= |a| { assert b[i - |a|] == '\\'; }
    }
  }

  lemma SafeThree(a: string, b: string, c: string)
    requires SafeText(a) && SafeText(b) && SafeText(c)
    ensures SafeText(a + b + c)
  {
    SafeAppend(a, b);
    SafeAppend(a + b, c);
  }

  lemma WithoutBackslash(s: string)
    requires '\\' !in s
    ensures SafeText(s)
  {
  }

  lemma SafePattern()
    ensures SafeText("    location ~ \\.php$ {\n")
  {
    var s := "    location ~ \\.php$ {\n";
    assert s[15] == '\\' && s[16] == '.';
  }

  lemma SafePhpHead()
    ensures SafeText("\n" + "    location ~ \\.php$ {\n")
  {
    SafePattern();
    WithoutBackslash("\n");
    SafeAppend("\n", "    location ~ \\.php$ {\n");
  }

  lemma SafeParam()
    ensures SafeText("        fastcgi_param " + "SCRIPT_FILENAME " + "$document_root$fastcgi_script_name" + ";\n")
  {
    WithoutBackslash("        fastcgi_param ");
    WithoutBackslash("SCRIPT_FILENAME ");
    WithoutBackslash("$document_root$fastcgi_script_name");
    WithoutBackslash(";\n");
    SafeThree("        fastcgi_param ", "SCRIPT_FILENAME ", "$document_root$fastcgi_script_name");
    SafeAppend("        fastcgi_param " + "SCRIPT_FILENAME " + "$document_root$fastcgi_script_name", ";\n");
  }

  lemma SafePhp(pass: string)
    requires '\\' !in pass
    ensures SafeText(PhpBlock(pass))
  {
    var a, b, c := "\n" + "    location ~ \\.php$ {\n", "        include fastcgi_params;\n",
      "        fastcgi_param " + "SCRIPT_FILENAME " + "$document_root$fastcgi_script_name" + ";\n";
    var d, e := "        fastcgi_pass " + pass + ";\n", "    }\n";
    SafePhpHead();
    SafeParam();
    SafeLine("        fastcgi_pass ", pass);
    WithoutBackslash(b);
    WithoutBackslash(e);
    SafeThree(a, b, c);
    SafeThree(a + b + c, d, e);
  }

  /** A fixed start, an argument and the end of the directive. */
  lemma SafeLine(name: string, arg: string)
    requires '\\' !in name && '\\' !in arg
    ensures SafeText(name + arg + ";\n")
  {
    WithoutBackslash(name);
    WithoutBackslash(arg);
    WithoutBackslash(";\n");
    SafeThree(name, arg, ";\n");
  }

  lemma SafeTry(rt: string)
    ensures SafeText(TryFiles(rt))
  {
    WithoutBackslash("try_files $uri $uri/ ");
    WithoutBackslash("/index.php?$query_string");
    WithoutBackslash("/index.php?$args");
    WithoutBackslash("=404");
    WithoutBackslash(";");
    var last := if rt == "laravel" || rt == "php" then "/index.php?$query_string"
                else if rt == "wordpress" then "/index.php?$args"
                else if rt == "static" then "=404"
                else if rt == "custom" then "/index.php?$query_string"
                else "=404";
    SafeThree("try_files $uri $uri/ ", last, ";");
  }

  lemma SafeCore(webRoot: string, locationTry: string, phpBlock: string)
    requires '\\' !in webRoot && SafeText(locationTry) && SafeText(phpBlock)
    ensures SafeText(AppCore(webRoot, locationTry, phpBlock))
  {
    SafeLine("    root ", webRoot);
    WithoutBackslash("    index index.html index.php;\n");
    WithoutBackslash("\n");
    WithoutBackslash("    location / {\n");
    WithoutBackslash("        ");
    WithoutBackslash("    }");
    SafeThree("        ", locationTry, "\n");
    SafeThree("    location / {\n", "        " + locationTry + "\n", "    }");
    var location := "    location / {\n" + ("        " + locationTry + "\n") + "    }";
    SafeThree("    root " + webRoot + ";\n", "    index index.html index.php;\n", "\n");
    SafeThree("    root " + webRoot + ";\n" + "    index index.html index.php;\n" + "\n", location, phpBlock);
  }

  /** Listen lines and the name, with whatever follows, inside a server block. */
  lemma SafeServer(ports: string, ports6: string, domain: string, rest: string)
    requires SafeText(ports) && SafeText(ports6) && '\\' !in domain && SafeText(rest)
    ensures SafeText("server {\n" + (ports + ports6 + NameLine(domain) + rest) + "}\n")
  {
    SafeLine("    server_name ", domain);
    WithoutBackslash("server {\n");
    WithoutBackslash("}\n");
    SafeThree(ports, ports6, NameLine(domain));
    SafeAppend(ports + ports6 + NameLine(domain), rest);
    SafeThree("server {\n", ports + ports6 + NameLine(domain) + rest, "}\n");
  }

  lemma SafePorts()
    ensures SafeText("    listen 80;\n") && SafeText("    listen [::]:80;\n")
    ensures SafeText("    listen 443 ssl;\n") && SafeText("    listen [::]:443 ssl;\n")
  {
    WithoutBackslash("    listen 80;\n");
    WithoutBackslash("    listen [::]:80;\n");
    WithoutBackslash("    listen 443 ssl;\n");
    WithoutBackslash("    listen [::]:443 ssl;\n");
  }

  lemma SafeHttp(domain: string, core: string)
    requires '\\' !in domain && SafeText(core)
    ensures SafeText(HttpServer(domain, core))
  {
    WithoutBackslash("\n");
    SafeAppend(core, "\n");
    SafePorts();
    SafeServer("    listen 80;\n", "    listen [::]:80;\n", domain, core + "\n");
  }

  lemma SafeRedirect(domain: string)
    requires '\\' !in domain
    ensures SafeText(RedirectServer(domain))
  {
    SafeLine("    return 301 ", "https://$host$request_uri");
    SafePorts();
    SafeServer("    listen 80;\n", "    listen [::]:80;\n", domain, "    return 301 " + "https://$host$request_uri" + ";\n");
  }

  lemma SafeHttps(domain: string, cert: string, key: string, core: string)
    requires '\\' !in domain && '\\' !in cert && '\\' !in key && SafeText(core)
    ensures SafeText(HttpsServer(domain, cert, key, core))
  {
    var p, p6 := "    listen 443 ssl;\n", "    listen [::]:443 ssl;\n";
    var c, k, e := "    ssl_certificate " + cert + ";\n", "    ssl_certificate_key " + key + ";\n", core + "\n";
    SafeLine("    ssl_certificate ", cert);
    SafeLine("    ssl_certificate_key ", key);
    WithoutBackslash("\n");
    SafeAppend(core, "\n");
    SafePorts();
    SafeThree(c, k, e);
    SafeServer(p, p6, domain, c + k + e);
    Regroup(p + p6 + NameLine(domain), c, k, e);
  }

  lemma Regroup(a: string, c: string, k: string, e: string)
    ensures a + (c + k + e) == a + c + k + e
  {
  }

  lemma DomainSafe(domain: string)
    requires ValidateDomain(domain).None?
    ensures '\\' !in domain
  {
    var left, right := TrimSplit(domain);
    var d := Trim(domain);
    assert !DomainChar('\\') && !IsSpace('\\');
    assert forall i :: 0 <= i < |d| ==> d[i] != '\\';
  }

  lemma PassSafe(rt: string, phpPass: string)
    requires PhpLocations(rt, phpPass).Success?
    ensures '\\' !in Trim(phpPass)
  {
    var chars := ";\n\r`\"'\\";
    assert chars[6] == '\\';
  }

  lemma PathSafe(path: string)
    requires ValidateLinuxPath(path).None?
    ensures '\\' !in path && '$' !in path
  {
    ValidatedIsSimple(path);
  }

  lemma SafeLocations(rt: string, phpPass: string)
    requires PhpLocations(rt, phpPass).Success?
    ensures var php := PhpLocations(rt, phpPass).value; SafeText(php.0) && SafeText(php.1)
  {
    PassSafe(rt, phpPass);
    SafeTry(rt);
    SafePhp(Trim(phpPass));
    WithoutBackslash("");
  }

  lemma SafeTls(domain: string, webRoot: string, tls: Tls, locationTry: string, phpBlock: string)
    requires '\\' !in domain && '\\' !in webRoot && SafeText(locationTry) && SafeText(phpBlock)
    requires RenderTls(domain, webRoot, tls, locationTry, phpBlock).Success?
    ensures SafeText(RenderTls(domain, webRoot, tls, locationTry, phpBlock).value)
  {
    var cert, key, core := Trim(tls.certificate), Trim(tls.key), AppCore(webRoot, locationTry, phpBlock);
    PathSafe(cert);
    PathSafe(key);
    SafeCore(webRoot, locationTry, phpBlock);
    SafeHttp(domain, core);
    SafeRedirect(domain);
    SafeHttps(domain, cert, key, core);
    SafeAppend(if tls.redirect then RedirectServer(domain) else HttpServer(domain, core), HttpsServer(domain, cert, key, core));
  }

  /** The file without its comment line. */
  function Body(input: RenderInput): string
    requires RenderSiteConfig(input).Success?
  {
    var php := PhpLocations(RuntimeKind(input.runtimeType), input.phpPass).value;
    match input.tls
    case None => HttpServer(input.domain, AppCore(input.webRoot, php.0, php.1))
    case Some(tls) => RenderTls(input.domain, input.webRoot, tls, php.0, php.1).value
  }

  lemma BodySafe(input: RenderInput)
    requires RenderSiteConfig(input).Success?
    ensures SafeText(Body(input)) && RenderSiteConfig(input).value == Header(Trim(input.site)) + Body(input)
  {
    var php := PhpLocations(RuntimeKind(input.runtimeType), input.phpPass).value;
    DomainSafe(input.domain);
    PathSafe(input.webRoot);
    SafeLocations(RuntimeKind(input.runtimeType), input.phpPass);
    match input.tls {
      case None =>
        SafeCore(input.webRoot, php.0, php.1);
        SafeHttp(input.domain, AppCore(input.webRoot, php.0, php.1));
      case Some(tls) => SafeTls(input.domain, input.webRoot, tls, php.0, php.1);
    }
  }

  /** The comment line adds nothing to what is read. */
  lemma HeaderSkipped(site: string, body: string)
    requires '\n' !in site
    ensures Lex(Header(site) + body) == Lex(body)
  {
    HeaderReads(site);
    PrependNothing(Lex(body));
  }

  // ---------------------------------------------------------------- the exact condition

  /** The three paths of a site file are single plain words. */
  predicate PlainPaths(input: RenderInput) {
    && Plain(input.webRoot)
    && (input.tls.Some? ==> Plain(Trim(input.tls.value.certificate)) && Plain(Trim(input.tls.value.key)))
  }

  lemma PathWord(path: string)
    requires ValidateLinuxPath(path).None? && WordLike(path)
    ensures Plain(path)
  {
    PathSafe(path);
  }

  lemma OnlyRoot(s: Server, root: string)
    requires GoodServer(s) && s.roots == [[root]]
    ensures WordLike(root)
  {
    assert [root] in s.roots && [root][0] == root;
  }

  lemma OnlyFiles(s: Server, cert: string, key: string)
    requires GoodServer(s) && s.certificates == [[cert]] && s.keys == [[key]]
    ensures WordLike(cert) && WordLike(key)
  {
    assert [cert] in s.certificates && [cert][0] == cert && [key] in s.keys && [key][0] == key;
  }

  lemma ReadBackIsPlain(input: RenderInput)
    requires RenderSiteConfig(input).Success? && '\n' !in Trim(input.site)
    requires ReadSite(RenderSiteConfig(input).value) == Some(Intended(input))
    ensures PlainPaths(input)
  {
    ServersReadBack(input);
    GoodIsPlain(input);
  }

  lemma ServersReadBack(input: RenderInput)
    requires RenderSiteConfig(input).Success? && '\n' !in Trim(input.site)
    requires ReadSite(RenderSiteConfig(input).value) == Some(Intended(input))
    ensures forall s :: s in Intended(input) ==> GoodServer(s)
  {
    BodySafe(input);
    HeaderSkipped(Trim(input.site), Body(input));
    assert ReadSite(Body(input)) == Some(Intended(input));
    ReadGood(Body(input));
  }

  lemma GoodIsPlain(input: RenderInput)
    requires RenderSiteConfig(input).Success? && forall s :: s in Intended(input) ==> GoodServer(s)
    ensures PlainPaths(input)
  {
    ValidRoot(input);
    var servers := Intended(input);
    var last := servers[|servers| - 1];
    assert last in servers;
    OnlyRoot(last, input.webRoot);
    PathWord(input.webRoot);
    if input.tls.Some? {
      var cert, key := Trim(input.tls.value.certificate), Trim(input.tls.value.key);
      OnlyFiles(last, cert, key);
      ValidTls(input);
      PathWord(cert);
      PathWord(key);
    }
  }

  lemma ValidRoot(input: RenderInput)
    requires RenderSiteConfig(input).Success?
    ensures ValidateLinuxPath(input.webRoot).None?
  {
  }

  lemma ValidTls(input: RenderInput)
    requires RenderSiteConfig(input).Success? && input.tls.Some?
    ensures ValidateLinuxPath(Trim(input.tls.value.certificate)).None? && ValidateLinuxPath(Trim(input.tls.value.key)).None?
  {
  }

  /** The whole rendered file reads back as the intended servers exactly when web root, certificate and key are
      single plain words. */
  lemma ReadsBackExactly(input: RenderInput)
    requires RenderSiteConfig(input).Success? && '\n' !in Trim(input.site) && Padded(input.domain)
    requires PassOf(input).Some? ==> Plain(PassOf(input).value)
    ensures ReadSite(RenderSiteConfig(input).value) == Some(Intended(input)) <==> PlainPaths(input)
  {
    if PlainPaths(input) {
      RenderedMeaning(input);
    }
    if ReadSite(RenderSiteConfig(input).value) == Some(Intended(input)) {
      ReadBackIsPlain(input);
    }
  }

  /** Validation lets a path with a blank through; nginx does not read it back. */
  lemma BlankIsLost(input: RenderInput)
    requires RenderSiteConfig(input).Success? && '\n' !in Trim(input.site) && input.webRoot == "/a b"
    ensures ValidateLinuxPath("/a b").None? && ReadSite(RenderSiteConfig(input).value) != Some(Intended(input))
  {
    assert White("/a b"[2]);
    if ReadSite(RenderSiteConfig(input).value) == Some(Intended(input)) {
      ReadBackIsPlain(input);
    }
  }
}
