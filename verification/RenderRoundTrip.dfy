/** The rendered text parses back to the intended servers. */
module RenderRoundTrip {
  import opened Text
  import opened NginxSyntax
  import opened Render
  import opened ServerView

  /** In front of any text, `text` contributes exactly `tokens`. */
  ghost predicate Reads(text: string, tokens: seq<Token>) {
    forall rest :: Lex(text + rest) == Prepend(tokens, Lex(rest))
  }

  ghost predicate ReadsItems(text: string, items: seq<Item>) {
    Reads(text, Flatten(items)) && forall i :: 0 <= i < |items| ==> WellFormed(items[i])
  }

  lemma ComposeAt(a: string, s: seq<Token>, b: string, t: seq<Token>, rest: string)
    requires Lex(a + (b + rest)) == Prepend(s, Lex(b + rest))
    requires Lex(b + rest) == Prepend(t, Lex(rest))
    ensures Lex(a + b + rest) == Prepend(s + t, Lex(rest))
  {
    assert a + b + rest == a + (b + rest);
    PrependPrepend(s, t, Lex(rest));
  }

  lemma Compose(a: string, s: seq<Token>, b: string, t: seq<Token>)
    requires Reads(a, s) && Reads(b, t)
    ensures Reads(a + b, s + t)
  {
    forall rest ensures Lex(a + b + rest) == Prepend(s + t, Lex(rest)) {
      assert Lex(a + (b + rest)) == Prepend(s, Lex(b + rest));
      assert Lex(b + rest) == Prepend(t, Lex(rest));
      ComposeAt(a, s, b, t, rest);
    }
  }

  lemma {:induction false} FlattenAppend(x: seq<Item>, y: seq<Item>)
    ensures Flatten(x + y) == Flatten(x) + Flatten(y)
    decreases |x|
  {
    if x == [] {
      assert x + y == y;
    } else {
      assert (x + y)[1..] == x[1..] + y;
      FlattenAppend(x[1..], y);
    }
  }

  lemma ComposeItems(a: string, x: seq<Item>, b: string, y: seq<Item>)
    requires ReadsItems(a, x) && ReadsItems(b, y)
    ensures ReadsItems(a + b, x + y)
  {
    Compose(a, Flatten(x), b, Flatten(y));
    FlattenAppend(x, y);
  }

  lemma FlattenSingle(item: Item)
    ensures Flatten([item]) == FlattenOne(item)
  {
    assert Flatten([item]) == FlattenOne(item) + Flatten([]);
  }

  lemma ReadDirective(text: string, indent: string, ws: seq<string>)
    requires AllWhite(indent) && AllPlain(ws) && text == indent + Spaced(ws) + ";\n"
    ensures ReadsItems(text, [Directive(ws)])
  {
    FlattenSingle(Directive(ws));
    forall rest ensures Lex(text + rest) == Prepend(Flatten([Directive(ws)]), Lex(rest)) {
      LexDirective(indent, ws, rest);
    }
  }

  lemma ReadHeading(text: string, indent: string, ws: seq<string>)
    requires AllWhite(indent) && AllPlain(ws) && text == indent + Spaced(ws) + " {\n"
    ensures Reads(text, Words(ws) + [Open])
  {
    forall rest ensures Lex(text + rest) == Prepend(Words(ws) + [Open], Lex(rest)) {
      LexHeading(indent, ws, rest);
    }
  }

  lemma PrependNothing(more: Option<seq<Token>>)
    ensures Prepend([], more) == more
  {
    if more.Some? {
      assert [] + more.value == more.value;
    }
  }

  lemma ReadWhite(text: string)
    requires AllWhite(text)
    ensures ReadsItems(text, [])
  {
    forall rest ensures Lex(text + rest) == Prepend([], Lex(rest)) {
      LexWhite(text, rest);
      PrependNothing(Lex(rest));
    }
  }

  lemma ReadClose(indent: string, after: string)
    requires AllWhite(indent) && AllWhite(after)
    ensures Reads(indent + "}" + after, [Close])
  {
    forall rest ensures Lex(indent + "}" + after + rest) == Prepend([Close], Lex(rest)) {
      assert indent + "}" + after + rest == indent + "}" + (after + rest);
      LexClose(indent, after + rest);
      LexWhite(after, rest);
    }
  }

  lemma ReadBlock(open: string, heading: seq<string>, inner: string, body: seq<Item>, close: string)
    requires Reads(open, Words(heading) + [Open]) && heading != []
    requires ReadsItems(inner, body) && Reads(close, [Close])
    ensures ReadsItems(open + inner + close, [Block(heading, body)])
  {
    Compose(open, Words(heading) + [Open], inner, Flatten(body));
    Compose(open + inner, Words(heading) + [Open] + Flatten(body), close, [Close]);
    FlattenSingle(Block(heading, body));
  }

  // ---------------------------------------------------------------- one line at a time

  lemma ReadOne(text: string, indent: string, name: string, arg: string)
    requires AllWhite(indent) && Plain(name) && Plain(arg)
    requires text == indent + name + " " + arg + ";\n"
    ensures ReadsItems(text, [Directive([name, arg])])
  {
    assert Spaced([name, arg]) == name + " " + arg;
    assert text == indent + Spaced([name, arg]) + ";\n";
    ReadDirective(text, indent, [name, arg]);
  }

  lemma SpacedCons(w: string, ws: seq<string>)
    requires ws != []
    ensures Spaced([w] + ws) == w + " " + Spaced(ws)
  {
    assert ([w] + ws)[1..] == ws;
  }

  lemma ReadTwo(text: string, indent: string, name: string, arg: string, arg': string)
    requires AllWhite(indent) && Plain(name) && Plain(arg) && Plain(arg')
    requires text == indent + name + " " + arg + " " + arg' + ";\n"
    ensures ReadsItems(text, [Directive([name, arg, arg'])])
  {
    SpacedCons(arg, [arg']);
    SpacedCons(name, [arg, arg']);
    assert [arg] + [arg'] == [arg, arg'] && [name] + [arg, arg'] == [name, arg, arg'];
    assert text == indent + Spaced([name, arg, arg']) + ";\n";
    ReadDirective(text, indent, [name, arg, arg']);
  }

  lemma ReadThree(text: string, indent: string, name: string, a: string, b: string, c: string)
    requires AllWhite(indent) && Plain(name) && Plain(a) && Plain(b) && Plain(c)
    requires text == indent + name + " " + a + " " + b + " " + c + ";\n"
    ensures ReadsItems(text, [Directive([name, a, b, c])])
  {
    SpacedCons(b, [c]);
    SpacedCons(a, [b, c]);
    SpacedCons(name, [a, b, c]);
    assert [b] + [c] == [b, c] && [a] + [b, c] == [a, b, c] && [name] + [a, b, c] == [name, a, b, c];
    assert text == indent + Spaced([name, a, b, c]) + ";\n";
    ReadDirective(text, indent, [name, a, b, c]);
  }

  /** A directive whose last argument comes from the input. */
  lemma ReadArgument(prefix: string, indent: string, name: string, arg: string)
    requires AllWhite(indent) && Plain(name) && Plain(arg) && prefix == indent + name + " "
    ensures ReadsItems(prefix + arg + ";\n", [Directive([name, arg])])
  {
    assert prefix + arg + ";\n" == indent + name + " " + arg + ";\n";
    ReadOne(prefix + arg + ";\n", indent, name, arg);
  }

  lemma ListenLines()
    ensures ReadsItems("    listen 80;\n", [Directive(["listen", "80"])])
    ensures ReadsItems("    listen [::]:80;\n", [Directive(["listen", "[::]:80"])])
  {
    ReadOne("    listen 80;\n", "    ", "listen", "80");
    ReadOne("    listen [::]:80;\n", "    ", "listen", "[::]:80");
  }

  lemma SecureListenLine()
    ensures ReadsItems("    listen 443 ssl;\n", [Directive(["listen", "443", "ssl"])])
  {
    ReadTwo("    listen 443 ssl;\n", "    ", "listen", "443", "ssl");
  }

  lemma PlainSecure()
    ensures Plain("listen") && Plain("[::]:443") && Plain("ssl")
  {
  }

  lemma SecureListenText6()
    ensures "    listen [::]:443 ssl;\n" == "    " + "listen" + " " + "[::]:443" + " " + "ssl" + ";\n"
  {
  }

  lemma SecureListenLine6()
    ensures ReadsItems("    listen [::]:443 ssl;\n", [Directive(["listen", "[::]:443", "ssl"])])
  {
    PlainSecure();
    SecureListenText6();
    ReadTwo("    listen [::]:443 ssl;\n", "    ", "listen", "[::]:443", "ssl");
  }

  lemma PlainIndex()
    ensures Plain("index") && Plain("index.html") && Plain("index.php")
  {
  }

  lemma IndexText()
    ensures "    index index.html index.php;\n" == "    " + "index" + " " + "index.html" + " " + "index.php" + ";\n"
  {
  }

  lemma IndexLine()
    ensures ReadsItems("    index index.html index.php;\n", [Directive(["index", "index.html", "index.php"])])
  {
    PlainIndex();
    IndexText();
    ReadTwo("    index index.html index.php;\n", "    ", "index", "index.html", "index.php");
  }

  lemma PlainInclude()
    ensures Plain("include") && Plain("fastcgi_params")
  {
  }

  lemma IncludeText()
    ensures "        include fastcgi_params;\n" == "        " + "include" + " " + "fastcgi_params" + ";\n"
  {
  }

  lemma IncludeLine()
    ensures ReadsItems("        include fastcgi_params;\n", [Directive(["include", "fastcgi_params"])])
  {
    PlainInclude();
    IncludeText();
    ReadOne("        include fastcgi_params;\n", "        ", "include", "fastcgi_params");
  }

  lemma ReturnLine()
    ensures ReadsItems("    return 301 " + "https://$host$request_uri" + ";\n",
                       [Directive(["return", "301", "https://$host$request_uri"])])
  {
    var uri := "https://$host$request_uri";
    assert Plain(uri);
    assert "    return 301 " == "    " + "return" + " " + "301" + " ";
    ReadTwo("    return 301 " + uri + ";\n", "    ", "return", "301", uri);
  }

  lemma ParamLine()
    ensures ReadsItems("        fastcgi_param " + "SCRIPT_FILENAME " + "$document_root$fastcgi_script_name" + ";\n",
                       [Directive(["fastcgi_param", "SCRIPT_FILENAME", "$document_root$fastcgi_script_name"])])
  {
    var name := "$document_root$fastcgi_script_name";
    var text := "        fastcgi_param " + "SCRIPT_FILENAME " + name + ";\n";
    ParamWords();
    assert text == "        " + "fastcgi_param" + " " + "SCRIPT_FILENAME" + " " + name + ";\n" by {
      assert "        fastcgi_param " == "        " + "fastcgi_param" + " ";
      assert "SCRIPT_FILENAME " == "SCRIPT_FILENAME" + " ";
    }
    ReadTwo(text, "        ", "fastcgi_param", "SCRIPT_FILENAME", name);
  }

  lemma ParamWords()
    ensures Plain("fastcgi_param") && Plain("SCRIPT_FILENAME") && Plain("$document_root$fastcgi_script_name")
  {
  }

  lemma ServerHeading()
    ensures Reads("server {\n", Words(["server"]) + [Open])
    ensures Reads("}\n", [Close])
  {
    assert Spaced(["server"]) == "server";
    ReadHeading("server {\n", "", ["server"]);
    ReadClose("", "\n");
    assert "" + "}" + "\n" == "}\n";
  }

  lemma LocationHeading()
    ensures Reads("    location / {\n", Words(["location", "/"]) + [Open])
  {
    assert Spaced(["location", "/"]) == "location" + " " + "/";
    ReadHeading("    location / {\n", "    ", ["location", "/"]);
  }

  /** The heading of the PHP block: the backslash is kept in front of a dot. */
  lemma PhpHeading()
    ensures Reads("    location ~ \\.php$ {\n", Words(["location", "~", "\\.php$"]) + [Open])
  {
    var text := "    location ~ \\.php$ {\n";
    forall rest ensures Lex(text + rest) == Prepend(Words(["location", "~", "\\.php$"]) + [Open], Lex(rest)) {
      PhpHeadingAt(rest);
    }
  }

  lemma PhpHeadingText()
    ensures "    location ~ \\.php$ {\n" == "    " + "location" + " " + "~" + " " + "\\.php$" + " {\n"
  {
  }

  lemma ThreeWordHeading(indent: string, a: string, b: string, c: string, rest: string)
    requires AllWhite(indent) && Plain(a) && Plain(b)
    requires Lex(c + (" {\n" + rest)) == NginxSyntax.Cons(Word(c), Lex(" {\n" + rest))
    ensures Lex(indent + a + " " + b + " " + c + " {\n" + rest) == Prepend([Word(a), Word(b), Word(c)] + [Open], Lex(rest))
  {
    var pattern := c + (" {\n" + rest);
    assert indent + a + " " + b + " " + c + " {\n" + rest == indent + (a + (" " + (b + (" " + pattern))));
    LexWhite(indent, a + (" " + (b + (" " + pattern))));
    LexPlain(a, " " + (b + (" " + pattern)));
    LexWhite(" ", b + (" " + pattern));
    LexPlain(b, " " + pattern);
    LexWhite(" ", pattern);
    LexOpen(rest);
    ThreeWords(Word(a), Word(b), Word(c), Lex(rest));
  }

  lemma PhpHeadingAt(rest: string)
    ensures Lex("    location ~ \\.php$ {\n" + rest)
         == Prepend(Words(["location", "~", "\\.php$"]) + [Open], Lex(rest))
  {
    PhpHeadingText();
    LexPattern(" {\n" + rest);
    ThreeWordHeading("    ", "location", "~", "\\.php$", rest);
    assert Words(["location", "~", "\\.php$"]) == [Word("location"), Word("~"), Word("\\.php$")];
  }

  lemma ThreeWords(a: Token, b: Token, c: Token, more: Option<seq<Token>>)
    ensures NginxSyntax.Cons(a, NginxSyntax.Cons(b, NginxSyntax.Cons(c, Prepend([Open], more))))
         == Prepend([a, b, c] + [Open], more)
  {
    if more.Some? {
      assert [a] + ([b] + ([c] + ([Open] + more.value))) == [a, b, c] + [Open] + more.value;
    }
  }

  lemma LexPattern(tail: string)
    requires Separator(tail) && tail[0] != '{'
    ensures Lex("\\.php$" + tail) == NginxSyntax.Cons(Word("\\.php$"), Lex(tail))
  {
    var s := "\\.php$" + tail;
    assert s[0] == '\\' && s[1] == '.' && s[2..] == "php$" + tail;
    LexPlainTail("php$", tail, "\\.", false);
    assert "\\." + "php$" == "\\.php$";
  }

  // ---------------------------------------------------------------- the intended servers

  /** The last try_files target of a runtime, as the operator writes it. */
  function LastTarget(runtimeType: string): string {
    var t := ToLower(Trim(runtimeType));
    if t == "wordpress" || t == "wp" then "/index.php?$args"
    else if t == "laravel" || t == "php" || t == "custom" then "/index.php?$query_string"
    else "=404"
  }

  predicate ServesPhp(runtimeType: string) {
    var t := ToLower(Trim(runtimeType));
    t == "wordpress" || t == "wp" || t == "laravel" || t == "php" || t == "custom"
  }

  /** Where PHP requests go, if this runtime serves PHP. */
  function PassOf(input: RenderInput): Option<string> {
    if ServesPhp(input.runtimeType) then Some(Trim(input.phpPass)) else None
  }

  /** The same target by the renderer's own name for the runtime. */
  function LastTry(rt: string): string {
    if rt == "wordpress" then "/index.php?$args"
    else if rt == "laravel" || rt == "php" || rt == "custom" then "/index.php?$query_string"
    else "=404"
  }

  lemma RuntimeRead(runtimeType: string)
    ensures LastTry(RuntimeKind(runtimeType)) == LastTarget(runtimeType)
    ensures IncludesPhp(RuntimeKind(runtimeType)) <==> ServesPhp(runtimeType)
  {
  }

  function PhpItems(pass: Option<string>): seq<Item> {
    match pass
    case None => []
    case Some(p) =>
      [Block(["location", "~", "\\.php$"],
             [Directive(["include", "fastcgi_params"])]
             + [Directive(["fastcgi_param", "SCRIPT_FILENAME", "$document_root$fastcgi_script_name"])]
             + [Directive(["fastcgi_pass", p])])]
  }

  function CoreItems(root: string, last: string, pass: Option<string>): seq<Item> {
    [Directive(["root", root])]
    + [Directive(["index", "index.html", "index.php"])]
    + []
    + [Block(["location", "/"], [Directive(["try_files", "$uri", "$uri/", last])])]
    + PhpItems(pass)
  }

  lemma TryLine(rt: string)
    ensures ReadsItems("        " + TryFiles(rt) + "\n", [Directive(["try_files", "$uri", "$uri/", LastTry(rt)])])
  {
    PlainTry(rt);
    TryText();
    TryGroup("        ", LastTry(rt));
    ReadThree("        " + TryFiles(rt) + "\n", "        ", "try_files", "$uri", "$uri/", LastTry(rt));
  }

  lemma TryGroup(indent: string, last: string)
    ensures indent + ("try_files $uri $uri/ " + last + ";") + "\n"
         == indent + "try_files" + " " + "$uri" + " " + "$uri/" + " " + last + ";\n"
  {
    TryText();
    Regroup6(indent, "try_files", "$uri", "$uri/", last);
  }

  lemma Regroup6(indent: string, a: string, b: string, c: string, d: string)
    ensures indent + ((a + " " + b + " " + c + " ") + d + ";") + "\n" == indent + a + " " + b + " " + c + " " + d + ";\n"
  {
  }

  lemma TryText()
    ensures "try_files $uri $uri/ " == "try_files" + " " + "$uri" + " " + "$uri/" + " "
    ensures Plain("try_files") && Plain("$uri") && Plain("$uri/")
  {
  }

  lemma PlainTry(rt: string)
    ensures Plain(LastTry(rt))
  {
  }

  lemma PhpBlockReads(pass: string)
    requires Plain(pass)
    ensures ReadsItems(PhpBlock(pass), PhpItems(Some(pass)))
  {
    var body1 := [Directive(["include", "fastcgi_params"])];
    var body2 := [Directive(["fastcgi_param", "SCRIPT_FILENAME", "$document_root$fastcgi_script_name"])];
    var body3 := [Directive(["fastcgi_pass", pass])];
    var text1 := "        include fastcgi_params;\n";
    var text2 := "        fastcgi_param " + "SCRIPT_FILENAME " + "$document_root$fastcgi_script_name" + ";\n";
    var text3 := "        fastcgi_pass " + pass + ";\n";
    IncludeLine();
    ParamLine();
    PassLine(pass);
    ComposeItems(text1, body1, text2, body2);
    ComposeItems(text1 + text2, body1 + body2, text3, body3);
    PhpHeading();
    PhpWrap(text1, text2, text3, body1 + body2 + body3);
  }

  lemma PassLine(pass: string)
    requires Plain(pass)
    ensures ReadsItems("        fastcgi_pass " + pass + ";\n", [Directive(["fastcgi_pass", pass])])
  {
    assert "        fastcgi_pass " == "        " + "fastcgi_pass" + " ";
    ReadArgument("        fastcgi_pass ", "        ", "fastcgi_pass", pass);
  }

  lemma PhpWrap(a: string, b: string, c: string, body: seq<Item>)
    requires ReadsItems(a + b + c, body)
    ensures ReadsItems("\n" + "    location ~ \\.php$ {\n" + a + b + c + "    }\n", [Block(["location", "~", "\\.php$"], body)])
  {
    var open := "    location ~ \\.php$ {\n";
    PhpHeading();
    ReadClose("    ", "\n");
    assert "    " + "}" + "\n" == "    }\n";
    ReadBlock(open, ["location", "~", "\\.php$"], a + b + c, body, "    }\n");
    ReadWhite("\n");
    ComposeItems("\n", [], open + (a + b + c) + "    }\n", [Block(["location", "~", "\\.php$"], body)]);
    Regroup("\n", open, a, b, c, "    }\n");
    assert [] + [Block(["location", "~", "\\.php$"], body)] == [Block(["location", "~", "\\.php$"], body)];
  }

  lemma Regroup(x: string, y: string, a: string, b: string, c: string, z: string)
    ensures x + (y + (a + b + c) + z) == x + y + a + b + c + z
  {
  }

  /** What the two pieces of a site's locations are: one try_files directive with the runtime's last target, and
      the PHP location exactly for runtimes with PHP; and when there are none. */
  ghost predicate LocationsAsMeant(rt: string, phpPass: string, r: Result<(string, string), RenderError>) {
    var pass := Trim(phpPass);
    var php := rt == "laravel" || rt == "wordpress" || rt == "php" || rt == "custom";
    && (r == Failure(FastcgiPassRequired) <==> php && pass == "")
    && (r == Failure(InvalidFastcgiPass) <==> ContainsAny(pass, ";\n\r`\"'\\"))
    && (r.Failure? ==> r.error == FastcgiPassRequired || r.error == InvalidFastcgiPass)
    && (r.Success? ==> (
        && ReadsItems("        " + r.value.0 + "\n", [Directive(["try_files", "$uri", "$uri/", LastTry(rt)])])
        && (php && Plain(pass) ==> ReadsItems(r.value.1, PhpItems(Some(pass))))
        && (!php ==> ReadsItems(r.value.1, PhpItems(None)))))
  }

  lemma LocationsMean(rt: string, phpPass: string)
    ensures LocationsAsMeant(rt, phpPass, PhpLocations(rt, phpPass))
  {
    var pass := Trim(phpPass);
    TryLine(rt);
    ReadWhite("");
    if Plain(pass) {
      PhpBlockReads(pass);
    }
  }

  method BuildPHPLocations(rt: string, phpPass: string) returns (r: Result<(string, string), RenderError>)
    ensures LocationsAsMeant(rt, phpPass, r) && r == PhpLocations(rt, phpPass)
  {
    LocationsMean(rt, phpPass);
    var pass := Trim(phpPass);
    if IncludesPhp(rt) && pass == "" {
      return Failure(FastcgiPassRequired);
    }
    var err := ValidateFastcgiPass(pass);
    if err.Some? {
      return Failure(err.value);
    }
    var b := "";
    if IncludesPhp(rt) {
      b := WritePhpBlock(pass);
    }
    r := Success((TryFiles(rt), b));
  }

  lemma CoreReads(root: string, rt: string, phpText: string, pass: Option<string>)
    requires Plain(root) && ReadsItems(phpText, PhpItems(pass))
    ensures ReadsItems(AppCore(root, TryFiles(rt), phpText), CoreItems(root, LastTry(rt), pass))
  {
    var i1, i2, i4 := [Directive(["root", root])], [Directive(["index", "index.html", "index.php"])],
      [Block(["location", "/"], [Directive(["try_files", "$uri", "$uri/", LastTry(rt)])])];
    var t1, t2 := "    root " + root + ";\n", "    index index.html index.php;\n";
    var t4 := "    location / {\n" + ("        " + TryFiles(rt) + "\n") + "    }";
    RootLine(root);
    IndexLine();
    ReadWhite("\n");
    LocationReads(rt);
    ComposeItems(t1, i1, t2, i2);
    ComposeItems(t1 + t2, i1 + i2, "\n", []);
    ComposeItems(t1 + t2 + "\n", i1 + i2 + [], t4, i4);
    ComposeItems(t1 + t2 + "\n" + t4, i1 + i2 + [] + i4, phpText, PhpItems(pass));
  }

  lemma RootLine(root: string)
    requires Plain(root)
    ensures ReadsItems("    root " + root + ";\n", [Directive(["root", root])])
  {
    assert "    root " == "    " + "root" + " ";
    ReadArgument("    root ", "    ", "root", root);
  }

  lemma LocationReads(rt: string)
    ensures ReadsItems("    location / {\n" + ("        " + TryFiles(rt) + "\n") + "    }",
                       [Block(["location", "/"], [Directive(["try_files", "$uri", "$uri/", LastTry(rt)])])])
  {
    TryLine(rt);
    LocationHeading();
    ReadClose("    ", "");
    assert "    " + "}" + "" == "    }";
    ReadBlock("    location / {\n", ["location", "/"], "        " + TryFiles(rt) + "\n",
              [Directive(["try_files", "$uri", "$uri/", LastTry(rt)])], "    }");
  }

  /** The domain as configured: a name that is one word, padded with characters nginx skips. */
  predicate Padded(domain: string) {
    exists i, j :: 0 <= i <= j <= |domain| && domain[i..j] == Trim(domain) && AllWhite(domain[..i]) && AllWhite(domain[j..])
  }

  lemma NameLineReads(domain: string)
    requires Padded(domain) && Plain(Trim(domain))
    ensures ReadsItems(NameLine(domain), [Directive(["server_name", Trim(domain)])])
  {
    var i, j :| 0 <= i <= j <= |domain| && domain[i..j] == Trim(domain) && AllWhite(domain[..i]) && AllWhite(domain[j..]);
    var d := Directive(["server_name", Trim(domain)]);
    FlattenSingle(d);
    forall rest ensures Lex(NameLine(domain) + rest) == Prepend(Flatten([d]), Lex(rest)) {
      assert domain == domain[..i] + Trim(domain) + domain[j..];
      NameLineAt(domain[..i], Trim(domain), domain[j..], rest);
    }
  }

  lemma NameLineAt(left: string, name: string, right: string, rest: string)
    requires AllWhite(left) && Plain(name) && AllWhite(right)
    ensures Lex(NameLine(left + name + right) + rest) == Prepend(FlattenOne(Directive(["server_name", name])), Lex(rest))
  {
    assert "    server_name " == "    " + "server_name" + " ";
    assert NameLine(left + name + right) == "    " + "server_name" + (" " + (left + (name + (right + ";\n"))));
    PaddedDirective("    ", "server_name", left, name, right, rest);
  }

  lemma PaddedDirective(indent: string, name: string, left: string, arg: string, right: string, rest: string)
    requires AllWhite(indent) && Plain(name) && AllWhite(left) && Plain(arg) && AllWhite(right)
    ensures Lex(indent + name + (" " + (left + (arg + (right + ";\n")))) + rest)
         == Prepend(FlattenOne(Directive([name, arg])), Lex(rest))
  {
    var t3 := right + (";\n" + rest);
    var t2 := arg + t3;
    var t1 := " " + (left + t2);
    assert indent + name + (" " + (left + (arg + (right + ";\n")))) + rest == indent + (name + t1);
    LexWhite(indent, name + t1);
    LexPlain(name, t1);
    LexWhite(" ", left + t2);
    LexWhite(left, t2);
    LexPlain(arg, t3);
    LexWhite(right, ";\n" + rest);
    LexSemi(rest);
    TwoWordsSemi(name, arg, Lex(rest));
  }

  lemma TwoWordsSemi(a: string, b: string, more: Option<seq<Token>>)
    ensures NginxSyntax.Cons(Word(a), NginxSyntax.Cons(Word(b), Prepend([Semi], more)))
         == Prepend(FlattenOne(Directive([a, b])), more)
  {
    assert [a, b][1..] == [b];
    assert Words([b]) == [Word(b)];
    assert Words([a, b]) == [Word(a), Word(b)];
    assert FlattenOne(Directive([a, b])) == [Word(a), Word(b)] + [Semi];
    if more.Some? {
      assert [Word(a)] + ([Word(b)] + ([Semi] + more.value)) == [Word(a), Word(b)] + [Semi] + more.value;
    }
  }

  // ---------------------------------------------------------------- server blocks

  function HttpBody(name: string, rest: seq<Item>): seq<Item> {
    [Directive(["listen", "80"])] + [Directive(["listen", "[::]:80"])] + [Directive(["server_name", name])] + rest
  }

  function HttpsBody(name: string, cert: string, key: string, core: seq<Item>): seq<Item> {
    [Directive(["listen", "443", "ssl"])] + [Directive(["listen", "[::]:443", "ssl"])] + [Directive(["server_name", name])]
    + [Directive(["ssl_certificate", cert])] + [Directive(["ssl_certificate_key", key])] + core
  }

  const RedirectItems := [Directive(["return", "301", "https://$host$request_uri"])]

  /** The listen and name lines followed by `text`, wrapped as a server block. */
  lemma HttpReads(domain: string, text: string, rest: seq<Item>)
    requires ReadsItems(NameLine(domain), [Directive(["server_name", Trim(domain)])]) && ReadsItems(text, rest)
    ensures ReadsItems("server {\n" + ("    listen 80;\n" + "    listen [::]:80;\n" + NameLine(domain) + text) + "}\n",
                       [Block(["server"], HttpBody(Trim(domain), rest))])
  {
    var t1, t2, t3 := "    listen 80;\n", "    listen [::]:80;\n", NameLine(domain);
    var i1, i2, i3 := [Directive(["listen", "80"])], [Directive(["listen", "[::]:80"])], [Directive(["server_name", Trim(domain)])];
    ListenLines();
    ComposeItems(t1, i1, t2, i2);
    ComposeItems(t1 + t2, i1 + i2, t3, i3);
    ComposeItems(t1 + t2 + t3, i1 + i2 + i3, text, rest);
    ServerHeading();
    ReadBlock("server {\n", ["server"], t1 + t2 + t3 + text, i1 + i2 + i3 + rest, "}\n");
  }

  lemma CertLines(cert: string, key: string)
    requires Plain(cert) && Plain(key)
    ensures ReadsItems("    ssl_certificate " + cert + ";\n", [Directive(["ssl_certificate", cert])])
    ensures ReadsItems("    ssl_certificate_key " + key + ";\n", [Directive(["ssl_certificate_key", key])])
  {
    assert "    ssl_certificate " == "    " + "ssl_certificate" + " ";
    assert "    ssl_certificate_key " == "    " + "ssl_certificate_key" + " ";
    ReadArgument("    ssl_certificate ", "    ", "ssl_certificate", cert);
    ReadArgument("    ssl_certificate_key ", "    ", "ssl_certificate_key", key);
  }

  lemma HttpsReads(domain: string, cert: string, key: string, core: string, items: seq<Item>)
    requires ReadsItems(NameLine(domain), [Directive(["server_name", Trim(domain)])]) && Plain(cert) && Plain(key)
    requires ReadsItems(core + "\n", items)
    ensures ReadsItems(HttpsServer(domain, cert, key, core), [Block(["server"], HttpsBody(Trim(domain), cert, key, items))])
  {
    var t1, t2, t3 := "    listen 443 ssl;\n", "    listen [::]:443 ssl;\n", NameLine(domain);
    var t4, t5 := "    ssl_certificate " + cert + ";\n", "    ssl_certificate_key " + key + ";\n";
    var i1, i2 := [Directive(["listen", "443", "ssl"])], [Directive(["listen", "[::]:443", "ssl"])];
    var i3 := [Directive(["server_name", Trim(domain)])];
    var i4, i5 := [Directive(["ssl_certificate", cert])], [Directive(["ssl_certificate_key", key])];
    SecureListenLine();
    SecureListenLine6();
    CertLines(cert, key);
    ComposeItems(t1, i1, t2, i2);
    ComposeItems(t1 + t2, i1 + i2, t3, i3);
    ComposeItems(t1 + t2 + t3, i1 + i2 + i3, t4, i4);
    ComposeItems(t1 + t2 + t3 + t4, i1 + i2 + i3 + i4, t5, i5);
    ComposeItems(t1 + t2 + t3 + t4 + t5, i1 + i2 + i3 + i4 + i5, core + "\n", items);
    ServerHeading();
    ReadBlock("server {\n", ["server"], t1 + t2 + t3 + t4 + t5 + (core + "\n"), i1 + i2 + i3 + i4 + i5 + items, "}\n");
  }

  lemma HeaderReads(site: string)
    requires '\n' !in site
    ensures ReadsItems(Header(site), [])
  {
    var a, b, c := " ReleasePanel bounded nginx site ", "\U{2014} site_ulid=", " \U{2014} agent-managed";
    var line := a + b + site + c;
    NoNewline(a, b, site, c);
    forall rest ensures Lex(Header(site) + rest) == Prepend([], Lex(rest)) {
      assert Header(site) + rest == "#" + line + "\n" + rest;
      LexComment(line, rest);
      PrependNothing(Lex(rest));
    }
  }

  lemma NoNewline(a: string, b: string, c: string, d: string)
    requires '\n' !in a && '\n' !in b && '\n' !in c && '\n' !in d
    ensures '\n' !in a + b + c + d
  {
  }

  // ---------------------------------------------------------------- the whole file

  /** Inputs nginx reads back unchanged: single-word paths and pass, a padded domain, a one-line site id. */
  predicate Readable(input: RenderInput) {
    && '\n' !in Trim(input.site)
    && Padded(input.domain)
    && Plain(input.webRoot)
    && (PassOf(input).Some? ==> Plain(PassOf(input).value))
    && (input.tls.Some? ==> Plain(Trim(input.tls.value.certificate)) && Plain(Trim(input.tls.value.key)))
  }

  function SiteItems(input: RenderInput): seq<Item> {
    var name := Trim(input.domain);
    var core := CoreItems(input.webRoot, LastTarget(input.runtimeType), PassOf(input)) + [];
    match input.tls
    case None => [Block(["server"], HttpBody(name, core))]
    case Some(tls) =>
      [Block(["server"], HttpBody(name, if tls.redirect then RedirectItems else core))]
      + [Block(["server"], HttpsBody(name, Trim(tls.certificate), Trim(tls.key), core))]
  }

  lemma CoreLines(input: RenderInput)
    requires Readable(input) && PhpLocations(RuntimeKind(input.runtimeType), input.phpPass).Success?
    ensures var php := PhpLocations(RuntimeKind(input.runtimeType), input.phpPass).value;
      && php.0 == TryFiles(RuntimeKind(input.runtimeType))
      && ReadsItems(AppCore(input.webRoot, php.0, php.1) + "\n",
                    CoreItems(input.webRoot, LastTarget(input.runtimeType), PassOf(input)) + [])
  {
    var rt := RuntimeKind(input.runtimeType);
    var php := PhpLocations(rt, input.phpPass).value;
    RuntimeRead(input.runtimeType);
    var core := CoreItems(input.webRoot, LastTry(rt), PassOf(input));
    match PassOf(input) {
      case Some(p) => PhpBlockReads(p);
      case None => ReadWhite("");
    }
    CoreReads(input.webRoot, rt, php.1, PassOf(input));
    ReadWhite("\n");
    ComposeItems(AppCore(input.webRoot, php.0, php.1), core, "\n", []);
  }

  /** A name that passes validation is one word for nginx. */
  lemma DomainIsPlain(domain: string)
    requires ValidateDomain(domain).None?
    ensures Plain(Trim(domain))
  {
    var d := Trim(domain);
    assert DomainChar(d[0]);
  }

  lemma ServersRead(input: RenderInput, locationTry: string, phpBlock: string, core: seq<Item>)
    requires Readable(input) && input.tls.Some? && Plain(Trim(input.domain))
    requires RenderTls(input.domain, input.webRoot, input.tls.value, locationTry, phpBlock).Success?
    requires ReadsItems(AppCore(input.webRoot, locationTry, phpBlock) + "\n", core)
    ensures var tls := input.tls.value;
      ReadsItems(RenderTls(input.domain, input.webRoot, tls, locationTry, phpBlock).value,
                 [Block(["server"], HttpBody(Trim(input.domain), if tls.redirect then RedirectItems else core))]
                 + [Block(["server"], HttpsBody(Trim(input.domain), Trim(tls.certificate), Trim(tls.key), core))])
  {
    var tls := input.tls.value;
    var text := AppCore(input.webRoot, locationTry, phpBlock);
    NameLineReads(input.domain);
    var http := if tls.redirect then RedirectServer(input.domain) else HttpServer(input.domain, text);
    var first := if tls.redirect then RedirectItems else core;
    if tls.redirect {
      ReturnLine();
      HttpReads(input.domain, "    return 301 " + "https://$host$request_uri" + ";\n", RedirectItems);
    } else {
      HttpReads(input.domain, text + "\n", core);
    }
    HttpsReads(input.domain, Trim(tls.certificate), Trim(tls.key), text, core);
    ComposeItems(http, [Block(["server"], HttpBody(Trim(input.domain), first))],
                 HttpsServer(input.domain, Trim(tls.certificate), Trim(tls.key), text),
                 [Block(["server"], HttpsBody(Trim(input.domain), Trim(tls.certificate), Trim(tls.key), core))]);
  }

  /** Every directive of the rendered file, in order, and nothing else. */
  lemma RenderedItems(input: RenderInput)
    requires Readable(input) && RenderSiteConfig(input).Success?
    ensures Parse(RenderSiteConfig(input).value) == Some(SiteItems(input))
  {
    var text := RenderSiteConfig(input).value;
    var php := PhpLocations(RuntimeKind(input.runtimeType), input.phpPass).value;
    var core := CoreItems(input.webRoot, LastTarget(input.runtimeType), PassOf(input)) + [];
    DomainIsPlain(input.domain);
    HeaderReads(Trim(input.site));
    CoreLines(input);
    NameLineReads(input.domain);
    match input.tls {
      case None =>
        var app := AppCore(input.webRoot, php.0, php.1);
        HttpReads(input.domain, app + "\n", core);
        ComposeItems(Header(Trim(input.site)), [], HttpServer(input.domain, app), SiteItems(input));
      case Some(tls) =>
        ServersRead(input, php.0, php.1, core);
        var body := RenderTls(input.domain, input.webRoot, tls, php.0, php.1).value;
        ComposeItems(Header(Trim(input.site)), [], body, SiteItems(input));
    }
    assert [] + SiteItems(input) == SiteItems(input);
    ParseRead(text, SiteItems(input));
  }

  lemma ParseRead(text: string, items: seq<Item>)
    requires ReadsItems(text, items)
    ensures Parse(text) == Some(items)
  {
    assert text + "" == text;
    assert Lex(text + "") == Prepend(Flatten(items), Lex(""));
    assert Flatten(items) + [] == Flatten(items);
    ParseOfFlattened(text, items);
  }

  // ---------------------------------------------------------------- meaning

  lemma {:induction false} ArgsAppend(x: seq<Item>, y: seq<Item>, name: string)
    ensures Args(x + y, name) == Args(x, name) + Args(y, name)
    decreases |x|
  {
    if x == [] {
      assert x + y == y;
    } else {
      assert (x + y)[1..] == x[1..] + y;
      ArgsAppend(x[1..], y, name);
    }
  }

  lemma {:induction false} BodiesAppend(x: seq<Item>, y: seq<Item>, heading: seq<string>)
    ensures Bodies(x + y, heading) == Bodies(x, heading) + Bodies(y, heading)
    decreases |x|
  {
    if x == [] {
      assert x + y == y;
    } else {
      assert (x + y)[1..] == x[1..] + y;
      BodiesAppend(x[1..], y, heading);
    }
  }

  lemma SingleItem(item: Item, name: string, heading: seq<string>)
    ensures Args([item], name) == ArgsOf(item, name)
    ensures Bodies([item], heading) == BodyOf(item, heading)
  {
    assert Args([item], name) == ArgsOf(item, name) + Args([], name);
    assert Bodies([item], heading) == BodyOf(item, heading) + Bodies([], heading);
  }

  lemma NamesDiffer()
    ensures "listen" != "return"
  {
    assert "listen"[0] != "return"[0];
  }

  lemma HttpArgs(name: string, rest: seq<Item>, key: string, heading: seq<string>)
    ensures Args(HttpBody(name, rest), key)
         == (if key == "listen" then [["80"], ["[::]:80"]] else []) + (if key == "server_name" then [[name]] else []) + Args(rest, key)
    ensures Bodies(HttpBody(name, rest), heading) == Bodies(rest, heading)
  {
    var i1, i2, i3 := Directive(["listen", "80"]), Directive(["listen", "[::]:80"]), Directive(["server_name", name]);
    ThreeThen(i1, i2, i3, rest, key, heading);
    assert i1.words[1..] == ["80"] && i2.words[1..] == ["[::]:80"] && i3.words[1..] == [name];
  }

  /** Lookups over three directives followed by other items. */
  lemma ThreeThen(i1: Item, i2: Item, i3: Item, rest: seq<Item>, key: string, heading: seq<string>)
    requires i1.Directive? && i2.Directive? && i3.Directive?
    ensures Args([i1] + [i2] + [i3] + rest, key) == ArgsOf(i1, key) + ArgsOf(i2, key) + ArgsOf(i3, key) + Args(rest, key)
    ensures Bodies([i1] + [i2] + [i3] + rest, heading) == Bodies(rest, heading)
  {
    SingleItem(i1, key, heading);
    SingleItem(i2, key, heading);
    SingleItem(i3, key, heading);
    ArgsAppend([i1], [i2], key);
    ArgsAppend([i1] + [i2], [i3], key);
    ArgsAppend([i1] + [i2] + [i3], rest, key);
    BodiesAppend([i1], [i2], heading);
    BodiesAppend([i1] + [i2], [i3], heading);
    BodiesAppend([i1] + [i2] + [i3], rest, heading);
  }

  lemma TwoThen(i1: Item, i2: Item, rest: seq<Item>, key: string, heading: seq<string>)
    requires i1.Directive? && i2.Directive?
    ensures Args([i1] + [i2] + rest, key) == ArgsOf(i1, key) + ArgsOf(i2, key) + Args(rest, key)
    ensures Bodies([i1] + [i2] + rest, heading) == Bodies(rest, heading)
  {
    SingleItem(i1, key, heading);
    SingleItem(i2, key, heading);
    ArgsAppend([i1], [i2], key);
    ArgsAppend([i1] + [i2], rest, key);
    BodiesAppend([i1], [i2], heading);
    BodiesAppend([i1] + [i2], rest, heading);
  }

  lemma CertArgs(cert: string, key: string, core: seq<Item>, k: string, heading: seq<string>)
    ensures Args([Directive(["ssl_certificate", cert])] + [Directive(["ssl_certificate_key", key])] + core, k)
         == (if k == "ssl_certificate" then [[cert]] else []) + (if k == "ssl_certificate_key" then [[key]] else []) + Args(core, k)
    ensures Bodies([Directive(["ssl_certificate", cert])] + [Directive(["ssl_certificate_key", key])] + core, heading)
         == Bodies(core, heading)
  {
    TwoThen(Directive(["ssl_certificate", cert]), Directive(["ssl_certificate_key", key]), core, k, heading);
    assert ["ssl_certificate", cert][1..] == [cert] && ["ssl_certificate_key", key][1..] == [key];
  }

  lemma SecureListenArgs(k: string)
    ensures ArgsOf(Directive(["listen", "443", "ssl"]), k) + ArgsOf(Directive(["listen", "[::]:443", "ssl"]), k)
         == if k == "listen" then [["443", "ssl"], ["[::]:443", "ssl"]] else []
  {
    assert ["listen", "443", "ssl"][1..] == ["443", "ssl"];
    assert ["listen", "[::]:443", "ssl"][1..] == ["[::]:443", "ssl"];
  }

  lemma NameArgs(name: string, k: string)
    ensures ArgsOf(Directive(["server_name", name]), k) == if k == "server_name" then [[name]] else []
  {
    assert ["server_name", name][1..] == [name];
  }

  lemma HttpsArgs(name: string, cert: string, key: string, core: seq<Item>, k: string, heading: seq<string>)
    ensures Args(HttpsBody(name, cert, key, core), k)
         == (if k == "listen" then [["443", "ssl"], ["[::]:443", "ssl"]] else [])
            + (if k == "server_name" then [[name]] else [])
            + ((if k == "ssl_certificate" then [[cert]] else []) + (if k == "ssl_certificate_key" then [[key]] else []) + Args(core, k))
    ensures Bodies(HttpsBody(name, cert, key, core), heading) == Bodies(core, heading)
  {
    var i1, i2, i3 := Directive(["listen", "443", "ssl"]), Directive(["listen", "[::]:443", "ssl"]), Directive(["server_name", name]);
    var rest := [Directive(["ssl_certificate", cert])] + [Directive(["ssl_certificate_key", key])] + core;
    ItemAssoc([i1] + [i2] + [i3], [Directive(["ssl_certificate", cert])], [Directive(["ssl_certificate_key", key])], core);
    ThreeThen(i1, i2, i3, rest, k, heading);
    CertArgs(cert, key, core, k, heading);
    SecureListenArgs(k);
    NameArgs(name, k);
  }

  lemma ItemAssoc(a: seq<Item>, b: seq<Item>, c: seq<Item>, d: seq<Item>)
    ensures a + b + c + d == a + (b + c + d)
  {
  }

  lemma CoreArgs(root: string, last: string, pass: Option<string>, key: string, heading: seq<string>)
    ensures Args(CoreItems(root, last, pass) + [], key)
         == (if key == "root" then [[root]] else []) + (if key == "index" then [["index.html", "index.php"]] else [])
    ensures Bodies(CoreItems(root, last, pass) + [], heading)
         == (if heading == ["location", "/"] then [Directive(["try_files", "$uri", "$uri/", last])] else [])
            + (if pass.Some? && heading == ["location", "~", "\\.php$"] then PhpItems(pass)[0].body else [])
  {
    var i1, i2 := Directive(["root", root]), Directive(["index", "index.html", "index.php"]);
    var i4 := Block(["location", "/"], [Directive(["try_files", "$uri", "$uri/", last])]);
    var php := PhpItems(pass);
    assert CoreItems(root, last, pass) + [] == [i1] + ([i2] + ([i4] + php));
    SingleItem(i1, key, heading);
    SingleItem(i2, key, heading);
    SingleItem(i4, key, heading);
    PhpArgs(pass, key, heading);
    ArgsAppend([i4], php, key);
    ArgsAppend([i2], [i4] + php, key);
    ArgsAppend([i1], [i2] + ([i4] + php), key);
    BodiesAppend([i4], php, heading);
    BodiesAppend([i2], [i4] + php, heading);
    BodiesAppend([i1], [i2] + ([i4] + php), heading);
    assert i1.words[1..] == [root] && i2.words[1..] == ["index.html", "index.php"];
  }

  lemma PhpArgs(pass: Option<string>, key: string, heading: seq<string>)
    ensures Args(PhpItems(pass), key) == []
    ensures Bodies(PhpItems(pass), heading)
         == if pass.Some? && heading == ["location", "~", "\\.php$"] then PhpItems(pass)[0].body else []
  {
    if pass.Some? {
      SingleItem(PhpItems(pass)[0], key, heading);
    }
  }

  /** Inside the two location blocks. */
  lemma LocationArgs(last: string, pass: string)
    ensures Args([Directive(["try_files", "$uri", "$uri/", last])], "try_files") == [["$uri", "$uri/", last]]
    ensures Args(PhpItems(Some(pass))[0].body, "fastcgi_pass") == [[pass]]
  {
    SingleItem(Directive(["try_files", "$uri", "$uri/", last]), "try_files", []);
    assert ["try_files", "$uri", "$uri/", last][1..] == ["$uri", "$uri/", last];
    var i1, i2 := Directive(["include", "fastcgi_params"]),
      Directive(["fastcgi_param", "SCRIPT_FILENAME", "$document_root$fastcgi_script_name"]);
    var i3 := Directive(["fastcgi_pass", pass]);
    ThreeThen(i1, i2, i3, [], "fastcgi_pass", []);
    assert [i1] + [i2] + [i3] + [] == PhpItems(Some(pass))[0].body;
    assert i3.words[1..] == [pass];
  }

  // ---------------------------------------------------------------- the intended servers of an input

  function PassArgs(pass: Option<string>): seq<seq<string>> {
    match pass
    case None => []
    case Some(p) => [[p]]
  }

  function AppServer(listens: seq<seq<string>>, certs: seq<seq<string>>, keys: seq<seq<string>>, input: RenderInput): Server {
    Server(listens, [[Trim(input.domain)]], [[input.webRoot]], certs, keys, [],
           [["$uri", "$uri/", LastTarget(input.runtimeType)]], PassArgs(PassOf(input)))
  }

  const PlainPorts := [["80"], ["[::]:80"]]
  const SecurePorts := [["443", "ssl"], ["[::]:443", "ssl"]]

  /** Plain HTTP; or a redirect plus HTTPS; or the application on HTTP plus HTTPS. */
  function Intended(input: RenderInput): seq<Server> {
    match input.tls
    case None => [AppServer(PlainPorts, [], [], input)]
    case Some(tls) =>
      [if tls.redirect
       then Server(PlainPorts, [[Trim(input.domain)]], [], [], [], [["301", "https://$host$request_uri"]], [], [])
       else AppServer(PlainPorts, [], [], input)]
      + [AppServer(SecurePorts, [[Trim(tls.certificate)]], [[Trim(tls.key)]], input)]
  }

  /** The location blocks of an application server, read off its core. */
  lemma CoreLocations(input: RenderInput)
    ensures var core := CoreItems(input.webRoot, LastTarget(input.runtimeType), PassOf(input)) + [];
      && Args(Bodies(core, ["location", "/"]), "try_files") == [["$uri", "$uri/", LastTarget(input.runtimeType)]]
      && Args(Bodies(core, ["location", "~", "\\.php$"]), "fastcgi_pass") == PassArgs(PassOf(input))
  {
    var last, pass := LastTarget(input.runtimeType), PassOf(input);
    assert |["location", "/"]| != |["location", "~", "\\.php$"]|;
    CoreArgs(input.webRoot, last, pass, "", ["location", "/"]);
    CoreArgs(input.webRoot, last, pass, "", ["location", "~", "\\.php$"]);
    LocationArgs(last, if pass.Some? then pass.value else "");
    assert [Directive(["try_files", "$uri", "$uri/", last])] + [] == [Directive(["try_files", "$uri", "$uri/", last])];
    if pass.Some? {
      assert [] + PhpItems(pass)[0].body == PhpItems(pass)[0].body;
    }
  }

  /** The directive arguments of an application server's core. */
  lemma CoreDirectives(root: string, last: string, pass: Option<string>)
    ensures var core := CoreItems(root, last, pass) + [];
      && Args(core, "listen") == [] && Args(core, "server_name") == [] && Args(core, "root") == [[root]]
      && Args(core, "ssl_certificate") == [] && Args(core, "ssl_certificate_key") == [] && Args(core, "return") == []
  {
    CoreArgs(root, last, pass, "listen", []);
    CoreArgs(root, last, pass, "server_name", []);
    CoreArgs(root, last, pass, "root", []);
    CoreArgs(root, last, pass, "ssl_certificate", []);
    CoreArgs(root, last, pass, "ssl_certificate_key", []);
    CoreArgs(root, last, pass, "return", []);
  }

  lemma HttpListen(name: string, rest: seq<Item>)
    ensures Args(HttpBody(name, rest), "listen") == [["80"], ["[::]:80"]] + Args(rest, "listen")
  {
    HttpArgs(name, rest, "listen", []);
  }

  lemma HttpName(name: string, rest: seq<Item>)
    ensures Args(HttpBody(name, rest), "server_name") == [[name]] + Args(rest, "server_name")
    ensures Args(HttpBody(name, rest), "root") == Args(rest, "root")
  {
    HttpArgs(name, rest, "server_name", []);
    HttpArgs(name, rest, "root", []);
  }

  lemma HttpOther(name: string, rest: seq<Item>)
    ensures Args(HttpBody(name, rest), "ssl_certificate") == Args(rest, "ssl_certificate")
    ensures Args(HttpBody(name, rest), "ssl_certificate_key") == Args(rest, "ssl_certificate_key")
    ensures Args(HttpBody(name, rest), "return") == Args(rest, "return")
  {
    NamesDiffer();
    HttpArgs(name, rest, "ssl_certificate", []);
    HttpArgs(name, rest, "ssl_certificate_key", []);
    HttpArgs(name, rest, "return", []);
  }

  lemma ReadHttp(name: string, rest: seq<Item>)
    ensures ReadServer(HttpBody(name, rest))
         == Server([["80"], ["[::]:80"]] + Args(rest, "listen"), [[name]] + Args(rest, "server_name"), Args(rest, "root"),
                   Args(rest, "ssl_certificate"), Args(rest, "ssl_certificate_key"), Args(rest, "return"),
                   Args(Bodies(rest, ["location", "/"]), "try_files"),
                   Args(Bodies(rest, ["location", "~", "\\.php$"]), "fastcgi_pass"))
  {
    HttpListen(name, rest);
    HttpName(name, rest);
    HttpOther(name, rest);
    HttpArgs(name, rest, "", ["location", "/"]);
    HttpArgs(name, rest, "", ["location", "~", "\\.php$"]);
  }

  lemma HttpsListen(name: string, cert: string, key: string, core: seq<Item>)
    ensures Args(HttpsBody(name, cert, key, core), "listen") == [["443", "ssl"], ["[::]:443", "ssl"]] + Args(core, "listen")
  {
    HttpsArgs(name, cert, key, core, "listen", []);
  }

  lemma HttpsName(name: string, cert: string, key: string, core: seq<Item>)
    ensures Args(HttpsBody(name, cert, key, core), "server_name") == [[name]] + Args(core, "server_name")
  {
    HttpsArgs(name, cert, key, core, "server_name", []);
  }

  lemma HttpsCertificate(name: string, cert: string, key: string, core: seq<Item>)
    ensures Args(HttpsBody(name, cert, key, core), "ssl_certificate") == [[cert]] + Args(core, "ssl_certificate")
  {
    HttpsArgs(name, cert, key, core, "ssl_certificate", []);
  }

  lemma HttpsKey(name: string, cert: string, key: string, core: seq<Item>)
    ensures Args(HttpsBody(name, cert, key, core), "ssl_certificate_key") == [[key]] + Args(core, "ssl_certificate_key")
  {
    HttpsArgs(name, cert, key, core, "ssl_certificate_key", []);
  }

  lemma HttpsOther(name: string, cert: string, key: string, core: seq<Item>)
    ensures Args(HttpsBody(name, cert, key, core), "root") == Args(core, "root")
    ensures Args(HttpsBody(name, cert, key, core), "return") == Args(core, "return")
  {
    NamesDiffer();
    HttpsArgs(name, cert, key, core, "root", []);
    HttpsArgs(name, cert, key, core, "return", []);
  }

  lemma ReadHttps(name: string, cert: string, key: string, core: seq<Item>)
    ensures ReadServer(HttpsBody(name, cert, key, core))
         == Server([["443", "ssl"], ["[::]:443", "ssl"]] + Args(core, "listen"), [[name]] + Args(core, "server_name"),
                   Args(core, "root"), [[cert]] + Args(core, "ssl_certificate"), [[key]] + Args(core, "ssl_certificate_key"),
                   Args(core, "return"), Args(Bodies(core, ["location", "/"]), "try_files"),
                   Args(Bodies(core, ["location", "~", "\\.php$"]), "fastcgi_pass"))
  {
    HttpsListen(name, cert, key, core);
    HttpsName(name, cert, key, core);
    HttpsCertificate(name, cert, key, core);
    HttpsKey(name, cert, key, core);
    HttpsOther(name, cert, key, core);
    HttpsArgs(name, cert, key, core, "", ["location", "/"]);
    HttpsArgs(name, cert, key, core, "", ["location", "~", "\\.php$"]);
  }

  lemma ReadRedirect(name: string)
    ensures ReadServer(HttpBody(name, RedirectItems))
         == Server(PlainPorts, [[name]], [], [], [], [["301", "https://$host$request_uri"]], [], [])
  {
    NamesDiffer();
    ReadHttp(name, RedirectItems);
    var d := RedirectItems[0];
    assert d.words[1..] == ["301", "https://$host$request_uri"];
    SingleItem(d, "listen", ["location", "/"]);
    SingleItem(d, "server_name", ["location", "~", "\\.php$"]);
    SingleItem(d, "root", []);
    SingleItem(d, "ssl_certificate", []);
    SingleItem(d, "ssl_certificate_key", []);
    SingleItem(d, "return", []);
  }

  lemma ReadApp(input: RenderInput)
    ensures ReadServer(HttpBody(Trim(input.domain), CoreItems(input.webRoot, LastTarget(input.runtimeType), PassOf(input)) + []))
         == AppServer(PlainPorts, [], [], input)
  {
    CoreLocations(input);
    CoreDirectives(input.webRoot, LastTarget(input.runtimeType), PassOf(input));
    ReadHttp(Trim(input.domain), CoreItems(input.webRoot, LastTarget(input.runtimeType), PassOf(input)) + []);
  }

  lemma ReadSecureApp(input: RenderInput, cert: string, key: string)
    ensures ReadServer(HttpsBody(Trim(input.domain), cert, key,
                                 CoreItems(input.webRoot, LastTarget(input.runtimeType), PassOf(input)) + []))
         == AppServer(SecurePorts, [[cert]], [[key]], input)
  {
    CoreLocations(input);
    CoreDirectives(input.webRoot, LastTarget(input.runtimeType), PassOf(input));
    ReadHttps(Trim(input.domain), cert, key,
              CoreItems(input.webRoot, LastTarget(input.runtimeType), PassOf(input)) + []);
  }

  lemma FirstServer(a: seq<Item>, more: seq<Item>)
    ensures ReadServers([Block(["server"], a)] + more)
         == match ReadServers(more)
            case None => None
            case Some(servers) => Some([ReadServer(a)] + servers)
  {
    assert ([Block(["server"], a)] + more)[1..] == more;
  }

  lemma TwoServers(a: seq<Item>, b: seq<Item>)
    ensures ReadServers([Block(["server"], a)]) == Some([ReadServer(a)])
    ensures ReadServers([Block(["server"], a)] + [Block(["server"], b)]) == Some([ReadServer(a)] + [ReadServer(b)])
  {
    FirstServer(a, []);
    FirstServer(b, []);
    FirstServer(a, [Block(["server"], b)]);
    assert [Block(["server"], a)] + [] == [Block(["server"], a)] && [Block(["server"], b)] + [] == [Block(["server"], b)];
    assert [ReadServer(a)] + [] == [ReadServer(a)] && [ReadServer(b)] + [] == [ReadServer(b)];
  }

  /** nginx reads from the rendered text exactly the intended servers. */
  lemma RenderedMeaning(input: RenderInput)
    requires Readable(input) && RenderSiteConfig(input).Success?
    ensures ReadSite(RenderSiteConfig(input).value) == Some(Intended(input))
  {
    var name := Trim(input.domain);
    var core := CoreItems(input.webRoot, LastTarget(input.runtimeType), PassOf(input)) + [];
    RenderedItems(input);
    ReadApp(input);
    match input.tls {
      case None => TwoServers(HttpBody(name, core), []);
      case Some(tls) =>
        ReadRedirect(name);
        ReadSecureApp(input, Trim(tls.certificate), Trim(tls.key));
        TwoServers(HttpBody(name, if tls.redirect then RedirectItems else core),
                   HttpsBody(name, Trim(tls.certificate), Trim(tls.key), core));
    }
  }

  /** The servers read back, by what the operator wrote for the runtime: every server that is not a redirect tries
      the runtime's own last target, and has the PHP location exactly for the five PHP runtimes. */
  lemma RuntimeMeaning(input: RenderInput, s: Server)
    requires Readable(input) && RenderSiteConfig(input).Success?
    requires ReadSite(RenderSiteConfig(input).value).Some? && s in ReadSite(RenderSiteConfig(input).value).value && s.redirects == []
    ensures var t := ToLower(Trim(input.runtimeType));
      && (s.tryFiles == [["$uri", "$uri/", "/index.php?$args"]] <==> t in {"wordpress", "wp"})
      && (s.tryFiles == [["$uri", "$uri/", "/index.php?$query_string"]] <==> t in {"laravel", "php", "custom"})
      && (s.tryFiles == [["$uri", "$uri/", "=404"]] <==> t !in {"wordpress", "wp", "laravel", "php", "custom"})
      && (s.fastcgiPass == [[Trim(input.phpPass)]] <==> t in {"wordpress", "wp", "laravel", "php", "custom"})
      && (s.fastcgiPass == [] <==> t !in {"wordpress", "wp", "laravel", "php", "custom"})
  {
    RenderedMeaning(input);
    AppServers(input, s);
    var last := [["$uri", "$uri/", LastTarget(input.runtimeType)]];
    assert s.tryFiles == last && last[0][2] == LastTarget(input.runtimeType);
    TargetsDiffer(input.runtimeType, s.tryFiles);
  }

  lemma AppServers(input: RenderInput, s: Server)
    requires s in Intended(input) && s.redirects == []
    ensures s.tryFiles == [["$uri", "$uri/", LastTarget(input.runtimeType)]] && s.fastcgiPass == PassArgs(PassOf(input))
  {
    assert [["301", "https://$host$request_uri"]] != [];
  }

  lemma TargetsDiffer(runtimeType: string, tries: seq<seq<string>>)
    requires tries == [["$uri", "$uri/", LastTarget(runtimeType)]]
    ensures forall last :: tries == [["$uri", "$uri/", last]] <==> last == LastTarget(runtimeType)
    ensures |"/index.php?$args"| != |"/index.php?$query_string"| && |"=404"| < |"/index.php?$args"|
  {
    forall last ensures tries == [["$uri", "$uri/", last]] <==> last == LastTarget(runtimeType) {
      assert tries[0][2] == LastTarget(runtimeType) && [["$uri", "$uri/", last]][0][2] == last;
    }
  }

  /** What a rendered file depends on: equal texts come from inputs with the same name, root, PHP pass, try
      target and TLS material. */
  lemma RenderInjective(a: RenderInput, b: RenderInput)
    requires Readable(a) && Readable(b) && RenderSiteConfig(a).Success? && RenderSiteConfig(a) == RenderSiteConfig(b)
    ensures Trim(a.domain) == Trim(b.domain) && a.webRoot == b.webRoot && PassOf(a) == PassOf(b)
    ensures LastTarget(a.runtimeType) == LastTarget(b.runtimeType)
    ensures a.tls.Some? <==> b.tls.Some?
    ensures a.tls.Some? ==> (
      && a.tls.value.redirect == b.tls.value.redirect
      && Trim(a.tls.value.certificate) == Trim(b.tls.value.certificate) && Trim(a.tls.value.key) == Trim(b.tls.value.key))
  {
    RenderedMeaning(a);
    RenderedMeaning(b);
    var x, y := Intended(a), Intended(b);
    assert x == y && |x| == |y|;
    var s, t := x[|x| - 1], y[|y| - 1];
    assert s == t && s.names[0] == t.names[0] && s.roots[0] == t.roots[0] && s.tryFiles[0][2] == t.tryFiles[0][2];
    SamePass(PassOf(a), PassOf(b));
    if a.tls.Some? {
      assert s.certificates[0][0] == t.certificates[0][0] && s.keys[0][0] == t.keys[0][0];
      assert x[0].roots == [] <==> a.tls.value.redirect;
      assert y[0].roots == [] <==> b.tls.value.redirect;
    }
  }

  lemma SamePass(p: Option<string>, q: Option<string>)
    ensures PassArgs(p) == PassArgs(q) ==> p == q
  {
    if PassArgs(p) == PassArgs(q) && p.Some? {
      assert PassArgs(q)[0][0] == p.value;
    }
  }

  // ---------------------------------------------------------------- exactly which paths survive

  function WhiteRun(s: string): (n: nat)
    ensures n <= |s| && AllWhite(s[..n]) && (n < |s| ==> !White(s[n]))
  {
    if s == "" || !White(s[0]) then 0 else 1 + WhiteRun(s[1..])
  }

  predicate Breaks(c: char) {
    White(c) || c == ';' || c == '{'
  }

  function WordRun(s: string): (n: nat)
    ensures n <= |s| && (forall i :: 0 <= i < n ==> !Breaks(s[i])) && (n < |s| ==> Breaks(s[n]))
  {
    if s == "" || Breaks(s[0]) then 0 else 1 + WordRun(s[1..])
  }

  /** No variable, escape or quote: true of every path that passed validation, padding included. */
  predicate Simple(s: string) {
    forall i :: 0 <= i < |s| ==> s[i] != '\\' && s[i] != '$'
  }

  /** The first word of such a text is everything up to the first character that ends a word. */
  lemma FirstWord(q: string)
    requires Simple(q) && q != "" && !Breaks(q[0]) && q[0] != '}' && q[0] != '#' && q[0] != '"' && q[0] != '\''
    ensures Lex(q + ";") == NginxSyntax.Cons(Word(q[..WordRun(q)]), Lex(q[WordRun(q)..] + ";"))
  {
    var k := WordRun(q);
    var rest := q[k..] + ";";
    assert (q + ";")[0] == q[0] && (q + ";")[1..] == q[1..k] + rest;
    LexPlainTail(q[1..k], rest, [q[0]], false);
    assert [q[0]] + q[1..k] == q[..k];
  }

  lemma SkipPadding(path: string)
    ensures Lex(path + ";") == Lex(path[WhiteRun(path)..] + ";")
  {
    var n := WhiteRun(path);
    assert path + ";" == path[..n] + (path[n..] + ";");
    LexWhite(path[..n], path[n..] + ";");
  }

  lemma ForbiddenCharacters(p: string)
    requires !ContainsAny(p, ";\n\r`\"'$\\")
    ensures '\\' !in p && '$' !in p
  {
    var chars := ";\n\r`\"'$\\";
    assert chars[7] == '\\' && chars[6] == '$';
  }

  lemma ValidatedIsSimple(path: string)
    requires ValidateLinuxPath(path).None?
    ensures Simple(path)
  {
    var left, right := TrimSplit(path);
    var p := Trim(path);
    ForbiddenCharacters(p);
    assert !IsSpace('\\') && !IsSpace('$');
    PiecesSimple(left, p, right);
  }

  lemma PiecesSimple(left: string, p: string, right: string)
    requires '\\' !in left && '$' !in left && '\\' !in p && '$' !in p && '\\' !in right && '$' !in right
    ensures Simple(left + p + right)
  {
    var s := left + p + right;
    forall i | 0 <= i < |s| ensures s[i] != '\\' && s[i] != '$' {
      assert s[i] in s;
    }
  }

  /** The first character nginx does not skip is the slash, or padding nginx takes for text. */
  lemma ValidatedStart(path: string)
    requires ValidateLinuxPath(path).None?
    ensures WhiteRun(path) < |path|
    ensures var c := path[WhiteRun(path)]; c == '/' || (IsSpace(c) && !White(c))
  {
    var left, right := TrimSplit(path);
    ValidatedIsAbsolute(path);
    TrimmedStart(path, left, Trim(path), right);
    assert forall c :: c in left ==> IsSpace(c);
    StartAfterPadding(path, left);
  }

  lemma ValidatedIsAbsolute(path: string)
    requires ValidateLinuxPath(path).None?
    ensures Trim(path) != "" && Trim(path)[0] == '/'
  {
  }

  lemma StartAfterPadding(path: string, left: string)
    requires left < path && path[|left|] == '/' && forall c :: c in left ==> IsSpace(c)
    ensures WhiteRun(path) < |path|
    ensures var c := path[WhiteRun(path)]; c == '/' || (IsSpace(c) && !White(c))
  {
    StartOfTrimmed(path, left);
  }

  lemma TrimmedStart(path: string, left: string, p: string, right: string)
    requires path == left + p + right && p != "" && p[0] == '/'
    ensures left < path && path[|left|] == '/'
  {
    assert path[|left|] == p[0];
  }

  lemma StartOfTrimmed(path: string, left: string)
    requires left < path && path[|left|] == '/' && forall c :: c in left ==> IsSpace(c)
    ensures WhiteRun(path) <= |left|
    ensures WhiteRun(path) < |left| ==> IsSpace(path[WhiteRun(path)])
  {
    var n := WhiteRun(path);
    if n < |left| { assert path[n] in left; }
  }

  /** The word nginx reads first. */
  function FirstWordOf(path: string): string {
    var q := path[WhiteRun(path)..];
    q[..WordRun(q)]
  }

  lemma ReadsFirstWord(path: string)
    requires ValidateLinuxPath(path).None?
    ensures Lex(path + ";").Some? ==> |Lex(path + ";").value| > 0 && Lex(path + ";").value[0] == Word(FirstWordOf(path))
    ensures Simple(path) && (path[0] == '/' || IsSpace(path[0]))
  {
    var q := path[WhiteRun(path)..];
    ValidatedIsSimple(path);
    ValidatedStart(path);
    assert q[0] == path[WhiteRun(path)] && Simple(q);
    SkipPadding(path);
    FirstWord(q);
    if WhiteRun(path) > 0 {
      assert White(path[..WhiteRun(path)][0]);
    }
  }

  lemma PlainReadsBack(path: string)
    requires Plain(path)
    ensures Lex(path + ";") == Some([Word(path), Semi])
  {
    LexPlain(path, ";");
    assert ";"[1..] == "";
    assert Lex(";") == NginxSyntax.Cons(Semi, Lex(""));
    assert [Semi] + [] == [Semi] && [Word(path)] + [Semi] == [Word(path), Semi];
  }

  /** Only a plain path is its own first word. */
  lemma FirstWordIsPlain(path: string)
    requires Simple(path) && path != "" && (path[0] == '/' || IsSpace(path[0]))
    requires FirstWordOf(path) == path
    ensures Plain(path)
  {
    var q := path[WhiteRun(path)..];
    assert |q[..WordRun(q)]| == |path|;
    assert q == path && WordRun(path) == |path|;
  }

  /** For a path that passes validation, being one plain word is exactly what nginx needs to read it back. */
  lemma PathSurvivesExactly(path: string)
    requires ValidateLinuxPath(path).None?
    ensures Lex(path + ";") == Some([Word(path), Semi]) <==> Plain(path)
  {
    ReadsFirstWord(path);
    if Plain(path) {
      PlainReadsBack(path);
    } else if Lex(path + ";") == Some([Word(path), Semi]) {
      FirstWordIsPlain(path);
    }
  }
}
