/** The command handed to git through `GIT_SSH_COMMAND`. */
module SshCommand {
  import opened Text
  import opened UnixPath
  import opened Shell

  datatype SshError = EmptyKey | KeyNotAbsolute | KnownHostsNotAbsolute

  /** `strings.ReplaceAll` of the quote character by its double-quoted spelling. */
  function EscapeQuotes(s: string): string {
    if s == "" then "" else (if s[0] == '\'' then "'\"'\"'" else [s[0]]) + EscapeQuotes(s[1..])
  }

  function ShellSingleQuote(s: string): string {
    "'" + EscapeQuotes(s) + "'"
  }

  lemma QuoteDance(tail: string, word: string)
    ensures InSingle("'\"'\"'" + tail, word) == InSingle(tail, word + ['\''])
  {
    var a := "'\"'\"'" + tail;
    var b := "\"'\"'" + tail;
    var c := "'\"'" + tail;
    var d := "\"'" + tail;
    var e := "'" + tail;
    assert a[0] == '\'' && a[1..] == b;
    assert b[0] == '"' && b[1..] == c;
    assert c[0] == '\'' && c[1..] == d;
    assert d[0] == '"' && d[1..] == e;
    assert e[0] == '\'' && e[1..] == tail;
    assert InSingle(a, word) == Words(b, Some(word));
    assert Words(b, Some(word)) == InDouble(c, word);
    assert InDouble(c, word) == InDouble(d, word + ['\'']);
    assert InDouble(d, word + ['\'']) == Words(e, Some(word + ['\'']));
  }

  lemma {:induction false} EscapedBody(s: string, rest: string, word: string)
    ensures InSingle(EscapeQuotes(s) + "'" + rest, word) == Words(rest, Some(word + s))
    decreases |s|
  {
    if s == "" {
      assert (EscapeQuotes(s) + "'" + rest)[1..] == rest && word + s == word;
    } else {
      var tail := EscapeQuotes(s[1..]) + "'" + rest;
      EscapedBody(s[1..], rest, word + [s[0]]);
      assert word + [s[0]] + s[1..] == word + s;
      if s[0] == '\'' {
        assert EscapeQuotes(s) + "'" + rest == "'\"'\"'" + tail;
        QuoteDance(tail, word);
      } else {
        assert EscapeQuotes(s) + "'" + rest == [s[0]] + tail;
        assert ([s[0]] + tail)[1..] == tail;
      }
    }
  }

  /** Whatever the quoted text contains, the shell reads it back as part of one word. */
  lemma QuotedText(s: string, rest: string, word: Option<string>)
    ensures Words(ShellSingleQuote(s) + rest, word) == Words(rest, Some(Begun(word) + s))
  {
    assert (ShellSingleQuote(s) + rest)[1..] == EscapeQuotes(s) + "'" + rest;
    EscapedBody(s, rest, Begun(word));
  }

  /** The host-key options; no known-hosts file is `None`. */
  function HostText(knownHosts: Option<string>): string {
    match knownHosts
    case Some(kh) => " " + "-o" + " " + "StrictHostKeyChecking=yes" + " " + "-o" + " " + "UserKnownHostsFile=" + ShellSingleQuote(kh)
    case None => " " + "-o" + " " + "StrictHostKeyChecking=accept-new"
  }

  /** The text the builder produces for already cleaned paths. */
  function CommandText(key: string, knownHosts: Option<string>): string {
    "ssh" + " " + "-i" + " " + ShellSingleQuote(key) + " " + "-o" + " " + "IdentitiesOnly=yes" + HostText(knownHosts)
  }

  function HostArgs(knownHosts: Option<string>): seq<string> {
    match knownHosts
    case Some(kh) => ["-o", "StrictHostKeyChecking=yes", "-o", "UserKnownHostsFile=" + kh]
    case None => ["-o", "StrictHostKeyChecking=accept-new"]
  }

  /** The argument list the command is meant to spell. */
  function Argv(key: string, knownHosts: Option<string>): seq<string> {
    ["ssh", "-i", key, "-o", "IdentitiesOnly=yes"] + HostArgs(knownHosts)
  }

  /** A fixed word, preceded by a blank that ends the previous word. */
  lemma NextWord(w: string, rest: string, word: string)
    requires Fixed(w)
    ensures Words(" " + (w + rest), Some(word)) == Cons(word, Words(rest, Some(w)))
  {
    BlankAfterWord(w + rest, word);
    OrdinaryStart(w, rest);
  }

  /** Two fixed words after the current one. */
  lemma TwoWords(a: string, b: string, rest: string, word: string)
    requires Fixed(a) && Fixed(b)
    ensures Words(" " + a + " " + b + rest, Some(word)) == Cons(word, Cons(a, Words(rest, Some(b))))
  {
    assert " " + a + " " + b + rest == " " + (a + (" " + (b + rest)));
    NextWord(a, " " + (b + rest), word);
    NextWord(b, rest, a);
  }

  lemma FourWords(a: string, b: string, c: string, d: string, rest: string, word: string)
    requires Fixed(a) && Fixed(b) && Fixed(c) && Fixed(d)
    ensures Words(" " + a + " " + b + " " + c + " " + d + rest, Some(word))
         == Cons(word, Cons(a, Cons(b, Cons(c, Words(rest, Some(d))))))
  {
    var tail := " " + c + " " + d + rest;
    assert " " + a + " " + b + " " + c + " " + d + rest == " " + a + " " + b + tail;
    TwoWords(a, b, tail, word);
    TwoWords(c, d, rest, b);
  }

  lemma FixedShort()
    ensures Fixed("-o") && Fixed("-i") && Fixed("ssh")
  {
  }

  lemma FixedIdentities()
    ensures Fixed("IdentitiesOnly=yes")
  {
  }

  lemma FixedStrict()
    ensures Fixed("StrictHostKeyChecking=yes")
  {
  }

  lemma FixedAcceptNew()
    ensures Fixed("StrictHostKeyChecking=accept-new")
  {
  }

  lemma FixedFile()
    ensures Fixed("UserKnownHostsFile=")
  {
  }

  lemma HostOptions(knownHosts: Option<string>, word: string)
    ensures Words(HostText(knownHosts), Some(word)) == Some([word] + HostArgs(knownHosts))
  {
    FixedShort();
    match knownHosts
    case None =>
      FixedAcceptNew();
      var last := "StrictHostKeyChecking=accept-new";
      assert HostText(None) == " " + "-o" + " " + last + "";
      TwoWords("-o", last, "", word);
      assert [word] + (["-o"] + [last]) == [word] + HostArgs(None);
    case Some(kh) =>
      var strict, file := "StrictHostKeyChecking=yes", "UserKnownHostsFile=";
      FixedStrict();
      FixedFile();
      FourWords("-o", strict, "-o", file, ShellSingleQuote(kh), word);
      QuotedText(kh, "", Some(file));
      assert ShellSingleQuote(kh) + "" == ShellSingleQuote(kh);
      ConsFour(word, "-o", strict, "-o", [file + kh]);
      assert [word, "-o", strict, "-o"] + [file + kh] == [word] + HostArgs(knownHosts);
  }

  lemma ConsFour(a: string, b: string, c: string, d: string, rest: seq<string>)
    ensures Cons(a, Cons(b, Cons(c, Cons(d, Some(rest))))) == Some([a, b, c, d] + rest)
  {
    assert [a] + ([b] + ([c] + ([d] + rest))) == [a, b, c, d] + rest;
  }

  lemma KeyOption(key: string, a: string, b: string, c: string, d: string, rest: string)
    requires Fixed(a) && Fixed(b) && Fixed(c) && Fixed(d)
    ensures Words(a + " " + b + " " + ShellSingleQuote(key) + " " + c + " " + d + rest, None)
         == Cons(a, Cons(b, Cons(key, Cons(c, Words(rest, Some(d))))))
  {
    var tail := " " + c + " " + d + rest;
    var quoted := ShellSingleQuote(key) + tail;
    assert a + " " + b + " " + ShellSingleQuote(key) + " " + c + " " + d + rest == a + (" " + (b + (" " + quoted)));
    OrdinaryStart(a, " " + (b + (" " + quoted)));
    NextWord(b, " " + quoted, a);
    BlankAfterWord(quoted, b);
    QuotedText(key, tail, None);
    assert Begun(None) + key == key;
    TwoWords(c, d, rest, key);
  }

  /** The shell reads the command back as exactly the intended arguments, for every key and known-hosts
      path, whatever quotes, blanks or newlines they contain. */
  lemma ShellRoundTrip(key: string, knownHosts: Option<string>)
    ensures Words(CommandText(key, knownHosts), None) == Some(Argv(key, knownHosts))
  {
    var id := "IdentitiesOnly=yes";
    FixedShort();
    FixedIdentities();
    KeyOption(key, "ssh", "-i", "-o", id, HostText(knownHosts));
    HostOptions(knownHosts, id);
    ConsFour("ssh", "-i", key, "-o", [id] + HostArgs(knownHosts));
    assert ["ssh", "-i", key, "-o"] + ([id] + HostArgs(knownHosts)) == Argv(key, knownHosts);
  }

  /** Different key or known-hosts paths always give different commands. */
  lemma CommandInjective(key: string, knownHosts: Option<string>, key': string, knownHosts': Option<string>)
    requires CommandText(key, knownHosts) == CommandText(key', knownHosts')
    ensures key == key' && knownHosts == knownHosts'
  {
    ShellRoundTrip(key, knownHosts);
    ShellRoundTrip(key', knownHosts');
    var a, b := Argv(key, knownHosts), Argv(key', knownHosts');
    assert a == b && a[2] == key && b[2] == key';
    if knownHosts.Some? && knownHosts'.Some? {
      assert knownHosts.value == a[8][|"UserKnownHostsFile="|..];
      assert knownHosts'.value == b[8][|"UserKnownHostsFile="|..];
    }
  }

  /** The command for a key and a known-hosts path as configured; blank known hosts means none. */
  function BuildCommand(privateKeyPath: string, knownHostsFile: string): Result<string, SshError> {
    var key, kh := Trim(privateKeyPath), Trim(knownHostsFile);
    if key == "" then Failure(EmptyKey)
    else if !IsAbs(key) then Failure(KeyNotAbsolute)
    else if kh != "" && !IsAbs(kh) then Failure(KnownHostsNotAbsolute)
    else Success(CommandText(Clean(key), if kh == "" then None else Some(Clean(kh))))
  }

  /** When the builder gives a command, and each of its errors. */
  lemma CommandErrors(privateKeyPath: string, knownHostsFile: string)
    ensures var r, key, kh := BuildCommand(privateKeyPath, knownHostsFile), Trim(privateKeyPath), Trim(knownHostsFile);
      && (r == Failure(EmptyKey) <==> key == "")
      && (r == Failure(KeyNotAbsolute) <==> key != "" && !IsAbs(key))
      && (r == Failure(KnownHostsNotAbsolute) <==> IsAbs(key) && kh != "" && !IsAbs(kh))
      && (r.Success? <==> IsAbs(key) && (kh == "" || IsAbs(kh)))
  {
  }

  method GitSSHCommand(privateKeyPath: string, knownHostsFile: string) returns (r: Result<string, SshError>)
    ensures r == BuildCommand(privateKeyPath, knownHostsFile)
    ensures var key, kh := Trim(privateKeyPath), Trim(knownHostsFile);
      && (r == Failure(EmptyKey) <==> key == "")
      && (r == Failure(KeyNotAbsolute) <==> key != "" && !IsAbs(key))
      && (r == Failure(KnownHostsNotAbsolute) <==> IsAbs(key) && kh != "" && !IsAbs(kh))
    ensures r.Success? ==>
      Words(r.value, None) == Some(Argv(Clean(Trim(privateKeyPath)),
                                        if Trim(knownHostsFile) == "" then None else Some(Clean(Trim(knownHostsFile)))))
  {
    CommandErrors(privateKeyPath, knownHostsFile);
    var key := Trim(privateKeyPath);
    if key == "" {
      return Failure(EmptyKey);
    }
    if !IsAbs(key) {
      return Failure(KeyNotAbsolute);
    }
    key := Clean(key);
    var b := "ssh" + " " + "-i" + " ";
    b := b + ShellSingleQuote(key);
    b := b + " " + "-o" + " " + "IdentitiesOnly=yes";
    var kh := Trim(knownHostsFile);
    if kh != "" {
      if !IsAbs(kh) {
        return Failure(KnownHostsNotAbsolute);
      }
      kh := Clean(kh);
      b := b + (" " + "-o" + " " + "StrictHostKeyChecking=yes" + " " + "-o" + " " + "UserKnownHostsFile=");
      b := b + ShellSingleQuote(kh);
      assert b == CommandText(key, Some(kh));
      ShellRoundTrip(key, Some(kh));
    } else {
      b := b + (" " + "-o" + " " + "StrictHostKeyChecking=accept-new");
      assert b == CommandText(key, None);
      ShellRoundTrip(key, None);
    }
    return Success(b);
  }
}
