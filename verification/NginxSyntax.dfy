/** Reading nginx configuration text: nginx's own token rules for unquoted words, then directives and blocks.
    Quoted words are outside the fragment and read as `None`, like text nginx rejects. */
module NginxSyntax {
  import opened Text

  datatype Token = Word(text: string) | Semi | Open | Close

  predicate White(c: char) {
    c == ' ' || c == '\t' || c == '\r' || c == '\n'
  }

  /** A comment ends after the line feed. */
  function AfterLine(s: string): (r: string)
    ensures |r| <= |s|
  {
    if s == "" then "" else if s[0] == '\n' then s[1..] else AfterLine(s[1..])
  }

  /** What a backslash and the next character stand for in a word. */
  function Escaped(c: char): string {
    if c == '"' || c == '\'' || c == '\\' then [c]
    else if c == 't' then "\t" else if c == 'r' then "\r" else if c == 'n' then "\n"
    else ['\\', c]
  }

  function Cons(t: Token, ts: Option<seq<Token>>): Option<seq<Token>> {
    if ts.None? then None else Some([t] + ts.value)
  }

  /** Between words. */
  function Lex(s: string): Option<seq<Token>>
    decreases |s|, 0
  {
    if s == "" then Some([])
    else if White(s[0]) then Lex(s[1..])
    else if s[0] == ';' then Cons(Semi, Lex(s[1..]))
    else if s[0] == '{' then Cons(Open, Lex(s[1..]))
    else if s[0] == '}' then Cons(Close, Lex(s[1..]))
    else if s[0] == '#' then Lex(AfterLine(s[1..]))
    else if s[0] == '"' || s[0] == '\'' then None
    else if s[0] == '\\' then if |s| == 1 then None else LexWord(s[2..], Escaped(s[1]), false)
    else LexWord(s[1..], [s[0]], s[0] == '$')
  }

  /** Inside a word; after `$` an opening brace belongs to the word. */
  function LexWord(s: string, word: string, variable: bool): Option<seq<Token>>
    decreases |s|, 1
  {
    if s == "" then None
    else if s[0] == '{' && variable then LexWord(s[1..], word + [s[0]], true)
    else if s[0] == '\\' then if |s| == 1 then None else LexWord(s[2..], word + Escaped(s[1]), false)
    else if White(s[0]) || s[0] == ';' || s[0] == '{' then Cons(Word(word), Lex(s))
    else LexWord(s[1..], word + [s[0]], s[0] == '$')
  }

  datatype Item =
    | Directive(words: seq<string>)
    | Block(heading: seq<string>, body: seq<Item>)

  function LeadingWords(ts: seq<Token>): (ws: seq<string>)
    ensures |ws| <= |ts|
  {
    if ts == [] || !ts[0].Word? then [] else [ts[0].text] + LeadingWords(ts[1..])
  }

  datatype Parsed = Parsed(items: seq<Item>, rest: seq<Token>)

  /** Items up to a closing brace or the end of the tokens. */
  function ParseItems(ts: seq<Token>): (r: Option<Parsed>)
    ensures r.Some? ==> |r.value.rest| <= |ts|
    decreases |ts|
  {
    if ts == [] || ts[0].Close? then Some(Parsed([], ts))
    else
      var words := LeadingWords(ts);
      var after := ts[|words|..];
      if words == [] || after == [] || after[0].Close? then None
      else if after[0].Semi? then
        match ParseItems(after[1..])
        case None => None
        case Some(p) => Some(Parsed([Directive(words)] + p.items, p.rest))
      else
        match ParseItems(after[1..])
        case None => None
        case Some(body) =>
          if body.rest == [] then None
          else
            match ParseItems(body.rest[1..])
            case None => None
            case Some(p) => Some(Parsed([Block(words, body.items)] + p.items, p.rest))
  }

  /** A whole file: every token belongs to some item. */
  function Parse(text: string): Option<seq<Item>> {
    match Lex(text)
    case None => None
    case Some(ts) =>
      match ParseItems(ts)
      case None => None
      case Some(p) => if p.rest == [] then Some(p.items) else None
  }

  // ---------------------------------------------------------------- words

  /** Text that nginx reads as one word, unchanged, when a separator follows. */
  predicate Plain(w: string) {
    && w != ""
    && w[0] != '}' && w[0] != '#' && w[0] != '"' && w[0] != '\''
    && forall i :: 0 <= i < |w| ==> !White(w[i]) && w[i] != ';' && w[i] != '{' && w[i] != '\\'
  }

  predicate Separator(s: string) {
    s != "" && (White(s[0]) || s[0] == ';' || s[0] == '{')
  }

  lemma {:induction false} LexPlainTail(w: string, rest: string, word: string, variable: bool)
    requires forall i :: 0 <= i < |w| ==> !White(w[i]) && w[i] != ';' && w[i] != '{' && w[i] != '\\'
    requires Separator(rest) && (w == "" ==> !variable || rest[0] != '{')
    requires w != "" ==> w[|w| - 1] != '$' || rest[0] != '{'
    ensures LexWord(w + rest, word, variable) == Cons(Word(word + w), Lex(rest))
    decreases |w|
  {
    if w == "" {
      assert w + rest == rest && word + w == word;
    } else {
      assert (w + rest)[0] == w[0] && (w + rest)[1..] == w[1..] + rest;
      assert word + [w[0]] + w[1..] == word + w;
      LexPlainTail(w[1..], rest, word + [w[0]], w[0] == '$');
    }
  }

  lemma LexPlain(w: string, rest: string)
    requires Plain(w) && Separator(rest) && rest[0] != '{'
    ensures Lex(w + rest) == Cons(Word(w), Lex(rest))
  {
    assert (w + rest)[0] == w[0] && (w + rest)[1..] == w[1..] + rest;
    LexPlainTail(w[1..], rest, [w[0]], w[0] == '$');
    assert [w[0]] + w[1..] == w;
  }

  predicate AllWhite(s: string) {
    forall i :: 0 <= i < |s| ==> White(s[i])
  }

  lemma {:induction false} LexWhite(s: string, rest: string)
    requires AllWhite(s)
    ensures Lex(s + rest) == Lex(rest)
    decreases |s|
  {
    if s == "" {
      assert s + rest == rest;
    } else {
      assert (s + rest)[0] == s[0] && (s + rest)[1..] == s[1..] + rest;
      LexWhite(s[1..], rest);
    }
  }

  lemma {:induction false} SkipLine(s: string, rest: string)
    requires '\n' !in s
    ensures AfterLine(s + "\n" + rest) == rest
    decreases |s|
  {
    var t := s + "\n" + rest;
    if s == "" {
      assert t[0] == '\n' && t[1..] == rest;
    } else {
      assert t[0] == s[0] && t[1..] == s[1..] + "\n" + rest;
      SkipLine(s[1..], rest);
    }
  }

  lemma LexComment(s: string, rest: string)
    requires '\n' !in s
    ensures Lex("#" + s + "\n" + rest) == Lex(rest)
  {
    var t := "#" + s + "\n" + rest;
    assert t[0] == '#' && t[1..] == s + "\n" + rest;
    SkipLine(s, rest);
  }

  // ---------------------------------------------------------------- lines

  /** Words separated by single blanks. */
  function Spaced(ws: seq<string>): string {
    if ws == [] then "" else if |ws| == 1 then ws[0] else ws[0] + " " + Spaced(ws[1..])
  }

  predicate AllPlain(ws: seq<string>) {
    ws != [] && forall i :: 0 <= i < |ws| ==> Plain(ws[i])
  }

  function Words(ws: seq<string>): seq<Token> {
    if ws == [] then [] else [Word(ws[0])] + Words(ws[1..])
  }

  function Prepend(ts: seq<Token>, more: Option<seq<Token>>): Option<seq<Token>> {
    if more.None? then None else Some(ts + more.value)
  }

  lemma PrependPrepend(a: seq<Token>, b: seq<Token>, more: Option<seq<Token>>)
    ensures Prepend(a, Prepend(b, more)) == Prepend(a + b, more)
  {
    if more.Some? {
      assert a + (b + more.value) == a + b + more.value;
    }
  }

  lemma {:induction false} LexSpaced(ws: seq<string>, rest: string)
    requires AllPlain(ws) && Separator(rest) && rest[0] != '{'
    ensures Lex(Spaced(ws) + rest) == Prepend(Words(ws), Lex(rest))
    decreases |ws|
  {
    if |ws| == 1 {
      LexPlain(ws[0], rest);
      assert Words(ws) == [Word(ws[0])];
    } else {
      var tail := Spaced(ws[1..]) + rest;
      assert Spaced(ws) + rest == ws[0] + (" " + tail);
      assert (" " + tail)[1..] == tail;
      LexPlain(ws[0], " " + tail);
      LexSpaced(ws[1..], rest);
      PrependPrepend([Word(ws[0])], Words(ws[1..]), Lex(rest));
    }
  }

  lemma LexSemi(rest: string)
    ensures Lex(";\n" + rest) == Prepend([Semi], Lex(rest))
  {
    var tail := ";\n" + rest;
    assert tail[1..] == "\n" + rest;
    LexWhite("\n", rest);
  }

  lemma LexOpen(rest: string)
    ensures Lex(" {\n" + rest) == Prepend([Open], Lex(rest))
  {
    var tail := " {\n" + rest;
    assert tail[1..] == "{\n" + rest && ("{\n" + rest)[1..] == "\n" + rest;
    LexWhite("\n", rest);
  }

  /** An indented directive on its own line. */
  lemma LexDirective(indent: string, ws: seq<string>, rest: string)
    requires AllWhite(indent) && AllPlain(ws)
    ensures Lex(indent + Spaced(ws) + ";\n" + rest) == Prepend(Words(ws) + [Semi], Lex(rest))
  {
    var tail := ";\n" + rest;
    assert indent + Spaced(ws) + ";\n" + rest == indent + (Spaced(ws) + tail);
    LexWhite(indent, Spaced(ws) + tail);
    LexSpaced(ws, tail);
    LexSemi(rest);
    PrependPrepend(Words(ws), [Semi], Lex(rest));
  }

  /** An indented block heading. */
  lemma LexHeading(indent: string, ws: seq<string>, rest: string)
    requires AllWhite(indent) && AllPlain(ws)
    ensures Lex(indent + Spaced(ws) + " {\n" + rest) == Prepend(Words(ws) + [Open], Lex(rest))
  {
    var tail := " {\n" + rest;
    assert indent + Spaced(ws) + " {\n" + rest == indent + (Spaced(ws) + tail);
    LexWhite(indent, Spaced(ws) + tail);
    LexSpaced(ws, tail);
    LexOpen(rest);
    PrependPrepend(Words(ws), [Open], Lex(rest));
  }

  lemma LexClose(indent: string, rest: string)
    requires AllWhite(indent)
    ensures Lex(indent + "}" + rest) == Prepend([Close], Lex(rest))
  {
    assert indent + "}" + rest == indent + ("}" + rest);
    LexWhite(indent, "}" + rest);
    assert ("}" + rest)[1..] == rest;
  }

  // ---------------------------------------------------------------- parsing is the inverse of flattening

  predicate WellFormed(item: Item) {
    match item
    case Directive(words) => words != []
    case Block(heading, body) => heading != [] && forall i :: 0 <= i < |body| ==> WellFormed(body[i])
  }

  function FlattenOne(item: Item): seq<Token> {
    match item
    case Directive(words) => Words(words) + [Semi]
    case Block(heading, body) => Words(heading) + [Open] + Flatten(body) + [Close]
  }

  function Flatten(items: seq<Item>): seq<Token> {
    if items == [] then [] else FlattenOne(items[0]) + Flatten(items[1..])
  }

  lemma {:induction false} WordsLength(ws: seq<string>)
    ensures |Words(ws)| == |ws|
  {
    if ws != [] {
      WordsLength(ws[1..]);
    }
  }

  lemma {:induction false} WordsLead(ws: seq<string>, rest: seq<Token>)
    requires rest != [] && !rest[0].Word?
    ensures LeadingWords(Words(ws) + rest) == ws
    decreases |ws|
  {
    if ws == [] {
      assert Words(ws) + rest == rest;
    } else {
      WordsLead(ws[1..], rest);
      assert Words(ws) + rest == [Word(ws[0])] + (Words(ws[1..]) + rest);
    }
  }

  /** One parsing step: the words in front, then what the token after them decides. */
  lemma ParseStep(words: seq<string>, after: seq<Token>)
    requires words != [] && after != [] && (after[0].Semi? || after[0].Open?)
    ensures var ts := Words(words) + after;
      ts != [] && ts[0].Word? && LeadingWords(ts) == words && ts[|words|..] == after
  {
    WordsLead(words, after);
    WordsLength(words);
    assert Words(words)[0] == Word(words[0]);
  }

  lemma ParseDirective(words: seq<string>, more: seq<Token>)
    requires words != []
    ensures ParseItems(Words(words) + ([Semi] + more))
         == match ParseItems(more)
            case None => None
            case Some(p) => Some(Parsed([Directive(words)] + p.items, p.rest))
  {
    ParseStep(words, [Semi] + more);
    assert ([Semi] + more)[1..] == more;
  }

  lemma ParseBlock(heading: seq<string>, inner: seq<Token>, body: seq<Item>, more: seq<Token>)
    requires heading != [] && ParseItems(inner) == Some(Parsed(body, [Close] + more))
    ensures ParseItems(Words(heading) + ([Open] + inner))
         == match ParseItems(more)
            case None => None
            case Some(p) => Some(Parsed([Block(heading, body)] + p.items, p.rest))
  {
    ParseStep(heading, [Open] + inner);
    assert ([Open] + inner)[1..] == inner && ([Close] + more)[1..] == more;
  }

  lemma Assoc(a: seq<Token>, b: seq<Token>, c: seq<Token>, d: seq<Token>, e: seq<Token>)
    ensures a + b + c + d + e == a + (b + (c + (d + e)))
    ensures a + b + e == a + (b + e)
  {
  }

  lemma {:induction false} ParseFlatten(items: seq<Item>, rest: seq<Token>)
    requires forall i :: 0 <= i < |items| ==> WellFormed(items[i])
    requires rest == [] || rest[0].Close?
    ensures ParseItems(Flatten(items) + rest) == Some(Parsed(items, rest))
    decreases items
  {
    if items == [] {
      assert Flatten(items) + rest == rest;
    } else {
      var more := Flatten(items[1..]) + rest;
      assert Flatten(items) + rest == FlattenOne(items[0]) + more;
      assert [items[0]] + items[1..] == items;
      ParseFlatten(items[1..], rest);
      match items[0]
      case Directive(words) =>
        Assoc(Words(words), [Semi], [], [], more);
        ParseDirective(words, more);
      case Block(heading, body) =>
        var inner := Flatten(body) + ([Close] + more);
        Assoc(Words(heading), [Open], Flatten(body), [Close], more);
        ParseFlatten(body, [Close] + more);
        ParseBlock(heading, inner, body, more);
    }
  }

  /** Text whose tokens flatten an item list parses to exactly that list. */
  lemma ParseOfFlattened(text: string, items: seq<Item>)
    requires Lex(text) == Some(Flatten(items))
    requires forall i :: 0 <= i < |items| ==> WellFormed(items[i])
    ensures Parse(text) == Some(items)
  {
    ParseFlatten(items, []);
    assert Flatten(items) + [] == Flatten(items);
  }
}
