/** Word splitting and quote removal of the shell, for simple commands without expansions: sections 2.2.1
    to 2.2.3, 2.3 and 2.6.7 of the POSIX.1-2017 Shell Command Language. `None` stands for input that is
    not such a command (an unclosed quote, an operator, an expansion). */
module Shell {
  import opened Text

  predicate Blank(c: char) {
    c == ' ' || c == '\t'
  }

  /** Operators, expansions and patterns that are active in unquoted text. */
  predicate Active(c: char) {
    c == '|' || c == '&' || c == ';' || c == '<' || c == '>' || c == '(' || c == ')' || c == '$' || c == '`'
    || c == '*' || c == '?' || c == '[' || c == '\n'
  }

  function Begun(word: Option<string>): string {
    if word.Some? then word.value else ""
  }

  function AfterComment(s: string): (r: string)
    ensures |r| <= |s|
  {
    if s == "" || s[0] == '\n' then s else AfterComment(s[1..])
  }

  function Cons(w: string, ws: Option<seq<string>>): Option<seq<string>> {
    if ws.None? then None else Some([w] + ws.value)
  }

  /** Unquoted text; `word` is the word begun so far, if any. */
  function Words(s: string, word: Option<string>): Option<seq<string>>
    decreases |s|
  {
    if s == "" then if word.None? then Some([]) else Some([word.value])
    else if Blank(s[0]) then
      if word.None? then Words(s[1..], None) else Cons(word.value, Words(s[1..], None))
    else if s[0] == '\'' then InSingle(s[1..], Begun(word))
    else if s[0] == '"' then InDouble(s[1..], Begun(word))
    else if s[0] == '\\' then
      if |s| == 1 then None
      else if s[1] == '\n' then Words(s[2..], word)
      else Words(s[2..], Some(Begun(word) + [s[1]]))
    else if Active(s[0]) then None
    else if word.None? && s[0] == '#' then Words(AfterComment(s[1..]), None)
    else if word.None? && s[0] == '~' then None
    else Words(s[1..], Some(Begun(word) + [s[0]]))
  }

  function InSingle(s: string, word: string): Option<seq<string>>
    decreases |s|
  {
    if s == "" then None
    else if s[0] == '\'' then Words(s[1..], Some(word))
    else InSingle(s[1..], word + [s[0]])
  }

  function InDouble(s: string, word: string): Option<seq<string>>
    decreases |s|
  {
    if s == "" then None
    else if s[0] == '"' then Words(s[1..], Some(word))
    else if s[0] == '$' || s[0] == '`' then None
    else if s[0] == '\\' then
      if |s| == 1 then None
      else if s[1] == '\n' then InDouble(s[2..], word)
      else if s[1] in "$`\"\\" then InDouble(s[2..], word + [s[1]])
      else InDouble(s[1..][1..], word + ['\\', s[1]])
    else InDouble(s[1..], word + [s[0]])
  }

  /** A character that stands for itself wherever it is unquoted inside a word. */
  predicate Ordinary(c: char) {
    !Blank(c) && !Active(c) && c != '\'' && c != '"' && c != '\\'
  }

  predicate AllOrdinary(w: string) {
    forall i :: 0 <= i < |w| ==> Ordinary(w[i])
  }

  /** A literal word of a command: it starts no comment and no tilde expansion. */
  predicate Fixed(w: string) {
    w != "" && w[0] != '#' && w[0] != '~' && AllOrdinary(w)
  }

  lemma {:induction false} OrdinaryWord(w: string, rest: string, begun: string)
    requires AllOrdinary(w)
    ensures Words(w + rest, Some(begun)) == Words(rest, Some(begun + w))
    decreases |w|
  {
    if w == "" {
      assert w + rest == rest && begun + w == begun;
    } else {
      assert (w + rest)[0] == w[0] && (w + rest)[1..] == w[1..] + rest;
      assert begun + [w[0]] + w[1..] == begun + w;
      OrdinaryWord(w[1..], rest, begun + [w[0]]);
    }
  }

  lemma OrdinaryStart(w: string, rest: string)
    requires Fixed(w)
    ensures Words(w + rest, None) == Words(rest, Some(w))
  {
    assert (w + rest)[0] == w[0] && (w + rest)[1..] == w[1..] + rest;
    assert Begun(None) + [w[0]] == [w[0]] && [w[0]] + w[1..] == w;
    OrdinaryWord(w[1..], rest, [w[0]]);
  }

  lemma BlankAfterWord(rest: string, word: string)
    ensures Words(" " + rest, Some(word)) == Cons(word, Words(rest, None))
  {
    assert (" " + rest)[1..] == rest;
  }
}
