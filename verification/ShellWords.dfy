/**
 As much of the Shell Command Language (POSIX.1-2017, Shell and Utilities,
 chapter 2) as the printed text needs: escape character and single quotes
 (2.2.1, 2.2.2), token recognition (2.3), removal of trailing newlines in
 command substitution (2.6.3), and simple commands that assign or export (2.9.1,
 2.14). Text that would need anything else is refused.
 */
module ShellWords {
  import opened Results
  import opened Environment

  /**
   A word after quote removal: how many of its characters come before any quoting,
   and whether an unquoted one belongs to a pattern.
   */
  datatype Word = Word(text: string, bare: nat, pattern: bool)

  /** Between words, in a word, after a single quote, or after a backslash. */
  datatype Mode = Gap | Bare | Quote | Escape

  /** `quoted` says that the word has a quoted part, `bareLast` that its last character is unquoted. */
  datatype Lexer = Lexer(
    mode: Mode, word: Word, quoted: bool, bareLast: bool, words: seq<Word>, commands: seq<seq<Word>>)

  const NO_WORD := Word("", 0, false)
  const START := Lexer(Gap, NO_WORD, false, true, [], [])

  predicate IsBlank(c: char) {
    c == ' ' || c == '\t'
  }

  /** Characters that begin an operator, an expansion or a double-quoted part wherever they are unquoted. */
  predicate IsSpecial(c: char) {
    c == '|' || c == '&' || c == '<' || c == '>' || c == '(' || c == ')' || c == '$' || c == '`' || c == '"'
  }

  /** Characters of patterns, which are ordinary in a word that is not subject to pathname expansion. */
  predicate IsPattern(c: char) {
    c == '*' || c == '?' || c == '['
  }

  /** Characters that the shell takes as they stand inside a word, but for a tilde in some places. */
  predicate IsOrdinary(c: char) {
    !IsSpecial(c) && !IsBlank(c) && c != ';' && c != '\n' && c != '\'' && c != '\\' && c != '\0'
  }

  predicate IsPlain(c: char) {
    IsOrdinary(c) && !IsPattern(c) && c != '~'
  }

  predicate AllPlain(s: string) {
    forall k | 0 <= k < |s| :: IsPlain(s[k])
  }

  predicate HasPattern(s: string) {
    exists k | 0 <= k < |s| :: IsPattern(s[k])
  }

  predicate IsNameChar(c: char) {
    'a' <= c <= 'z' || 'A' <= c <= 'Z' || '0' <= c <= '9' || c == '_'
  }

  predicate IsShellName(s: string) {
    s != "" && !('0' <= s[0] <= '9') && forall k | 0 <= k < |s| :: IsNameChar(s[k])
  }

  /** A word is an assignment if an unquoted name and an unquoted `=` come first. */
  predicate IsAssignment(w: Word) {
    var name := KeyOf(w.text);
    name.Some? && IsShellName(name.value) && |name.value| < w.bare
  }

  /**
   Where an unquoted tilde begins a tilde-prefix (2.6.1): at the beginning of a
   word, and in an assignment after the first `=` or an unquoted colon.
   */
  predicate TildeOpen(w: Word, bareLast: bool) {
    bareLast &&
    (w.text == ""
     || (IsAssignment(w) && (w.text[|w.text| - 1] == ':' || |w.text| == |KeyOf(w.text).value| + 1)))
  }

  function AppendBare(l: Lexer, c: char): Lexer {
    var w := l.word;
    l.(mode := Bare, bareLast := true,
       word := Word(w.text + [c], if l.quoted then w.bare else w.bare + 1, w.pattern || IsPattern(c)))
  }

  function AppendQuoted(l: Lexer, c: char): Lexer {
    l.(word := l.word.(text := l.word.text + [c]))
  }

  function EndWord(l: Lexer): Lexer {
    if l.mode.Bare? then
      l.(mode := Gap, word := NO_WORD, quoted := false, bareLast := true, words := l.words + [l.word])
    else l
  }

  function EndCommand(l: Lexer): Lexer {
    if l.words == [] then l else l.(words := [], commands := l.commands + [l.words])
  }

  function Unquoted(l: Lexer, c: char): Option<Lexer> {
    if c == '\'' then Some(l.(mode := Quote, quoted := true, bareLast := false))
    else if c == '\\' then Some(l.(mode := Escape, quoted := true, bareLast := false))
    else if IsBlank(c) then Some(EndWord(l))
    else if c == '\n' then Some(EndCommand(EndWord(l)))
    else if c == ';' then
      if EndWord(l).words == [] then None else Some(EndCommand(EndWord(l)))
    else if IsSpecial(c) || (c == '#' && l.mode.Gap?) || (c == '~' && TildeOpen(l.word, l.bareLast)) then None
    else Some(AppendBare(l, c))
  }

  function ReadChar(l: Lexer, c: char): Option<Lexer> {
    if c == '\0' then None
    else
      match l.mode
      case Quote => Some(if c == '\'' then l.(mode := Bare) else AppendQuoted(l, c))
      case Escape => if c == '\n' then None else Some(AppendQuoted(l, c).(mode := Bare))
      case _ => Unquoted(l, c)
  }

  function Scan(l: Lexer, s: string): Option<Lexer>
    decreases |s|
  {
    if s == "" then Some(l)
    else
      match ReadChar(l, s[0])
      case None => None
      case Some(next) => Scan(next, s[1..])
  }

  /** The commands of a text, each a list of words; none if a quote is left open. */
  function Lex(s: string): Option<seq<seq<Word>>> {
    match Scan(START, s)
    case None => None
    case Some(l) => if l.mode.Quote? || l.mode.Escape? then None else Some(EndCommand(EndWord(l)).commands)
  }

  lemma {:induction false} ScanAppend(l: Lexer, a: string, b: string)
    ensures Scan(l, a + b) == match Scan(l, a) case None => None case Some(m) => Scan(m, b)
    decreases |a|
  {
    hide ReadChar;
    if a == "" {
      assert a + b == b;
    } else {
      assert (a + b)[1..] == a[1..] + b;
      if ReadChar(l, a[0]).Some? {
        ScanAppend(ReadChar(l, a[0]).value, a[1..], b);
      }
    }
  }

  lemma {:induction false} ScanThen(l: Lexer, a: string, m: Lexer, b: string)
    requires Scan(l, a) == Some(m)
    ensures Scan(l, a + b) == Scan(m, b)
  {
    ScanAppend(l, a, b);
  }

  lemma {:induction false} ScanSingle(l: Lexer, c: char)
    ensures Scan(l, [c]) == ReadChar(l, c)
  {
    assert [c][1..] == "";
  }

  function Taking(l: Lexer, s: string): Lexer {
    l.(mode := Bare, bareLast := l.bareLast || s != "",
       word := Word(l.word.text + s, if l.quoted then l.word.bare else l.word.bare + |s|,
                    l.word.pattern || HasPattern(s)))
  }

  lemma TakingMore(l: Lexer, c: char, s: string)
    ensures Taking(AppendBare(l, c), s) == Taking(l, [c] + s)
  {
    assert l.word.text + [c] + s == l.word.text + ([c] + s);
    assert HasPattern([c] + s) <==> IsPattern(c) || HasPattern(s) by {
      assert forall k | 0 <= k < |s| :: ([c] + s)[k + 1] == s[k];
      assert ([c] + s)[0] == c;
    }
    hide IsPattern;
  }

  /** No tilde of the text stands where it would begin a tilde-prefix. */
  predicate TildesClosed(l: Lexer, s: string) {
    forall k | 0 <= k < |s| && s[k] == '~' :: !TildeOpen(Taking(l, s[..k]).word, Taking(l, s[..k]).bareLast)
  }

  lemma NothingTaken(l: Lexer)
    ensures Taking(l, "").word == l.word && Taking(l, "").bareLast == l.bareLast
  {
    assert l.word.text + "" == l.word.text;
  }

  lemma ReadOrdinary(l: Lexer, c: char)
    requires IsOrdinary(c) && (l.mode.Bare? || (l.mode.Gap? && c != '#'))
    requires c == '~' ==> !TildeOpen(l.word, l.bareLast)
    ensures ReadChar(l, c) == Some(AppendBare(l, c))
  {
    hide TildeOpen;
  }

  /** Ordinary text in a word is taken as it stands, if no tilde-prefix begins in it. */
  lemma {:induction false} ScanOrdinary(l: Lexer, s: string)
    requires forall k | 0 <= k < |s| :: IsOrdinary(s[k])
    requires l.mode.Bare? || (l.mode.Gap? && s != "" && s[0] != '#')
    requires TildesClosed(l, s)
    ensures Scan(l, s) == Some(Taking(l, s))
    decreases |s|
  {
    hide IsOrdinary, TildeOpen, HasPattern, ReadChar, Taking;
    NothingTaken(l);
    if s == "" {
      NothingChanges(l);
    } else {
      var c, more := s[0], s[1..];
      assert s == [c] + more && s[..0] == "";
      ReadOrdinary(l, c);
      var next := AppendBare(l, c);
      forall k | 0 <= k < |more| && more[k] == '~'
        ensures !TildeOpen(Taking(next, more[..k]).word, Taking(next, more[..k]).bareLast)
      {
        assert s[k + 1] == '~' && s[..k + 1] == [c] + more[..k];
        TakingMore(l, c, more[..k]);
      }
      ScanOrdinary(next, more);
      TakingMore(l, c, more);
    }
  }

  lemma NothingChanges(l: Lexer)
    requires l.mode.Bare?
    ensures Taking(l, "") == l
  {
    NothingTaken(l);
  }

  /** Plain text in a word is taken as it stands. */
  lemma {:induction false} ScanPlain(l: Lexer, s: string)
    requires AllPlain(s) && (l.mode.Bare? || (l.mode.Gap? && s != "" && s[0] != '#'))
    ensures Scan(l, s) == Some(Taking(l, s)) && !HasPattern(s)
  {
    assert forall k | 0 <= k < |s| :: IsOrdinary(s[k]) && s[k] != '~' && !IsPattern(s[k]);
    hide IsOrdinary, IsPattern;
    ScanOrdinary(l, s);
  }

  // ---- What the commands do ----

  /** The variables of a shell, and which of them it exports. */
  datatype Shell = Shell(vars: map<string, string>, exported: set<string>)

  function Assign(sh: Shell, text: string): Shell
    requires KeyOf(text).Some?
  {
    var name := KeyOf(text).value;
    sh.(vars := sh.vars[name := text[|name| + 1..]])
  }

  function AssignAll(sh: Shell, words: seq<Word>): Option<Shell>
    decreases |words|
  {
    if words == [] then Some(sh)
    else if IsAssignment(words[0]) then AssignAll(Assign(sh, words[0].text), words[1..])
    else None
  }

  /** The operands of `export`: a name, or a name with a value; a pattern might be expanded. */
  function Export(sh: Shell, words: seq<Word>): Option<Shell>
    decreases |words|
  {
    if words == [] then Some(sh)
    else if words[0].pattern then None
    else
      var text := words[0].text;
      match KeyOf(text)
      case None =>
        if IsShellName(text) then Export(sh.(exported := sh.exported + {text}), words[1..]) else None
      case Some(name) =>
        if IsShellName(name) then Export(Assign(sh, text).(exported := sh.exported + {name}), words[1..]) else None
  }

  function RunCommand(sh: Shell, words: seq<Word>): Option<Shell> {
    if words != [] && words[0].text == "export" then Export(sh, words[1..]) else AssignAll(sh, words)
  }

  function RunAll(sh: Shell, commands: seq<seq<Word>>): Option<Shell>
    decreases |commands|
  {
    if commands == [] then Some(sh)
    else
      match RunCommand(sh, commands[0])
      case None => None
      case Some(next) => RunAll(next, commands[1..])
  }

  /** `eval` of a text. */
  function Eval(sh: Shell, s: string): Option<Shell> {
    match Lex(s)
    case None => None
    case Some(commands) => RunAll(sh, commands)
  }

  /** Command substitution takes the newlines off the end of the output. */
  function Stripped(s: string): string {
    if s != "" && s[|s| - 1] == '\n' then Stripped(s[..|s| - 1]) else s
  }
}
