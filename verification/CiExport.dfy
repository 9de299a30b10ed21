/** The line that `keepiq ci fetch` prints for `eval`. */
module CiExport {
  import opened Results
  import opened Environment
  import opened ShellWords

  /** strings.ReplaceAll(v, "'", `'\''`). */
  function EscapeQuotes(v: string): string {
    if v == "" then ""
    else (if v[0] == '\'' then "'\\''" else [v[0]]) + EscapeQuotes(v[1..])
  }

  function ShellQuote(v: string): string {
    "'" + EscapeQuotes(v) + "'"
  }

  /**
   unicode.ToUpper, as far as it yields ASCII letters or digits: besides a to z,
   the dotless i and the long s have an ASCII capital.
   */
  function ToUpper(c: char): char {
    if 'a' <= c <= 'z' then c - 'a' + 'A'
    else if c == '\U{0131}' then 'I'
    else if c == '\U{017F}' then 'S'
    else c
  }

  predicate IsKept(c: char) {
    'A' <= c <= 'Z' || '0' <= c <= '9'
  }

  function EnvChar(c: char): char {
    var up := ToUpper(c);
    if IsKept(up) then up else '_'
  }

  const ENV_PREFIX := "KEEPIQ_"

  function EnvName(name: string): string {
    ENV_PREFIX + seq(|name|, k requires 0 <= k < |name| => EnvChar(name[k]))
  }

  /** Capitals and digits stay, small letters become capitals, as do two others, and the rest is replaced. */
  predicate IsMapped(c: char, d: char) {
    && ('A' <= c <= 'Z' || '0' <= c <= '9' ==> d == c)
    && ('a' <= c <= 'z' ==> d as int == c as int - 32)
    && (c == '\U{0131}' ==> d == 'I')
    && (c == '\U{017F}' ==> d == 'S')
    && ('A' <= c <= 'Z' || '0' <= c <= '9' || 'a' <= c <= 'z' || c == '\U{0131}' || c == '\U{017F}' || d == '_')
  }

  lemma EnvNameMaps(secretName: string)
    ensures var env := EnvName(secretName);
      && |env| == 7 + |secretName| && env[..7] == "KEEPIQ_"
      && forall k | 0 <= k < |secretName| :: IsMapped(secretName[k], env[7 + k])
  {
    var env := EnvName(secretName);
    assert env[..7] == "KEEPIQ_";
    forall k | 0 <= k < |secretName| ensures IsMapped(secretName[k], env[7 + k]) {
      assert env[7 + k] == EnvChar(secretName[k]);
      MapsTo(secretName[k]);
    }
    hide IsMapped, EnvChar;
  }

  lemma MapsTo(c: char)
    ensures IsMapped(c, EnvChar(c))
  {
  }

  lemma MapsOnce(c: char, d: char, e: char)
    requires IsMapped(c, d) && IsMapped(c, e)
    ensures d == e
  {
  }

  /** What the variable of a secret is called, character by character, and nothing else is called so. */
  lemma EnvNameIff(secretName: string, name: string)
    ensures name == EnvName(secretName) <==>
      && |name| == 7 + |secretName| && name[..7] == "KEEPIQ_"
      && forall k | 0 <= k < |secretName| :: IsMapped(secretName[k], name[7 + k])
  {
    hide EnvName, IsMapped;
    var env := EnvName(secretName);
    EnvNameMaps(secretName);
    if |name| == 7 + |secretName| && name[..7] == "KEEPIQ_"
      && forall k | 0 <= k < |secretName| :: IsMapped(secretName[k], name[7 + k]) {
      forall i | 0 <= i < |name| ensures name[i] == env[i] {
        if i < 7 {
          assert name[i] == name[..7][i] && env[i] == env[..7][i];
        } else {
          var k := i - 7;
          assert IsMapped(secretName[k], name[7 + k]) && IsMapped(secretName[k], env[7 + k]);
          MapsOnce(secretName[k], name[7 + k], env[7 + k]);
        }
      }
    }
  }

  /** The builder loop. */
  method BuildEnvName(secretName: string) returns (name: string)
    ensures name == EnvName(secretName)
    ensures |name| == 7 + |secretName| && name[..7] == "KEEPIQ_"
    ensures forall k | 0 <= k < |secretName| :: IsMapped(secretName[k], name[7 + k])
  {
    var b := "";
    for i := 0 to |secretName|
      invariant b == seq(i, k requires 0 <= k < i => EnvChar(secretName[k]))
    {
      var r := ToUpper(secretName[i]);
      if ('A' <= r <= 'Z') || ('0' <= r <= '9') {
        b := b + [r];
      } else {
        b := b + ['_'];
      }
    }
    name := ENV_PREFIX + b;
    EnvNameIff(secretName, name);
  }

  /** The name is a shell name, one character for each of the secret's name after the prefix. */
  lemma EnvNameIsName(name: string)
    ensures IsShellName(EnvName(name)) && |EnvName(name)| == 7 + |name|
    ensures AllPlain(EnvName(name)) && '=' !in EnvName(name)
  {
    var env := EnvName(name);
    forall k | 0 <= k < |env| ensures IsNameChar(env[k]) && IsPlain(env[k]) && env[k] != '=' {
      if k >= 7 {
        assert env[k] == EnvChar(name[k - 7]);
      }
    }
  }

  function ExportLine(name: string, value: string): string {
    "export " + EnvName(name) + "=" + ShellQuote(value) + "\n"
  }

  /** In quotes, the escaped text of a value adds the value, and the quotes are open again after it. */
  lemma {:induction false} ScanEscaped(l: Lexer, v: string)
    requires l.mode.Quote? && l.quoted && !l.bareLast && '\0' !in v
    ensures Scan(l, EscapeQuotes(v)) == Some(l.(word := l.word.(text := l.word.text + v)))
    decreases |v|
  {
    if v == "" {
      assert l.word.text + v == l.word.text;
    } else {
      var first := if v[0] == '\'' then "'\\''" else [v[0]];
      ScanOne(l, v[0]);
      ScanAppend(l, first, EscapeQuotes(v[1..]));
      ScanEscaped(AppendQuoted(l, v[0]), v[1..]);
      assert l.word.text + [v[0]] + v[1..] == l.word.text + v;
    }
  }

  lemma {:induction false} ScanOne(l: Lexer, c: char)
    requires l.mode.Quote? && l.quoted && !l.bareLast && c != '\0'
    ensures Scan(l, if c == '\'' then "'\\''" else [c]) == Some(AppendQuoted(l, c))
  {
    if c == '\'' {
      var s := "'\\''";
      var bare, escape, after := l.(mode := Bare), l.(mode := Escape), AppendQuoted(l, c).(mode := Bare);
      assert ReadChar(l, s[0]) == Some(bare) && ReadChar(bare, s[1]) == Some(escape);
      assert ReadChar(escape, s[2]) == Some(after) && ReadChar(after, s[3]) == Some(AppendQuoted(l, c));
      hide ReadChar;
      assert s[1..][1..] == s[2..] && s[2..][1..] == s[3..] && s[3..][1..] == "";
      assert Scan(after, s[3..]) == Some(AppendQuoted(l, c));
      assert Scan(escape, s[2..]) == Some(AppendQuoted(l, c));
      assert Scan(bare, s[1..]) == Some(AppendQuoted(l, c));
    } else {
      assert [c][1..] == "";
    }
  }

  /** The words the line is meant to be. */
  function ExportWords(name: string, value: string): seq<Word> {
    [Word("export", 6, false), Word(EnvName(name) + "=" + value, |EnvName(name)| + 1, false)]
  }

  lemma ExportIsPlain()
    ensures AllPlain("export")
  {
  }

  lemma ScanCommandName()
    ensures Scan(START, "export ") == Some(Lexer(Gap, NO_WORD, false, true, [Word("export", 6, false)], []))
  {
    hide Scan, AllPlain, HasPattern;
    var one := Lexer(Bare, Word("export", 6, false), false, true, [], []);
    ExportIsPlain();
    ScanPlain(START, "export");
    assert "" + "export" == "export";
    assert Taking(START, "export") == one;
    assert [] + [one.word] == [one.word];
    ScanSingle(one, ' ');
    ScanThen(START, "export", one, " ");
    assert "export" + " " == "export ";
  }

  /** A name and `=` after a blank begin a word. */
  lemma {:induction false} ScanName(lead: string, l: Lexer, env: string)
    requires Scan(START, lead) == Some(l) && l == Lexer(Gap, NO_WORD, false, true, l.words, l.commands)
    requires IsShellName(env) && AllPlain(env)
    ensures Scan(START, lead + env + "=")
         == Some(Lexer(Bare, Word(env + "=", |env| + 1, false), false, true, l.words, l.commands))
  {
    PlainName(env);
    hide Scan, IsShellName, AllPlain;
    var head := env + "=";
    ScanPlain(l, head);
    assert "" + head == head;
    assert Taking(l, head) == Lexer(Bare, Word(head, |head|, false), false, true, l.words, l.commands);
    hide Taking;
    ScanThen(START, lead, l, head);
    assert lead + head == lead + env + "=";
  }

  lemma PlainName(env: string)
    requires IsShellName(env) && AllPlain(env)
    ensures AllPlain(env + "=") && (env + "=")[0] != '#'
  {
    assert IsNameChar(env[0]);
  }

  /** A quoted value after plain text of a word joins it, and leaves the quotes closed. */
  lemma {:induction false} ScanQuoted(l: Lexer, value: string)
    requires l.mode.Bare? && '\0' !in value
    ensures Scan(l, ShellQuote(value))
         == Some(l.(word := l.word.(text := l.word.text + value), quoted := true, bareLast := false))
  {
    var open := l.(mode := Quote, quoted := true, bareLast := false);
    var full := open.(word := l.word.(text := l.word.text + value));
    ScanSingle(l, '\'');
    ScanSingle(full, '\'');
    ScanEscaped(open, value);
    assert ReadChar(l, '\'') == Some(open) && ReadChar(full, '\'') == Some(full.(mode := Bare));
    hide ReadChar, Scan;
    ScanThen(l, "'", open, EscapeQuotes(value));
    ScanThen(l, "'" + EscapeQuotes(value), full, "'");
  }

  /** The line up to its newline leaves the lexer outside quotes, in the second word. */
  lemma ScanExport(name: string, value: string)
    requires '\0' !in value
    ensures Scan(START, "export " + EnvName(name) + "=" + ShellQuote(value))
         == Some(Lexer(Bare, ExportWords(name, value)[1], true, false, [ExportWords(name, value)[0]], []))
  {
    var env := EnvName(name);
    EnvNameIsName(name);
    ScanCommandName();
    ScanName("export ", Lexer(Gap, NO_WORD, false, true, [Word("export", 6, false)], []), env);
    var l := Lexer(Bare, Word(env + "=", |env| + 1, false), false, true, [Word("export", 6, false)], []);
    ScanQuoted(l, value);
    hide ReadChar, Scan, EnvName, ShellQuote;
    ScanThen(START, "export " + env + "=", l, ShellQuote(value));
  }

  /** Only the line's own newline is taken off, whatever the value ends in. */
  lemma StrippedExport(name: string, value: string)
    ensures Stripped(ExportLine(name, value)) == "export " + EnvName(name) + "=" + ShellQuote(value)
  {
    var line := "export " + EnvName(name) + "=" + ShellQuote(value);
    assert line[|line| - 1] == '\'';
    assert ExportLine(name, value)[..|line|] == line;
  }

  /**
   The printed line is exactly the two words `export` and the name, `=` and the
   value, as it stands and as `$(...)` hands it on, for every value that a shell
   text can hold.
   */
  lemma ExportLexes(name: string, value: string)
    requires '\0' !in value
    ensures Lex(ExportLine(name, value)) == Some([ExportWords(name, value)])
    ensures Lex(Stripped(ExportLine(name, value))) == Some([ExportWords(name, value)])
  {
    ScanExport(name, value);
    StrippedExport(name, value);
    var line := "export " + EnvName(name) + "=" + ShellQuote(value);
    var words := ExportWords(name, value);
    var l := Lexer(Bare, words[1], true, false, [words[0]], []);
    ScanSingle(l, '\n');
    ScanThen(START, line, l, "\n");
    assert [words[0]] + [words[1]] == words && [] + [words] == [words];
    hide Scan, EnvName, ShellQuote, ExportWords;
  }

  /** A NUL makes the line unreadable, so the condition on the value is exact. */
  lemma ExportLexesIff(name: string, value: string)
    ensures Lex(ExportLine(name, value)) == Some([ExportWords(name, value)]) <==> '\0' !in value
  {
    if '\0' !in value {
      ExportLexes(name, value);
    } else {
      EscapeKeepsNul(value);
      assert '\0' in ExportLine(name, value) by {
        var k :| 0 <= k < |EscapeQuotes(value)| && EscapeQuotes(value)[k] == '\0';
        var before := "export " + EnvName(name) + "=" + "'";
        assert ExportLine(name, value) == before + EscapeQuotes(value) + "'" + "\n";
        assert ExportLine(name, value)[|before| + k] == '\0';
      }
      ScanNul(START, ExportLine(name, value));
    }
  }

  lemma {:induction false} EscapeKeepsNul(v: string)
    requires '\0' in v
    ensures '\0' in EscapeQuotes(v)
  {
    if v[0] != '\0' {
      EscapeKeepsNul(v[1..]);
    }
  }

  lemma {:induction false} ScanNul(l: Lexer, s: string)
    requires '\0' in s
    ensures Scan(l, s).None?
    decreases |s|
  {
    if s[0] != '\0' && ReadChar(l, s[0]).Some? {
      ScanNul(ReadChar(l, s[0]).value, s[1..]);
    }
  }

  /** Evaluating the line sets and exports the variable to the value, and changes nothing else. */
  lemma ExportEvaluates(sh: Shell, name: string, value: string)
    requires '\0' !in value
    ensures Eval(sh, Stripped(ExportLine(name, value)))
         == Some(Shell(sh.vars[EnvName(name) := value], sh.exported + {EnvName(name)}))
  {
    ExportLexes(name, value);
    EnvNameIsName(name);
    var env, text := EnvName(name), EnvName(name) + "=" + value;
    KeyOfSets(text, env);
    assert text[|env| + 1..] == value;
    hide Lex, EnvName, ExportLine, IsShellName, KeyOf;
    var words := ExportWords(name, value);
    var commands: seq<seq<Word>> := [words];
    assert words[1..] == [Word(text, |env| + 1, false)] && words[1..][1..] == [] && commands[1..] == [];
    var after := Shell(sh.vars[env := value], sh.exported + {env});
    assert Export(sh, words[1..]) == Some(after);
    assert RunCommand(sh, words) == Some(after);
    assert RunAll(sh, commands) == Some(after);
  }
}
