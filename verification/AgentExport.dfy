/** The text that `keepiq ssh-agent` prints for `eval`, read by a shell. */
module AgentExport {
  import opened Results
  import opened Decimals
  import opened Environment
  import opened ShellWords
  import opened DetachProtocol

  /** `NAME=value; export NAME;` and a newline. */
  function Setting(name: string, value: string): string {
    name + "=" + value + "; export " + name + ";\n"
  }

  function SettingCommands(name: string, value: string): seq<seq<Word>> {
    [
      [Word(name + "=" + value, |name| + 1 + |value|, HasPattern(value))],
      [Word("export", 6, false), Word(name, |name|, false)]
    ]
  }

  predicate Fresh(l: Lexer) {
    l.mode.Gap? && l.word == NO_WORD && !l.quoted && l.bareLast && l.words == []
  }

  lemma AppendPlain(a: string, b: string)
    requires AllPlain(a) && AllPlain(b)
    ensures AllPlain(a + b)
  {
  }

  /** A plain word after a gap. */
  lemma {:induction false} ScanWord(l: Lexer, s: string)
    requires l.mode.Gap? && l.word == NO_WORD && !l.quoted && l.bareLast && AllPlain(s) && s != "" && s[0] != '#'
    ensures Scan(l, s) == Some(l.(mode := Bare, word := Word(s, |s|, false)))
  {
    ScanPlain(l, s);
    assert "" + s == s;
  }

  /** The word is ended by a semicolon, which also ends the command. */
  lemma {:induction false} ScanSemicolon(l: Lexer)
    requires l.mode.Bare?
    ensures Scan(l, ";") == Some(Lexer(Gap, NO_WORD, false, true, [], l.commands + [l.words + [l.word]]))
  {
    ScanSingle(l, ';');
  }

  lemma {:induction false} ScanBlank(l: Lexer)
    requires l.mode.Gap? || l.mode.Bare?
    ensures Scan(l, " ") == Some(EndWord(l))
  {
    ScanSingle(l, ' ');
  }

  lemma {:induction false} ScanNewline(l: Lexer)
    requires Fresh(l)
    ensures Scan(l, "\n") == Some(l)
  {
    ScanSingle(l, '\n');
  }

  lemma PlainWords()
    ensures AllPlain("export") && AllPlain("=")
  {
  }

  /** A word may end here, and a new one begin. */
  predicate Between(l: Lexer) {
    l.mode.Bare? || (l.mode.Gap? && l.word == NO_WORD && !l.quoted && l.bareLast)
  }

  lemma {:induction false} ScanExportWord(l: Lexer)
    requires Between(l)
    ensures Scan(l, " export ") == Some(EndWord(l).(words := EndWord(l).words + [Word("export", 6, false)]))
  {
    PlainWords();
    hide Scan, AllPlain;
    var gap := EndWord(l);
    var word := gap.(mode := Bare, word := Word("export", 6, false));
    ScanBlank(l);
    ScanWord(gap, "export");
    ScanThen(l, " ", gap, "export");
    ScanBlank(word);
    ScanThen(l, " " + "export", word, " ");
    assert " " + "export" + " " == " export ";
    assert EndWord(word) == gap.(words := gap.words + [Word("export", 6, false)]);
  }

  lemma {:induction false} ScanOperand(l: Lexer, name: string)
    requires l.mode.Gap? && l.word == NO_WORD && !l.quoted && l.bareLast
    requires AllPlain(name) && name != "" && name[0] != '#'
    ensures Scan(l, name + ";\n")
         == Some(l.(words := [], commands := l.commands + [l.words + [Word(name, |name|, false)]]))
  {
    hide Scan, AllPlain;
    ScanWord(l, name);
    var word := l.(mode := Bare, word := Word(name, |name|, false));
    ScanSemicolon(word);
    var done := l.(words := [], commands := l.commands + [l.words + [Word(name, |name|, false)]]);
    ScanThen(l, name, word, ";");
    ScanNewline(done);
    ScanThen(l, name + ";", done, "\n");
    assert name + ";" + "\n" == name + ";\n";
  }

  /** `export NAME;` and a newline, after a blank that ends any word there is. */
  lemma {:induction false} ScanExporting(l: Lexer, name: string)
    requires Between(l) && AllPlain(name) && name != "" && name[0] != '#'
    ensures Scan(l, " export " + name + ";\n") == Some(START.(commands :=
      l.commands + [EndWord(l).words + [Word("export", 6, false), Word(name, |name|, false)]]))
    ensures Fresh(l) ==>
      Scan(l, " export " + name + ";\n")
      == Some(l.(commands := l.commands + [[Word("export", 6, false), Word(name, |name|, false)]]))
  {
    hide Scan, AllPlain;
    var gap := EndWord(l).(words := EndWord(l).words + [Word("export", 6, false)]);
    ScanExportWord(l);
    ScanOperand(gap, name);
    ScanThen(l, " export ", gap, name + ";\n");
    assert " export " + (name + ";\n") == " export " + name + ";\n";
    assert gap.words + [Word(name, |name|, false)]
        == EndWord(l).words + [Word("export", 6, false), Word(name, |name|, false)];
    assert [] + [Word("export", 6, false), Word(name, |name|, false)]
        == [Word("export", 6, false), Word(name, |name|, false)];
  }

  /**
   The shell takes a value as it stands: no operator, expansion, quoting or blank,
   and no tilde at the beginning or after a colon.
   */
  predicate TakenAsIs(value: string) {
    forall k | 0 <= k < |value| :: CharTaken(value, k)
  }

  predicate CharTaken(value: string, k: nat)
    requires k < |value|
  {
    IsOrdinary(value[k]) && (value[k] == '~' ==> k > 0 && value[k - 1] != ':')
  }

  /** In an assignment a tilde-prefix begins after the `=` and after a colon only. */
  lemma TildeAt(name: string, value: string)
    requires IsShellName(name)
    ensures TildeOpen(Word(name + "=" + value, |name| + 1 + |value|, HasPattern(value)), true)
       <==> value == "" || value[|value| - 1] == ':'
  {
    NamedText(name, value);
    hide KeyOf, IsShellName, HasPattern;
  }

  /** The word of an assignment, read so far. */
  function Assigning(l: Lexer, name: string, value: string): Lexer {
    l.(mode := Bare, word := Word(name + "=" + value, |name| + 1 + |value|, HasPattern(value)))
  }

  lemma TakingValue(l: Lexer, name: string, value: string)
    requires Fresh(l)
    ensures Taking(l.(mode := Bare, word := Word(name + "=", |name| + 1, false)), value) == Assigning(l, name, value)
  {
    hide HasPattern;
  }

  lemma TildesAllClosed(l: Lexer, name: string, value: string)
    requires Fresh(l) && IsShellName(name) && TakenAsIs(value)
    ensures TildesClosed(l.(mode := Bare, word := Word(name + "=", |name| + 1, false)), value)
  {
    hide Taking, TildeOpen, IsShellName, IsOrdinary, HasPattern;
    var word := l.(mode := Bare, word := Word(name + "=", |name| + 1, false));
    forall k | 0 <= k < |value| && value[k] == '~'
      ensures !TildeOpen(Taking(word, value[..k]).word, Taking(word, value[..k]).bareLast)
    {
      assert CharTaken(value, k);
      TakingValue(l, name, value[..k]);
      TildeAt(name, value[..k]);
    }
  }

  /** The assignment of a value that is taken as it stands is one word. */
  lemma {:induction false} ScanAssignment(l: Lexer, name: string, value: string)
    requires Fresh(l) && AllPlain(name) && IsShellName(name) && TakenAsIs(value)
    ensures Scan(l, name + "=" + value) == Some(Assigning(l, name, value))
  {
    var head := name + "=";
    PlainWords();
    AppendPlain(name, "=");
    assert IsNameChar(name[0]) && head[0] != '#';
    forall k | 0 <= k < |value| ensures IsOrdinary(value[k]) {
      assert CharTaken(value, k);
    }
    hide Scan, AllPlain, IsShellName, HasPattern, IsOrdinary, TakenAsIs, TildesClosed, Taking;
    ScanWord(l, head);
    var word := l.(mode := Bare, word := Word(head, |head|, false));
    TildesAllClosed(l, name, value);
    TakingValue(l, name, value);
    ScanOrdinary(word, value);
    ScanThen(l, head, word, value);
  }

  /** A setting of such a value is an assignment and an export. */
  lemma {:induction false} ScanSetting(l: Lexer, name: string, value: string)
    requires Fresh(l) && AllPlain(name) && IsShellName(name) && TakenAsIs(value)
    ensures Scan(l, Setting(name, value)) == Some(l.(commands := l.commands + SettingCommands(name, value)))
  {
    assert IsNameChar(name[0]);
    hide Scan, AllPlain, IsShellName, HasPattern, TakenAsIs;
    var head := name + "=" + value;
    ScanAssignment(l, name, value);
    var word := l.(mode := Bare, word := Word(head, |head|, HasPattern(value)));
    ScanSemicolon(word);
    assert [] + [word.word] == [word.word];
    ScanThen(l, head, word, ";");
    var next := l.(commands := l.commands + [[word.word]]);
    ScanExporting(next, name);
    ScanThen(l, head + ";", next, " export " + name + ";\n");
    assert head + ";" + (" export " + name + ";\n") == Setting(name, value);
    assert l.commands + [[word.word]] + [[Word("export", 6, false), Word(name, |name|, false)]]
        == l.commands + SettingCommands(name, value);
  }

  lemma NamePlain(name: string)
    requires IsShellName(name)
    ensures AllPlain(name)
  {
    assert forall k | 0 <= k < |name| :: IsNameChar(name[k]);
  }

  lemma SettingNames()
    ensures AllPlain("SSH_AUTH_SOCK") && IsShellName("SSH_AUTH_SOCK")
    ensures AllPlain("SSH_AGENT_PID") && IsShellName("SSH_AGENT_PID")
  {
    hide AllPlain;
    NamePlain("SSH_AUTH_SOCK");
    NamePlain("SSH_AGENT_PID");
  }

  lemma {:induction false} PrintedSettings(path: string, pid: nat)
    ensures ExportLine(path) == Setting("SSH_AUTH_SOCK", path)
    ensures PidLine(pid) == Setting("SSH_AGENT_PID", Itoa(pid))
  {
  }

  lemma DigitsTaken(s: string)
    requires AllDigits(s)
    ensures TakenAsIs(s)
  {
  }

  /** What the detached start prints is four commands, for every path taken as it stands and any pid. */
  lemma {:induction false} StartLexes(path: string, pid: nat)
    requires TakenAsIs(path)
    ensures Lex(ExportLine(path) + PidLine(pid))
         == Some(SettingCommands("SSH_AUTH_SOCK", path) + SettingCommands("SSH_AGENT_PID", Itoa(pid)))
  {
    hide AllPlain, IsShellName, TakenAsIs, Setting, Scan, Itoa, SettingCommands;
    SettingNames();
    PrintedSettings(path, pid);
    DigitsTaken(Itoa(pid));
    ScanSetting(START, "SSH_AUTH_SOCK", path);
    var l := START.(commands := START.commands + SettingCommands("SSH_AUTH_SOCK", path));
    ScanSetting(l, "SSH_AGENT_PID", Itoa(pid));
    ScanThen(START, ExportLine(path), l, PidLine(pid));
    assert [] + SettingCommands("SSH_AUTH_SOCK", path) == SettingCommands("SSH_AUTH_SOCK", path);
  }

  // ---- Exactly these paths ----

  /** A word that begins with this text and has no more characters before any quoting. */
  predicate Stops(w: Word, head: string) {
    w.bare == |head| && head <= w.text
  }

  /** The first word stops there, and no longer changes that. */
  predicate FirstStops(l: Lexer, head: string) {
    if l.commands != [] then l.commands[0] != [] && Stops(l.commands[0][0], head)
    else if l.words != [] then Stops(l.words[0], head)
    else !l.mode.Gap? && l.quoted && Stops(l.word, head)
  }

  lemma StepKeepsFirst(l: Lexer, c: char, head: string)
    requires FirstStops(l, head) && ReadChar(l, c).Some?
    ensures FirstStops(ReadChar(l, c).value, head)
  {
    hide IsSpecial, TildeOpen, IsPattern;
  }

  /** The words of a command, or of an unfinished one, have at most n characters. */
  predicate Within(words: seq<Word>, n: nat) {
    forall i | 0 <= i < |words| :: |words[i].text| <= n
  }

  predicate Small(l: Lexer, n: nat) {
    Within(l.words, n) && |l.word.text| <= n && forall i | 0 <= i < |l.commands| :: Within(l.commands[i], n)
  }

  lemma StepKeepsSmall(l: Lexer, c: char, n: nat)
    requires Small(l, n) && ReadChar(l, c).Some?
    ensures Small(ReadChar(l, c).value, n + 1)
  {
    hide IsSpecial, TildeOpen, IsPattern;
  }

  /** Between words nothing is left of the last one. */
  predicate Clean(l: Lexer) {
    l.mode.Gap? ==> l.word == NO_WORD && !l.quoted && l.bareLast
  }

  lemma StepKeepsClean(l: Lexer, c: char)
    requires Clean(l) && ReadChar(l, c).Some?
    ensures Clean(ReadChar(l, c).value)
  {
    hide IsSpecial, TildeOpen, IsPattern;
  }

  predicate Cut(l: Lexer, head: string, n: nat) {
    FirstStops(l, head) && Small(l, n) && Clean(l)
  }

  lemma {:induction false} ScanKeepsCut(l: Lexer, s: string, head: string, n: nat)
    requires Cut(l, head, n) && Scan(l, s).Some?
    ensures Cut(Scan(l, s).value, head, n + |s|)
    decreases |s|
  {
    hide ReadChar, FirstStops, Small, Clean;
    if s != "" {
      StepKeepsFirst(l, s[0], head);
      StepKeepsSmall(l, s[0], n);
      StepKeepsClean(l, s[0]);
      ScanKeepsCut(ReadChar(l, s[0]).value, s[1..], head, n + 1);
    }
  }

  /** A character that is not ordinary ends the bare part of a first word, if it can be read at all. */
  lemma UnordinaryCuts(w: Word, c: char)
    requires !IsOrdinary(c) || (c == '~' && TildeOpen(w, true))
    requires w.bare == |w.text|
    ensures var l := START.(mode := Bare, word := w);
      ReadChar(l, c).Some? ==> Cut(ReadChar(l, c).value, w.text, |w.text|)
  {
    hide TildeOpen;
  }

  lemma NotTaken(path: string, k: nat)
    requires k < |path| && !CharTaken(path, k)
    ensures !IsOrdinary(path[k]) || (path[k] == '~' && (path[..k] == "" || path[..k][k - 1] == ':'))
  {
    hide IsOrdinary;
  }

  /** Where a path stops being taken as it stands, so does the word; the rest makes short words only. */
  lemma CutPath(path: string, k: nat) returns (head: string)
    requires k < |path| && TakenAsIs(path[..k])
    requires !CharTaken(path, k)
    ensures head == "SSH_AUTH_SOCK=" + path[..k]
    ensures forall m :: Scan(START, "SSH_AUTH_SOCK=" + path) == Some(m) ==> Cut(m, head, 13 + |path|)
  {
    var name, value, tail := "SSH_AUTH_SOCK", path[..k], path[k + 1..];
    head := name + "=" + value;
    var s := "SSH_AUTH_SOCK=" + path;
    assert s == head + [path[k]] + tail;
    SettingNames();
    hide Scan, ReadChar, AllPlain, IsShellName, TakenAsIs, TildeOpen, IsOrdinary, HasPattern, Cut, CharTaken;
    assert !IsOrdinary(path[k]) || (path[k] == '~' && (value == "" || value[k - 1] == ':')) by {
      NotTaken(path, k);
    }
    ScanAssignment(START, name, value);
    var word := Word(head, 14 + k, HasPattern(value));
    var l := START.(mode := Bare, word := word);
    TildeAt(name, value);
    UnordinaryCuts(word, path[k]);
    CutScan(l, head, path[k], tail);
  }

  lemma {:induction false} CutScan(l: Lexer, head: string, c: char, tail: string)
    requires Scan(START, head) == Some(l) && (ReadChar(l, c).Some? ==> Cut(ReadChar(l, c).value, head, |head|))
    ensures forall m :: Scan(START, head + [c] + tail) == Some(m) ==> Cut(m, head, |head| + |tail|)
  {
    hide Scan, ReadChar, Cut;
    ScanThen(START, head, l, [c]);
    ScanSingle(l, c);
    ScanAppend(START, head + [c], tail);
    forall m | Scan(START, head + [c] + tail) == Some(m) ensures Cut(m, head, |head| + |tail|) {
      ScanKeepsCut(ReadChar(l, c).value, tail, head, |head|);
    }
  }

  lemma FirstNotTaken(s: string) returns (k: nat)
    requires !TakenAsIs(s)
    ensures k < |s| && TakenAsIs(s[..k]) && !CharTaken(s, k)
  {
    hide IsOrdinary;
    k := 0;
    while CharTaken(s, k)
      invariant k < |s| && forall j | 0 <= j < k :: CharTaken(s, j)
      decreases |s| - k
    {
      k := k + 1;
    }
    assert forall j | 0 <= j < k :: CharTaken(s[..k], j) == CharTaken(s, j);
  }

  predicate FirstWordStops(commands: seq<seq<Word>>, head: string) {
    commands != [] && commands[0] != [] && Stops(commands[0][0], head)
  }

  lemma FinishStops(l: Lexer, head: string)
    requires FirstStops(l, head) && !l.mode.Quote? && !l.mode.Escape?
    ensures FirstWordStops(EndCommand(EndWord(l)).commands, head)
  {
    hide Stops;
  }

  /** Whatever stands after it, such a path ends its first word early. */
  lemma CutLex(path: string, k: nat, rest: string)
    requires k < |path| && TakenAsIs(path[..k]) && !CharTaken(path, k)
    ensures forall commands :: Lex("SSH_AUTH_SOCK=" + path + rest) == Some(commands) ==>
      FirstWordStops(commands, "SSH_AUTH_SOCK=" + path[..k])
  {
    hide Scan, TakenAsIs, FirstStops, Small, Clean, FirstWordStops;
    var head := CutPath(path, k);
    ScanAppend(START, "SSH_AUTH_SOCK=" + path, rest);
    var m := Scan(START, "SSH_AUTH_SOCK=" + path);
    if m.Some? && Scan(m.value, rest).Some? {
      ScanKeepsCut(m.value, rest, head, 13 + |path|);
      var l := Scan(m.value, rest).value;
      if !l.mode.Quote? && !l.mode.Escape? {
        FinishStops(l, head);
      }
    }
  }

  /**
   The two commands the agent's line is meant to be come out exactly for paths
   that the shell takes as they stand.
   */
  lemma ExportLineLexesIff(path: string)
    ensures Lex(ExportLine(path)) == Some(SettingCommands("SSH_AUTH_SOCK", path)) <==> TakenAsIs(path)
  {
    hide Scan, Lex, AllPlain, IsShellName, TakenAsIs, Setting;
    PrintedSettings(path, 0);
    if TakenAsIs(path) {
      SettingNames();
      ScanSetting(START, "SSH_AUTH_SOCK", path);
      LexFresh(Setting("SSH_AUTH_SOCK", path), SettingCommands("SSH_AUTH_SOCK", path));
    } else {
      var k := FirstNotTaken(path);
      CutLex(path, k, "; export SSH_AUTH_SOCK;\n");
      SettingSpelled(path);
      assert SettingCommands("SSH_AUTH_SOCK", path)[0][0].bare == 14 + |path|;
    }
  }

  lemma {:induction false} LexFresh(s: string, commands: seq<seq<Word>>)
    requires Scan(START, s) == Some(START.(commands := START.commands + commands))
    ensures Lex(s) == Some(commands)
  {
    hide Scan;
    assert [] + commands == commands;
  }

  lemma SettingSpelled(path: string)
    ensures Setting("SSH_AUTH_SOCK", path) == "SSH_AUTH_SOCK=" + path + "; export SSH_AUTH_SOCK;\n"
  {
  }

  /** A path with a blank, for instance, becomes an assignment for a command named by its second part. */
  lemma BlankBreaks(path: string, more: string)
    requires TakenAsIs(path) && AllPlain(more) && more != "" && more[0] != '#'
    ensures Lex(ExportLine(path + " " + more))
         == Some([[SettingCommands("SSH_AUTH_SOCK", path)[0][0], Word(more, |more|, false)],
                  SettingCommands("SSH_AUTH_SOCK", path)[1]])
  {
    hide Scan, Lex, AllPlain, IsShellName, HasPattern, TakenAsIs, Setting;
    SettingNames();
    PrintedSettings(path + " " + more, 0);
    SettingSpelled(path + " " + more);
    var first := SettingCommands("SSH_AUTH_SOCK", path)[0][0];
    var words := [first, Word(more, |more|, false)];
    ScanTwoWords(path, more);
    var next := START.(commands := [words]);
    ScanExporting(next, "SSH_AUTH_SOCK");
    var head := "SSH_AUTH_SOCK=" + path + " " + more + ";";
    ScanThen(START, head, next, " export " + "SSH_AUTH_SOCK" + ";\n");
    assert head + (" export " + "SSH_AUTH_SOCK" + ";\n") == ExportLine(path + " " + more);
    var commands := [words, SettingCommands("SSH_AUTH_SOCK", path)[1]];
    assert next.commands + [SettingCommands("SSH_AUTH_SOCK", path)[1]] == START.commands + commands;
    LexFresh(ExportLine(path + " " + more), commands);
  }

  lemma {:induction false} ScanTwoWords(path: string, more: string)
    requires TakenAsIs(path) && AllPlain(more) && more != "" && more[0] != '#'
    ensures Scan(START, "SSH_AUTH_SOCK=" + path + " " + more + ";")
         == Some(START.(commands := [[SettingCommands("SSH_AUTH_SOCK", path)[0][0], Word(more, |more|, false)]]))
  {
    hide Scan, AllPlain, IsShellName, HasPattern, TakenAsIs;
    SettingNames();
    ScanAssignment(START, "SSH_AUTH_SOCK", path);
    var head := "SSH_AUTH_SOCK" + "=" + path;
    assert head == "SSH_AUTH_SOCK=" + path;
    var l := Assigning(START, "SSH_AUTH_SOCK", path);
    var gap := START.(words := [l.word]);
    ScanBlank(l);
    assert [] + [l.word] == [l.word];
    ScanThen(START, head, l, " ");
    ScanWord(gap, more);
    var second := gap.(mode := Bare, word := Word(more, |more|, false));
    ScanThen(START, head + " ", gap, more);
    ScanSemicolon(second);
    assert [l.word] + [second.word] == [l.word, second.word];
    assert [] + [[l.word, second.word]] == [[l.word, second.word]];
    ScanThen(START, head + " " + more, second, ";");
  }

  /**
   A shell would look for that command, and the evaluator refuses the text, unless
   the second part is an assignment itself; then the variable is set to the first
   part of the path only.
   */
  lemma BlankEvaluates(sh: Shell, path: string, more: string)
    requires TakenAsIs(path) && AllPlain(more) && more != "" && more[0] != '#'
    ensures Eval(sh, ExportLine(path + " " + more)) ==
      if IsAssignment(Word(more, |more|, false))
      then Some(Assign(Assign(sh, "SSH_AUTH_SOCK" + "=" + path), more).(exported := sh.exported + {"SSH_AUTH_SOCK"}))
      else None
  {
    hide Lex, ExportLine, AllPlain, TakenAsIs, KeyOf, IsShellName, HasPattern, SettingCommands;
    BlankBreaks(path, more);
    SettingNames();
    NamedText("SSH_AUTH_SOCK", path);
    NotExport("SSH_AUTH_SOCK", path);
    FirstWord(path);
    var first, second := SettingCommands("SSH_AUTH_SOCK", path)[0][0], Word(more, |more|, false);
    var words: seq<Word> := [first, second];
    assert words[1..] == [second] && words[1..][0] == second && words[1..][1..] == [];
    var sock := Assign(sh, first.text);
    var exporting := SettingCommands("SSH_AUTH_SOCK", path)[1];
    assert [words, exporting][1..] == [exporting] && [exporting][1..] == [];
    if IsAssignment(second) {
      var both := Assign(sock, more);
      assert RunCommand(sh, words) == AssignAll(sock, words[1..]) == Some(both);
      ExportRuns(both, "SSH_AUTH_SOCK");
      hide RunCommand, Assign;
      assert RunAll(both, [exporting]) == Some(both.(exported := both.exported + {"SSH_AUTH_SOCK"}));
      assert RunAll(sh, [words, exporting]) == RunAll(both, [exporting]);
    } else {
      assert RunCommand(sh, words) == AssignAll(sock, words[1..]) == None;
    }
  }

  lemma FirstWord(path: string)
    ensures SettingCommands("SSH_AUTH_SOCK", path)
         == [[Word("SSH_AUTH_SOCK" + "=" + path, 14 + |path|, HasPattern(path))],
             [Word("export", 6, false), Word("SSH_AUTH_SOCK", 13, false)]]
  {
    hide HasPattern;
  }

  lemma BlankInstance(sh: Shell)
    ensures Eval(sh, ExportLine("/run/my keys/agent.sock")) == None
  {
    assert "/run/my" + " " + "keys/agent.sock" == "/run/my keys/agent.sock";
    InstanceChars();
    hide Eval, ExportLine, TakenAsIs, AllPlain;
    NoName("keys/agent.sock");
    BlankEvaluates(sh, "/run/my", "keys/agent.sock");
  }

  lemma InstanceChars()
    ensures TakenAsIs("/run/my") && AllPlain("keys/agent.sock") && '=' !in "keys/agent.sock"
  {
  }

  lemma {:induction false} NoName(s: string)
    requires '=' !in s
    ensures KeyOf(s).None?
  {
  }

  // ---- What it does ----

  lemma {:induction false} NamedText(name: string, value: string)
    requires IsShellName(name)
    ensures KeyOf(name + "=" + value) == Some(name) && (name + "=" + value)[|name| + 1..] == value
    ensures KeyOf(name).None?
  {
    assert '=' !in name;
    KeyOfSets(name + "=" + value, name);
  }

  /** A setting sets the variable and exports it, and does nothing else. */
  lemma {:induction false} SettingRuns(sh: Shell, name: string, value: string, more: seq<seq<Word>>)
    requires IsShellName(name) && name + "=" + value != "export"
    ensures RunAll(sh, SettingCommands(name, value) + more)
         == RunAll(Shell(sh.vars[name := value], sh.exported + {name}), more)
  {
    var text := name + "=" + value;
    AssignRuns(sh, name, value);
    var after := Shell(sh.vars[name := value], sh.exported);
    ExportRuns(after, name);
    var commands := SettingCommands(name, value) + more;
    assert commands[0] == [Word(text, |name| + 1 + |value|, HasPattern(value))];
    assert commands[1..][0] == [Word("export", 6, false), Word(name, |name|, false)] && commands[1..][1..] == more;
    hide RunCommand, IsShellName;
  }

  lemma AssignRuns(sh: Shell, name: string, value: string)
    requires IsShellName(name) && name + "=" + value != "export"
    ensures RunCommand(sh, [Word(name + "=" + value, |name| + 1 + |value|, HasPattern(value))])
         == Some(Shell(sh.vars[name := value], sh.exported))
  {
    NamedText(name, value);
    hide KeyOf, IsShellName;
    var words: seq<Word> := [Word(name + "=" + value, |name| + 1 + |value|, HasPattern(value))];
    assert words[1..] == [];
    assert AssignAll(sh, words) == Some(Assign(sh, name + "=" + value));
  }

  lemma ExportRuns(sh: Shell, name: string)
    requires IsShellName(name)
    ensures RunCommand(sh, [Word("export", 6, false), Word(name, |name|, false)])
         == Some(sh.(exported := sh.exported + {name}))
  {
    NamedText(name, "");
    hide KeyOf, IsShellName;
    var words: seq<Word> := [Word("export", 6, false), Word(name, |name|, false)];
    assert words[1..] == [Word(name, |name|, false)] && words[1..][1..] == [];
    assert Export(sh, words[1..]) == Some(sh.(exported := sh.exported + {name}));
  }

  /**
   Evaluating what the detached start prints, as `$(...)` hands it on, sets
   SSH_AUTH_SOCK to the socket path and SSH_AGENT_PID to the copy's pid, exports
   both, and changes nothing else, for every path the shell takes as it stands.
   */
  lemma {:induction false} StartEvaluates(sh: Shell, path: string, pid: nat)
    requires TakenAsIs(path)
    ensures Eval(sh, Stripped(ExportLine(path) + PidLine(pid)))
         == Some(Shell(sh.vars["SSH_AUTH_SOCK" := path]["SSH_AGENT_PID" := Itoa(pid)],
                       sh.exported + {"SSH_AUTH_SOCK"} + {"SSH_AGENT_PID"}))
  {
    StartLexes(path, pid);
    var body := PrintedBody(path, pid);
    LexNewline(body);
    SettingNames();
    var pidCommands := SettingCommands("SSH_AGENT_PID", Itoa(pid));
    NotExport("SSH_AUTH_SOCK", path);
    NotExport("SSH_AGENT_PID", Itoa(pid));
    hide Lex, AllPlain, TakenAsIs, ExportLine, PidLine, SettingCommands, IsShellName, Itoa;
    var sock := Shell(sh.vars["SSH_AUTH_SOCK" := path], sh.exported + {"SSH_AUTH_SOCK"});
    SettingRuns(sh, "SSH_AUTH_SOCK", path, pidCommands);
    SettingRuns(sock, "SSH_AGENT_PID", Itoa(pid), []);
    assert pidCommands + [] == pidCommands;
  }

  lemma SettingEnds(name: string, value: string)
    ensures var s := Setting(name, value); |s| >= 2 && s[|s| - 1] == '\n' && s[|s| - 2] == ';'
  {
  }

  /** Command substitution takes the last newline off. */
  lemma {:induction false} PrintedBody(path: string, pid: nat) returns (body: string)
    ensures ExportLine(path) + PidLine(pid) == body + "\n" && Stripped(ExportLine(path) + PidLine(pid)) == body
  {
    hide ExportLine, PidLine, Setting, Itoa;
    PrintedSettings(path, pid);
    SettingEnds("SSH_AGENT_PID", Itoa(pid));
    var text := ExportLine(path) + PidLine(pid);
    body := text[..|text| - 1];
    assert text == body + "\n" && Stripped(text) == Stripped(body) == body;
  }

  lemma NotExport(name: string, value: string)
    requires |name| > 6
    ensures name + "=" + value != "export"
  {
    assert |name + "=" + value| > 6;
  }

  lemma NewlineLexes(s: string)
    requires Lex(s).Some?
    ensures Lex(s + "\n") == Lex(s)
  {
    ScanAppend(START, s, "\n");
    ScanSingle(Scan(START, s).value, '\n');
    hide Scan;
  }

  /** A newline at the end of a readable text adds nothing. */
  lemma LexNewline(s: string)
    requires Lex(s + "\n").Some?
    ensures Lex(s) == Lex(s + "\n")
  {
    ScanAppend(START, s, "\n");
    hide Scan;
    if Scan(START, s).Some? {
      ScanSingle(Scan(START, s).value, '\n');
    }
  }

  // ---- And for no other path ----

  /** None of the words sets the variable to this path. */
  predicate Misses(words: seq<Word>, path: string) {
    forall i | 0 <= i < |words| :: words[i].text != "SSH_AUTH_SOCK=" + path
  }

  predicate AllMiss(commands: seq<seq<Word>>, path: string) {
    forall i | 0 <= i < |commands| :: Misses(commands[i], path)
  }

  /** After the path and its semicolon a word may end, and none has come out as the whole assignment. */
  predicate Missed(l: Lexer, head: string, path: string) {
    Between(l) && FirstStops(l, head) && AllMiss(l.commands, path) && Misses(EndWord(l).words, path)
  }

  lemma {:induction false} QuoteStays(l: Lexer, s: string)
    requires l.mode.Quote? && '\'' !in s && Scan(l, s).Some?
    ensures Scan(l, s).value.mode.Quote?
    decreases |s|
  {
    if s != "" {
      QuoteStays(ReadChar(l, s[0]).value, s[1..]);
    }
  }

  /** A backslash that is still to be used was read last. */
  lemma {:induction false} EscapeIsLast(s: string, m: Lexer)
    requires Scan(START, s) == Some(m) && m.mode.Escape?
    ensures s != "" && s[|s| - 1] == '\\'
  {
    if s != "" {
      var init, c := s[..|s| - 1], s[|s| - 1];
      assert s == init + [c];
      ScanAppend(START, init, [c]);
      ScanSingle(Scan(START, init).value, c);
    }
  }

  lemma SmallMisses(l: Lexer, path: string)
    requires Small(l, 13 + |path|)
    ensures AllMiss(l.commands, path) && Misses(l.words, path) && l.word.text != "SSH_AUTH_SOCK=" + path
  {
    assert |"SSH_AUTH_SOCK=" + path| == 14 + |path|;
  }

  /** The semicolon after the path, unless a quote is open. */
  lemma {:induction false} SemicolonMisses(path: string, head: string, m: Lexer)
    requires path != "" && Scan(START, "SSH_AUTH_SOCK=" + path) == Some(m) && Cut(m, head, 13 + |path|)
    requires !m.mode.Quote? && ReadChar(m, ';').Some?
    ensures Missed(ReadChar(m, ';').value, head, path)
  {
    SmallMisses(m, path);
    StepKeepsFirst(m, ';', head);
    var whole := "SSH_AUTH_SOCK=" + path;
    if m.mode.Escape? {
      EscapeIsLast(whole, m);
      assert whole[|whole| - 1] == path[|path| - 1];
      assert (m.word.text + ";")[|m.word.text|] == ';';
    }
    hide Scan, FirstStops, Small;
  }

  /** The commands that come out of the rest of the text, whatever stands before it. */
  function Broken(l: Lexer, pid: nat): seq<seq<Word>> {
    l.commands + [EndWord(l).words + [Word("export", 6, false), Word("SSH_AUTH_SOCK", 13, false)]]
    + SettingCommands("SSH_AGENT_PID", Itoa(pid))
  }

  lemma {:induction false} RestLexes(l: Lexer, pid: nat)
    requires Between(l)
    ensures Scan(l, " export SSH_AUTH_SOCK;\n" + PidLine(pid)) == Some(START.(commands := Broken(l, pid)))
  {
    hide Scan, AllPlain, IsShellName, TakenAsIs, Itoa, SettingCommands;
    SettingNames();
    PrintedSettings("", pid);
    DigitsTaken(Itoa(pid));
    ScanExporting(l, "SSH_AUTH_SOCK");
    var rest := " export " + "SSH_AUTH_SOCK" + ";\n";
    assert rest == " export SSH_AUTH_SOCK;\n";
    var next := Scan(l, rest).value;
    ScanSetting(next, "SSH_AGENT_PID", Itoa(pid));
    ScanThen(l, rest, next, PidLine(pid));
  }

  /** The first word of all is an assignment to the variable, though perhaps of too little. */
  predicate SetsFirst(commands: seq<seq<Word>>) {
    commands != [] && commands[0] != [] && "SSH_AUTH_SOCK=" <= commands[0][0].text && commands[0][0].bare >= 14
  }

  lemma BrokenMisses(l: Lexer, head: string, path: string, pid: nat)
    requires Missed(l, head, path) && "SSH_AUTH_SOCK=" <= head
    ensures SetsFirst(Broken(l, pid)) && AllMiss(Broken(l, pid), path)
  {
    hide HasPattern, Itoa;
    var pidWord := "SSH_AGENT_PID" + "=" + Itoa(pid);
    assert pidWord[5] == 'G' && ("SSH_AUTH_SOCK=" + path)[5] == 'U';
    assert |"SSH_AUTH_SOCK=" + path| >= 14;
  }

  lemma RestUnquoted(pid: nat)
    ensures '\'' !in " export SSH_AUTH_SOCK;\n" + PidLine(pid)
  {
    assert AllDigits(Itoa(pid));
  }

  /** Where the path is not taken as it stands, the commands miss it. */
  lemma {:induction false} BrokenLexes(path: string, pid: nat, commands: seq<seq<Word>>)
    requires !TakenAsIs(path) && Lex(ExportLine(path) + PidLine(pid)) == Some(commands)
    ensures SetsFirst(commands) && AllMiss(commands, path)
  {
    hide Scan, Cut, Missed, SetsFirst, AllMiss, Broken, PidLine, TakenAsIs, CharTaken, ReadChar;
    var k := FirstNotTaken(path);
    var head := CutPath(path, k);
    var start, rest := "SSH_AUTH_SOCK=" + path, " export SSH_AUTH_SOCK;\n" + PidLine(pid);
    assert ExportLine(path) + PidLine(pid) == start + ";" + rest;
    ScanAppend(START, start + ";", rest);
    ScanAppend(START, start, ";");
    var m := Scan(START, start).value;
    ScanSingle(m, ';');
    var r := ReadChar(m, ';').value;
    RestUnquoted(pid);
    UnquotedAfter(m, rest);
    SemicolonMisses(path, head, m);
    MissedBetween(r, head, path);
    RestLexes(r, pid);
    assert [] + Broken(r, pid) == Broken(r, pid);
    LexFresh(start + ";" + rest, Broken(r, pid));
    BrokenMisses(r, head, path, pid);
  }

  lemma MissedBetween(l: Lexer, head: string, path: string)
    requires Missed(l, head, path)
    ensures Between(l)
  {
  }

  lemma {:induction false} UnquotedAfter(m: Lexer, rest: string)
    requires ReadChar(m, ';').Some? && '\'' !in rest && Scan(ReadChar(m, ';').value, rest).Some?
    requires !Scan(ReadChar(m, ';').value, rest).value.mode.Quote?
    ensures !m.mode.Quote?
  {
    hide Scan;
    if m.mode.Quote? {
      QuoteStays(ReadChar(m, ';').value, rest);
    }
  }

  // ---- Evaluating the missed commands ----

  /** The variable is set, and not to the path. */
  predicate SetWrong(sh: Shell, path: string) {
    "SSH_AUTH_SOCK" in sh.vars && sh.vars["SSH_AUTH_SOCK"] != path
  }

  lemma {:induction false} AssignWrong(sh: Shell, text: string, path: string)
    requires KeyOf(text).Some? && text != "SSH_AUTH_SOCK=" + path
    requires SetWrong(sh, path) || KeyOf(text) == Some("SSH_AUTH_SOCK")
    ensures SetWrong(Assign(sh, text), path)
  {
    if KeyOf(text) == Some("SSH_AUTH_SOCK") {
      assert text[..14] == "SSH_AUTH_SOCK" + "=" == "SSH_AUTH_SOCK=";
      assert text == text[..14] + text[14..];
    }
  }

  lemma {:induction false} AssignAllWrong(sh: Shell, words: seq<Word>, path: string)
    requires Misses(words, path) && AssignAll(sh, words).Some?
    requires SetWrong(sh, path) || (words != [] && KeyOf(words[0].text) == Some("SSH_AUTH_SOCK"))
    ensures SetWrong(AssignAll(sh, words).value, path)
    decreases |words|
  {
    hide SetWrong, KeyOf, Assign;
    if words != [] {
      AssignWrong(sh, words[0].text, path);
      AssignAllWrong(Assign(sh, words[0].text), words[1..], path);
    }
  }

  lemma {:induction false} ExportWrong(sh: Shell, words: seq<Word>, path: string)
    requires Misses(words, path) && Export(sh, words).Some? && SetWrong(sh, path)
    ensures SetWrong(Export(sh, words).value, path)
    decreases |words|
  {
    hide KeyOf, IsShellName;
    if words != [] {
      var text := words[0].text;
      var next := if KeyOf(text).None? then sh.(exported := sh.exported + {text})
        else Assign(sh, text).(exported := sh.exported + {KeyOf(text).value});
      if KeyOf(text).Some? {
        AssignWrong(sh, text, path);
      }
      hide Assign;
      ExportWrong(next, words[1..], path);
    }
  }

  lemma {:induction false} RunWrong(sh: Shell, commands: seq<seq<Word>>, path: string)
    requires AllMiss(commands, path) && RunAll(sh, commands).Some?
    requires SetWrong(sh, path) || SetsFirst(commands)
    ensures SetWrong(RunAll(sh, commands).value, path)
    decreases |commands|
  {
    hide SetWrong, Export, AssignAll;
    if commands != [] {
      var words := commands[0];
      if words != [] && words[0].text == "export" {
        ExportWrong(sh, words[1..], path);
      } else {
        if SetsFirst(commands) {
          KeyOfSets(words[0].text, "SSH_AUTH_SOCK");
        }
        AssignAllWrong(sh, words, path);
      }
      RunWrong(RunCommand(sh, words).value, commands[1..], path);
    }
  }

  /**
   Evaluating what the detached start prints sets SSH_AUTH_SOCK to the socket path
   if and only if the shell takes the path as it stands: for any other path the
   text is refused or sets something else.
   */
  lemma {:induction false} StartEvaluatesIff(sh: Shell, path: string, pid: nat)
    ensures var r := Eval(sh, Stripped(ExportLine(path) + PidLine(pid)));
      (r.Some? && "SSH_AUTH_SOCK" in r.value.vars && r.value.vars["SSH_AUTH_SOCK"] == path) <==> TakenAsIs(path)
  {
    hide Lex, RunAll, TakenAsIs, ExportLine, PidLine, Itoa, SetsFirst, AllMiss, Stripped;
    if TakenAsIs(path) {
      StartEvaluates(sh, path, pid);
    } else {
      var body := PrintedBody(path, pid);
      if Lex(body).Some? {
        NewlineLexes(body);
        BrokenLexes(path, pid, Lex(body).value);
        if RunAll(sh, Lex(body).value).Some? {
          RunWrong(sh, Lex(body).value, path);
        }
      }
    }
  }
}
