/** `keepiq ci run`: which secrets, which command, and with what environment. */
module CiRun {
  import opened Results
  import opened Text
  import opened Environment
  import opened CiExport

  const APP_KEY := "KEEPIQ_APP_KEY"
  const SEPARATOR := "--"

  /** unicode.IsSpace. */
  predicate IsSpace(c: char) {
    '\t' <= c <= '\r' || c == ' ' || c == '\U{0085}' || c == '\U{00A0}' || c == '\U{1680}'
    || '\U{2000}' <= c <= '\U{200A}' || c == '\U{2028}' || c == '\U{2029}' || c == '\U{202F}'
    || c == '\U{205F}' || c == '\U{3000}'
  }

  /** The characters that Unicode calls white space, one by one. */
  lemma SpacesAre(c: char)
    ensures IsSpace(c) <==> c as int in {
      9, 10, 11, 12, 13, 32, 0x85, 0xA0, 0x1680, 0x2000, 0x2001, 0x2002, 0x2003, 0x2004, 0x2005, 0x2006, 0x2007,
      0x2008, 0x2009, 0x200A, 0x2028, 0x2029, 0x202F, 0x205F, 0x3000 }
  {
  }

  function TrimRight(s: string): string {
    if s != "" && IsSpace(s[|s| - 1]) then TrimRight(s[..|s| - 1]) else s
  }

  function TrimSpace(s: string): string {
    if s != "" && IsSpace(s[0]) then TrimSpace(s[1..]) else TrimRight(s)
  }

  predicate HasSurroundingSpace(s: string) {
    s != "" && (IsSpace(s[0]) || IsSpace(s[|s| - 1]))
  }

  lemma {:induction false} TrimRightShortens(s: string)
    ensures |TrimRight(s)| <= |s| && (|TrimRight(s)| == |s| <==> s == "" || !IsSpace(s[|s| - 1]))
    ensures |TrimRight(s)| == |s| ==> TrimRight(s) == s
  {
    if s != "" && IsSpace(s[|s| - 1]) {
      TrimRightShortens(s[..|s| - 1]);
    }
  }

  lemma {:induction false} TrimShortens(s: string)
    ensures |TrimSpace(s)| <= |s| && (|TrimSpace(s)| == |s| <==> !HasSurroundingSpace(s))
    ensures |TrimSpace(s)| == |s| ==> TrimSpace(s) == s
  {
    TrimRightShortens(s);
    if s != "" && IsSpace(s[0]) {
      TrimShortens(s[1..]);
    }
  }

  predicate OnlySpace(s: string) {
    forall k | 0 <= k < |s| :: IsSpace(s[k])
  }

  lemma {:induction false} TrimRightParts(s: string) returns (after: string)
    ensures s == TrimRight(s) + after && OnlySpace(after)
    ensures TrimRight(s) == "" || !IsSpace(TrimRight(s)[|TrimRight(s)| - 1])
  {
    after := "";
    if s != "" && IsSpace(s[|s| - 1]) {
      var more := TrimRightParts(s[..|s| - 1]);
      after := more + [s[|s| - 1]];
      assert s == s[..|s| - 1] + [s[|s| - 1]];
    }
  }

  lemma {:induction false} TrimRightOf(t: string, after: string)
    requires OnlySpace(after) && (t == "" || !IsSpace(t[|t| - 1]))
    ensures TrimRight(t + after) == t
    decreases |after|
  {
    var s := t + after;
    if after == "" {
      assert s == t;
    } else {
      assert s[..|s| - 1] == t + after[..|after| - 1];
      TrimRightOf(t, after[..|after| - 1]);
    }
  }

  lemma {:induction false} TrimParts(s: string) returns (before: string, after: string)
    ensures s == before + TrimSpace(s) + after && OnlySpace(before) && OnlySpace(after)
    ensures !HasSurroundingSpace(TrimSpace(s))
  {
    if s != "" && IsSpace(s[0]) {
      before, after := TrimParts(s[1..]);
      before := [s[0]] + before;
    } else {
      before := "";
      after := TrimRightParts(s);
      assert TrimRight(s) != "" ==> TrimRight(s)[0] == s[0];
    }
  }

  lemma {:induction false} TrimOf(before: string, t: string, after: string)
    requires OnlySpace(before) && OnlySpace(after) && !HasSurroundingSpace(t)
    ensures TrimSpace(before + t + after) == t
    decreases |before| + |after|
  {
    var s := before + t + after;
    if before != "" {
      assert s[1..] == before[1..] + t + after;
      TrimOf(before[1..], t, after);
    } else if t == "" && after != "" {
      assert s == after && s[1..] == "" + "" + after[1..];
      TrimOf("", "", after[1..]);
    } else {
      assert s == t + after;
      TrimRightOf(t, after);
    }
  }

  /** Trimming takes all space off both ends and nothing else. */
  lemma {:induction false} TrimSpaceIff(s: string, t: string)
    ensures TrimSpace(s) == t <==>
      !HasSurroundingSpace(t)
      && exists before, after :: OnlySpace(before) && OnlySpace(after) && s == before + t + after
  {
    hide TrimSpace, HasSurroundingSpace, OnlySpace;
    var before, after := TrimParts(s);
    forall x, y | !HasSurroundingSpace(t) && OnlySpace(x) && OnlySpace(y) && s == x + t + y ensures TrimSpace(s) == t {
      TrimOf(x, t, y);
    }
  }

  /**
   The variable is named after the name as written, the secret is fetched by the
   trimmed name; the two agree exactly for names without surrounding space.
   */
  lemma {:induction false} SameVariableIff(name: string)
    ensures EnvName(TrimSpace(name)) == EnvName(name) <==> !HasSurroundingSpace(name)
  {
    TrimShortens(name);
    EnvNameIsName(name);
    EnvNameIsName(TrimSpace(name));
    hide EnvName;
  }

  /** In `a, b` the second secret is fetched as `b`, and its variable has a place more. */
  lemma PaddedInstance()
    ensures Split("a, b", ',') == ["a", " b"]
    ensures TrimSpace(" b") == "b" && EnvName(" b") == "KEEPIQ__B" && EnvName("b") == "KEEPIQ_B"
  {
    assert "a, b" == "a" + "," + " b";
    SplitCons("a", " b", ',');
    SplitWhole(" b", ',');
    assert " b"[1..] == "b";
    assert EnvName(" b") == "KEEPIQ_" + "_B";
    assert EnvName("b") == "KEEPIQ_" + "B";
  }

  // ---- Splitting the arguments ----

  /** The index of the first separator, or the length. */
  function FirstSeparator(args: seq<string>): (i: nat)
    ensures i <= |args| && SEPARATOR !in args[..i] && (i < |args| ==> args[i] == SEPARATOR)
  {
    if args == [] || args[0] == SEPARATOR then 0
    else
      var i := FirstSeparator(args[1..]);
      assert args[..i + 1] == [args[0]] + args[1..][..i];
      i + 1
  }

  method FindSeparator(args: seq<string>) returns (sep: int)
    ensures sep == if FirstSeparator(args) < |args| then FirstSeparator(args) else -1
    ensures sep == -1 ==> "--" !in args
    ensures sep != -1 ==> 0 <= sep < |args| && args[sep] == "--" && "--" !in args[..sep]
  {
    sep := -1;
    for i := 0 to |args|
      invariant FirstSeparator(args) == i + FirstSeparator(args[i..])
      invariant sep == -1
    {
      assert args[i..][0] == args[i] && args[i..][1..] == args[i + 1..];
      if args[i] == SEPARATOR {
        sep := i;
        break;
      }
    }
  }

  datatype Invocation = Invocation(before: seq<string>, command: seq<string>)

  /** Words before the first separator, and a command after it, or a usage error. */
  function SplitArgs(args: seq<string>): Option<Invocation> {
    var sep := FirstSeparator(args);
    if sep == |args| || sep < 1 || sep + 1 >= |args| then None
    else Some(Invocation(args[..sep], args[sep + 1..]))
  }

  /** Some words, the first separator, and a command, in which later separators stay. */
  predicate Divides(args: seq<string>, before: seq<string>, command: seq<string>) {
    args == before + [SEPARATOR] + command && SEPARATOR !in before && before != [] && command != []
  }

  lemma SplitsAtFirst(args: seq<string>, before: seq<string>, command: seq<string>)
    ensures SplitArgs(args) == Some(Invocation(before, command))
       <==> Divides(args, before, command)
  {
    var sep := FirstSeparator(args);
    if sep < |args| {
      assert args == args[..sep] + [SEPARATOR] + args[sep + 1..];
    }
    if args == before + [SEPARATOR] + command && SEPARATOR !in before {
      var n := |before|;
      assert args[n] == SEPARATOR && args[..n] == before && args[n + 1..] == command;
      assert forall k | 0 <= k < n :: args[k] == before[k] != SEPARATOR;
      assert forall k | 0 <= k < sep :: args[k] == args[..sep][k] != SEPARATOR;
    }
  }

  // ---- The child's environment ----

  function ChildEnviron(parent: seq<string>): seq<string> {
    if parent == [] then []
    else (if Sets(parent[0], APP_KEY) then [] else [parent[0]]) + ChildEnviron(parent[1..])
  }

  lemma {:induction false} ChildEnvironSnoc(parent: seq<string>, entry: string)
    ensures ChildEnviron(parent + [entry]) == ChildEnviron(parent) + if Sets(entry, APP_KEY) then [] else [entry]
  {
    hide Sets;
    if parent == [] {
      assert [entry][1..] == [];
    } else {
      assert (parent + [entry])[1..] == parent[1..] + [entry];
      ChildEnvironSnoc(parent[1..], entry);
    }
  }

  method BuildChildEnviron(parent: seq<string>) returns (out: seq<string>)
    ensures out == ChildEnviron(parent)
    ensures forall entry :: entry in out <==> entry in parent && !HasPrefix(entry, "KEEPIQ_APP_KEY=")
  {
    out := [];
    for i := 0 to |parent|
      invariant out == ChildEnviron(parent[..i])
      invariant forall entry :: entry in out <==> entry in parent[..i] && !HasPrefix(entry, "KEEPIQ_APP_KEY=")
    {
      assert parent[..i + 1] == parent[..i] + [parent[i]];
      ChildEnvironSnoc(parent[..i], parent[i]);
      hide ChildEnviron;
      if !HasPrefix(parent[i], "KEEPIQ_APP_KEY=") {
        out := out + [parent[i]];
      }
    }
    assert parent[..|parent|] == parent;
  }

  /** Only the parent's own application key is missing from what it passes on. */
  lemma {:induction false} ChildEnvironKeeps(parent: seq<string>, variable: string)
    requires '=' !in variable
    ensures LastValue(ChildEnviron(parent), variable)
         == if variable == APP_KEY then None else LastValue(parent, variable)
  {
    if parent != [] {
      var entry, more := parent[0], parent[1..];
      assert parent == [entry] + more;
      ChildEnvironKeeps(more, variable);
      LastOfCons(entry, more, variable);
      LastOfCons(entry, ChildEnviron(more), variable);
      KeyOfSets(entry, variable);
      KeyOfSets(entry, APP_KEY);
      assert [] + ChildEnviron(more) == ChildEnviron(more);
    }
  }

  // ---- The secrets ----

  /** The secrets that can be fetched and decrypted, by name. */
  type Secrets = map<string, string>

  predicate Fetchable(names: seq<string>, secrets: Secrets) {
    forall k | 0 <= k < |names| :: TrimSpace(names[k]) in secrets
  }

  function Entries(names: seq<string>, secrets: Secrets): seq<string>
    requires Fetchable(names, secrets)
  {
    seq(|names|, k requires 0 <= k < |names| => EnvName(names[k]) + "=" + secrets[TrimSpace(names[k])])
  }

  datatype Outcome =
    | UsageError
    | NotSetUp
    | NotFetched(name: string)
    | Started(command: seq<string>, env: seq<string>)

  /** The first name whose secret cannot be fetched, if there is one. */
  function FirstMissing(names: seq<string>, secrets: Secrets): (r: Option<string>)
    ensures r.None? <==> Fetchable(names, secrets)
  {
    if names == [] then None
    else if TrimSpace(names[0]) !in secrets then Some(TrimSpace(names[0]))
    else
      assert names == [names[0]] + names[1..];
      assert forall k | 0 < k < |names| :: names[k] == names[1..][k - 1];
      FirstMissing(names[1..], secrets)
  }

  /** What the command does, given whether the client can be set up, what it can fetch, and the environment. */
  function Plan(args: seq<string>, setUp: bool, secrets: Secrets, parent: seq<string>): Outcome {
    match SplitArgs(args)
    case None => UsageError
    case Some(split) =>
      if !setUp then NotSetUp
      else
        var names := Split(args[0], ',');
        match FirstMissing(names, secrets)
        case Some(name) => NotFetched(name)
        case None => Started(split.command, ChildEnviron(parent) + Entries(names, secrets))
  }

  method CmdCIRun(args: seq<string>, setUp: bool, secrets: Secrets, parent: seq<string>) returns (r: Outcome)
    ensures r == Plan(args, setUp, secrets, parent)
  {
    var sep := FindSeparator(args);
    if sep < 1 || sep + 1 >= |args| {
      return UsageError;
    }
    var names := Split(args[0], ',');
    var command := args[sep + 1..];
    if !setUp {
      return NotSetUp;
    }
    var env: seq<string> := [];
    for i := 0 to |names|
      invariant Fetchable(names[..i], secrets) && env == Entries(names[..i], secrets)
      invariant FirstMissing(names, secrets) == FirstMissing(names[i..], secrets)
    {
      assert names[i..][0] == names[i] && names[i..][1..] == names[i + 1..];
      var name := names[i];
      if TrimSpace(name) !in secrets {
        return NotFetched(TrimSpace(name));
      }
      env := env + [EnvName(name) + "=" + secrets[TrimSpace(name)]];
      assert names[..i + 1] == names[..i] + [name];
    }
    assert names[..|names|] == names;
    var passed := BuildChildEnviron(parent);
    r := Started(command, passed + env);
  }

  /** The last name, if any, whose variable this is. */
  function LastRequest(names: seq<string>, variable: string): Option<string> {
    if names == [] then None
    else if EnvName(names[|names| - 1]) == variable then Some(names[|names| - 1])
    else LastRequest(names[..|names| - 1], variable)
  }

  /** This name asks for the variable, and none after it does. */
  predicate AsksLast(names: seq<string>, k: nat, variable: string)
    requires k < |names|
  {
    EnvName(names[k]) == variable && forall j | k < j < |names| :: EnvName(names[j]) != variable
  }

  lemma {:induction false} LastRequestIff(names: seq<string>, variable: string, name: string)
    ensures LastRequest(names, variable) == Some(name) <==>
      exists k: nat :: k < |names| && names[k] == name && AsksLast(names, k, variable)
    ensures LastRequest(names, variable) == None <==> forall k | 0 <= k < |names| :: EnvName(names[k]) != variable
  {
    hide EnvName;
    if names != [] {
      var n := |names| - 1;
      LastRequestIff(names[..n], variable, name);
      assert forall k | 0 <= k < n :: names[..n][k] == names[k];
      if EnvName(names[n]) == variable {
        assert AsksLast(names, n, variable);
      } else {
        assert forall k | 0 <= k < n :: AsksLast(names, k, variable) == AsksLast(names[..n], k, variable);
      }
    }
  }

  lemma EntrySets(name: string, value: string, variable: string)
    requires '=' !in variable
    ensures Sets(EnvName(name) + "=" + value, variable) <==> EnvName(name) == variable
    ensures (EnvName(name) + "=" + value)[|EnvName(name)| + 1..] == value
  {
    EnvNameIsName(name);
    var entry := EnvName(name) + "=" + value;
    assert Sets(entry, EnvName(name));
    KeyOfSets(entry, variable);
    KeyOfSets(entry, EnvName(name));
  }

  lemma {:induction false} EntriesLast(names: seq<string>, secrets: Secrets, variable: string)
    requires Fetchable(names, secrets) && '=' !in variable
    ensures match LastRequest(names, variable)
      case None => LastValue(Entries(names, secrets), variable) == None
      case Some(name) =>
        name in names && LastValue(Entries(names, secrets), variable) == Some(secrets[TrimSpace(name)])
  {
    hide EnvName, Sets;
    if names != [] {
      var n := |names| - 1;
      var entries := Entries(names, secrets);
      assert entries[..n] == Entries(names[..n], secrets);
      EntriesLast(names[..n], secrets, variable);
      EntrySets(names[n], secrets[TrimSpace(names[n])], variable);
    }
  }

  /**
   What the command reads for any variable: the value of the last requested
   secret named like it, or else the parent's value, which for the parent's own
   application key is never passed on.
   */
  lemma {:induction false} ChildReads(args: seq<string>, secrets: Secrets, parent: seq<string>, variable: string)
    requires '=' !in variable && Plan(args, true, secrets, parent).Started?
    ensures Getenv(Dedup(Plan(args, true, secrets, parent).env), variable)
         == match LastRequest(Split(args[0], ','), variable)
            case Some(name) => if TrimSpace(name) in secrets then Some(secrets[TrimSpace(name)]) else None
            case None => if variable == APP_KEY then None else LastValue(parent, variable)
  {
    var names := Split(args[0], ',');
    var env := Plan(args, true, secrets, parent).env;
    ChildReadsLast(env, variable);
    LastValueOfAppend(ChildEnviron(parent), Entries(names, secrets), variable);
    ChildEnvironKeeps(parent, variable);
    EntriesLast(names, secrets, variable);
    hide EnvName, Split, TrimSpace, Sets;
  }

  /** With the environment as Go hands it out, that is the value the parent reads itself. */
  lemma {:induction false} CommandReads(args: seq<string>, secrets: Secrets, env: seq<string>, variable: string)
    requires '=' !in variable && Plan(args, true, secrets, Environ(env)).Started?
    ensures Getenv(Dedup(Plan(args, true, secrets, Environ(env)).env), variable)
         == match LastRequest(Split(args[0], ','), variable)
            case Some(name) => if TrimSpace(name) in secrets then Some(secrets[TrimSpace(name)]) else None
            case None => if variable == APP_KEY then None else Getenv(env, variable)
  {
    ChildReads(args, secrets, Environ(env), variable);
    EnvironReads(env, variable);
    hide EnvName, Split, TrimSpace, Sets, Plan;
  }

  /**
   It runs exactly when there is a name and, after the first separator, a
   command, the client is set up and every name can be fetched; the command is
   everything after that separator.
   */
  lemma RunsIff(args: seq<string>, setUp: bool, secrets: Secrets, parent: seq<string>, command: seq<string>)
    ensures (exists env :: Plan(args, setUp, secrets, parent) == Started(command, env))
       <==> setUp && exists before :: Divides(args, before, command) && Fetchable(Split(before[0], ','), secrets)
  {
    hide EnvName, Split, TrimSpace;
    if env :| Plan(args, setUp, secrets, parent) == Started(command, env) {
      var before := SplitArgs(args).value.before;
      SplitsAtFirst(args, before, command);
      assert before[0] == args[0];
      assert Divides(args, before, command) && Fetchable(Split(before[0], ','), secrets);
    }
    if before: seq<string> :|
      setUp && Divides(args, before, command) && Fetchable(Split(before[0], ','), secrets)
    {
      SplitsAtFirst(args, before, command);
      assert before[0] == args[0];
      var env := ChildEnviron(parent) + Entries(Split(args[0], ','), secrets);
      assert Plan(args, setUp, secrets, parent) == Started(command, env);
    }
  }

  /** The first of the names whose secret is not to be had. */
  predicate MissesFirst(names: seq<string>, secrets: Secrets, k: nat) {
    k < |names| && TrimSpace(names[k]) !in secrets && forall j | 0 <= j < k :: TrimSpace(names[j]) in secrets
  }

  predicate Misses(names: seq<string>, secrets: Secrets, k: nat, name: string) {
    MissesFirst(names, secrets, k) && name == TrimSpace(names[k])
  }

  lemma {:induction false} FirstMissingIff(names: seq<string>, secrets: Secrets, name: string)
    ensures FirstMissing(names, secrets) == Some(name) <==>
      exists k: nat :: Misses(names, secrets, k, name)
  {
    hide TrimSpace;
    if names != [] {
      FirstMissingIff(names[1..], secrets, name);
      if TrimSpace(names[0]) !in secrets {
        assert Misses(names, secrets, 0, TrimSpace(names[0]));
      } else {
        assert forall k: nat | k < |names| - 1 :: names[1..][k] == names[k + 1];
        forall k: nat ensures Misses(names[1..], secrets, k, name) == Misses(names, secrets, k + 1, name) {
          assert k < |names| - 1 ==> forall j | 0 < j <= k :: names[j] == names[1..][j - 1];
        }
        assert !MissesFirst(names, secrets, 0);
        if k: nat :| Misses(names, secrets, k, name) {
          assert Misses(names[1..], secrets, k - 1, name);
        }
      }
    }
  }

  /**
   The errors: arguments that do not divide, then a client that is not set up,
   then the first name, in order, whose secret is not to be had.
   */
  lemma {:induction false} ErrorsIff(args: seq<string>, setUp: bool, secrets: Secrets, parent: seq<string>,
        name: string)
    ensures var r := Plan(args, setUp, secrets, parent);
      && (r == UsageError <==> forall before, command :: !Divides(args, before, command))
      && (r == NotSetUp <==> !setUp && exists before, command :: Divides(args, before, command))
      && (r == NotFetched(name) <==> setUp && exists before, command, k: nat ::
            Divides(args, before, command) && Misses(Split(before[0], ','), secrets, k, name))
  {
    hide Split, TrimSpace, FirstMissing, ChildEnviron, SplitArgs, Misses;
    forall before, command
      ensures SplitArgs(args) == Some(Invocation(before, command)) <==> Divides(args, before, command)
    {
      SplitsAtFirst(args, before, command);
    }
    if SplitArgs(args).Some? {
      var split := SplitArgs(args).value;
      assert SplitArgs(args) == Some(Invocation(split.before, split.command));
      assert Divides(args, split.before, split.command) && split.before[0] == args[0];
      var names := Split(args[0], ',');
      FirstMissingIff(names, secrets, name);
      forall before, command | Divides(args, before, command) ensures before == split.before {
        assert SplitArgs(args) == Some(Invocation(before, command));
      }
      if k: nat :| Misses(names, secrets, k, name) {
        assert Divides(args, split.before, split.command) && Misses(Split(split.before[0], ','), secrets, k, name);
      }
    } else {
      forall before, command ensures !Divides(args, before, command) {
        assert SplitArgs(args) != Some(Invocation(before, command));
      }
    }
  }
}
