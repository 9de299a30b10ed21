/** The command line of `keepiq ssh-agent`. */
module AgentOptions {
  import opened Results
  import opened Decimals

  datatype AgentFlags = AgentFlags(
    socket: string, confirm: bool, idle: int, folder: string, locked: bool, foreground: bool)

  const DEFAULTS := AgentFlags("", false, 60, "", false, false)

  datatype FlagError = NeedsValue(option: string) | BadIdle | UnknownOption(option: string)

  /** The option words the parser knows. */
  datatype Word = ConfirmWord | LockedWord | ForegroundWord | SocketWord | FolderWord | IdleWord

  function Spelling(w: Word): string {
    match w
    case ConfirmWord => "--confirm"
    case LockedWord => "--locked"
    case ForegroundWord => "--foreground"
    case SocketWord => "--socket"
    case FolderWord => "--folder"
    case IdleWord => "--idle"
  }

  function WordOf(a: string): Option<Word> {
    if a == "--confirm" then Some(ConfirmWord)
    else if a == "--locked" then Some(LockedWord)
    else if a == "--foreground" then Some(ForegroundWord)
    else if a == "--socket" then Some(SocketWord)
    else if a == "--folder" then Some(FolderWord)
    else if a == "--idle" then Some(IdleWord)
    else None
  }

  lemma WordOfSpelling(a: string, w: Word)
    ensures WordOf(a) == Some(w) <==> a == Spelling(w)
  {
  }

  predicate TakesValue(w: Word) {
    w.SocketWord? || w.FolderWord? || w.IdleWord?
  }

  function Toggle(f: AgentFlags, w: Word): AgentFlags
    requires !TakesValue(w)
  {
    match w
    case ConfirmWord => f.(confirm := true)
    case LockedWord => f.(locked := true)
    case ForegroundWord => f.(foreground := true)
  }

  function IdleMinutes(v: string): Option<int> {
    match Atoi(v)
    case None => None
    case Some(n) => if n < 0 then None else Some(n)
  }

  function SetValue(f: AgentFlags, w: Word, v: string): Result<AgentFlags, FlagError>
    requires TakesValue(w)
  {
    match w
    case SocketWord => Ok(f.(socket := v))
    case FolderWord => Ok(f.(folder := v))
    case IdleWord =>
      match IdleMinutes(v)
      case None => Err(BadIdle)
      case Some(n) => Ok(f.(idle := n))
  }

  /** Parsing `args` on top of the flags already read. */
  function ParseFrom(f: AgentFlags, args: seq<string>): Result<AgentFlags, FlagError>
    decreases |args|
  {
    if args == [] then Ok(f)
    else
      match WordOf(args[0])
      case None => Err(UnknownOption(args[0]))
      case Some(w) =>
        if !TakesValue(w) then ParseFrom(Toggle(f, w), args[1..])
        else if |args| < 2 then Err(NeedsValue(args[0]))
        else
          match SetValue(f, w, args[1])
          case Err(e) => Err(e)
          case Ok(g) => ParseFrom(g, args[2..])
  }

  function ParseFlags(args: seq<string>): Result<AgentFlags, FlagError> {
    ParseFrom(DEFAULTS, args)
  }

  /** The parser as written: one loop whose index an option's value also advances. */
  method ParseAgentFlags(args: seq<string>) returns (r: Result<AgentFlags, FlagError>)
    ensures r == ParseFlags(args)
  {
    var f := DEFAULTS;
    var i := 0;
    while i < |args|
      invariant 0 <= i <= |args|
      invariant ParseFlags(args) == ParseFrom(f, args[i..])
      decreases |args| - i
    {
      var a := args[i];
      ghost var rest := args[i..];
      assert rest[0] == a && rest[1..] == args[i + 1..];
      match a {
        case "--confirm" => f := f.(confirm := true);
        case "--locked" => f := f.(locked := true);
        case "--foreground" => f := f.(foreground := true);
        case _ =>
          if a != "--socket" && a != "--folder" && a != "--idle" {
            return Err(UnknownOption(a));
          }
          if i + 1 >= |args| {
            return Err(NeedsValue(a));
          }
          i := i + 1;
          assert rest[1] == args[i] && rest[2..] == args[i + 1..];
          match a {
            case "--socket" => f := f.(socket := args[i]);
            case "--folder" => f := f.(folder := args[i]);
            case _ =>
              var n := IdleMinutes(args[i]);
              if n.None? {
                return Err(BadIdle);
              }
              f := f.(idle := n.value);
          }
      }
      i := i + 1;
    }
    assert args[i..] == [];
    return Ok(f);
  }

  // ---- The option grammar, independently of the parser ----

  datatype Opt =
    | Confirm
    | Locked
    | Foreground
    | Socket(path: string)
    | Folder(name: string)
    | Idle(text: string)

  predicate Proper(opt: Opt) {
    opt.Idle? ==> IdleMinutes(opt.text).Some?
  }

  predicate AllProper(opts: seq<Opt>) {
    forall k | 0 <= k < |opts| :: Proper(opts[k])
  }

  function Spell(opt: Opt): seq<string> {
    match opt
    case Confirm => [Spelling(ConfirmWord)]
    case Locked => [Spelling(LockedWord)]
    case Foreground => [Spelling(ForegroundWord)]
    case Socket(path) => [Spelling(SocketWord), path]
    case Folder(name) => [Spelling(FolderWord), name]
    case Idle(text) => [Spelling(IdleWord), text]
  }

  function Spelled(opts: seq<Opt>): seq<string> {
    if opts == [] then [] else Spell(opts[0]) + Spelled(opts[1..])
  }

  /** The value of the last of the chosen options, or a default. */
  function LastSocket(opts: seq<Opt>, otherwise: string): string {
    if opts == [] then otherwise
    else if opts[|opts| - 1].Socket? then opts[|opts| - 1].path
    else LastSocket(opts[..|opts| - 1], otherwise)
  }

  function LastFolder(opts: seq<Opt>, otherwise: string): string {
    if opts == [] then otherwise
    else if opts[|opts| - 1].Folder? then opts[|opts| - 1].name
    else LastFolder(opts[..|opts| - 1], otherwise)
  }

  function LastIdle(opts: seq<Opt>, otherwise: int): int
    requires AllProper(opts)
  {
    if opts == [] then otherwise
    else if opts[|opts| - 1].Idle? then IdleMinutes(opts[|opts| - 1].text).value
    else LastIdle(opts[..|opts| - 1], otherwise)
  }

  /** What a list of options means: the last value of each, a toggle if it occurs. */
  function Meaning(f: AgentFlags, opts: seq<Opt>): AgentFlags
    requires AllProper(opts)
  {
    AgentFlags(
      LastSocket(opts, f.socket),
      f.confirm || Confirm in opts,
      LastIdle(opts, f.idle),
      LastFolder(opts, f.folder),
      f.locked || Locked in opts,
      f.foreground || Foreground in opts)
  }

  /** Parsing is a fold: a second list is parsed from the first one's result. */
  lemma {:induction false} ParseAppend(f: AgentFlags, a: seq<string>, b: seq<string>)
    requires ParseFrom(f, a).Ok?
    ensures ParseFrom(f, a + b) == ParseFrom(ParseFrom(f, a).value, b)
    decreases |a|
  {
    hide WordOf;
    if a == [] {
      assert a + b == b;
    } else {
      var w := WordOf(a[0]).value;
      assert (a + b)[1..] == a[1..] + b;
      if !TakesValue(w) {
        ParseAppend(Toggle(f, w), a[1..], b);
      } else {
        assert (a + b)[2..] == a[2..] + b;
        ParseAppend(SetValue(f, w, a[1]).value, a[2..], b);
      }
    }
  }

  lemma {:induction false} SpelledSnoc(opts: seq<Opt>, opt: Opt)
    ensures Spelled(opts + [opt]) == Spelled(opts) + Spell(opt)
  {
    hide Spell;
    if opts == [] {
      assert [opt][1..] == [];
      assert Spelled([opt]) == Spell(opt) + Spelled([]);
    } else {
      assert (opts + [opt])[1..] == opts[1..] + [opt];
      SpelledSnoc(opts[1..], opt);
    }
  }

  function Heading(opt: Opt): Word {
    match opt
    case Confirm => ConfirmWord
    case Locked => LockedWord
    case Foreground => ForegroundWord
    case Socket(_) => SocketWord
    case Folder(_) => FolderWord
    case Idle(_) => IdleWord
  }

  function Adjust(f: AgentFlags, opt: Opt): AgentFlags
    requires Proper(opt)
  {
    match opt
    case Socket(path) => f.(socket := path)
    case Folder(name) => f.(folder := name)
    case Idle(text) => f.(idle := IdleMinutes(text).value)
    case _ => Toggle(f, Heading(opt))
  }

  /** Options added on the right: the last one wins, a toggle stays on. */
  lemma MeaningSnoc(f: AgentFlags, opts: seq<Opt>, opt: Opt)
    requires AllProper(opts + [opt])
    ensures AllProper(opts)
    ensures Meaning(f, opts + [opt]) == Adjust(Meaning(f, opts), opt)
  {
    hide IdleMinutes;
    var all := opts + [opt];
    assert forall k | 0 <= k < |opts| :: opts[k] == all[k];
    assert all[|opts|] == opt && all[..|opts|] == opts;
    assert forall o :: o in all <==> o in opts || o == opt;
  }

  lemma {:induction false} ParseSpell(f: AgentFlags, opt: Opt)
    requires Proper(opt)
    ensures ParseFrom(f, Spell(opt)) == Ok(Adjust(f, opt))
  {
    hide WordOf, Spelling, IdleMinutes;
    WordOfSpelling(Spelling(Heading(opt)), Heading(opt));
    if TakesValue(Heading(opt)) {
      assert Spell(opt)[2..] == [];
    } else {
      assert Spell(opt)[1..] == [];
    }
  }

  /** Every spelling of proper options parses, to the last value of each option. */
  lemma {:induction false} ParseSpelled(f: AgentFlags, opts: seq<Opt>)
    requires AllProper(opts)
    ensures ParseFrom(f, Spelled(opts)) == Ok(Meaning(f, opts))
  {
    hide WordOf, Spelling, IdleMinutes;
    if opts != [] {
      var n := |opts| - 1;
      var init, opt := opts[..n], opts[n];
      assert opts == init + [opt];
      MeaningSnoc(f, init, opt);
      ParseSpelled(f, init);
      SpelledSnoc(init, opt);
      ParseAppend(f, Spelled(init), Spell(opt));
      ParseSpell(Meaning(f, init), opt);
    }
  }

  function ToOpt(w: Word, v: string): Opt {
    match w
    case ConfirmWord => Confirm
    case LockedWord => Locked
    case ForegroundWord => Foreground
    case SocketWord => Socket(v)
    case FolderWord => Folder(v)
    case IdleWord => Idle(v)
  }

  /** The longest proper beginning of a command line, read as options. */
  function Read(args: seq<string>): seq<Opt>
    decreases |args|
  {
    if args == [] || WordOf(args[0]).None? then []
    else
      var w := WordOf(args[0]).value;
      if !TakesValue(w) then [ToOpt(w, "")] + Read(args[1..])
      else if |args| >= 2 && Proper(ToOpt(w, args[1])) then [ToOpt(w, args[1])] + Read(args[2..])
      else []
  }

  /** Why the arguments after the proper beginning are refused. */
  predicate Refused(rest: seq<string>, e: FlagError) {
    && rest != []
    && match e
       case UnknownOption(a) => a == rest[0] && forall w :: a != Spelling(w)
       case NeedsValue(a) => rest == [a] && exists w :: TakesValue(w) && a == Spelling(w)
       case BadIdle => |rest| >= 2 && rest[0] == Spelling(IdleWord) && IdleMinutes(rest[1]).None?
  }

  lemma {:induction false} RefusedFails(f: AgentFlags, rest: seq<string>, e: FlagError)
    requires Refused(rest, e)
    ensures ParseFrom(f, rest) == Err(e)
  {
    hide WordOf, Spelling, IdleMinutes;
    if WordOf(rest[0]).Some? {
      WordOfSpelling(rest[0], WordOf(rest[0]).value);
    }
    match e
    case UnknownOption(a) =>
    case NeedsValue(a) =>
      var w :| TakesValue(w) && a == Spelling(w);
      WordOfSpelling(a, w);
    case BadIdle => WordOfSpelling(rest[0], IdleWord);
  }

  /** What the reader leaves over is nothing, or refused for the parser's reason. */
  lemma {:induction false} ReadExplains(f: AgentFlags, args: seq<string>) returns (rest: seq<string>)
    ensures AllProper(Read(args)) && args == Spelled(Read(args)) + rest
    ensures match ParseFrom(f, args)
            case Ok(_) => rest == []
            case Err(e) => Refused(rest, e)
    decreases |args|
  {
    hide WordOf, Spelling, IdleMinutes;
    if args == [] {
      rest := [];
    } else if WordOf(args[0]).None? {
      rest := args;
      forall w ensures args[0] != Spelling(w) { WordOfSpelling(args[0], w); }
      assert Refused(rest, UnknownOption(args[0]));
    } else {
      var w := WordOf(args[0]).value;
      WordOfSpelling(args[0], w);
      if !TakesValue(w) {
        rest := ReadExplains(Toggle(f, w), args[1..]);
        ReadStep(ToOpt(w, ""), args[1..], rest);
        assert args == [args[0]] + args[1..];
      } else if |args| >= 2 && Proper(ToOpt(w, args[1])) {
        rest := ReadExplains(SetValue(f, w, args[1]).value, args[2..]);
        ReadStep(ToOpt(w, args[1]), args[2..], rest);
        assert args == [args[0], args[1]] + args[2..];
      } else {
        rest := args;
        ReadStops(f, args);
      }
    }
  }

  /** An option whose value is missing or improper is where the reader stops and the parser fails. */
  lemma {:induction false} ReadStops(f: AgentFlags, args: seq<string>)
    requires args != [] && WordOf(args[0]).Some? && TakesValue(WordOf(args[0]).value)
    requires |args| < 2 || !Proper(ToOpt(WordOf(args[0]).value, args[1]))
    ensures Read(args) == [] && ParseFrom(f, args).Err? && Refused(args, ParseFrom(f, args).error)
  {
    hide WordOf, Spelling, IdleMinutes;
    WordOfSpelling(args[0], WordOf(args[0]).value);
    if |args| < 2 {
      assert args == [args[0]];
      assert Refused(args, NeedsValue(args[0]));
    }
  }

  lemma {:induction false} ReadStep(opt: Opt, args: seq<string>, rest: seq<string>)
    requires Proper(opt) && AllProper(Read(args)) && args == Spelled(Read(args)) + rest
    ensures AllProper([opt] + Read(args)) && Spell(opt) + args == Spelled([opt] + Read(args)) + rest
  {
    hide Spell, Proper, Read;
    var opts := Read(args);
    assert ([opt] + opts)[1..] == opts;
    assert Spelled([opt] + opts) == Spell(opt) + Spelled(opts);
  }

  /** The parser accepts exactly the spellings of proper options, with their meaning. */
  lemma AcceptsIffSpelled(args: seq<string>, f: AgentFlags)
    ensures ParseFlags(args) == Ok(f)
       <==> exists opts :: AllProper(opts) && Spelled(opts) == args && Meaning(DEFAULTS, opts) == f
  {
    if ParseFlags(args) == Ok(f) {
      var rest := ReadExplains(DEFAULTS, args);
      ParseSpelled(DEFAULTS, Read(args));
      assert Spelled(Read(args)) == args;
    }
    if opts: seq<Opt> :| AllProper(opts) && Spelled(opts) == args && Meaning(DEFAULTS, opts) == f {
      ParseSpelled(DEFAULTS, opts);
    }
  }

  /** It fails exactly when, after proper options, the next argument is refused for that reason. */
  lemma FailsIffRefused(args: seq<string>, e: FlagError)
    ensures ParseFlags(args) == Err(e)
       <==> exists opts, rest :: AllProper(opts) && args == Spelled(opts) + rest && Refused(rest, e)
  {
    if ParseFlags(args) == Err(e) {
      var rest := ReadExplains(DEFAULTS, args);
    }
    if opts: seq<Opt>, rest: seq<string>
      :| AllProper(opts) && args == Spelled(opts) + rest && Refused(rest, e)
    {
      ParseSpelled(DEFAULTS, opts);
      ParseAppend(DEFAULTS, Spelled(opts), rest);
      RefusedFails(Meaning(DEFAULTS, opts), rest, e);
    }
  }

  /** A command line for a flag record. */
  function Render(f: AgentFlags): seq<Opt>
    requires 0 <= f.idle
  {
    [Socket(f.socket), Idle(Itoa(f.idle)), Folder(f.folder)]
    + (if f.confirm then [Confirm] else [])
    + (if f.locked then [Locked] else [])
    + (if f.foreground then [Foreground] else [])
  }

  lemma MeaningToggle(f: AgentFlags, opts: seq<Opt>, opt: Opt, given: bool) returns (all: seq<Opt>)
    requires AllProper(opts) && !TakesValue(Heading(opt))
    ensures all == opts + if given then [opt] else []
    ensures AllProper(all)
    ensures Meaning(f, all) == if given then Toggle(Meaning(f, opts), Heading(opt)) else Meaning(f, opts)
  {
    all := opts + if given then [opt] else [];
    if given {
      MeaningSnoc(f, opts, opt);
    } else {
      assert all == opts;
    }
  }

  lemma MeaningOfNone(f: AgentFlags)
    ensures Meaning(f, []) == f
  {
  }

  /** Rendering a flag record and parsing it gives it back, while the minutes fit 64 bits. */
  lemma ParseRender(f: AgentFlags)
    requires 0 <= f.idle <= MAX_INT64
    ensures ParseFlags(Spelled(Render(f))) == Ok(f)
  {
    hide Spelled, Atoi, ParseFrom, Meaning;
    MeaningOfNone(DEFAULTS);
    AtoiItoa(f.idle);
    var socket, idle, folder := Socket(f.socket), Idle(Itoa(f.idle)), Folder(f.folder);
    assert [] + [socket] == [socket] && [socket] + [idle] == [socket, idle]
        && [socket, idle] + [folder] == [socket, idle, folder];
    MeaningSnoc(DEFAULTS, [], socket);
    MeaningSnoc(DEFAULTS, [socket], idle);
    MeaningSnoc(DEFAULTS, [socket, idle], folder);
    var opts := MeaningToggle(DEFAULTS, [socket, idle, folder], Confirm, f.confirm);
    opts := MeaningToggle(DEFAULTS, opts, Locked, f.locked);
    opts := MeaningToggle(DEFAULTS, opts, Foreground, f.foreground);
    assert opts == Render(f);
    ParseSpelled(DEFAULTS, opts);
  }

  // ---- Every option by its name ----

  /** What each option does to the flags read before; with `ParseAppend` that is every accepted command line. */
  lemma {:induction false} EachOption(f: AgentFlags, v: string)
    ensures DEFAULTS == AgentFlags("", false, 60, "", false, false) && ParseFrom(f, []) == Ok(f)
    ensures ParseFrom(f, ["--confirm"]) == Ok(f.(confirm := true))
    ensures ParseFrom(f, ["--locked"]) == Ok(f.(locked := true))
    ensures ParseFrom(f, ["--foreground"]) == Ok(f.(foreground := true))
    ensures ParseFrom(f, ["--socket", v]) == Ok(f.(socket := v))
    ensures ParseFrom(f, ["--folder", v]) == Ok(f.(folder := v))
  {
    ParseSpell(f, Confirm);
    ParseSpell(f, Locked);
    ParseSpell(f, Foreground);
    ParseSpell(f, Socket(v));
    ParseSpell(f, Folder(v));
  }

  /** An option without its value, and a word that is no option, stop the parser, whatever follows. */
  lemma {:induction false} EachRefusal(f: AgentFlags, a: string, rest: seq<string>)
    ensures a in {"--socket", "--folder", "--idle"} ==> ParseFrom(f, [a]) == Err(NeedsValue(a))
    ensures a !in {"--confirm", "--locked", "--foreground", "--socket", "--folder", "--idle"} ==>
      ParseFrom(f, [a] + rest) == Err(UnknownOption(a))
  {
    hide IdleMinutes;
  }

  /**
   `--idle` takes an optional sign and digits that denote a number which is not
   negative and fits 64 bits; anything else is refused, whatever follows.
   */
  lemma {:induction false} IdleArgumentIff(f: AgentFlags, v: string, n: int, rest: seq<string>)
    ensures ParseFrom(f, ["--idle", v]) == Ok(f.(idle := n)) <==> Denotes(v, n) && 0 <= n <= MAX_INT64
    ensures (forall m | 0 <= m <= MAX_INT64 :: !Denotes(v, m)) ==> ParseFrom(f, ["--idle", v] + rest) == Err(BadIdle)
  {
    AtoiIff(v, n);
    if IdleMinutes(v).Some? {
      AtoiIff(v, IdleMinutes(v).value);
    } else {
      assert (["--idle", v] + rest)[..2] == ["--idle", v];
      RefusedFails(f, ["--idle", v] + rest, BadIdle);
    }
    hide Atoi, Denotes, ParseFrom;
    IdleParses(f, v);
  }

  lemma {:induction false} IdleParses(f: AgentFlags, v: string)
    ensures ParseFrom(f, ["--idle", v])
         == if IdleMinutes(v).Some? then Ok(f.(idle := IdleMinutes(v).value)) else Err(BadIdle)
  {
    if IdleMinutes(v).Some? {
      ParseSpell(f, Idle(v));
    } else {
      RefusedFails(f, ["--idle", v], BadIdle);
    }
    hide IdleMinutes, ParseFrom;
  }

  // ---- The idle time as a duration ----

  const NANOSECONDS_PER_MINUTE := 60_000_000_000
  const MAX_EXACT_IDLE := 153_722_867

  /** `time.Duration(flags.Idle) * time.Minute`, a 64-bit product. */
  function IdleDuration(minutes: int): int {
    Wrap64(minutes * NANOSECONDS_PER_MINUTE)
  }

  /** The duration is exact for accepted minutes up to a bound and for no others. */
  lemma IdleExactIff(v: string)
    requires IdleMinutes(v).Some?
    ensures var n := IdleMinutes(v).value;
            IdleDuration(n) == n * NANOSECONDS_PER_MINUTE <==> n <= MAX_EXACT_IDLE
  {
    hide Atoi;
  }

  /** The agent never locks itself for idleness when the duration is zero or negative. */
  predicate LockOff(minutes: int) {
    IdleDuration(minutes) <= 0
  }

  /** A minute is 2^11 times this odd number of nanoseconds. */
  const ODD_FACTOR := 29_296_875

  /**
   For which accepted minutes the idle lock is off: those whose product with the
   odd factor leaves nothing, or at least 2^52, modulo 2^53.
   */
  lemma IdleOffIff(v: string)
    requires IdleMinutes(v).Some?
    ensures var n := IdleMinutes(v).value;
      var m := n * ODD_FACTOR % 0x20_0000_0000_0000;
      LockOff(n) <==> m == 0 || m >= 0x10_0000_0000_0000
  {
    hide Atoi;
    OffIff(IdleMinutes(v).value);
  }

  lemma OffIff(n: int)
    ensures var m := n * ODD_FACTOR % 0x20_0000_0000_0000;
      LockOff(n) <==> m == 0 || m >= 0x10_0000_0000_0000
  {
    var product := n * ODD_FACTOR;
    var q, m := product / 0x20_0000_0000_0000, product % 0x20_0000_0000_0000;
    assert n * NANOSECONDS_PER_MINUTE == q * 0x1_0000_0000_0000_0000 + m * 0x800;
    hide Wrap64;
    WrapBeyond(q, m * 0x800);
  }

  /** Up to the bound for exact durations only 0 turns it off, as documented. */
  lemma IdleOffWhenExact(v: string)
    requires IdleMinutes(v).Some? && IdleMinutes(v).value <= MAX_EXACT_IDLE
    ensures LockOff(IdleMinutes(v).value) <==> IdleMinutes(v).value == 0
  {
    hide Atoi;
  }

  /** The first number above the bound is accepted, and turns the lock off. */
  lemma IdleWraps()
    ensures ParseFlags(["--idle", "153722868"]) == Ok(DEFAULTS.(idle := 153_722_868)) && LockOff(153_722_868)
  {
    hide ParseFrom, Itoa, Atoi;
    AtoiItoa(153_722_868);
    PrintedBound();
    ParseSpell(DEFAULTS, Idle("153722868"));
  }

  lemma PrintedBound()
    ensures Itoa(153_722_868) == "153722868"
  {
    assert Itoa(15) == "15";
    assert Itoa(153) == "153";
    assert Itoa(1537) == "1537";
    assert Itoa(15372) == "15372";
    assert Itoa(153722) == "153722";
    assert Itoa(1537228) == "1537228";
    assert Itoa(15372286) == "15372286";
  }

  /**
   The duration is zero exactly for multiples of 2^53, because the odd factor has
   an inverse modulo 2^53.
   */
  lemma IdleZeroIff(minutes: int)
    ensures IdleDuration(minutes) == 0 <==> minutes % 0x20_0000_0000_0000 == 0
  {
    var odd, inverse, carry := 29_296_875, 3_749_353_613_647_811, 12_195_172;
    assert odd * inverse == 1 + carry * 0x20_0000_0000_0000;
    if IdleDuration(minutes) == 0 {
      var k := (minutes * NANOSECONDS_PER_MINUTE - MIN_INT64) / 0x1_0000_0000_0000_0000;
      assert minutes * odd == k * 0x20_0000_0000_0000;
      assert minutes == (inverse * k - minutes * carry) * 0x20_0000_0000_0000;
    }
    if minutes % 0x20_0000_0000_0000 == 0 {
      var q := minutes / 0x20_0000_0000_0000;
      assert minutes * NANOSECONDS_PER_MINUTE == q * odd * 0x1_0000_0000_0000_0000;
    }
  }
}
