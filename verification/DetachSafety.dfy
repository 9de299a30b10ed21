/** The starter and its copy together, over every run. */
module DetachSafety {
  import opened Results
  import opened Text
  import opened Environment
  import opened AgentOptions
  import opened Lines
  import opened DetachProtocol
  import opened DetachInvariant

  /** How a copy was started, by the starter it was started by. */
  predicate Paired(p: Process, origin: Origin) {
    && p.role.Starter? && (IsLaunched(At(p)) || p.stage.Returned?)
    && p.launch.copy == Some(1) && origin.launcher == Some(0) && p.origin.launcher.None?
    && CommandOf(origin.argv) == Run(AGENT_COMMAND, p.args) && IsDetached(origin.env)
    && origin.fallback == p.origin.fallback && origin.pid == p.launch.copyPid
  }

  /** No byte of the password or of the exports is lost, added or out of order. */
  predicate StreamsFit(launch: Launching, handover: string, line: string, input: string, out: string) {
    && line + input + launch.feed == handover
    && (!launch.feeding ==> launch.feed == "")
    && launch.exports <= out
  }

  /** The starter goes on only when the copy's output has ended and is read. */
  predicate Settled(p: Process, c: Process) {
    && (At(p).Collect? || (OutEnded(c) && p.launch.exports == c.out))
    && (At(p).Await? || (p.stage.Returned? && p.out == "") ==> !HasPrefix(p.launch.exports, SOCK_PREFIX))
    && (c.password.Some? ==> c.password == p.password || p.stage == Killed(Collect))
  }

  predicate PairFits(p: Process, c: Process) {
    Fits(p) && Fits(c) && Paired(p, c.origin) && c.launch.copy.None?
    && StreamsFit(p.launch, Handover(p.password), c.line, c.input, c.out) && Settled(p, c)
  }

  predicate Inv(s: System) {
    && 1 <= |s| <= 2 && Fits(s[0]) && s[0].origin.launcher.None?
    && (|s| == 1 ==> s[0].launch.copy.None?)
    && (|s| == 2 ==> PairFits(s[0], s[1]))
  }

  // ---- The copy ----

  /** The copy has the arguments and so the flags of its starter. */
  lemma SameFlags(p: Process, c: Process)
    requires Fits(p) && Fits(c) && Paired(p, c.origin) && !c.role.Undecided?
    ensures c.args == p.args && c.flags == p.flags && c.role.Agent?
  {
    hide ParseFlags, IsDetached, PasswordFits, SocketFits, OutputFits, LaunchFits;
  }

  /** While the copy waits for its password, the starter has one and the copy has said nothing. */
  lemma WaitingCopy(p: Process, c: Process)
    requires Fits(p) && Fits(c) && Paired(p, c.origin) && c.stage.Password?
    ensures p.password.Some? && IsAnswer(p.password.value) && !OutEnded(c)
  {
    assert c.role.Agent?;
    SameFlags(p, c);
    hide RoleFits, IsAnswer, SocketFits, LaunchFits, ExportLine;
  }

  /** The line the copy reads is the answer its starter was given. */
  lemma LineIsPassword(p: Process, c: Process, around: Surroundings)
    requires PairFits(p, c)
    requires c.stage.Password? && HasLine(c, around)
    requires around.eof ==> !p.launch.feeding || Finished(p)
    ensures Some(Answer(c.line)) == p.password || p.stage == Killed(Collect)
  {
    WaitingCopy(p, c);
    hide Fits, Paired, IsAnswer, Answer, HasPrefix;
    if p.stage != Killed(Collect) {
      assert !Finished(p);
      LineHandedOver(c.line, c.input, p.launch.feed, p.password.value);
    }
  }

  lemma LineHandedOver(line: string, input: string, feed: string, password: string)
    requires IsAnswer(password) && line + input + feed == password + "\n"
    requires '\n' in line || (input == "" && feed == "")
    ensures Answer(line) == password
  {
    HandoverIff(password, "");
    assert password + "\n" + "" == password + "\n";
    assert line + (input + feed) == password + "\n";
    assert input == "" && feed == "" ==> line == password + "\n" && line[|password|] == '\n';
    PrefixWithNewline(line, input + feed, password);
  }

  lemma PrefixWithNewline(a: string, b: string, password: string)
    requires a + b == password + "\n" && '\n' in a && '\n' !in password
    ensures a == password + "\n"
  {
    var whole := password + "\n";
    assert forall k | 0 <= k < |password| :: whole[k] == password[k] != '\n';
    var k :| 0 <= k < |a| && a[k] == '\n';
    assert whole[k] == '\n';
    assert a == (a + b)[..|a|];
  }
  /** What a call leaves alone. */
  lemma CallFrame(c: Process, o: Outcome, around: Surroundings)
    requires Call(c, o, around).Some?
    ensures var d := Call(c, o, around).value;
      && d.origin == c.origin && d.launch == c.launch && d.line == c.line && d.input == c.input
      && (d.password == c.password || c.stage.Ask? || (c.stage.Password? && !ReadsPipe(c))
          || (c.stage.Password? && HasLine(c, around) && d.password == Some(Answer(c.line))))
  {
    hide ParseFlags, CommandOf, ShouldDetach, IsDetached, PidLine, ExportLine, SocketPath, Answer, HasLine;
  }

  /** Output only grows, and not after it ended. */
  lemma CallOutput(c: Process, o: Outcome, around: Surroundings)
    requires OutputFits(c) && SocketFits(c) && Call(c, o, around).Some?
    ensures var d := Call(c, o, around).value; c.out <= d.out && (OutEnded(c) ==> OutEnded(d) && d.out == c.out)
  {
    hide ParseFlags, CommandOf, ShouldDetach, IsDetached, PidLine, ExportLine, SocketPath, Answer, HasLine;
  }

  lemma CopyCall(p: Process, c: Process, o: Outcome, around: Surroundings)
    requires PairFits(p, c) && Call(c, o, around).Some?
    requires around.eof ==> !p.launch.feeding || Finished(p)
    ensures PairFits(p, Call(c, o, around).value)
  {
    CallFits(c, o, around);
    CallFrame(c, o, around);
    CallOutput(c, o, around);
    if c.stage.Password? && HasLine(c, around) {
      LineIsPassword(p, c, around);
    }
    CopyNeverAsks(p, c);
    hide Fits, Call, HasLine, IsDetached, Answer, HasPrefix;
  }

  lemma CopyNeverAsks(p: Process, c: Process)
    requires Fits(p) && Fits(c) && Paired(p, c.origin)
    ensures !c.role.Starter? && !IsStarting(At(c))
  {
    if !c.role.Undecided? {
      SameFlags(p, c);
    }
    hide ParseFlags, PasswordFits, SocketFits, OutputFits, LaunchFits;
  }

  // ---- The starter ----

  lemma PrintingFits(p: Process, c: Process, o: Outcome)
    requires PairFits(p, c) && (p.stage.Exports? || p.stage.Pid? || p.stage.Release?)
    ensures PairFits(PrintExports(p, o), c)
  {
    PrintExportsFits(p, o);
    PrintedStays(p, o);
    hide Fits, HasPrefix, IsDetached, CommandOf, StreamsFit, PidLine, OutEnded;
  }

  lemma StarterCall(p: Process, c: Process, o: Outcome, around: Surroundings)
    requires PairFits(p, c) && Call(p, o, around).Some?
    ensures PairFits(Call(p, o, around).value, c)
  {
    hide PairFits, PrintExports;
    CallingStarter(p, c, o, around);
    PrintingFits(p, c, o);
  }

  lemma CallingStarter(p: Process, c: Process, o: Outcome, around: Surroundings)
    requires PairFits(p, c) && Call(p, o, around).Some?
    ensures p.stage.Exports? || p.stage.Pid? || p.stage.Release?
    ensures Call(p, o, around) == Some(PrintExports(p, o))
  {
    hide Fits, PrintExports, StreamsFit, Settled, CommandOf, IsDetached;
  }

  lemma PrintedStays(p: Process, o: Outcome)
    requires Fits(p) && (p.stage.Exports? || p.stage.Pid? || p.stage.Release?)
    ensures PrintExports(p, o).out != ""
  {
    ExportLineStarts("");
  }

  /** Starting the copy, reading to the end of its output, and waiting for it to end. */
  lemma StartPairs(p: Process, o: Outcome)
    requires Fits(p) && p.origin.launcher.None? && p.stage.Start? && o.ok
    ensures var s := Attend([p], 0, o); s.Some? && |s.value| == 2 && PairFits(s.value[0], s.value[1])
  {
    BootFits(CopyOrigin(p, 0, o.text, o.number));
    CopyCommand(p, o);
    StartedFits(p, o.number);
    hide Fits, IsDetached, CommandOf, CopyOrigin, Handover, HasPrefix;
    assert "" + "" + Handover(p.password) == Handover(p.password);
    assert p.role.Starter? by { StarterRole(p); }
  }

  lemma StarterRole(p: Process)
    requires Fits(p) && p.stage.Start?
    ensures p.role.Starter?
  {
  }

  lemma StartedFits(p: Process, pid: nat)
    requires Fits(p) && p.stage.Start?
    ensures Fits(p.(launch := Launching(Some(1), pid, Handover(p.password), true, ""), stage := Collect))
  {
    hide ParseFlags, CommandOf, ShouldDetach, IsDetached, IsAnswer, HasPrefix, PidLine, ExportLine, SocketPath,
      Handover;
  }

  /** The copy is told not to detach, whatever the environment held, and gets the same arguments. */
  lemma CopyCommand(p: Process, o: Outcome)
    ensures var origin := CopyOrigin(p, 0, o.text, o.number);
      && IsDetached(origin.env) && CommandOf(origin.argv) == Run(AGENT_COMMAND, p.args)
      && origin.launcher == Some(0) && origin.fallback == p.origin.fallback && origin.pid == o.number
  {
    var origin := CopyOrigin(p, 0, o.text, o.number);
    assert origin.argv[2..] == p.args;
    AppendSettles(Environ(p.origin.env), DETACHED_ENV, "1", DETACHED_ENV);
  }

  /** Every other variable has the value that the starter reads for it. */
  lemma {:induction false} CopySees(p: Process, o: Outcome, name: string)
    requires '=' !in name && name != DETACHED_ENV
    ensures Getenv(CopyOrigin(p, 0, o.text, o.number).env, name) == Getenv(p.origin.env, name)
  {
    ChildSees(p.origin.env, DETACHED_ENV, "1", name);
  }

  lemma CollectFits(p: Process)
    requires Fits(p) && p.stage.Collect?
    ensures Fits(p.(stage := if HasPrefix(p.launch.exports, SOCK_PREFIX) then Exports else Await))
  {
    hide ParseFlags, CommandOf, ShouldDetach, IsDetached, IsAnswer, HasPrefix, PidLine, ExportLine, SocketPath,
      Handover;
  }

  lemma FailFits(p: Process)
    requires Fits(p) && (p.stage.Await? || p.stage.Start?)
    ensures Fits(Fail(p))
  {
    hide ParseFlags, CommandOf, ShouldDetach, IsDetached, IsAnswer, HasPrefix, PidLine, ExportLine, SocketPath,
      Handover;
  }

  lemma StarterCollects(p: Process, c: Process)
    requires PairFits(p, c) && p.stage.Collect? && OutEnded(c) && p.launch.exports == c.out
    ensures PairFits(p.(stage := if HasPrefix(p.launch.exports, SOCK_PREFIX) then Exports else Await), c)
  {
    CollectFits(p);
    hide Fits, StreamsFit, CommandOf, IsDetached, HasPrefix, OutEnded;
  }

  lemma StarterGivesUp(p: Process, c: Process)
    requires PairFits(p, c) && p.stage.Await?
    ensures PairFits(Fail(p), c)
  {
    FailFits(p);
    hide Fits, StreamsFit, CommandOf, IsDetached, HasPrefix, OutEnded;
  }

  lemma StarterAttends(p: Process, c: Process, o: Outcome)
    requires PairFits(p, c) && (p.stage.Collect? || p.stage.Await?)
    requires Attend([p, c], 0, o).Some?
    ensures var s := Attend([p, c], 0, o).value; |s| == 2 && s[1] == c && PairFits(s[0], c)
  {
    assert p.launch.copy == Some(1) by { hide Fits, StreamsFit, Settled, CommandOf, IsDetached; }
    hide PairFits, HasPrefix, OutEnded;
    if p.stage.Collect? {
      StarterCollects(p, c);
    } else {
      StarterGivesUp(p, c);
    }
  }

  // ---- The pipes ----

  lemma FedStreams(launch: Launching, handover: string, line: string, input: string, out: string, n: nat)
    requires StreamsFit(launch, handover, line, input, out) && 0 < n <= |launch.feed|
    ensures StreamsFit(launch.(feed := launch.feed[n..]), handover, line, input + launch.feed[..n], out)
  {
    assert line + (input + launch.feed[..n]) + launch.feed[n..] == line + input + launch.feed;
  }

  lemma PipesFit(p: Process, feed: string, input: string)
    requires Fits(p) && (p.launch.copy.None? ==> feed == "")
    ensures Fits(p.(launch := p.launch.(feed := feed))) && Fits(p.(input := input))
  {
    hide ParseFlags, CommandOf, ShouldDetach, IsDetached, IsAnswer, HasPrefix, PidLine, ExportLine, SocketPath;
  }

  lemma Fed(p: Process, c: Process, n: nat)
    requires PairFits(p, c) && p.launch.copy.Some? && 0 < n <= |p.launch.feed|
    ensures var feed := p.launch.feed;
      PairFits(p.(launch := p.launch.(feed := feed[n..])), c.(input := c.input + feed[..n]))
  {
    var feed := p.launch.feed;
    FedStreams(p.launch, Handover(p.password), c.line, c.input, c.out, n);
    PipesFit(p, feed[n..], p.input);
    assert c.launch.copy.None? ==> c.launch.feed == "" by { assert LaunchFits(c); }
    PipesFit(c, c.launch.feed, c.input + feed[..n]);
    hide Fits, StreamsFit, CommandOf, IsDetached, HasPrefix, Handover;
  }

  lemma FeedFits(p: Process, c: Process, n: nat)
    requires PairFits(p, c) && Feeds([p, c], 0, n).Some?
    ensures var s := Feeds([p, c], 0, n).value; |s| == 2 && PairFits(s[0], s[1])
  {
    Fed(p, c, n);
    assert p.launch.copy == Some(1) by { hide Fits; }
    hide PairFits;
  }

  lemma CloseFeedFits(p: Process, c: Process)
    requires PairFits(p, c) && ClosesFeed(p).Some?
    ensures PairFits(ClosesFeed(p).value, c)
  {
    hide ParseFlags, CommandOf, ShouldDetach, IsDetached, IsAnswer, HasPrefix, PidLine, ExportLine, SocketPath,
      Handover;
  }

  lemma ReadFits(p: Process, c: Process, n: nat)
    requires PairFits(p, c) && Reads(c, n).Some?
    ensures PairFits(p, Reads(c, n).value)
  {
    assert c.line + c.input[..n] + c.input[n..] == c.line + c.input;
    hide ParseFlags, CommandOf, ShouldDetach, IsDetached, IsAnswer, HasPrefix, PidLine, ExportLine, SocketPath,
      Handover;
  }

  lemma GatherFits(p: Process, c: Process, n: nat)
    requires PairFits(p, c) && Gathers([p, c], 0, n).Some?
    ensures PairFits(Gathers([p, c], 0, n).value, c)
  {
    hide ParseFlags, CommandOf, ShouldDetach, IsDetached, IsAnswer, HasPrefix, PidLine, ExportLine, SocketPath,
      Handover;
  }

  // ---- Signals ----

  lemma StarterStops(p: Process, c: Process)
    requires PairFits(p, c) && Signal(p).Some?
    ensures PairFits(Signal(p).value, c)
  {
    SignalFits(p);
    assert !p.stage.Serve? by { hide Fits; }
    hide Fits, IsDetached, CommandOf, HasPrefix, Handover;
  }

  lemma CopyStops(p: Process, c: Process)
    requires PairFits(p, c) && Signal(c).Some?
    ensures PairFits(p, Signal(c).value)
  {
    SignalFits(c);
    hide Fits, Paired, StreamsFit, HasPrefix;
  }

  lemma StarterDies(p: Process, c: Process)
    requires PairFits(p, c) && Die(p).Some?
    ensures PairFits(Die(p).value, c)
  {
    DieFits(p);
    hide Fits, IsDetached, CommandOf, HasPrefix, Handover;
  }

  lemma CopyDies(p: Process, c: Process)
    requires PairFits(p, c) && Die(c).Some?
    ensures PairFits(p, Die(c).value)
  {
    DieFits(c);
    hide Fits, Paired, StreamsFit, HasPrefix;
  }

  // ---- Every move ----

  lemma StarterMoves(p: Process, c: Process, action: Action)
    requires PairFits(p, c) && Do([p, c], Move(0, action)).Some?
    ensures Inv(Do([p, c], Move(0, action)).value)
  {
    var s := [p, c];
    hide Call, Fits, StreamsFit, Settled;
    match action
    case Step(o) =>
      if p.stage.Collect? || p.stage.Await? {
        StarterAttends(p, c, o);
      } else {
        StarterCall(p, c, o, Around(s, 0));
      }
    case Feed(n) => FeedFits(p, c, n);
    case CloseFeed => CloseFeedFits(p, c);
    case Read(n) =>
    case Gather(n) => GatherFits(p, c, n);
    case Stop => StarterStops(p, c);
    case Hangup => StarterDies(p, c);
  }

  lemma CopyMoves(p: Process, c: Process, action: Action)
    requires PairFits(p, c) && Do([p, c], Move(1, action)).Some?
    ensures Inv(Do([p, c], Move(1, action)).value)
  {
    var s := [p, c];
    CopyNeverAsks(p, c);
    hide Call, Fits, StreamsFit, Settled;
    match action
    case Step(o) => CopyCall(p, c, o, Around(s, 1));
    case Read(n) => ReadFits(p, c, n);
    case Stop => CopyStops(p, c);
    case Hangup => CopyDies(p, c);
    case _ =>
  }

  lemma LoneMoves(p: Process, action: Action)
    requires Inv([p]) && Do([p], Move(0, action)).Some?
    ensures Inv(Do([p], Move(0, action)).value)
  {
    match action
    case Step(o) =>
      if p.stage.Start? {
        LoneStarts(p, o);
      } else {
        LoneCalls(p, o);
      }
    case Stop =>
      SignalFits(p);
      hide Fits;
    case Hangup =>
      DieFits(p);
      hide Fits;
    case _ =>
      hide Fits;
  }

  lemma LoneStarts(p: Process, o: Outcome)
    requires Inv([p]) && p.stage.Start?
    ensures var s := Attend([p], 0, o); s.Some? && Inv(s.value)
  {
    if o.ok {
      StartPairs(p, o);
      hide PairFits;
    } else {
      FailFits(p);
      hide Fits;
    }
  }

  lemma LoneCalls(p: Process, o: Outcome)
    requires Inv([p]) && !p.stage.Start? && Do([p], Move(0, Step(o))).Some?
    ensures Inv(Do([p], Move(0, Step(o))).value)
  {
    assert !p.stage.Collect? && !p.stage.Await? by { assert LaunchFits(p); }
    CallFits(p, o, Around([p], 0));
    CallFrame(p, o, Around([p], 0));
    hide Call, Fits;
  }

  lemma MoveKeeps(s: System, m: Move)
    requires Inv(s) && Do(s, m).Some?
    ensures Inv(Do(s, m).value)
  {
    if |s| == 1 {
      assert s == [s[0]];
      hide Do;
      LoneMoves(s[0], m.action);
    } else if m.who == 0 {
      assert s == [s[0], s[1]];
      hide Do;
      StarterMoves(s[0], s[1], m.action);
    } else {
      assert s == [s[0], s[1]];
      assert m.who == 1;
      hide Do;
      CopyMoves(s[0], s[1], m.action);
    }
  }
}
