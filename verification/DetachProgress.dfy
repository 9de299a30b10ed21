/** Every run of `keepiq ssh-agent` ends or serves, and the starter never waits in vain. */
module DetachProgress {
  import opened Results
  import opened Text
  import opened AgentOptions
  import opened Lines
  import opened DetachProtocol
  import opened DetachInvariant
  import opened DetachSafety
  import opened DetachTheorems

  // ---- The measure ----

  /** How many stages can still follow; a process told not to detach skips the launch. */
  function Height(st: Stage, detached: bool): nat {
    match st
    case Dispatch => if detached then 17 else 36
    case Parse => if detached then 16 else 35
    case Decide => if detached then 15 else 34
    case Locate => 33 case Ask => 32 case Pipe => 31 case Start => 30
    case Collect => 7 case Await => 6 case Exports => 5 case Pid => 4 case Release => 3
    case Confirm => 14 case Harden => 13 case Password => 12 case Unlock => 11 case Bind => 10 case Chmod => 9
    case Announce => 8 case CloseOut => 7 case Notice => 6 case Notify => 5 case Serve => 4 case Remove(_) => 3
    case Returned(_) => 0 case Killed(_) => 0
  }

  function StagesLeft(p: Process): nat {
    Height(p.stage, IsDetached(p.origin.env))
  }

  function AllStagesLeft(s: System): nat {
    if s == [] then 0 else StagesLeft(s[0]) + AllStagesLeft(s[1..])
  }

  /** The bytes still on their way between a starter and its copy, those not yet in a pipe twice. */
  function Bytes(p: Process, c: Process): int {
    2 * |p.launch.feed| + (if p.launch.feeding then 1 else 0) + |c.input| + |c.out| - |p.launch.exports|
  }

  function BytesLeft(s: System): nat
    requires Inv(s)
  {
    if |s| == 1 then 0 else BytesFit(s[0], s[1]); Bytes(s[0], s[1])
  }

  lemma BytesFit(p: Process, c: Process)
    requires PairFits(p, c)
    ensures Bytes(p, c) >= 0
  {
    hide Fits, Paired, Settled;
  }

  predicate Lower(s: System, t: System)
    requires Inv(s) && Inv(t)
  {
    AllStagesLeft(t) < AllStagesLeft(s) || (AllStagesLeft(t) == AllStagesLeft(s) && BytesLeft(t) < BytesLeft(s))
  }

  lemma BeginLowers(p: Process, o: Outcome)
    requires p.stage.Dispatch? || p.stage.Parse? || p.stage.Decide?
    ensures StagesLeft(Begin(p, o)) < StagesLeft(p)
  {
    hide ParseFlags, CommandOf, IsDetached;
  }

  lemma VaultLowers(p: Process, o: Outcome, around: Surroundings)
    requires p.stage.Confirm? || p.stage.Harden? || p.stage.Password? || p.stage.Unlock?
    requires OpenVault(p, o, around).Some?
    ensures StagesLeft(OpenVault(p, o, around).value) < StagesLeft(p)
  {
    hide IsDetached, HasLine, Answer;
  }

  lemma LiveLowers(p: Process, around: Surroundings)
    requires p.stage.Announce? || p.stage.CloseOut? || p.stage.Notice? || p.stage.Notify?
    ensures StagesLeft(GoLive(p, around)) < StagesLeft(p)
  {
    hide IsDetached, ExportLine, SocketPath;
  }

  lemma CallLowers(p: Process, o: Outcome, around: Surroundings)
    requires Call(p, o, around).Some?
    ensures StagesLeft(Call(p, o, around).value) < StagesLeft(p)
  {
    hide IsDetached, Begin, OpenVault, GoLive, PidLine, Answer;
    match p.stage
    case Dispatch | Parse | Decide => BeginLowers(p, o);
    case Confirm | Harden | Password | Unlock => VaultLowers(p, o, around);
    case Announce | CloseOut | Notice | Notify => LiveLowers(p, around);
    case _ =>
  }

  lemma SignalLowers(p: Process)
    requires Signal(p).Some?
    ensures StagesLeft(Signal(p).value) < StagesLeft(p)
  {
    hide IsDetached;
  }

  lemma {:induction false} StagesOf(s: System)
    requires 1 <= |s| <= 2
    ensures AllStagesLeft(s) == StagesLeft(s[0]) + if |s| == 2 then StagesLeft(s[1]) else 0
  {
    hide StagesLeft;
    assert AllStagesLeft(s[1..]) == if |s| == 2 then StagesLeft(s[1]) else 0;
  }

  lemma PutLowers(s: System, i: nat, p: Process)
    requires 1 <= |s| <= 2 && i < |s|
    ensures AllStagesLeft(s[i := p]) - StagesLeft(p) == AllStagesLeft(s) - StagesLeft(s[i])
  {
    hide StagesLeft;
    StagesOf(s);
    StagesOf(s[i := p]);
  }

  lemma StartLowers(p: Process, o: Outcome)
    requires p.stage.Start? && o.ok
    ensures Attend([p], 0, o).Some? && AllStagesLeft(Attend([p], 0, o).value) < AllStagesLeft([p])
  {
    CopyCommand(p, o);
    hide CopyOrigin, CommandOf, IsDetached, Handover;
    StagesOf([p]);
    StagesOf(Attend([p], 0, o).value);
  }

  lemma PairNotStarting(p: Process, c: Process)
    requires PairFits(p, c)
    ensures !p.stage.Start? && !c.stage.Start?
  {
    CopyNeverAsks(p, c);
    hide Fits, StreamsFit, Settled, CommandOf, IsDetached;
  }

  lemma LoneStarter(s: System, i: nat)
    requires Inv(s) && i < |s| && s[i].stage.Start?
    ensures |s| == 1 && i == 0 && s == [s[0]]
  {
    hide PairFits, Fits;
    if |s| == 2 {
      PairNotStarting(s[0], s[1]);
    }
  }

  lemma {:induction false} AttendLowers(s: System, i: nat, o: Outcome)
    requires 1 <= |s| <= 2 && i < |s| && (s[i].stage.Start? || s[i].stage.Collect? || s[i].stage.Await?)
    requires !(s[i].stage.Start? && o.ok) && Attend(s, i, o).Some?
    ensures AllStagesLeft(Attend(s, i, o).value) < AllStagesLeft(s)
  {
    hide AllStagesLeft, HasPrefix, IsDetached, CopyOrigin;
    var p := s[i];
    var next := if !p.stage.Collect? then Returned(false)
      else if HasPrefix(p.launch.exports, SOCK_PREFIX) then Exports else Await;
    assert Attend(s, i, o).value == s[i := p.(stage := next)];
    PutLowers(s, i, p.(stage := next));
  }

  lemma {:induction false} StepLowers(s: System, i: nat, o: Outcome)
    requires Inv(s) && i < |s| && Do(s, Move(i, Step(o))).Some?
    ensures AllStagesLeft(Do(s, Move(i, Step(o))).value) < AllStagesLeft(s)
  {
    if s[i].stage.Start? {
      LoneStarter(s, i);
    }
    assert 1 <= |s| <= 2;
    hide Inv, Attend, Call;
    if s[i].stage.Start? && o.ok {
      StartLowers(s[0], o);
    } else if s[i].stage.Start? || s[i].stage.Collect? || s[i].stage.Await? {
      AttendLowers(s, i, o);
    } else {
      CallLowers(s[i], o, Around(s, i));
      PutLowers(s, i, Call(s[i], o, Around(s, i)).value);
    }
  }

  lemma DieLowers(p: Process)
    requires Die(p).Some?
    ensures StagesLeft(Die(p).value) < StagesLeft(p)
  {
    hide IsDetached;
  }

  lemma HangupLowers(s: System, i: nat)
    requires 1 <= |s| <= 2 && i < |s| && Die(s[i]).Some?
    ensures AllStagesLeft(s[i := Die(s[i]).value]) < AllStagesLeft(s)
  {
    DieLowers(s[i]);
    hide Die, StagesLeft;
    PutLowers(s, i, Die(s[i]).value);
  }

  lemma StopLowers(s: System, i: nat)
    requires 1 <= |s| <= 2 && i < |s| && Signal(s[i]).Some?
    ensures AllStagesLeft(s[i := Signal(s[i]).value]) < AllStagesLeft(s)
  {
    SignalLowers(s[i]);
    hide Signal, StagesLeft;
    PutLowers(s, i, Signal(s[i]).value);
  }

  predicate SameStages(s: System, t: System) {
    |s| == |t| && forall i | 0 <= i < |s| :: t[i].stage == s[i].stage && t[i].origin == s[i].origin
  }

  lemma BytesStep(p: Process, c: Process, m: Move)
    requires p.launch.copy == Some(1) && c.launch.copy.None? && p.origin.launcher.None?
    requires Do([p, c], m).Some? && !m.action.Step? && !IsSignal(m.action)
    ensures var t := Do([p, c], m).value; SameStages([p, c], t) && Bytes(t[0], t[1]) < Bytes(p, c)
  {
    hide Call, Attend, Signal, Die;
    match m.action
    case Feed(n) =>
    case CloseFeed =>
    case Read(n) =>
    case Gather(n) =>
  }

  /** Moving bytes changes no stage, and brings them closer. */
  lemma BytesMove(p: Process, c: Process, m: Move)
    requires Inv([p, c]) && Do([p, c], m).Some? && !m.action.Step? && !IsSignal(m.action)
    ensures var t := Do([p, c], m).value; Inv(t) && SameStages([p, c], t) && BytesLeft(t) < BytesLeft([p, c])
  {
    MoveKeeps([p, c], m);
    PairCopies(p, c);
    hide Do, PairFits, Bytes;
    BytesStep(p, c, m);
  }

  lemma PairCopies(p: Process, c: Process)
    requires PairFits(p, c)
    ensures p.launch.copy == Some(1) && c.launch.copy.None? && p.origin.launcher.None?
    ensures p.launch.exports <= c.out
  {
    hide Fits;
  }

  lemma OnlyPairsMoveBytes(s: System, m: Move)
    requires Inv(s) && Do(s, m).Some? && !m.action.Step? && !IsSignal(m.action)
    ensures |s| == 2 && s == [s[0], s[1]]
  {
    hide Fits, Call, Attend, Signal, Die;
  }

  lemma BytesLower(s: System, m: Move)
    requires Inv(s) && Do(s, m).Some? && !m.action.Step? && !IsSignal(m.action)
    ensures Inv(Do(s, m).value) && Lower(s, Do(s, m).value)
  {
    OnlyPairsMoveBytes(s, m);
    BytesMove(s[0], s[1], m);
    hide Do, Inv, BytesLeft;
    var t := Do(s, m).value;
    SameStagesLeft(s, t);
  }

  lemma {:induction false} SameStagesLeft(s: System, t: System)
    requires 1 <= |s| <= 2 && SameStages(s, t)
    ensures AllStagesLeft(s) == AllStagesLeft(t)
  {
    StagesOf(s);
    StagesOf(t);
    hide Height, IsDetached;
  }

  lemma InvSize(s: System)
    requires Inv(s)
    ensures 1 <= |s| <= 2
  {
    hide PairFits, Fits;
  }

  /** Every move lowers the measure: stages first, then bytes. */
  lemma MoveLowers(s: System, m: Move)
    requires Inv(s) && Do(s, m).Some?
    ensures Inv(Do(s, m).value) && Lower(s, Do(s, m).value)
  {
    hide Inv, BytesLeft, Signal, Die, AllStagesLeft, Call, Attend;
    MoveKeeps(s, m);
    InvSize(s);
    match m.action
    case Step(o) => StepLowers(s, m.who, o);
    case Stop => StopLowers(s, m.who);
    case Hangup => HangupLowers(s, m.who);
    case _ => BytesLower(s, m);
  }

  /** No run goes on for ever: in every endless list of states some step is no move. */
  lemma RunsEnd(states: nat -> System, moves: nat -> Move, k: nat) returns (i: nat)
    requires Inv(states(k))
    ensures k <= i && Do(states(i), moves(i)) != Some(states(i + 1))
    decreases AllStagesLeft(states(k)), BytesLeft(states(k))
  {
    hide Inv, Do, AllStagesLeft, BytesLeft;
    if Do(states(k), moves(k)) == Some(states(k + 1)) {
      MoveLowers(states(k), moves(k));
      i := RunsEnd(states, moves, k + 1);
    } else {
      i := k;
    }
  }

  // ---- Nothing waits in vain ----

  const WELL := Outcome(true, "", 0)

  /** The starter is done, or it is no starter and serves. */
  predicate AtRest(s: System) {
    s != [] && (Finished(s[0]) || s[0].stage.Serve?)
  }

  /** A move that is possible, as long as the first process is not at rest, and needs no signal and no failure. */
  function Helpful(s: System): Move
    requires Inv(s)
  {
    var p := s[0];
    if |s| == 1 || !p.stage.Collect? then Move(0, Step(WELL))
    else
      var c := s[1];
      if |p.launch.exports| < |c.out| then Move(0, Gather(|c.out| - |p.launch.exports|))
      else if OutEnded(c) then Move(0, Step(WELL))
      else if !c.stage.Password? || '\n' in c.line then Move(1, Step(WELL))
      else if c.input != "" then Move(1, Read(|c.input|))
      else if p.launch.feed != "" then Move(0, Feed(|p.launch.feed|))
      else if p.launch.feeding then Move(0, CloseFeed)
      else Move(1, Step(WELL))
  }

  predicate Quiet(m: Move) {
    !IsSignal(m.action) && (m.action.Step? ==> m.action.o.ok)
  }

  /** An ordinary call is always possible, except in serving and in waiting for a line. */
  lemma CallPossible(p: Process, around: Surroundings)
    requires !Finished(p) && !p.stage.Serve? && !p.stage.Start? && !p.stage.Collect? && !p.stage.Await?
    requires p.stage.Password? ==> !ReadsPipe(p) || HasLine(p, around)
    ensures Call(p, WELL, around).Some?
  {
    hide Begin, PrepareCopy, PrintExports, Listen, GoLive, HasLine, Answer;
  }

  /** A copy that has not closed its output is not serving. */
  lemma OpenCopyWorks(p: Process, c: Process)
    requires PairFits(p, c) && !OutEnded(c)
    ensures !c.stage.Serve? && !c.stage.Start? && !c.stage.Collect? && !c.stage.Await?
  {
    CopyNeverAsks(p, c);
    assert IsDetached(c.origin.env) && OutputFits(c);
    hide Fits, CommandOf, IsDetached;
  }

  lemma AwaitPossible(p: Process, c: Process)
    requires PairFits(p, c) && p.stage.Await?
    ensures Finished(c)
  {
    assert OutEnded(c) && p.launch.exports == c.out && !HasPrefix(c.out, SOCK_PREFIX) by {
      hide Fits, HasPrefix;
    }
    UnprintedCopy(p, c);
    hide PairFits;
  }

  lemma HelpfulStarter(p: Process, c: Process)
    requires PairFits(p, c) && !Finished(p) && !p.stage.Serve? && !p.stage.Collect?
    ensures Do([p, c], Move(0, Step(WELL))).Some?
  {
    if p.stage.Await? {
      AwaitPossible(p, c);
      PairCopies(p, c);
      hide PairFits;
    } else {
      assert !p.stage.Start? && !p.stage.Password? by { hide Fits; hide CommandOf; hide IsDetached; hide HasPrefix; }
      hide PairFits, Call;
      CallPossible(p, Around([p, c], 0));
    }
  }

  lemma HelpfulCopy(p: Process, c: Process)
    requires PairFits(p, c) && !OutEnded(c)
    requires c.stage.Password? ==> HasLine(c, Around([p, c], 1))
    ensures Do([p, c], Move(1, Step(WELL))).Some?
  {
    OpenCopyWorks(p, c);
    hide PairFits, HasLine, Around, Call;
    CallPossible(c, Around([p, c], 1));
  }

  lemma PairReadsPipe(p: Process, c: Process)
    requires PairFits(p, c)
    ensures ReadsPipe(c)
  {
    hide Fits, StreamsFit, Settled, CommandOf, IsDetached;
  }

  /** The line of a copy that waits for it is complete, or a move brings more of it. */
  lemma HelpfulWaiting(p: Process, c: Process)
    requires PairFits(p, c) && p.stage.Collect? && c.stage.Password? && '\n' !in c.line
    requires |p.launch.exports| == |c.out| && !OutEnded(c)
    ensures Do([p, c], Helpful([p, c])).Some?
  {
    PairCopies(p, c);
    PairReadsPipe(p, c);
    if c.input == "" && p.launch.feed == "" && !p.launch.feeding {
      HelpfulCopy(p, c);
    }
    hide Inv, PairFits, HasPrefix, Call, Attend;
  }

  /** What the copy has printed can be gathered, and once its output has ended the starter goes on. */
  lemma HelpfulOutput(p: Process, c: Process)
    requires PairFits(p, c) && p.stage.Collect? && (|p.launch.exports| < |c.out| || OutEnded(c))
    ensures Do([p, c], Helpful([p, c])).Some? && Quiet(Helpful([p, c]))
  {
    PairCopies(p, c);
    hide Inv, PairFits, HasPrefix, Call, ReadsPipe, HasLine;
  }

  /** A copy that can go on is the one to move. */
  lemma HelpfulWorking(p: Process, c: Process)
    requires PairFits(p, c) && p.stage.Collect? && (c.stage.Password? ==> '\n' in c.line)
    requires |p.launch.exports| == |c.out| && !OutEnded(c)
    ensures Do([p, c], Helpful([p, c])).Some?
  {
    HelpfulCopy(p, c);
    hide Inv, PairFits, Do;
  }

  lemma HelpfulPair(p: Process, c: Process)
    requires PairFits(p, c) && p.stage.Collect?
    ensures Do([p, c], Helpful([p, c])).Some? && Quiet(Helpful([p, c]))
  {
    PairCopies(p, c);
    hide Do, PairFits, HasLine;
    if |p.launch.exports| < |c.out| || OutEnded(c) {
      HelpfulOutput(p, c);
    } else if c.stage.Password? && '\n' !in c.line {
      HelpfulWaiting(p, c);
    } else {
      HelpfulWorking(p, c);
    }
  }

  /** The helpful move is possible. */
  lemma HelpfulPossible(s: System)
    requires Inv(s) && !AtRest(s)
    ensures Do(s, Helpful(s)).Some? && Quiet(Helpful(s))
  {
    if |s| == 2 {
      assert s == [s[0], s[1]];
      if s[0].stage.Collect? {
        HelpfulPair(s[0], s[1]);
      } else {
        HelpfulStarter(s[0], s[1]);
      }
      hide Do, PairFits;
    } else {
      assert !s[0].stage.Collect? && !s[0].stage.Await? by { assert LaunchFits(s[0]); }
      hide Fits;
      if !s[0].stage.Start? {
        CallPossible(s[0], Around(s, 0));
      }
      hide Call;
    }
  }

  /** The helpful moves, one after another, until the first process is at rest. */
  function Schedule(s: System): seq<Move>
    requires Inv(s)
    decreases AllStagesLeft(s), BytesLeft(s)
  {
    if AtRest(s) then []
    else
      HelpfulPossible(s);
      MoveLowers(s, Helpful(s));
      [Helpful(s)] + Schedule(Do(s, Helpful(s)).value)
  }

  /**
   From every state of every run the first process comes to rest without a
   signal and without a failure, so nothing it waits for can fail to come.
   */
  lemma {:induction false} ComesToRest(s: System)
    requires Inv(s)
    ensures Play(s, Schedule(s)).Some? && AtRest(Play(s, Schedule(s)).value)
    ensures forall k | 0 <= k < |Schedule(s)| :: Quiet(Schedule(s)[k])
    decreases AllStagesLeft(s), BytesLeft(s)
  {
    if !AtRest(s) {
      HelpfulPossible(s);
      MoveLowers(s, Helpful(s));
      var t := Do(s, Helpful(s)).value;
      ComesToRest(t);
      assert ([Helpful(s)] + Schedule(t))[1..] == Schedule(t);
      hide Inv, Do, Helpful, Quiet, AtRest;
    }
  }

  /** Whatever the calls return: a run in which only signals are left to come has its first process at rest. */
  lemma {:induction false} StuckOnlyAtRest(origin: Origin, moves: seq<Move>, s: System)
    requires origin.launcher.None? && Play([Boot(origin)], moves) == Some(s)
    requires forall m: Move :: !IsSignal(m.action) ==> Do(s, m).None?
    ensures AtRest(s)
  {
    RunKeeps(origin, moves);
    if !AtRest(s) {
      HelpfulPossible(s);
    }
    hide Inv, Do;
  }

  /** So it is in every run, wherever it stops. */
  lemma RunComesToRest(origin: Origin, moves: seq<Move>, s: System) returns (more: seq<Move>)
    requires origin.launcher.None? && Play([Boot(origin)], moves) == Some(s)
    ensures Play(s, more).Some? && AtRest(Play(s, more).value)
    ensures forall k | 0 <= k < |more| :: Quiet(more[k])
  {
    RunKeeps(origin, moves);
    ComesToRest(s);
    more := Schedule(s);
  }

  // ---- An agent that is started directly does serve ----

  /** The command line asks for an agent, and where it runs it is not to detach. */
  predicate ServesHere(origin: Origin) {
    match CommandOf(origin.argv)
    case Usage => false
    case Run(word, args) =>
      word == AGENT_COMMAND && ParseFlags(args).Ok?
      && !ShouldDetach(ParseFlags(args).value, IsDetached(origin.env), origin.terminal)
  }

  /** For instance, `keepiq ssh-agent --foreground`, wherever it runs. */
  lemma ForegroundServes(origin: Origin, name: string)
    requires origin.argv == [name, AGENT_COMMAND, "--foreground"]
    ensures ServesHere(origin)
  {
    assert origin.argv[2..] == ["--foreground"] && ["--foreground"][1..] == [];
    hide IsDetached;
  }

  predicate LeadsToServing(st: Stage) {
    st.Dispatch? || st.Parse? || st.Decide? || (IsWorking(st) && !st.Remove?)
  }

  predicate OnItsWay(p: Process) {
    Inv([p]) && ServesHere(p.origin) && LeadsToServing(p.stage)
  }

  lemma WellBegin(p: Process)
    requires RoleFits(p) && ServesHere(p.origin) && (p.stage.Dispatch? || p.stage.Parse? || p.stage.Decide?)
    ensures Begin(p, WELL).origin == p.origin && LeadsToServing(Begin(p, WELL).stage)
  {
    hide ParseFlags, CommandOf, ShouldDetach, IsDetached;
  }

  lemma WellVault(p: Process, around: Surroundings)
    requires p.stage.Confirm? || p.stage.Harden? || p.stage.Password? || p.stage.Unlock?
    requires !ReadsPipe(p)
    ensures var q := OpenVault(p, WELL, around); q.Some? && q.value.origin == p.origin && LeadsToServing(q.value.stage)
  {
    hide HasLine, Answer, ReadsPipe;
  }

  lemma WellLive(p: Process, around: Surroundings)
    requires (p.stage.Announce? || p.stage.CloseOut? || p.stage.Notice? || p.stage.Notify?) && around.read
    ensures GoLive(p, around).origin == p.origin && LeadsToServing(GoLive(p, around).stage)
  {
    hide IsDetached, ExportLine, SocketPath;
  }

  lemma WellCall(p: Process, around: Surroundings)
    requires RoleFits(p) && ServesHere(p.origin) && !ReadsPipe(p) && around.read
    requires LeadsToServing(p.stage) && !p.stage.Serve?
    ensures var q := Call(p, WELL, around); q.Some? && q.value.origin == p.origin && LeadsToServing(q.value.stage)
  {
    hide RoleFits, ServesHere, ReadsPipe, Begin, OpenVault, GoLive;
    match p.stage
    case Dispatch | Parse | Decide => WellBegin(p);
    case Confirm | Harden | Password | Unlock => WellVault(p, around);
    case Announce | CloseOut | Notice | Notify => WellLive(p, around);
    case _ =>
  }

  lemma StepOnItsWay(p: Process) returns (q: Process)
    requires OnItsWay(p) && !p.stage.Serve?
    ensures Do([p], Move(0, Step(WELL))) == Some([q]) && OnItsWay(q) && StagesLeft(q) < StagesLeft(p)
  {
    assert Fits(p) && p.origin.launcher.None?;
    assert RoleFits(p);
    hide Fits, RoleFits, ServesHere, Call, StagesLeft;
    var around := Surroundings(true, true);
    WellCall(p, around);
    CallLowers(p, WELL, around);
    q := Call(p, WELL, around).value;
    assert [p][0 := q] == [q];
    assert Do([p], Move(0, Step(WELL))) == Some([q]);
    hide Inv;
    MoveKeeps([p], Move(0, Step(WELL)));
  }

  lemma {:induction false} WayToServing(p: Process) returns (moves: seq<Move>, q: Process)
    requires OnItsWay(p)
    ensures Play([p], moves) == Some([q]) && OnItsWay(q) && q.stage.Serve?
    ensures forall k | 0 <= k < |moves| :: Quiet(moves[k])
    decreases StagesLeft(p)
  {
    hide OnItsWay, Do, StagesLeft, Call;
    if p.stage.Serve? {
      moves, q := [], p;
    } else {
      var next := StepOnItsWay(p);
      var more;
      more, q := WayToServing(next);
      moves := [Move(0, Step(WELL))] + more;
      assert moves[1..] == more;
    }
  }

  lemma {:induction false} PlayThen(s: System, moves: seq<Move>, m: Move)
    requires Play(s, moves).Some?
    ensures Play(s, moves + [m]) == Do(Play(s, moves).value, m)
    decreases |moves|
  {
    hide Do;
    if moves == [] {
      assert moves + [m] == [m] && [m][1..] == [];
    } else {
      assert (moves + [m])[1..] == moves[1..] + [m];
      PlayThen(Do(s, moves[0]).value, moves[1..], m);
    }
  }

  /**
   For every such start there is a run in which the agent serves, and a signal
   that it does not catch, such as the closing of its terminal, then ends it with
   its socket still in the file system.
   */
  lemma {:induction false} HangupRun(origin: Origin) returns (moves: seq<Move>, p: Process)
    requires origin.launcher.None? && ServesHere(origin)
    ensures Play([Boot(origin)], moves) == Some([p]) && p.stage == Killed(Serve) && p.serving.socket
    ensures moves != [] && moves[|moves| - 1] == Move(0, Hangup)
    ensures forall k | 0 <= k < |moves| - 1 :: Quiet(moves[k])
  {
    hide ServesHere, Do, Quiet;
    BootFits(origin);
    var start, q := WayToServing(Boot(origin));
    hide Inv;
    HangupLeavesSocket([q]);
    p := q.(stage := Killed(Serve));
    assert [q][0 := p] == [p];
    moves := start + [Move(0, Hangup)];
    PlayThen([Boot(origin)], start, Move(0, Hangup));
    assert forall k | 0 <= k < |start| :: moves[k] == start[k];
  }
}
