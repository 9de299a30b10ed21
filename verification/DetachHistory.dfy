/**
 What a process has done by the time it is where it is: which calls of the source
 it has made, in which order, how they turned out, and what came of that.
 */
module DetachHistory {
  import opened Results
  import opened Text
  import opened Environment
  import opened AgentOptions
  import opened Lines
  import opened DetachProtocol
  import opened DetachInvariant
  import opened DetachSafety
  import opened DetachTheorems

  // ---- The calls of a run ----

  /** A call, and how it turned out. */
  datatype Made = Made(at: Stage, o: Outcome)

  /** The calls that process i makes in a run, in order. */
  function CallsOf(s: System, moves: seq<Move>, i: nat): seq<Made>
    decreases |moves|
  {
    if moves == [] || Do(s, moves[0]).None? then []
    else CallOf(s, moves[0], i) + CallsOf(Do(s, moves[0]).value, moves[1..], i)
  }

  function CallOf(s: System, m: Move, i: nat): seq<Made> {
    if m.who == i < |s| && m.action.Step? then [Made(s[i].stage, m.action.o)] else []
  }

  // ---- What the source does, as lists of calls ----

  /** What a process is for, by how it was started. */
  datatype Purpose = Other | Refused | Starting | Serving(locked: bool, detached: bool)

  function PurposeOf(origin: Origin): Purpose {
    if |origin.argv| < 2 || origin.argv[1] != "ssh-agent" then Other
    else
      match ParseFlags(origin.argv[2..])
      case Err(_) => Refused
      case Ok(flags) =>
        var detached := Getenv(origin.env, "KEEPIQ_SSH_AGENT_DETACHED") == Some("1");
        if flags.foreground || detached || origin.terminal then Purpose.Serving(flags.locked, detached) else Starting
  }

  /** The calls up to the one whose result decides how it goes on. */
  function Trunk(purpose: Purpose): seq<Stage> {
    match purpose
    case Other => [Dispatch]
    case Refused => [Dispatch, Parse]
    case Starting => [Dispatch, Parse, Decide, Locate, Ask, Pipe, Start, Collect]
    case Serving(locked, detached) =>
      [Dispatch, Parse, Decide, Stage.Confirm, Harden] + (if locked then [] else [Password, Unlock])
      + [Bind, Chmod, Announce] + (if detached then [CloseOut] else []) + [Notice, Notify]
  }

  /** The rest, if all goes well or not: exports or none, a signal or a listener that fails. */
  function Branch(purpose: Purpose, good: bool): seq<Stage> {
    match purpose
    case Other | Refused => []
    case Starting => if good then [Exports, Pid, Release] else [Await]
    case Serving(_, _) => if good then [Remove(true)] else [Serve, Remove(false)]
  }

  function Course(purpose: Purpose, good: bool): seq<Stage> {
    Trunk(purpose) + Branch(purpose, good)
  }

  function Names(calls: seq<Made>): seq<Stage> {
    seq(|calls|, k requires 0 <= k < |calls| => calls[k].at)
  }

  /** The calls made are a beginning of the course, and the next one is where the process stands, or stood. */
  predicate OnCourse(p: Process, names: seq<Stage>, course: seq<Stage>) {
    && names <= course
    && (p.stage.Returned? || (|names| < |course| && At(p) == course[|names|])
        || (p.stage == Killed(Announce) && names != [] && names[|names| - 1] == Announce))
  }

  /** No call is skipped, doubled or out of order; a process that succeeds has made them all. */
  predicate Follows(p: Process, calls: seq<Made>) {
    var purpose, names := PurposeOf(p.origin), Names(calls);
    && (OnCourse(p, names, Course(purpose, true)) || OnCourse(p, names, Course(purpose, false)))
    && (p.stage == Returned(true) ==> names == Course(purpose, true))
  }

  // ---- What came of the calls ----

  predicate Worked(calls: seq<Made>, st: Stage) {
    exists k | 0 <= k < |calls| :: calls[k].at == st && calls[k].o.ok
  }

  /** A call without which the source does not go on. */
  predicate Fatal(c: Made, confirm: bool) {
    !c.o.ok && (c.at.Locate? || c.at.Pipe? || c.at.Start? || (c.at.Confirm? && confirm) || c.at.Harden? || c.at.Unlock?
                || c.at.Bind? || c.at.Chmod? || c.at.Release?)
  }

  /** A fatal failure is the last call, and the process ends with an error. */
  predicate FailsAtOnce(p: Process, calls: seq<Made>) {
    forall k | 0 <= k < |calls| && Fatal(calls[k], p.flags.confirm) ::
      k == |calls| - 1 && p.stage == Returned(false)
  }

  /** The password is the answer to what was typed. */
  predicate HoldsPassword(p: Process, calls: seq<Made>) {
    && (forall k | 0 <= k < |calls| && calls[k].at.Ask? ::
          p.password == if p.flags.locked then None else Some(Answer(calls[k].o.text)))
    && (forall k | 0 <= k < |calls| && calls[k].at.Password? && !ReadsPipe(p) ::
          p.password == Some(Answer(calls[k].o.text)))
    && (p.password.Some? ==> exists k | 0 <= k < |calls| :: calls[k].at.Ask? || calls[k].at.Password?)
  }

  /** The copy is the process that the start delivered. */
  predicate HoldsCopy(p: Process, calls: seq<Made>) {
    forall k | 0 <= k < |calls| && calls[k].at.Start? && calls[k].o.ok ::
      p.launch.copy.Some? && p.launch.copyPid == calls[k].o.number
  }

  /** Nothing counts as done before the call that does it has worked. */
  predicate HoldsServing(p: Process, calls: seq<Made>) {
    && (p.serving.asks <==> p.flags.confirm && Worked(calls, Stage.Confirm))
    && (p.serving.hardened <==> Worked(calls, Harden))
    && (p.serving.unlocked <==> Worked(calls, Unlock))
    && (p.serving.listened <==> Worked(calls, Chmod))
  }

  /** What a process holds is what its calls delivered. */
  predicate Holds(p: Process, calls: seq<Made>) {
    HoldsPassword(p, calls) && HoldsCopy(p, calls) && HoldsServing(p, calls)
  }

  predicate Recorded(p: Process, calls: seq<Made>) {
    Follows(p, calls) && FailsAtOnce(p, calls) && Holds(p, calls)
  }

  // ---- The course, one call after another ----

  function Successor(purpose: Purpose, good: bool, st: Stage): Stage {
    match st
    case Dispatch => Parse
    case Parse => Decide
    case Decide => if purpose.Starting? then Locate else Stage.Confirm
    case Locate => Ask
    case Ask => Pipe
    case Pipe => Start
    case Start => Collect
    case Collect => if good then Exports else Await
    case Exports => Pid
    case Pid => Release
    case Confirm => Harden
    case Harden => if purpose.Serving? && purpose.locked then Bind else Password
    case Password => Unlock
    case Unlock => Bind
    case Bind => Chmod
    case Chmod => Announce
    case Announce => if purpose.Serving? && purpose.detached then CloseOut else Notice
    case CloseOut => Notice
    case Notice => Notify
    case Notify => if good then Remove(true) else Serve
    case Serve => Remove(false)
    case Await | Release | Remove(_) | Returned(_) | Killed(_) => st
  }

  function Rank(st: Stage): nat {
    match st
    case Dispatch => 0 case Parse => 1 case Decide => 2 case Locate => 3 case Ask => 4 case Pipe => 5 case Start => 6
    case Collect => 7 case Await => 8 case Exports => 9 case Pid => 10 case Release => 11
    case Confirm => 12 case Harden => 13 case Password => 14 case Unlock => 15 case Bind => 16 case Chmod => 17
    case Announce => 18 case CloseOut => 19 case Notice => 20 case Notify => 21 case Serve => 22 case Remove(_) => 23
    case Returned(_) | Killed(_) => 24
  }

  /** Each call but the last is followed by its successor. */
  ghost predicate Stepwise(purpose: Purpose, good: bool, c: seq<Stage>) {
    forall n, m | 0 <= n < |c| - 1 && m == n + 1 :: c[m] == Successor(purpose, good, c[n])
  }

  lemma StepwiseJoin(purpose: Purpose, good: bool, a: seq<Stage>, b: seq<Stage>)
    requires Stepwise(purpose, good, a) && Stepwise(purpose, good, b)
    requires a != [] && b != [] ==> b[0] == Successor(purpose, good, a[|a| - 1])
    ensures Stepwise(purpose, good, a + b)
  {
    hide Successor;
    forall n, m | 0 <= n < |a + b| - 1 && m == n + 1 ensures (a + b)[m] == Successor(purpose, good, (a + b)[n]) {
      if n >= |a| {
        assert b[m - |a|] == Successor(purpose, good, b[n - |a|]);
      }
    }
  }

  lemma ServingCourse(locked: bool, detached: bool, good: bool)
    ensures Stepwise(Purpose.Serving(locked, detached), good, Course(Purpose.Serving(locked, detached), good))
  {
    var purpose := Purpose.Serving(locked, detached);
    var prepare := PrepareSteps(purpose, good);
    var live := LiveSteps(purpose, good);
    StepwiseJoin(purpose, good, prepare, live);
    hide Stepwise, Successor;
    assert Course(purpose, good) == prepare + live;
  }

  lemma PrepareSteps(purpose: Purpose, good: bool) returns (c: seq<Stage>)
    requires purpose.Serving?
    ensures c == [Dispatch, Parse, Decide, Stage.Confirm, Harden] + (if purpose.locked then [] else [Password, Unlock])
      + [Bind, Chmod, Announce]
    ensures Stepwise(purpose, good, c) && c[|c| - 1] == Announce
  {
    hide Stepwise;
    var start, listen := [Dispatch, Parse, Decide, Stage.Confirm, Harden], [Bind, Chmod, Announce];
    var unlock := if purpose.locked then [] else [Password, Unlock];
    PiecesStep(purpose, good);
    StepwiseJoin(purpose, good, start, unlock);
    StepwiseJoin(purpose, good, start + unlock, listen);
    c := start + unlock + listen;
  }

  lemma LiveSteps(purpose: Purpose, good: bool) returns (c: seq<Stage>)
    requires purpose.Serving?
    ensures c == (if purpose.detached then [CloseOut] else []) + [Notice, Notify] + Branch(purpose, good)
    ensures Stepwise(purpose, good, c) && c[0] == if purpose.detached then CloseOut else Notice
  {
    hide Stepwise;
    var close := if purpose.detached then [CloseOut] else [];
    PiecesStep(purpose, good);
    StepwiseJoin(purpose, good, close, [Notice, Notify]);
    StepwiseJoin(purpose, good, close + [Notice, Notify], Branch(purpose, good));
    c := close + [Notice, Notify] + Branch(purpose, good);
  }

  lemma PiecesStep(purpose: Purpose, good: bool)
    requires purpose.Serving?
    ensures Stepwise(purpose, good, [Dispatch, Parse, Decide, Stage.Confirm, Harden])
    ensures Stepwise(purpose, good, []) && Stepwise(purpose, good, [Password, Unlock])
    ensures Stepwise(purpose, good, [Bind, Chmod, Announce]) && Stepwise(purpose, good, [CloseOut])
    ensures Stepwise(purpose, good, [Notice, Notify]) && Stepwise(purpose, good, Branch(purpose, good))
  {
    StartSteps(purpose, good);
    LaterSteps(purpose, good);
    hide Stepwise;
  }

  lemma StartSteps(purpose: Purpose, good: bool)
    requires purpose.Serving?
    ensures Stepwise(purpose, good, [Dispatch, Parse, Decide, Stage.Confirm, Harden])
  {
  }

  lemma LaterSteps(purpose: Purpose, good: bool)
    requires purpose.Serving?
    ensures Stepwise(purpose, good, []) && Stepwise(purpose, good, [Password, Unlock])
    ensures Stepwise(purpose, good, [Bind, Chmod, Announce]) && Stepwise(purpose, good, [CloseOut])
    ensures Stepwise(purpose, good, [Notice, Notify]) && Stepwise(purpose, good, Branch(purpose, good))
  {
    StepsOfTwo(purpose, good, Password, Unlock);
    StepsOfTwo(purpose, good, Bind, Chmod);
    StepsOfTwo(purpose, good, Notice, Notify);
    StepwiseJoin(purpose, good, [Bind, Chmod], [Announce]);
    assert [Bind, Chmod] + [Announce] == [Bind, Chmod, Announce];
    if !good {
      StepsOfTwo(purpose, good, Serve, Remove(false));
    }
  }

  lemma StepsOfTwo(purpose: Purpose, good: bool, st: Stage, next: Stage)
    requires next == Successor(purpose, good, st)
    ensures Stepwise(purpose, good, [st, next])
  {
    hide Successor;
  }

  lemma CourseNext(purpose: Purpose, good: bool, n: nat)
    requires n + 1 < |Course(purpose, good)|
    ensures Course(purpose, good)[n + 1] == Successor(purpose, good, Course(purpose, good)[n])
  {
    if purpose.Serving? {
      ServingCourse(purpose.locked, purpose.detached, good);
      hide Course, Successor;
    }
  }

  predicate InBranch(st: Stage) {
    st.Await? || st.Exports? || st.Pid? || st.Release? || st.Serve? || st.Remove? || st.Returned? || st.Killed?
  }

  predicate IsFinal(st: Stage) {
    st.Await? || st.Release? || st.Remove? || st.Returned? || st.Killed?
  }

  /** The trunk holds none of the calls that may come after it. */
  lemma TrunkMembers(purpose: Purpose)
    ensures Trunk(purpose) != [] && Trunk(purpose)[0] == Dispatch
    ensures forall st | st in Trunk(purpose) ::
      !InBranch(st) && (st.Ask? ==> purpose.Starting?) && (st.Password? ==> purpose.Serving?)
    ensures purpose.Serving? ==> Trunk(purpose)[|Trunk(purpose)| - 1] == Notify
  {
  }

  lemma SuccessorRank(purpose: Purpose, good: bool, st: Stage)
    requires !IsFinal(st)
    ensures Rank(st) < Rank(Successor(purpose, good, st))
  {
  }

  lemma OnlyLastFinal(purpose: Purpose, good: bool, n: nat)
    requires n + 1 < |Course(purpose, good)|
    ensures !IsFinal(Course(purpose, good)[n])
  {
    TrunkMembers(purpose);
    var trunk, c := Trunk(purpose), Course(purpose, good);
    hide Trunk;
    if n < |trunk| {
      assert c[n] == trunk[n] && trunk[n] in Trunk(purpose);
    } else {
      assert c[n] == Branch(purpose, good)[n - |trunk|];
    }
  }

  lemma NextRank(purpose: Purpose, good: bool, n: nat)
    requires n + 1 < |Course(purpose, good)|
    ensures var c := Course(purpose, good); Rank(c[n]) < Rank(c[n + 1])
  {
    hide Course, Rank, Successor, IsFinal;
    CourseNext(purpose, good, n);
    OnlyLastFinal(purpose, good, n);
    SuccessorRank(purpose, good, Course(purpose, good)[n]);
  }

  lemma {:induction false} RanksGrow(purpose: Purpose, good: bool, i: nat, j: nat)
    requires i < j < |Course(purpose, good)|
    ensures Rank(Course(purpose, good)[i]) < Rank(Course(purpose, good)[j])
    decreases j
  {
    var c := Course(purpose, good);
    hide Course, Rank;
    CourseNext(purpose, good, j - 1);
    if i < j - 1 {
      RanksGrow(purpose, good, i, j - 1);
    }
    NextRank(purpose, good, j - 1);
  }

  // ---- One call ----

  lemma PurposeFits(p: Process)
    requires RoleFits(p) && !p.stage.Killed?
    ensures p.stage.Parse? ==>
      !PurposeOf(p.origin).Other? && (PurposeOf(p.origin).Refused? <==> ParseFlags(p.args).Err?)
    ensures p.stage.Decide? ==> (PurposeOf(p.origin).Starting?
      <==> ShouldDetach(p.flags, IsDetached(p.origin.env), p.origin.terminal))
    ensures p.role.Starter? ==> PurposeOf(p.origin).Starting?
    ensures p.role.Agent? ==> PurposeOf(p.origin) == Purpose.Serving(p.flags.locked, IsDetached(p.origin.env))
    ensures p.stage.Decide? && !PurposeOf(p.origin).Starting? ==> PurposeOf(p.origin).Serving?
  {
    hide ParseFlags;
  }

  /** Where a call leads: to an end, or to the next call of the course. */
  predicate Leads(p: Process, q: Process) {
    var purpose := PurposeOf(p.origin);
    && q.origin == p.origin
    && (q.stage.Returned? || (q.stage == Killed(Announce) && p.stage.Announce?)
        || (q.stage == Successor(purpose, !p.stage.Notify?, p.stage) && !Finished(q)
            && !IsFinal(p.stage) && (p.stage.Dispatch? ==> !purpose.Other?) && (p.stage.Parse? ==> !purpose.Refused?)))
    && (q.stage == Returned(true) ==>
          p.stage.Release? || p.stage == Remove(true) || (p.stage.Dispatch? && purpose.Other?))
  }

  lemma BeginLeads(p: Process, o: Outcome)
    requires RoleFits(p) && (p.stage.Dispatch? || p.stage.Parse? || p.stage.Decide?)
    ensures Leads(p, Begin(p, o))
  {
    PurposeFits(p);
    hide ParseFlags, ShouldDetach, IsDetached;
  }

  lemma AgentPurpose(p: Process)
    requires RoleFits(p) && IsWorking(p.stage)
    ensures PurposeOf(p.origin) == Purpose.Serving(p.flags.locked, IsDetached(p.origin.env))
  {
    PurposeFits(p);
    hide PurposeOf, CommandOf, ParseFlags, ShouldDetach, IsDetached;
  }

  lemma VaultLeads(p: Process, o: Outcome, around: Surroundings)
    requires RoleFits(p) && (p.stage.Confirm? || p.stage.Harden? || p.stage.Password? || p.stage.Unlock?)
    requires OpenVault(p, o, around).Some?
    ensures Leads(p, OpenVault(p, o, around).value)
  {
    hide RoleFits, PurposeOf, HasLine, Answer, ReadsPipe, IsDetached;
    AgentPurpose(p);
  }

  lemma LiveLeads(p: Process, around: Surroundings)
    requires RoleFits(p) && (p.stage.Announce? || p.stage.CloseOut? || p.stage.Notice? || p.stage.Notify?)
    ensures Leads(p, GoLive(p, around))
  {
    hide RoleFits, PurposeOf, IsDetached, ExportLine, SocketPath;
    AgentPurpose(p);
  }

  lemma CallLeads(p: Process, o: Outcome, around: Surroundings)
    requires RoleFits(p) && Call(p, o, around).Some?
    ensures Leads(p, Call(p, o, around).value)
  {
    hide RoleFits, Begin, OpenVault, GoLive, PurposeOf, PidLine, Answer;
    match p.stage
    case Dispatch | Parse | Decide => BeginLeads(p, o);
    case Confirm | Harden | Password | Unlock => VaultLeads(p, o, around);
    case Announce | CloseOut | Notice | Notify => LiveLeads(p, around);
    case _ =>
  }

  // ---- Keeping to the course ----

  /** Where a process stands is nowhere it has been. */
  lemma {:induction false} StandsApart(p: Process, names: seq<Stage>, purpose: Purpose, good: bool)
    requires OnCourse(p, names, Course(purpose, good)) && !Finished(p)
    ensures forall k | 0 <= k < |names| :: Rank(names[k]) < Rank(p.stage)
  {
    var c := Course(purpose, good);
    hide Course, Rank;
    forall k | 0 <= k < |names| ensures Rank(names[k]) < Rank(p.stage) {
      RanksGrow(purpose, good, k, |names|);
      assert names[k] == c[k];
    }
  }

  lemma BranchMembers(purpose: Purpose, good: bool)
    ensures forall n | |Trunk(purpose)| <= n < |Course(purpose, good)| :: InBranch(Course(purpose, good)[n])
  {
    var branch := Branch(purpose, good);
    assert forall n | |Trunk(purpose)| <= n < |Course(purpose, good)| ::
      Course(purpose, good)[n] == branch[n - |Trunk(purpose)|];
    hide Trunk;
  }

  /** Before the trunk ends it does not matter which branch comes after it. */
  lemma EitherBranch(p: Process, names: seq<Stage>, purpose: Purpose, good: bool, other: bool)
    requires OnCourse(p, names, Course(purpose, good)) && !Finished(p) && !InBranch(p.stage)
    ensures OnCourse(p, names, Course(purpose, other))
  {
    var c := Course(purpose, good);
    BranchMembers(purpose, good);
    hide Trunk, Branch;
    assert c[..|Trunk(purpose)|] == Trunk(purpose) == Course(purpose, other)[..|Trunk(purpose)|];
  }

  /** A stage that has a successor is not the last. */
  lemma LastOfCourse(purpose: Purpose, good: bool)
    ensures var c := Course(purpose, good);
      && c != []
      && match purpose
         case Other => c[|c| - 1] == Dispatch
         case Refused => c[|c| - 1] == Parse
         case Starting => c[|c| - 1] == if good then Release else Await
         case Serving(_, _) => c[|c| - 1] == Remove(good)
  {
  }

  /** One step along the course. */
  lemma Advances(p: Process, q: Process, names: seq<Stage>, purpose: Purpose, good: bool)
    requires OnCourse(p, names, Course(purpose, good)) && !Finished(p)
    requires !IsFinal(p.stage) && (p.stage.Dispatch? ==> !purpose.Other?) && (p.stage.Parse? ==> !purpose.Refused?)
    requires q.stage == Successor(purpose, good, p.stage) && !q.stage.Killed?
    ensures OnCourse(q, names + [p.stage], Course(purpose, good))
  {
    var c, n := Course(purpose, good), |names|;
    LastOfCourse(purpose, good);
    hide Course, Successor;
    assert n + 1 < |c|;
    CourseNext(purpose, good, n);
    assert names + [p.stage] == c[..n + 1];
  }

  lemma Longer(p: Process, q: Process, names: seq<Stage>, purpose: Purpose, good: bool)
    requires OnCourse(p, names, Course(purpose, good)) && !Finished(p)
    requires q.stage.Returned? || (q.stage == Killed(Announce) && p.stage.Announce?)
    ensures OnCourse(q, names + [p.stage], Course(purpose, good))
  {
    var c := Course(purpose, good);
    hide Course;
    assert names + [p.stage] == c[..|names| + 1];
  }

  /** The last call of a process that succeeds is the last of the good course. */
  lemma Completes(p: Process, names: seq<Stage>, purpose: Purpose, good: bool)
    requires OnCourse(p, names, Course(purpose, good)) && !Finished(p)
    requires p.stage.Release? || p.stage == Remove(true) || (p.stage.Dispatch? && purpose.Other?)
    ensures names + [p.stage] == Course(purpose, true)
  {
    var c, n := Course(purpose, good), |names|;
    LastOfCourse(purpose, good);
    if n + 1 < |c| {
      OnlyLastFinal(purpose, good, n);
    }
    hide Trunk;
    assert names + [p.stage] == c;
  }

  /** One step from a place on a course to the next, by the branch that it takes. */
  lemma Steps(p: Process, q: Process, names: seq<Stage>, purpose: Purpose, take: bool)
    requires OnCourse(p, names, Course(purpose, true)) || OnCourse(p, names, Course(purpose, false))
    requires !Finished(p) && !IsFinal(p.stage)
    requires (p.stage.Dispatch? ==> !purpose.Other?) && (p.stage.Parse? ==> !purpose.Refused?)
    requires q.stage == Successor(purpose, take, p.stage) && !q.stage.Killed?
    ensures
      OnCourse(q, names + [p.stage], Course(purpose, true)) || OnCourse(q, names + [p.stage], Course(purpose, false))
  {
    hide Course, OnCourse;
    var good := OnCourse(p, names, Course(purpose, true));
    if InBranch(p.stage) {
      Advances(p, q, names, purpose, good);
    } else {
      EitherBranch(p, names, purpose, good, take);
      Advances(p, q, names, purpose, take);
    }
  }

  lemma NamesSnoc(calls: seq<Made>, c: Made)
    ensures Names(calls + [c]) == Names(calls) + [c.at]
  {
  }

  lemma CallIsLive(p: Process, o: Outcome, around: Surroundings)
    requires Call(p, o, around).Some?
    ensures !Finished(p)
  {
    hide Begin, PrepareCopy, PrintExports, OpenVault, Listen, GoLive, EndServing;
  }

  lemma CallFollows(p: Process, calls: seq<Made>, o: Outcome, around: Surroundings)
    requires RoleFits(p) && Follows(p, calls) && Call(p, o, around).Some?
    ensures Follows(Call(p, o, around).value, calls + [Made(p.stage, o)])
  {
    hide RoleFits, Call, PurposeOf, Course, Successor, OnCourse, Names, IsFinal;
    CallIsLive(p, o, around);
    var q, purpose, names := Call(p, o, around).value, PurposeOf(p.origin), Names(calls);
    var good := OnCourse(p, names, Course(purpose, true));
    CallLeads(p, o, around);
    NamesSnoc(calls, Made(p.stage, o));
    if Finished(q) {
      Longer(p, q, names, purpose, good);
      if q.stage == Returned(true) {
        Completes(p, names, purpose, good);
      }
    } else {
      Steps(p, q, names, purpose, !p.stage.Notify?);
    }
  }

  /** The calls of a starter that concern its copy. */
  lemma AttendFollows(p: Process, calls: seq<Made>, o: Outcome, q: Process)
    requires Follows(p, calls) && q.origin == p.origin && (p.stage.Start? || p.stage.Collect? || p.stage.Await?)
    requires q.stage == Returned(false) || (p.stage.Start? && q.stage.Collect?)
      || (p.stage.Collect? && (q.stage.Exports? || q.stage.Await?))
    ensures Follows(q, calls + [Made(p.stage, o)])
  {
    hide PurposeOf, Course, OnCourse, Names;
    var purpose, names := PurposeOf(p.origin), Names(calls);
    NamesSnoc(calls, Made(p.stage, o));
    if Finished(q) {
      Longer(p, q, names, purpose, OnCourse(p, names, Course(purpose, true)));
    } else {
      Steps(p, q, names, purpose, q.stage.Exports?);
    }
  }

  /** A signal cuts the course off, or has the listener closed. */
  lemma SignalFollows(p: Process, calls: seq<Made>, q: Process)
    requires Follows(p, calls) && !Finished(p) && q.origin == p.origin
    requires q.stage == Killed(p.stage) || (p.stage.Serve? && q.stage == Remove(true))
    ensures Follows(q, calls)
  {
    var purpose, names := PurposeOf(p.origin), Names(calls);
    hide PurposeOf, Names, Trunk;
    if p.stage.Serve? {
      var good := OnCourse(p, names, Course(purpose, true));
      ServeInCourse(purpose, good, |names|);
      assert names == Course(purpose, good)[..|names|] == Trunk(purpose);
    }
  }

  lemma ServeInCourse(purpose: Purpose, good: bool, n: nat)
    requires n < |Course(purpose, good)| && Course(purpose, good)[n] == Serve
    ensures purpose.Serving? && !good && n == |Trunk(purpose)|
  {
    TrunkMembers(purpose);
    var c, trunk := Course(purpose, good), Trunk(purpose);
    hide Trunk;
    assert forall i | 0 <= i < |trunk| :: c[i] == trunk[i] && !InBranch(trunk[i]);
    assert n >= |trunk| ==> c[n] == Branch(purpose, good)[n - |trunk|];
  }

  // ---- What a call delivers ----

  /** What one call does to all that is kept. */
  predicate Delivers(p: Process, o: Outcome, q: Process) {
    && ReadsPipe(q) == ReadsPipe(p) && (p.stage.Parse? || q.flags == p.flags)
    && (if p.stage.Start? && o.ok then q.launch.copy.Some? && q.launch.copyPid == o.number
        else q.launch.copy == p.launch.copy && q.launch.copyPid == p.launch.copyPid)
    && (p.stage.Ask? ==> q.password == if p.flags.locked then None else Some(Answer(o.text)))
    && (p.stage.Password? ==> q.password.Some? && (!ReadsPipe(p) ==> q.password == Some(Answer(o.text))))
    && (!p.stage.Ask? && !p.stage.Password? ==> q.password == p.password)
    && q.serving.asks == (if p.stage.Confirm? then p.flags.confirm && o.ok else p.serving.asks)
    && q.serving.hardened == (if p.stage.Harden? then o.ok else p.serving.hardened)
    && q.serving.unlocked == (if p.stage.Unlock? then o.ok else p.serving.unlocked)
    && q.serving.listened == (if p.stage.Chmod? then o.ok else p.serving.listened)
    && (Fatal(Made(p.stage, o), p.flags.confirm) ==> q.stage == Returned(false))
  }

  lemma BeginDelivers(p: Process, o: Outcome)
    requires p.stage.Dispatch? || p.stage.Parse? || p.stage.Decide?
    ensures Delivers(p, o, Begin(p, o))
  {
    hide ParseFlags, CommandOf, ShouldDetach, IsDetached;
  }

  lemma VaultDelivers(p: Process, o: Outcome, around: Surroundings)
    requires p.stage.Confirm? || p.stage.Harden? || p.stage.Password? || p.stage.Unlock?
    requires OpenVault(p, o, around).Some?
    ensures Delivers(p, o, OpenVault(p, o, around).value)
  {
    hide IsDetached, HasLine, Answer;
  }

  lemma LiveDelivers(p: Process, o: Outcome, around: Surroundings)
    requires p.stage.Announce? || p.stage.CloseOut? || p.stage.Notice? || p.stage.Notify?
    ensures Delivers(p, o, GoLive(p, around))
  {
    hide IsDetached, ExportLine, SocketPath;
  }

  lemma CallDelivers(p: Process, o: Outcome, around: Surroundings)
    requires Call(p, o, around).Some?
    ensures Delivers(p, o, Call(p, o, around).value)
  {
    hide Begin, OpenVault, GoLive, PidLine, Answer, IsDetached;
    match p.stage
    case Dispatch | Parse | Decide => BeginDelivers(p, o);
    case Confirm | Harden | Password | Unlock => VaultDelivers(p, o, around);
    case Announce | CloseOut | Notice | Notify => LiveDelivers(p, o, around);
    case _ =>
  }

  lemma Apart(p: Process, calls: seq<Made>)
    requires Follows(p, calls) && !Finished(p)
    ensures forall k | 0 <= k < |calls| :: Rank(calls[k].at) < Rank(p.stage)
  {
    hide PurposeOf, Course, Rank;
    var purpose, names := PurposeOf(p.origin), Names(calls);
    assert forall k | 0 <= k < |calls| :: names[k] == calls[k].at;
    if OnCourse(p, names, Course(purpose, true)) {
      StandsApart(p, names, purpose, true);
    } else {
      StandsApart(p, names, purpose, false);
    }
  }

  lemma WorkedSnoc(calls: seq<Made>, c: Made, st: Stage)
    ensures Worked(calls + [c], st) <==> Worked(calls, st) || (c.at == st && c.o.ok)
  {
    var all := calls + [c];
    assert all[|calls|] == c && forall k | 0 <= k < |calls| :: all[k] == calls[k];
  }

  lemma NotYetWorked(p: Process, calls: seq<Made>)
    requires Follows(p, calls) && !Finished(p)
    ensures !Worked(calls, p.stage)
  {
    hide Follows;
    Apart(p, calls);
  }

  lemma DeliveredFails(p: Process, calls: seq<Made>, o: Outcome, q: Process)
    requires Follows(p, calls) && !Finished(p) && FailsAtOnce(p, calls) && Delivers(p, o, q)
    ensures FailsAtOnce(q, calls + [Made(p.stage, o)])
  {
    hide Follows, Answer, ReadsPipe, Worked;
    Apart(p, calls);
    var all := calls + [Made(p.stage, o)];
    assert forall k | 0 <= k < |calls| :: all[k] == calls[k] && !Fatal(calls[k], q.flags.confirm);
    assert all[|calls|] == Made(p.stage, o);
  }

  /** A process that is asked for a password here has not asked for one there. */
  lemma AsksOnce(p: Process, calls: seq<Made>)
    requires Follows(p, calls) && p.stage.Password?
    ensures forall k | 0 <= k < |calls| :: !calls[k].at.Ask?
  {
    hide PurposeOf;
    var purpose, names := PurposeOf(p.origin), Names(calls);
    var good := OnCourse(p, names, Course(purpose, true));
    InTrunkOrBranch(purpose, good);
    hide Course;
    assert forall k | 0 <= k < |calls| :: Course(purpose, good)[k] == names[k] == calls[k].at;
  }

  lemma InTrunkOrBranch(purpose: Purpose, good: bool)
    ensures forall st | st in Course(purpose, good) ::
      (st.Ask? ==> purpose.Starting?) && (st.Password? ==> purpose.Serving?)
  {
    TrunkMembers(purpose);
    hide Trunk;
  }

  lemma DeliveredPassword(p: Process, calls: seq<Made>, o: Outcome, q: Process)
    requires Follows(p, calls) && !Finished(p) && HoldsPassword(p, calls) && Delivers(p, o, q)
    ensures HoldsPassword(q, calls + [Made(p.stage, o)])
  {
    hide Follows, Answer, ReadsPipe, Worked, Fatal;
    Apart(p, calls);
    if p.stage.Password? {
      AsksOnce(p, calls);
    }
    var all := calls + [Made(p.stage, o)];
    assert all[|calls|] == Made(p.stage, o) && forall k | 0 <= k < |calls| :: all[k] == calls[k];
    if q.password.Some? {
      if p.stage.Ask? || p.stage.Password? {
        assert all[|calls|].at.Ask? || all[|calls|].at.Password?;
      } else {
        var k :| 0 <= k < |calls| && (calls[k].at.Ask? || calls[k].at.Password?);
        assert all[k].at.Ask? || all[k].at.Password?;
      }
    }
  }

  lemma DeliveredServing(p: Process, calls: seq<Made>, o: Outcome, q: Process)
    requires Follows(p, calls) && !Finished(p) && HoldsServing(p, calls) && Delivers(p, o, q)
    ensures HoldsServing(q, calls + [Made(p.stage, o)])
  {
    hide Follows, Answer, ReadsPipe, Fatal;
    var c := Made(p.stage, o);
    NotYetWorked(p, calls);
    if p.stage.Parse? {
      NoConfirmYet(p, calls);
    }
    hide Worked;
    WorkedSnoc(calls, c, Stage.Confirm);
    WorkedSnoc(calls, c, Harden);
    WorkedSnoc(calls, c, Unlock);
    WorkedSnoc(calls, c, Chmod);
  }

  lemma NoConfirmYet(p: Process, calls: seq<Made>)
    requires Follows(p, calls) && p.stage.Parse?
    ensures !Worked(calls, Stage.Confirm)
  {
    hide Follows;
    Apart(p, calls);
  }

  lemma DeliveredCopy(p: Process, calls: seq<Made>, o: Outcome, q: Process)
    requires Follows(p, calls) && !Finished(p) && HoldsCopy(p, calls) && Delivers(p, o, q)
    ensures HoldsCopy(q, calls + [Made(p.stage, o)])
  {
    hide Follows, Answer, ReadsPipe, Worked, Fatal;
    Apart(p, calls);
    var all := calls + [Made(p.stage, o)];
    assert all[|calls|] == Made(p.stage, o) && forall k | 0 <= k < |calls| :: all[k] == calls[k];
  }

  lemma DeliveredRecords(p: Process, calls: seq<Made>, o: Outcome, q: Process)
    requires Recorded(p, calls) && !Finished(p) && Delivers(p, o, q) && Follows(q, calls + [Made(p.stage, o)])
    ensures Recorded(q, calls + [Made(p.stage, o)])
  {
    hide Follows, Delivers, FailsAtOnce, HoldsPassword, HoldsCopy, HoldsServing;
    DeliveredFails(p, calls, o, q);
    DeliveredPassword(p, calls, o, q);
    DeliveredCopy(p, calls, o, q);
    DeliveredServing(p, calls, o, q);
  }

  lemma CallRecords(p: Process, calls: seq<Made>, o: Outcome, around: Surroundings)
    requires RoleFits(p) && Recorded(p, calls) && Call(p, o, around).Some?
    ensures Recorded(Call(p, o, around).value, calls + [Made(p.stage, o)])
  {
    hide RoleFits, Follows, FailsAtOnce, Holds, Call, Delivers;
    CallIsLive(p, o, around);
    CallFollows(p, calls, o, around);
    CallDelivers(p, o, around);
    DeliveredRecords(p, calls, o, Call(p, o, around).value);
  }

  lemma AttendRecords(s: System, i: nat, calls: seq<Made>, o: Outcome)
    requires i < |s| && (s[i].stage.Start? || s[i].stage.Collect? || s[i].stage.Await?)
    requires Recorded(s[i], calls) && Attend(s, i, o).Some?
    ensures Recorded(Attend(s, i, o).value[i], calls + [Made(s[i].stage, o)])
  {
    hide Follows, FailsAtOnce, Holds, Handover, CopyOrigin, HasPrefix, IsDetached;
    var p, q := s[i], Attend(s, i, o).value[i];
    AttendFollows(p, calls, o, q);
    assert Delivers(p, o, q);
    DeliveredRecords(p, calls, o, q);
  }

  /** Nothing else of a process matters here. */
  lemma SameRecord(p: Process, q: Process, calls: seq<Made>)
    requires Recorded(p, calls)
    requires q.origin == p.origin && q.stage == p.stage && q.flags == p.flags && q.password == p.password
    requires q.serving == p.serving && q.launch.copy == p.launch.copy && q.launch.copyPid == p.launch.copyPid
    ensures Recorded(q, calls)
  {
    hide PurposeOf, Course, Names, Worked, Fatal, Answer;
  }

  lemma SignalLeaves(p: Process, q: Process)
    requires Signal(p) == Some(q) || Die(p) == Some(q)
    ensures !Finished(p) && (q.stage == Killed(p.stage) || (p.stage.Serve? && q.stage == Remove(true)))
    ensures q.origin == p.origin && q.flags == p.flags && q.password == p.password && q.launch == p.launch
    ensures q.serving == p.serving.(socket := q.serving.socket)
  {
  }

  lemma SignalRecords(p: Process, q: Process, calls: seq<Made>)
    requires Recorded(p, calls) && (Signal(p) == Some(q) || Die(p) == Some(q))
    ensures Recorded(q, calls)
  {
    hide Follows, Worked, Fatal, Answer, IsDetached, Signal, Die;
    SignalLeaves(p, q);
    SignalFollows(p, calls, q);
  }

  lemma BootRecorded(origin: Origin)
    ensures Recorded(Boot(origin), [])
  {
    hide PurposeOf, Trunk;
    TrunkMembers(PurposeOf(origin));
    assert Course(PurposeOf(origin), true)[0] == Dispatch;
  }

  // ---- Every run ----

  predicate AllRecorded(s: System, first: seq<Made>, second: seq<Made>) {
    && Inv(s) && Recorded(s[0], first)
    && if |s| == 2 then Recorded(s[1], second) else second == []
  }

  /** What a move of process i leaves of process j. */
  predicate Unmoved(p: Process, q: Process) {
    && q.origin == p.origin && q.stage == p.stage && q.flags == p.flags && q.password == p.password
    && q.serving == p.serving && q.launch.copy == p.launch.copy && q.launch.copyPid == p.launch.copyPid
  }

  lemma StepRecords(s: System, i: nat, o: Outcome, calls: seq<Made>)
    requires Inv(s) && i < |s| && Recorded(s[i], calls) && Do(s, Move(i, Step(o))).Some?
    ensures var t := Do(s, Move(i, Step(o))).value; i < |t| && Recorded(t[i], calls + [Made(s[i].stage, o)])
  {
    InvRoles(s, i);
    hide Inv, RoleFits, Recorded, Call, Attend;
    if s[i].stage.Start? || s[i].stage.Collect? || s[i].stage.Await? {
      AttendRecords(s, i, calls, o);
      AttendKeepsSize(s, i, o);
    } else {
      CallRecords(s[i], calls, o, Around(s, i));
    }
  }

  lemma AttendKeepsSize(s: System, i: nat, o: Outcome)
    requires i < |s| && (s[i].stage.Start? || s[i].stage.Collect? || s[i].stage.Await?) && Attend(s, i, o).Some?
    ensures |Attend(s, i, o).value| >= |s|
  {
    hide CopyOrigin, Handover, HasPrefix;
  }

  lemma SignalRecordsMover(s: System, m: Move, calls: seq<Made>)
    requires m.who < |s| && Recorded(s[m.who], calls) && IsSignal(m.action) && Do(s, m).Some?
    ensures m.who < |Do(s, m).value| && Recorded(Do(s, m).value[m.who], calls)
  {
    hide Recorded, Signal, Die;
    var q := if m.action.Stop? then Signal(s[m.who]).value else Die(s[m.who]).value;
    SignalRecords(s[m.who], q, calls);
  }

  lemma MoveRecordsMover(s: System, m: Move, calls: seq<Made>)
    requires Inv(s) && Do(s, m).Some? && m.who < |s| && Recorded(s[m.who], calls)
    ensures m.who < |Do(s, m).value| && Recorded(Do(s, m).value[m.who], calls + CallOf(s, m, m.who))
  {
    hide Inv, Do, Recorded;
    assert calls + [] == calls;
    if m.action.Step? {
      StepRecords(s, m.who, m.action.o, calls);
      assert m == Move(m.who, Step(m.action.o));
    } else if IsSignal(m.action) {
      SignalRecordsMover(s, m, calls);
    } else {
      MoverUnmoved(s, m);
      SameRecord(s[m.who], Do(s, m).value[m.who], calls);
    }
  }

  lemma MoverUnmoved(s: System, m: Move)
    requires Do(s, m).Some? && !m.action.Step? && !IsSignal(m.action)
    ensures |Do(s, m).value| == |s| && forall i | 0 <= i < |s| :: Unmoved(s[i], Do(s, m).value[i])
  {
    hide Call, Attend, Signal, Die;
  }

  lemma InvRoles(s: System, i: nat)
    requires Inv(s) && i < |s|
    ensures RoleFits(s[i])
  {
    hide RoleFits, PasswordFits, PreparedFits, SocketFits, OutputFits, LaunchFits, Settled, Paired, StreamsFit;
  }

  /** A process is not touched by what the other one does, but for its pipes, or it is new. */
  lemma OtherUnmoved(s: System, m: Move, j: nat)
    requires Do(s, m).Some? && m.who < |s| && j != m.who && j < |s| <= |Do(s, m).value|
    ensures Unmoved(s[j], Do(s, m).value[j])
  {
    if !m.action.Step? && !IsSignal(m.action) {
      MoverUnmoved(s, m);
    }
    hide Call, Signal, Die, CopyOrigin, Handover, HasPrefix;
  }

  lemma Sizes(s: System, m: Move)
    requires Inv(s) && Do(s, m).Some?
    ensures var t := Do(s, m).value;
      && m.who < |s| <= |t| <= 2
      && (|t| == 2 && |s| == 1 ==> m.who == 0 && m.action.Step? && exists origin :: t[1] == Boot(origin))
  {
    hide Inv, Do;
    MoveKeeps(s, m);
    InvPair(s);
    InvPair(Do(s, m).value);
    Grows(s, m);
  }

  lemma InvPair(s: System)
    requires Inv(s)
    ensures 1 <= |s| <= 2
  {
    hide PairFits, Fits;
  }

  /** Processes are only added, by a starter, at the end. */
  lemma Grows(s: System, m: Move)
    requires Do(s, m).Some?
    ensures var t := Do(s, m).value;
      && m.who < |s| <= |t| <= |s| + 1
      && (|t| == |s| + 1 ==> m.action.Step? && exists origin :: t[|s|] == Boot(origin))
  {
    hide Call, Signal, Die, CopyOrigin, Handover, HasPrefix, Boot;
  }

  lemma MoveRecords(s: System, m: Move, first: seq<Made>, second: seq<Made>)
    requires AllRecorded(s, first, second) && Do(s, m).Some?
    ensures AllRecorded(Do(s, m).value, first + CallOf(s, m, 0), second + CallOf(s, m, 1))
  {
    var t := Do(s, m).value;
    Sizes(s, m);
    MoveKeeps(s, m);
    hide Inv, Do, Recorded, Unmoved;
    assert first + [] == first && second + [] == second;
    if m.who == 0 {
      MoveRecordsMover(s, m, first);
      if |s| == 2 {
        OtherRecorded(s, m, 1, second);
      } else if |t| == 2 {
        var origin :| t[1] == Boot(origin);
        BootRecorded(origin);
      }
    } else {
      MoveRecordsMover(s, m, second);
      OtherRecorded(s, m, 0, first);
    }
  }

  lemma OtherRecorded(s: System, m: Move, j: nat, calls: seq<Made>)
    requires Do(s, m).Some? && m.who < |s| && j != m.who && j < |s| <= |Do(s, m).value| && Recorded(s[j], calls)
    ensures Recorded(Do(s, m).value[j], calls)
  {
    hide Do, Recorded;
    OtherUnmoved(s, m, j);
    SameRecord(s[j], Do(s, m).value[j], calls);
  }

  lemma {:induction false} PlayRecords(s: System, moves: seq<Move>, first: seq<Made>, second: seq<Made>)
    requires AllRecorded(s, first, second) && Play(s, moves).Some?
    ensures AllRecorded(Play(s, moves).value, first + CallsOf(s, moves, 0), second + CallsOf(s, moves, 1))
    decreases |moves|
  {
    hide AllRecorded, Do, CallOf;
    if moves == [] {
      assert first + [] == first && second + [] == second;
    } else {
      var m, t := moves[0], Do(s, moves[0]).value;
      MoveRecords(s, m, first, second);
      PlayRecords(t, moves[1..], first + CallOf(s, m, 0), second + CallOf(s, m, 1));
      assert first + CallOf(s, m, 0) + CallsOf(t, moves[1..], 0)
          == first + (CallOf(s, m, 0) + CallsOf(t, moves[1..], 0));
      assert second + CallOf(s, m, 1) + CallsOf(t, moves[1..], 1)
          == second + (CallOf(s, m, 1) + CallsOf(t, moves[1..], 1));
    }
  }

  /**
   In every run each process has made a beginning of the calls that the source
   makes for its command line and environment, in that order; it went on after no
   fatal failure; and it holds what its calls delivered.
   */
  lemma {:induction false} RunRecorded(origin: Origin, moves: seq<Move>, s: System, i: nat)
    requires origin.launcher.None? && Play([Boot(origin)], moves) == Some(s) && i < |s|
    ensures i < 2 && Recorded(s[i], CallsOf([Boot(origin)], moves, i))
  {
    hide *;
    BootAllRecorded(origin);
    PlayRecords([Boot(origin)], moves, [], []);
    var first, second := CallsOf([Boot(origin)], moves, 0), CallsOf([Boot(origin)], moves, 1);
    assert [] + first == first && [] + second == second;
    OneRecorded(s, first, second, i);
  }

  lemma BootAllRecorded(origin: Origin)
    requires origin.launcher.None?
    ensures AllRecorded([Boot(origin)], [], [])
  {
    hide Fits, Recorded;
    BootFits(origin);
    BootRecorded(origin);
  }

  lemma OneRecorded(s: System, first: seq<Made>, second: seq<Made>, i: nat)
    requires AllRecorded(s, first, second) && i < |s|
    ensures i < 2 && Recorded(s[i], if i == 0 then first else second)
  {
    hide Recorded, PairFits, Fits;
  }

  // ---- What that means ----

  /** The password was typed when the process asked for it, in the starter or in an agent that runs in place. */
  predicate Typed(password: Option<string>, calls: seq<Made>, at: Stage) {
    exists k | 0 <= k < |calls| :: calls[k].at == at && password == Some(Answer(calls[k].o.text))
  }

  /** A first process has no password but the answer to what was typed at its one prompt. */
  lemma {:induction false} PasswordTyped(origin: Origin, moves: seq<Move>, s: System)
    requires origin.launcher.None? && Play([Boot(origin)], moves) == Some(s) && s != [] && s[0].password.Some?
    ensures Typed(s[0].password, CallsOf([Boot(origin)], moves, 0), if s[0].role.Starter? then Ask else Password)
  {
    var calls := CallsOf([Boot(origin)], moves, 0);
    RunRecorded(origin, moves, s, 0);
    RunKeeps(origin, moves);
    InvRoles(s, 0);
    FirstPassword(s);
    PromptByRole(s[0], calls);
    NotFromPipe(s);
    hide Play, Inv, Follows, FailsAtOnce, HoldsCopy, HoldsServing, ReadsPipe, Answer, RoleFits, PasswordFits,
      Boot;
    var k :| 0 <= k < |calls| && (calls[k].at.Ask? || calls[k].at.Password?);
  }

  lemma FirstPassword(s: System)
    requires Inv(s)
    ensures PasswordFits(s[0])
  {
    hide PairFits, PasswordFits, RoleFits, PreparedFits, SocketFits, OutputFits, LaunchFits;
  }

  lemma NotFromPipe(s: System)
    requires Inv(s)
    ensures !ReadsPipe(s[0])
  {
    hide PairFits, Fits;
  }

  /** A starter has made no call of an agent, and an agent none of a starter. */
  lemma PromptByRole(p: Process, calls: seq<Made>)
    requires RoleFits(p) && PasswordFits(p) && Follows(p, calls) && p.password.Some?
    ensures forall k | 0 <= k < |calls| :: if p.role.Starter? then !calls[k].at.Password? else !calls[k].at.Ask?
  {
    RolePurpose(p);
    hide RoleFits, PurposeOf, PasswordFits;
    var purpose, names := PurposeOf(p.origin), Names(calls);
    var good := OnCourse(p, names, Course(purpose, true));
    InTrunkOrBranch(purpose, good);
    hide Course;
    assert forall k | 0 <= k < |calls| :: Course(purpose, good)[k] == names[k] == calls[k].at;
  }

  lemma RolePurpose(p: Process)
    requires RoleFits(p) && PasswordFits(p) && p.password.Some?
    ensures if p.role.Starter? then PurposeOf(p.origin).Starting? else PurposeOf(p.origin).Serving?
  {
    hide ParseFlags, IsAnswer;
  }

  /**
   What a starter that prints has handed over: the copy is unlocked with the answer
   to what was typed at the starter's prompt, by a call that worked.
   */
  lemma {:induction false} UnlockedWithTyped(origin: Origin, moves: seq<Move>, s: System)
    requires origin.launcher.None? && Play([Boot(origin)], moves) == Some(s)
    requires s != [] && s[0].role.Starter? && s[0].out != "" && !s[0].flags.locked
    ensures |s| == 2
    ensures Typed(s[1].password, CallsOf([Boot(origin)], moves, 0), Ask)
    ensures Worked(CallsOf([Boot(origin)], moves, 1), Unlock) && Worked(CallsOf([Boot(origin)], moves, 1), Chmod)
  {
    ExportsAreTrue(origin, moves, s);
    PasswordTyped(origin, moves, s);
    RunRecorded(origin, moves, s, 1);
    var calls := CallsOf([Boot(origin)], moves, 1);
    assert HoldsServing(s[1], calls);
    assert s[1].password == s[0].password && s[1].serving.unlocked && s[1].serving.listened;
    hide *;
  }

  /** The role comes from the command line and the environment: where nothing speaks against it a copy is started. */
  lemma {:induction false} RoleIff(origin: Origin, moves: seq<Move>, s: System, i: nat)
    requires origin.launcher.None? && Play([Boot(origin)], moves) == Some(s) && i < |s| && !s[i].role.Undecided?
    ensures var p := s[i];
      && |p.origin.argv| >= 2 && p.origin.argv[1] == "ssh-agent" && ParseFlags(p.origin.argv[2..]) == Ok(p.flags)
      && (p.role.Starter? <==>
            !p.flags.foreground && !p.origin.terminal && Getenv(p.origin.env, "KEEPIQ_SSH_AGENT_DETACHED") != Some("1"))
  {
    RunKeeps(origin, moves);
    InvRoles(s, i);
    hide Play, Inv, ParseFlags, Boot;
  }

  /** The text of the export line: the path given, or else the default one. */
  function SocketLine(flags: AgentFlags, fallback: string): string {
    "SSH_AUTH_SOCK=" + (if flags.socket != "" then flags.socket else fallback) + "; export SSH_AUTH_SOCK;\n"
  }

  /** Every line that is printed names the socket of `--socket`, or the default one without it. */
  lemma {:induction false} SocketHonoured(origin: Origin, moves: seq<Move>, s: System, i: nat)
    requires origin.launcher.None? && Play([Boot(origin)], moves) == Some(s) && i < |s| && s[i].out != ""
    ensures s[i].role.Agent? ==> s[i].out == SocketLine(s[i].flags, s[i].origin.fallback)
    ensures s[i].role.Starter? ==> |s| == 2 && SocketLine(s[i].flags, s[i].origin.fallback) <= s[i].out
  {
    RunKeeps(origin, moves);
    if s[i].role.Starter? {
      StarterFirst(s, i);
      ExportsAreTrue(origin, moves, s);
      hide Play, Inv, Boot, PidLine;
    } else {
      AgentOutput(s, i);
      hide Play, Inv, Boot;
    }
  }

  lemma StarterFirst(s: System, i: nat)
    requires Inv(s) && i < |s| && s[i].role.Starter?
    ensures i == 0
  {
    hide Fits, StreamsFit, Settled;
    if i == 1 {
      CopyNeverAsks(s[0], s[1]);
    }
  }

  lemma AgentOutput(s: System, i: nat)
    requires Inv(s) && i < |s|
    ensures OutputFits(s[i])
  {
    hide OutputFits, RoleFits, PasswordFits, PreparedFits, SocketFits, LaunchFits, StreamsFit, Settled, Paired;
  }
}
