/** What every step of every run of the detach protocol keeps. */
module DetachInvariant {
  import opened Results
  import opened Text
  import opened Environment
  import opened AgentOptions
  import opened Lines
  import opened DetachProtocol

  /** The stage a process is at, or was at when a signal killed it. */
  function At(p: Process): Stage {
    if p.stage.Killed? then p.stage.during else p.stage
  }

  predicate IsStarting(st: Stage) {
    st.Locate? || st.Ask? || st.Pipe? || st.Start? || IsLaunched(st)
  }

  /** The copy is running, or has run. */
  predicate IsLaunched(st: Stage) {
    st.Collect? || st.Await? || st.Exports? || st.Pid? || st.Release?
  }

  /** The socket of an agent at this stage is in the file system. */
  predicate IsBound(st: Stage) {
    st.Chmod? || IsListening(st)
  }

  predicate IsListening(st: Stage) {
    st.Announce? || IsAnnounced(st)
  }

  predicate IsAnnounced(st: Stage) {
    st.CloseOut? || st.Notice? || st.Notify? || st.Serve? || st.Remove?
  }

  /** Closing the listener unlinks the socket before the deferred removal does. */
  predicate IsUnlinked(st: Stage) {
    st.Remove? && st.ok
  }

  predicate IsWorking(st: Stage) {
    st.Confirm? || st.Harden? || st.Password? || st.Unlock? || st.Bind? || IsBound(st)
  }

  predicate IsAgentCommand(c: Command) {
    c.Run? && c.word == AGENT_COMMAND
  }

  // ---- One process ----

  predicate RoleFits(p: Process) {
    var at := At(p);
    && !at.Killed? && (p.stage.Killed? ==> !at.Returned?)
    && (p.role.Undecided? && p.stage == Returned(true) ==> !IsAgentCommand(CommandOf(p.origin.argv)))
    && (at.Dispatch? || at.Parse? || at.Decide? ==> p.role.Undecided?)
    && (IsStarting(at) ==> p.role.Starter?)
    && (IsWorking(at) ==> p.role.Agent?)
    && (at.Parse? || at.Decide? || !p.role.Undecided? ==> CommandOf(p.origin.argv) == Run(AGENT_COMMAND, p.args))
    && (at.Decide? || !p.role.Undecided? ==> ParseFlags(p.args) == Ok(p.flags))
    && (!p.role.Undecided? ==>
        (p.role.Starter? <==> ShouldDetach(p.flags, IsDetached(p.origin.env), p.origin.terminal)))
  }

  /** When there is a password, and that it is one a prompt can return. */
  predicate PasswordFits(p: Process) {
    var at := At(p);
    && (p.password.Some? ==> IsAnswer(p.password.value) && !p.flags.locked && !p.role.Undecided?)
    && (at.Password? ==> !p.flags.locked)
    && (at.Unlock? || p.serving.unlocked ==> p.password.Some?)
    && (at.Bind? || IsBound(at) || p.serving.listened ==> p.flags.locked || p.serving.unlocked)
    && (at.Pipe? || at.Start? || IsLaunched(at) || p.launch.copy.Some? ==>
        p.role.Starter? && (p.flags.locked || p.password.Some?))
  }

  /** No vault is unlocked and no socket opened with core dumps on, or without the confirmation asked for. */
  predicate PreparedFits(p: Process) {
    var at := At(p);
    && (at.Harden? || p.serving.hardened ==> p.flags.confirm ==> p.serving.asks)
    && (at.Password? || at.Unlock? || at.Bind? || IsBound(at) || p.serving.unlocked || p.serving.listened ==>
        p.serving.hardened)
    && (p.serving.hardened || p.serving.asks ==> p.role.Agent?)
    && (at.Confirm? || at.Harden? ==> !p.serving.hardened)
  }

  predicate SocketFits(p: Process) {
    var at := At(p);
    && (p.serving.listened ==> p.role.Agent?)
    && (!at.Returned? ==> (p.serving.listened <==> IsListening(at)))
    && (p.serving.socket <==> IsBound(at) && !IsUnlinked(at))
    && (p.role.Agent? && p.stage == Returned(true) ==> p.serving.listened)
    && p.serving.removals == (if at.Returned? && p.serving.listened then 1 else 0)
  }

  /** An agent's export line is out. */
  predicate HasAnnounced(p: Process) {
    IsAnnounced(At(p)) || (p.stage.Returned? && p.serving.listened)
  }

  predicate OutputFits(p: Process) {
    var at := At(p);
    && (p.role.Undecided? ==> p.out == "" && !p.serving.listened)
    && (p.role.Agent? ==> p.out == if HasAnnounced(p) then ExportLine(SocketPath(p.flags, p.origin.fallback)) else "")
    && (!p.outOpen ==> p.out != "" && p.role.Agent?)
    && (IsAnnounced(at) && !at.CloseOut? && IsDetached(p.origin.env) ==> !p.outOpen)
  }

  predicate LaunchFits(p: Process) {
    var at := At(p);
    && (p.launch.copy.None? ==> p.launch.exports == "" && p.launch.feed == "")
    && (IsLaunched(at) ==> p.launch.copy.Some?)
    && (at.Exports? || at.Pid? || at.Release? || (p.role.Starter? && p.out != "") ==>
        HasPrefix(p.launch.exports, SOCK_PREFIX))
    && (p.role.Starter? && p.stage == Returned(true) ==> p.out != "")
    && (p.role.Starter? ==>
        if at.Pid? then p.out == p.launch.exports
        else if at.Release? then p.out == p.launch.exports + PidLine(p.launch.copyPid)
        else p.out == "" || (at.Returned? && p.out == p.launch.exports + PidLine(p.launch.copyPid)))
  }

  predicate Fits(p: Process) {
    RoleFits(p) && PasswordFits(p) && PreparedFits(p) && SocketFits(p) && OutputFits(p) && LaunchFits(p)
  }

  lemma ExportLineStarts(path: string)
    ensures ExportLine(path) != "" && HasPrefix(ExportLine(path), SOCK_PREFIX)
    ensures !HasPrefix("", SOCK_PREFIX)
  {
    assert SOCK_PREFIX + path + "; export SSH_AUTH_SOCK;\n" == SOCK_PREFIX + (path + "; export SSH_AUTH_SOCK;\n");
  }

  lemma BootFits(origin: Origin)
    ensures Fits(Boot(origin))
  {
  }

  lemma BeginFits(p: Process, o: Outcome)
    requires Fits(p) && (p.stage.Dispatch? || p.stage.Parse? || p.stage.Decide?)
    ensures Fits(Begin(p, o))
  {
    hide ParseFlags, CommandOf, ShouldDetach, IsDetached, IsAnswer, HasPrefix, PidLine, ExportLine, SocketPath;
  }

  lemma PrepareCopyFits(p: Process, o: Outcome)
    requires Fits(p) && (p.stage.Locate? || p.stage.Ask? || p.stage.Pipe?)
    ensures Fits(PrepareCopy(p, o))
  {
    hide ParseFlags, CommandOf, ShouldDetach, IsDetached, IsAnswer, HasPrefix, PidLine, ExportLine, SocketPath;
    AnswerIsAnswer(o.text);
    hide Answer;
  }

  lemma PrintExportsFits(p: Process, o: Outcome)
    requires Fits(p) && (p.stage.Exports? || p.stage.Pid? || p.stage.Release?)
    ensures Fits(PrintExports(p, o))
  {
    ExportLineStarts("");
    hide ParseFlags, CommandOf, ShouldDetach, IsDetached, IsAnswer, HasPrefix, PidLine, ExportLine, SocketPath;
  }

  lemma TakePasswordFits(p: Process, text: string)
    requires Fits(p) && p.stage.Password?
    ensures Fits(p.(password := Some(Answer(text)), stage := Unlock))
  {
    hide ParseFlags, CommandOf, ShouldDetach, IsDetached, IsAnswer, HasPrefix, PidLine, ExportLine, SocketPath;
    AnswerIsAnswer(text);
    hide Answer;
  }

  lemma ConfirmFits(p: Process, ok: bool)
    requires Fits(p) && p.stage.Confirm?
    ensures Fits(Check(!p.flags.confirm || ok, p.(serving := p.serving.(asks := p.flags.confirm && ok)), Harden))
  {
    hide ParseFlags, CommandOf, ShouldDetach, IsDetached, IsAnswer, HasPrefix, PidLine, ExportLine, SocketPath;
  }

  lemma HardenFits(p: Process, ok: bool)
    requires Fits(p) && p.stage.Harden?
    ensures Fits(Check(ok, p.(serving := p.serving.(hardened := ok)), if p.flags.locked then Bind else Password))
  {
    hide ParseFlags, CommandOf, ShouldDetach, IsDetached, IsAnswer, HasPrefix, PidLine, ExportLine, SocketPath;
  }

  lemma UnlockFits(p: Process, ok: bool)
    requires Fits(p) && p.stage.Unlock?
    ensures Fits(Check(ok, p.(serving := p.serving.(unlocked := ok)), Bind))
  {
    hide ParseFlags, CommandOf, ShouldDetach, IsDetached, IsAnswer, HasPrefix, PidLine, ExportLine, SocketPath;
  }

  lemma OpenVaultFits(p: Process, o: Outcome, around: Surroundings)
    requires Fits(p) && (p.stage.Confirm? || p.stage.Harden? || p.stage.Password? || p.stage.Unlock?)
    requires OpenVault(p, o, around).Some?
    ensures Fits(OpenVault(p, o, around).value)
  {
    hide Fits, Answer, Check;
    match p.stage
    case Confirm => ConfirmFits(p, o.ok);
    case Harden => HardenFits(p, o.ok);
    case Password =>
      TakePasswordFits(p, o.text);
      TakePasswordFits(p, p.line);
    case Unlock => UnlockFits(p, o.ok);
  }

  lemma ListenFits(p: Process, o: Outcome)
    requires Fits(p) && (p.stage.Bind? || p.stage.Chmod?)
    ensures Fits(Listen(p, o))
  {
    hide ParseFlags, CommandOf, ShouldDetach, IsDetached, IsAnswer, HasPrefix, PidLine, ExportLine, SocketPath;
  }

  lemma AnnounceFits(p: Process, around: Surroundings)
    requires Fits(p) && p.stage.Announce?
    ensures Fits(GoLive(p, around))
  {
    var text := ExportLine(SocketPath(p.flags, p.origin.fallback));
    ExportLineStarts(SocketPath(p.flags, p.origin.fallback));
    assert "" + text == text;
    hide ParseFlags, CommandOf, ShouldDetach, IsDetached, IsAnswer, HasPrefix, PidLine, ExportLine, SocketPath;
  }

  lemma CloseOutFits(p: Process)
    requires Fits(p) && p.stage.CloseOut?
    ensures Fits(p.(outOpen := false, stage := Notice))
  {
    ExportLineStarts(SocketPath(p.flags, p.origin.fallback));
    hide ParseFlags, CommandOf, ShouldDetach, IsDetached, IsAnswer, HasPrefix, PidLine, ExportLine, SocketPath;
  }

  lemma NoticeFits(p: Process)
    requires Fits(p) && (p.stage.Notice? || p.stage.Notify?)
    ensures Fits(p.(stage := if p.stage.Notice? then Notify else Serve))
  {
    hide ParseFlags, CommandOf, ShouldDetach, IsDetached, IsAnswer, HasPrefix, PidLine, ExportLine, SocketPath;
  }

  lemma GoLiveFits(p: Process, around: Surroundings)
    requires Fits(p) && (p.stage.Announce? || p.stage.CloseOut? || p.stage.Notice? || p.stage.Notify?)
    ensures Fits(GoLive(p, around))
  {
    hide Fits;
    match p.stage
    case Announce => AnnounceFits(p, around);
    case CloseOut => CloseOutFits(p);
    case Notice => NoticeFits(p);
    case Notify => NoticeFits(p);
  }

  lemma EndServingFits(p: Process, o: Outcome)
    requires Fits(p) && (p.stage.Serve? || p.stage.Remove?) && EndServing(p, o).Some?
    ensures Fits(EndServing(p, o).value)
  {
    hide ParseFlags, CommandOf, ShouldDetach, IsDetached, IsAnswer, HasPrefix, PidLine, ExportLine, SocketPath;
  }

  lemma SignalFits(p: Process)
    requires Fits(p) && Signal(p).Some?
    ensures Fits(Signal(p).value)
  {
    hide ParseFlags, CommandOf, ShouldDetach, IsDetached, IsAnswer, HasPrefix, PidLine, ExportLine, SocketPath;
  }

  lemma DieFits(p: Process)
    requires Fits(p) && Die(p).Some?
    ensures Fits(Die(p).value)
  {
    hide ParseFlags, CommandOf, ShouldDetach, IsDetached, IsAnswer, HasPrefix, PidLine, ExportLine, SocketPath;
  }

  lemma CallFits(p: Process, o: Outcome, around: Surroundings)
    requires Fits(p) && Call(p, o, around).Some?
    ensures Fits(Call(p, o, around).value)
  {
    hide Fits;
    match p.stage
    case Dispatch | Parse | Decide => BeginFits(p, o);
    case Locate | Ask | Pipe => PrepareCopyFits(p, o);
    case Exports | Pid | Release => PrintExportsFits(p, o);
    case Confirm | Harden | Password | Unlock => OpenVaultFits(p, o, around);
    case Bind | Chmod => ListenFits(p, o);
    case Announce | CloseOut | Notice | Notify => GoLiveFits(p, around);
    case Serve | Remove(_) => EndServingFits(p, o);
    case _ =>
  }
}
