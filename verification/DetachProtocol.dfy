/**
 `keepiq ssh-agent` as processes that take turns in any order.

 Every process runs the same program, command line and environment included, so
 that "the copy does not detach again" and "there is only one copy" are results
 and not part of the model. A step of a process is one call of the source; its
 argument says how the call turns out. Bytes travel through the pipes in pieces
 of any size, and a stop signal may arrive at any point.
 */
module DetachProtocol {
  import opened Results
  import opened Text
  import opened Decimals
  import opened Environment
  import opened AgentOptions
  import opened Lines

  const DETACHED_ENV := "KEEPIQ_SSH_AGENT_DETACHED"
  const AGENT_COMMAND := "ssh-agent"
  const SOCK_PREFIX := "SSH_AUTH_SOCK="

  /** Where a process stands: the call it makes next. */
  datatype Stage =
    | Dispatch | Parse | Decide
    // startDetached
    | Locate | Ask | Pipe | Start | Collect | Await | Exports | Pid | Release
    // the agent
    | Confirm | Harden | Password | Unlock | Bind | Chmod
    | Announce | CloseOut | Notice | Notify | Serve | Remove(ok: bool)
    // the end
    | Returned(success: bool) | Killed(during: Stage)

  datatype Role = Undecided | Starter | Agent

  /** How a process was started; none of this changes. */
  datatype Origin = Origin(
    argv: seq<string>,
    env: seq<string>,
    terminal: bool,              // standard output is a character device
    launcher: Option<nat>,       // the process that started this one and reads its output
    pid: nat,
    fallback: string)            // defaultAgentSocket()

  /** What a starter knows of the copy it runs. */
  datatype Launching = Launching(
    copy: Option<nat>,
    copyPid: nat,
    feed: string,                // not yet written to the copy's standard input
    feeding: bool,               // that pipe is still open for writing
    exports: string)             // read from the copy's output

  datatype Serving = Serving(
    asks: bool,                  // there is a program that confirms each signature
    hardened: bool,              // core dumps are off
    unlocked: bool,
    listened: bool,              // sshagent.Listen succeeded
    socket: bool,                // the socket is in the file system
    removals: nat)               // how often the deferred os.Remove ran

  datatype Process = Process(
    origin: Origin,
    stage: Stage,
    role: Role,
    args: seq<string>,
    flags: AgentFlags,
    password: Option<string>,    // asked for, or read from standard input
    input: string,               // in the standard input pipe
    line: string,                // read from it
    launch: Launching,
    serving: Serving,
    out: string,                 // written to standard output
    outOpen: bool)

  type System = seq<Process>

  // ---- The program ----

  datatype Command = Usage | Run(word: string, args: seq<string>)

  function CommandOf(argv: seq<string>): Command {
    if |argv| < 2 then Usage else Run(argv[1], argv[2..])
  }

  predicate IsDetached(env: seq<string>) {
    Getenv(env, DETACHED_ENV) == Some("1")
  }

  function ShouldDetach(flags: AgentFlags, detached: bool, terminal: bool): bool {
    !flags.foreground && !detached && !terminal
  }

  function SocketPath(flags: AgentFlags, fallback: string): string {
    if flags.socket == "" then fallback else flags.socket
  }

  function ExportLine(path: string): string {
    SOCK_PREFIX + path + "; export SSH_AUTH_SOCK;\n"
  }

  function PidLine(pid: nat): string {
    "SSH_AGENT_PID=" + Itoa(pid) + "; export SSH_AGENT_PID;\n"
  }

  /** What a starter writes to its copy's standard input. */
  function Handover(password: Option<string>): string {
    match password
    case None => ""
    case Some(text) => text + "\n"
  }

  /** A new process, before its first step. */
  function Boot(origin: Origin): Process {
    Process(origin, Dispatch, Undecided, [], DEFAULTS, None, "", "",
            Launching(None, 0, "", true, ""), Serving(false, false, false, false, false, 0), "", true)
  }

  /** How `startDetached` starts the copy. */
  function CopyOrigin(p: Process, self: nat, exe: string, pid: nat): Origin {
    Origin([exe, AGENT_COMMAND] + p.args, Dedup(Environ(p.origin.env) + [DETACHED_ENV + "=" + "1"]), false,
           Some(self), pid, p.origin.fallback)
  }

  /** How a call turns out: whether it succeeds, and the text or number it delivers. */
  datatype Outcome = Outcome(ok: bool, text: string, number: nat)

  /** What the others mean to a process: is its input at end of file, and does anyone read its output? */
  datatype Surroundings = Surroundings(eof: bool, read: bool)

  predicate Finished(p: Process) {
    p.stage.Returned? || p.stage.Killed?
  }

  function Fail(p: Process): Process {
    p.(stage := Returned(false))
  }

  /** A call that the source returns from when it fails. */
  function Check(ok: bool, p: Process, next: Stage): Process {
    if ok then p.(stage := next) else Fail(p)
  }

  /** main and the beginning of cmdSSHAgent; another command is one opaque step. */
  function Begin(p: Process, o: Outcome): Process
    requires p.stage.Dispatch? || p.stage.Parse? || p.stage.Decide?
  {
    match p.stage
    case Dispatch =>
      (match CommandOf(p.origin.argv)
       case Usage => Fail(p)
       case Run(word, args) =>
         if word == AGENT_COMMAND then p.(args := args, stage := Parse) else p.(stage := Returned(o.ok)))
    case Parse =>
      (match ParseFlags(p.args)
       case Err(_) => Fail(p)
       case Ok(flags) => p.(flags := flags, stage := Decide))
    case Decide =>
      if ShouldDetach(p.flags, IsDetached(p.origin.env), p.origin.terminal) then p.(role := Starter, stage := Locate)
      else p.(role := Agent, stage := Stage.Confirm)
  }

  /** startDetached up to the start of the copy. */
  function PrepareCopy(p: Process, o: Outcome): Process
    requires p.stage.Locate? || p.stage.Ask? || p.stage.Pipe?
  {
    match p.stage
    case Locate => Check(o.ok, p, Ask)
    case Ask => p.(password := if p.flags.locked then None else Some(Answer(o.text)), stage := Pipe)
    case Pipe => Check(o.ok, p, Start)
  }

  /** startDetached after the copy closed its output. */
  function PrintExports(p: Process, o: Outcome): Process
    requires p.stage.Exports? || p.stage.Pid? || p.stage.Release?
  {
    match p.stage
    case Exports => p.(out := p.out + p.launch.exports, stage := Pid)
    case Pid => p.(out := p.out + PidLine(p.launch.copyPid), stage := Release)
    case Release => p.(stage := Returned(o.ok))
  }

  /** A line on standard input has been read: it ended, or the input did. */
  predicate HasLine(p: Process, around: Surroundings) {
    '\n' in p.line || (around.eof && p.input == "")
  }

  /**
   A process that was told not to detach reads its password from standard input,
   which is a pipe if another process started it; any other is asked for it.
   */
  predicate ReadsPipe(p: Process) {
    IsDetached(p.origin.env) && p.origin.launcher.Some?
  }

  /** The agent before it listens; it may have to wait for its password. */
  function OpenVault(p: Process, o: Outcome, around: Surroundings): Option<Process>
    requires p.stage.Confirm? || p.stage.Harden? || p.stage.Password? || p.stage.Unlock?
  {
    match p.stage
    case Confirm =>
      Some(Check(!p.flags.confirm || o.ok, p.(serving := p.serving.(asks := p.flags.confirm && o.ok)), Harden))
    case Harden =>
      Some(Check(o.ok, p.(serving := p.serving.(hardened := o.ok)), if p.flags.locked then Bind else Password))
    case Password =>
      if !ReadsPipe(p) then Some(p.(password := Some(Answer(o.text)), stage := Unlock))
      else if HasLine(p, around) then Some(p.(password := Some(Answer(p.line)), stage := Unlock))
      else None
    case Unlock => Some(Check(o.ok, p.(serving := p.serving.(unlocked := o.ok)), Bind))
  }

  /** sshagent.Listen: the socket appears, then gets its mode or goes away again. */
  function Listen(p: Process, o: Outcome): Process
    requires p.stage.Bind? || p.stage.Chmod?
  {
    match p.stage
    case Bind => Check(o.ok, p.(serving := p.serving.(socket := o.ok)), Chmod)
    case Chmod => Check(o.ok, p.(serving := p.serving.(socket := o.ok, listened := o.ok)), Announce)
  }

  /** From the export line to the moment that signals are caught. */
  function GoLive(p: Process, around: Surroundings): Process
    requires p.stage.Announce? || p.stage.CloseOut? || p.stage.Notice? || p.stage.Notify?
  {
    match p.stage
    case Announce =>
      if !around.read then p.(stage := Killed(Announce))
      else p.(out := p.out + ExportLine(SocketPath(p.flags, p.origin.fallback)),
              stage := if IsDetached(p.origin.env) then CloseOut else Notice)
    case CloseOut => p.(outOpen := false, stage := Notice)
    case Notice => p.(stage := Notify)
    case Notify => p.(stage := Serve)
  }

  /** Serving goes on until accepting fails; then the deferred os.Remove runs. */
  function EndServing(p: Process, o: Outcome): Option<Process>
    requires p.stage.Serve? || p.stage.Remove?
  {
    match p.stage
    case Serve => if o.ok then None else Some(p.(stage := Remove(false)))
    case Remove(ok) =>
      Some(p.(serving := p.serving.(socket := false, removals := p.serving.removals + 1), stage := Returned(ok)))
  }

  /**
   SIGINT or SIGTERM: once notified, the agent closes its listener, which unlinks
   the socket; before that the process dies.
   */
  function Signal(p: Process): Option<Process> {
    if Finished(p) || p.stage.Remove? then None
    else if p.stage.Serve? then Some(p.(serving := p.serving.(socket := false), stage := Remove(true)))
    else Some(p.(stage := Killed(p.stage)))
  }

  /** A signal the program never catches, such as SIGHUP or SIGKILL, at any stage. */
  function Die(p: Process): Option<Process> {
    if Finished(p) then None else Some(p.(stage := Killed(p.stage)))
  }

  // ---- Moves of the system ----

  datatype Action =
    | Step(o: Outcome)
    | Feed(n: nat)       // the starter's copying goroutine writes n characters
    | CloseFeed          // and closes the pipe when all is written
    | Read(n: nat)       // the copy reads n characters of its input
    | Gather(n: nat)     // the starter reads n characters of the copy's output
    | Stop               // SIGINT or SIGTERM
    | Hangup             // a signal that is not caught

  predicate IsSignal(action: Action) {
    action.Stop? || action.Hangup?
  }

  datatype Move = Move(who: nat, action: Action)

  function Around(s: System, i: nat): Surroundings
    requires i < |s|
  {
    if s[i].origin.launcher.None? || s[i].origin.launcher.value >= |s| then Surroundings(true, true)
    else
      var boss := s[s[i].origin.launcher.value];
      Surroundings(!boss.launch.feeding || Finished(boss), !Finished(boss))
  }

  predicate HasCopy(s: System, i: nat)
    requires i < |s|
  {
    s[i].launch.copy.Some? && s[i].launch.copy.value < |s|
  }

  /** The process a starter started. */
  function CopyOf(s: System, i: nat): Process
    requires i < |s| && HasCopy(s, i)
  {
    s[s[i].launch.copy.value]
  }

  /** The calls of a starter that concern its copy. */
  function Attend(s: System, i: nat, o: Outcome): Option<System>
    requires i < |s| && (s[i].stage.Start? || s[i].stage.Collect? || s[i].stage.Await?)
  {
    var p := s[i];
    match p.stage
    case Start =>
      if !o.ok then Some(s[i := Fail(p)])
      else
        var launch := Launching(Some(|s|), o.number, Handover(p.password), true, "");
        Some(s[i := p.(launch := launch, stage := Collect)] + [Boot(CopyOrigin(p, i, o.text, o.number))])
    case Collect =>
      if HasCopy(s, i) && OutEnded(CopyOf(s, i)) && p.launch.exports == CopyOf(s, i).out
      then Some(s[i := p.(stage := if HasPrefix(p.launch.exports, SOCK_PREFIX) then Exports else Await)])
      else None
    case Await => if HasCopy(s, i) && Finished(CopyOf(s, i)) then Some(s[i := Fail(p)]) else None
  }

  /** A call that changes nothing but its own process. */
  function Call(p: Process, o: Outcome, around: Surroundings): Option<Process> {
    match p.stage
    case Dispatch | Parse | Decide => Some(Begin(p, o))
    case Locate | Ask | Pipe => Some(PrepareCopy(p, o))
    case Exports | Pid | Release => Some(PrintExports(p, o))
    case Confirm | Harden | Password | Unlock => OpenVault(p, o, around)
    case Bind | Chmod => Some(Listen(p, o))
    case Announce | CloseOut | Notice | Notify => Some(GoLive(p, around))
    case Serve | Remove(_) => EndServing(p, o)
    case Start | Collect | Await | Returned(_) | Killed(_) => None
  }

  function Put(s: System, i: nat, p: Option<Process>): Option<System>
    requires i < |s|
  {
    if p.None? then None else Some(s[i := p.value])
  }

  predicate OutEnded(p: Process) {
    !p.outOpen || Finished(p)
  }

  /** Bytes on their way into the copy: fed, at the end of what there is, or read. */
  function Feeds(s: System, i: nat, n: nat): Option<System>
    requires i < |s|
  {
    var p := s[i];
    if HasCopy(s, i) && p.launch.copy.value != i && !Finished(p) && 0 < n <= |p.launch.feed| then
      var c := CopyOf(s, i);
      Some(s[i := p.(launch := p.launch.(feed := p.launch.feed[n..]))]
            [p.launch.copy.value := c.(input := c.input + p.launch.feed[..n])])
    else None
  }

  function ClosesFeed(p: Process): Option<Process> {
    if p.launch.copy.Some? && !Finished(p) && p.launch.feeding && p.launch.feed == ""
    then Some(p.(launch := p.launch.(feeding := false)))
    else None
  }

  function Reads(p: Process, n: nat): Option<Process> {
    if p.stage.Password? && ReadsPipe(p) && '\n' !in p.line && 0 < n <= |p.input|
    then Some(p.(line := p.line + p.input[..n], input := p.input[n..]))
    else None
  }

  /** io.ReadAll takes what the copy has written so far. */
  function Gathers(s: System, i: nat, n: nat): Option<Process>
    requires i < |s|
  {
    var p := s[i];
    if p.stage.Collect? && HasCopy(s, i) && 0 < n && |p.launch.exports| + n <= |CopyOf(s, i).out|
    then Some(p.(launch := p.launch.(exports := CopyOf(s, i).out[..|p.launch.exports| + n])))
    else None
  }

  function Do(s: System, m: Move): Option<System> {
    if m.who >= |s| then None
    else
      var i, p := m.who, s[m.who];
      match m.action
      case Step(o) =>
        if p.stage.Start? || p.stage.Collect? || p.stage.Await? then Attend(s, i, o)
        else Put(s, i, Call(p, o, Around(s, i)))
      case Feed(n) => Feeds(s, i, n)
      case CloseFeed => Put(s, i, ClosesFeed(p))
      case Read(n) => Put(s, i, Reads(p, n))
      case Gather(n) => Put(s, i, Gathers(s, i, n))
      case Stop => Put(s, i, Signal(p))
      case Hangup => Put(s, i, Die(p))
  }

  /** A run: moves one after another, each of which must be possible. */
  function Play(s: System, moves: seq<Move>): Option<System>
    decreases |moves|
  {
    if moves == [] then Some(s)
    else
      match Do(s, moves[0])
      case None => None
      case Some(t) => Play(t, moves[1..])
  }
}
