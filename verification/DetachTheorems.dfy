/** What holds of every run of `keepiq ssh-agent`. */
module DetachTheorems {
  import opened Results
  import opened Text
  import opened AgentOptions
  import opened Lines
  import opened DetachProtocol
  import opened DetachInvariant
  import opened DetachSafety

  lemma {:induction false} PlayKeeps(s: System, moves: seq<Move>)
    requires Inv(s) && Play(s, moves).Some?
    ensures Inv(Play(s, moves).value)
    decreases |moves|
  {
    hide Inv, Do;
    if moves != [] {
      MoveKeeps(s, moves[0]);
      PlayKeeps(Do(s, moves[0]).value, moves[1..]);
    }
  }

  /** A run of one process that a user or a service manager started. */
  lemma {:induction false} RunKeeps(origin: Origin, moves: seq<Move>)
    requires origin.launcher.None? && Play([Boot(origin)], moves).Some?
    ensures Inv(Play([Boot(origin)], moves).value)
  {
    BootFits(origin);
    PlayKeeps([Boot(origin)], moves);
  }

  // ---- Safety ----

  /**
   A starter prints nothing unless its copy listens, with the same flags and,
   unless it starts locked, unlocked with the password the starter asked for.
   What it prints is the copy's one export line, then the copy's pid.
   */
  lemma {:induction false} ExportsAreTrue(origin: Origin, moves: seq<Move>, s: System)
    requires origin.launcher.None? && Play([Boot(origin)], moves) == Some(s)
    requires s != [] && s[0].role.Starter? && s[0].out != ""
    ensures |s| == 2
    ensures var p, c := s[0], s[1];
      && c.serving.listened && c.args == p.args && c.flags == p.flags
      && p.launch.exports == c.out == ExportLine(SocketPath(p.flags, p.origin.fallback))
      && (p.out == c.out || p.out == c.out + PidLine(c.origin.pid))
      && (p.flags.locked || (p.password.Some? && c.serving.unlocked && c.password == p.password))
  {
    RunKeeps(origin, moves);
    var p := s[0];
    ExportLineStarts("");
    PrintedHasCopy(s);
    var c := s[1];
    assert c.out != "";
    CopyAnnounced(p, c);
    hide ParseFlags, CommandOf, ShouldDetach, IsDetached, IsAnswer, HasPrefix, PidLine, ExportLine, SocketPath,
      Handover;
  }

  lemma PrintedHasCopy(s: System)
    requires Inv(s) && s[0].role.Starter? && s[0].out != ""
    ensures |s| == 2 && !At(s[0]).Collect? && HasPrefix(s[0].launch.exports, SOCK_PREFIX)
  {
    ExportLineStarts("");
    hide ParseFlags, CommandOf, ShouldDetach, IsDetached, IsAnswer, HasPrefix, PidLine, ExportLine;
  }

  lemma CopyAnnounced(p: Process, c: Process)
    requires Fits(p) && Fits(c) && Paired(p, c.origin) && c.out != ""
    ensures c.args == p.args && c.flags == p.flags && HasAnnounced(c) && c.serving.listened
    ensures c.out == ExportLine(SocketPath(p.flags, p.origin.fallback))
    ensures p.flags.locked || (c.serving.unlocked && c.password.Some? && p.password.Some?)
  {
    assert !c.role.Undecided? by { assert OutputFits(c); }
    SameFlags(p, c);
    hide RoleFits, IsAnswer, HasPrefix, PidLine, ExportLine, CommandOf, IsDetached;
  }

  /** An agent that is past reading its password, if it reads one. */
  predicate HasRead(c: Process) {
    At(c).Unlock? || At(c).Bind? || IsBound(At(c)) || c.serving.listened
  }

  /**
   One copy is all there ever is, it does not detach again, and it parses what
   its starter parsed. The starter has a password exactly when it does not start
   locked, and every byte of it and of the newline after it is still to be
   written, in the pipe, or read; the copy reads a line exactly then.
   */
  lemma {:induction false} OneCopy(origin: Origin, moves: seq<Move>, s: System)
    requires origin.launcher.None? && Play([Boot(origin)], moves) == Some(s)
    ensures 1 <= |s| <= 2
    ensures |s| == 2 ==> CopyFollows(s[0], s[1])
  {
    RunKeeps(origin, moves);
    if |s| == 2 {
      PairFollows(s[0], s[1]);
    }
    hide CopyFollows, PairFits, Fits;
  }

  predicate CopyFollows(p: Process, c: Process) {
    && p.role.Starter? && !c.role.Starter? && c.launch.copy.None?
    && (!c.role.Undecided? ==> c.args == p.args && c.flags == p.flags)
    && (p.password.Some? <==> !p.flags.locked)
    && c.line + c.input + p.launch.feed == (if p.password.Some? then p.password.value + "\n" else "")
    && (c.stage.Password? || c.password.Some? ==> !p.flags.locked)
    && (HasRead(c) && !p.flags.locked ==> c.password.Some?)
    && (c.password.Some? ==> c.password == p.password || p.stage == Killed(Collect))
  }

  lemma PairFollows(p: Process, c: Process)
    requires PairFits(p, c)
    ensures CopyFollows(p, c)
  {
    CopyNeverAsks(p, c);
    if !c.role.Undecided? {
      SameFlags(p, c);
    }
    PasswordStages(c);
    assert p.password.Some? <==> !p.flags.locked by { assert PasswordFits(p); }
    hide Fits, CommandOf, IsDetached, HasPrefix;
  }

  lemma PasswordStages(c: Process)
    requires Fits(c)
    ensures c.stage.Password? ==> !c.flags.locked && c.role.Agent?
    ensures c.password.Some? ==> !c.flags.locked && !c.role.Undecided?
    ensures HasRead(c) ==> c.role.Agent? && (c.flags.locked || c.password.Some?)
  {
    hide ParseFlags, CommandOf, ShouldDetach, IsDetached, IsAnswer, HasPrefix, ExportLine;
  }

  /**
   The socket of a process is there from binding until the process removes it,
   which closing the listener or the deferred removal does, and every return
   comes after that. It stays behind exactly when a signal kills the process in
   between. The deferred removal runs once, on the way out of a process that
   listened, and in no other.
   */
  lemma {:induction false} SocketLifetime(origin: Origin, moves: seq<Move>, s: System, i: nat)
    requires origin.launcher.None? && Play([Boot(origin)], moves) == Some(s) && i < |s|
    ensures LivesRight(s[i])
  {
    RunKeeps(origin, moves);
    InvFits(s, i);
    hide Inv, CommandOf, ShouldDetach, IsDetached, ParseFlags;
  }

  predicate LivesRight(p: Process) {
    && (p.serving.socket <==> IsBound(At(p)) && !IsUnlinked(At(p)))
    && (p.stage.Returned? ==> !p.serving.socket)
    && p.serving.removals == (if p.stage.Returned? && p.serving.listened then 1 else 0)
    && (p.stage == Returned(true) && p.role.Agent? ==> p.serving.listened)
  }

  /** No process was killed after it began to catch signals. */
  predicate Caught(s: System) {
    forall i | 0 <= i < |s| :: s[i].stage.Killed? ==> !s[i].stage.during.Serve? && !s[i].stage.during.Remove?
  }

  lemma MoveCaught(s: System, m: Move)
    requires Caught(s) && Do(s, m).Some? && !m.action.Hangup?
    ensures Caught(Do(s, m).value)
  {
    if m.action.Step? && m.who < |s| && !s[m.who].stage.Start? && !s[m.who].stage.Collect? && !s[m.who].stage.Await? {
      CallCaught(s[m.who], m.action.o, Around(s, m.who));
      hide Call;
    }
    hide Call, CopyOrigin, Handover, HasPrefix;
  }

  lemma CallCaught(p: Process, o: Outcome, around: Surroundings)
    requires Call(p, o, around).Some?
    ensures var q := Call(p, o, around).value; q.stage.Killed? ==> q.stage == Killed(Announce)
  {
    hide Begin, OpenVault, GoLive, PidLine, Answer;
    match p.stage
    case Dispatch | Parse | Decide => BeginCaught(p, o);
    case Confirm | Harden | Password | Unlock => VaultCaught(p, o, around);
    case Announce | CloseOut | Notice | Notify => LiveCaught(p, around);
    case _ =>
  }

  lemma BeginCaught(p: Process, o: Outcome)
    requires p.stage.Dispatch? || p.stage.Parse? || p.stage.Decide?
    ensures !Begin(p, o).stage.Killed?
  {
    hide ParseFlags, CommandOf, ShouldDetach, IsDetached;
  }

  lemma VaultCaught(p: Process, o: Outcome, around: Surroundings)
    requires p.stage.Confirm? || p.stage.Harden? || p.stage.Password? || p.stage.Unlock?
    requires OpenVault(p, o, around).Some?
    ensures !OpenVault(p, o, around).value.stage.Killed?
  {
    hide IsDetached, HasLine, Answer;
  }

  lemma LiveCaught(p: Process, around: Surroundings)
    requires p.stage.Announce? || p.stage.CloseOut? || p.stage.Notice? || p.stage.Notify?
    ensures var q := GoLive(p, around); q.stage.Killed? ==> q.stage == Killed(Announce)
  {
    hide IsDetached, ExportLine, SocketPath;
  }

  lemma {:induction false} PlayCaught(s: System, moves: seq<Move>)
    requires Caught(s) && Play(s, moves).Some? && forall k | 0 <= k < |moves| :: !moves[k].action.Hangup?
    ensures Caught(Play(s, moves).value)
    decreases |moves|
  {
    hide Caught, Do;
    if moves != [] {
      MoveCaught(s, moves[0]);
      PlayCaught(Do(s, moves[0]).value, moves[1..]);
    }
  }

  /**
   SIGINT and SIGTERM leave a socket behind only between binding and the moment
   they are caught. A signal that is not caught may do so at any stage of serving.
   */
  lemma {:induction false} StopLeavesSocketIff(origin: Origin, moves: seq<Move>, s: System, i: nat)
    requires origin.launcher.None? && Play([Boot(origin)], moves) == Some(s) && i < |s| && s[i].stage.Killed?
    requires forall k | 0 <= k < |moves| :: !moves[k].action.Hangup?
    ensures s[i].serving.socket <==>
      var at := s[i].stage.during; at.Chmod? || at.Announce? || at.CloseOut? || at.Notice? || at.Notify?
  {
    SocketLifetime(origin, moves, s, i);
    PlayCaught([Boot(origin)], moves);
  }

  /** For instance, an agent whose terminal closes while it serves leaves its socket behind. */
  lemma HangupLeavesSocket(s: System)
    requires Inv(s) && s[0].stage.Serve?
    ensures Do(s, Move(0, Hangup)) == Some(s[0 := s[0].(stage := Killed(Serve))]) && s[0].serving.socket
  {
    assert SocketFits(s[0]);
    hide Inv;
  }

  /** Whatever unlocks the vault or listens has core dumps off, and asks for confirmation if told to. */
  lemma {:induction false} ServesPrepared(origin: Origin, moves: seq<Move>, s: System, i: nat)
    requires origin.launcher.None? && Play([Boot(origin)], moves) == Some(s) && i < |s|
    ensures var p := s[i];
      p.serving.unlocked || p.serving.listened ==> p.serving.hardened && (p.flags.confirm ==> p.serving.asks)
  {
    RunKeeps(origin, moves);
    InvFits(s, i);
    hide Inv, RoleFits, SocketFits;
  }

  lemma InvFits(s: System, i: nat)
    requires Inv(s) && i < |s|
    ensures RoleFits(s[i]) && SocketFits(s[i]) && PreparedFits(s[i])
  {
    hide RoleFits, PreparedFits, PasswordFits, SocketFits, OutputFits, LaunchFits, Settled, Paired, StreamsFit;
  }

  /**
   How a starter ends: it succeeds only with both lines printed; when it fails
   without printing although it started a copy, the copy has ended, did not
   listen to any effect, and did not end in success.
   */
  lemma {:induction false} StarterEnds(origin: Origin, moves: seq<Move>, s: System)
    requires origin.launcher.None? && Play([Boot(origin)], moves) == Some(s)
    requires s != [] && s[0].role.Starter? && s[0].stage.Returned?
    ensures s[0].out == "" || (|s| == 2 && s[0].out == s[1].out + PidLine(s[1].origin.pid))
    ensures s[0].stage.success ==> s[0].out != ""
    ensures s[0].out == "" && |s| == 2 ==> Finished(s[1]) && s[1].stage != Returned(true) && s[1].out == ""
  {
    RunKeeps(origin, moves);
    var p := s[0];
    if p.out != "" {
      ExportsAreTrue(origin, moves, s);
      hide PairFits, RoleFits, PidLine, ExportLine, HasPrefix;
    } else {
      assert LaunchFits(p);
      if |s| == 2 {
        UnprintedCopy(p, s[1]);
      }
      hide Fits;
    }
  }

  /** Output that ended without an export line means that the copy ended, and failed. */
  lemma UnprintedCopy(p: Process, c: Process)
    requires PairFits(p, c) && OutEnded(c) && p.launch.exports == c.out && !HasPrefix(c.out, SOCK_PREFIX)
    ensures c.out == "" && Finished(c) && c.stage != Returned(true)
  {
    ExportLineStarts(SocketPath(c.flags, c.origin.fallback));
    CopyNeverAsks(p, c);
    hide ParseFlags, ShouldDetach, IsDetached, IsAnswer, HasPrefix, PidLine, ExportLine, SocketPath,
      PasswordFits, LaunchFits, Settled, StreamsFit;
  }
}
