/** A run in which no call fails and no signal arrives does what it is for. */
module DetachOutcome {
  import opened Results
  import opened Text
  import opened AgentOptions
  import opened Lines
  import opened DetachProtocol
  import opened DetachInvariant
  import opened DetachSafety
  import opened DetachTheorems
  import opened DetachProgress

  /** Not killed, and not failed, except for a command line that is refused. */
  predicate Unhurt(p: Process) {
    !p.stage.Killed? && p.stage != Remove(false) && (p.stage == Returned(false) ==> p.role.Undecided?)
  }

  predicate GoesWell(s: System) {
    && Inv(s) && Unhurt(s[0]) && !s[0].stage.Await?
    && (|s| == 2 ==> Unhurt(s[1]) && s[1].stage != Returned(false))
  }

  /** Where a call that works can still hurt. */
  lemma CallUnhurt(p: Process, o: Outcome, around: Surroundings)
    requires Unhurt(p) && RoleFits(p) && o.ok && Call(p, o, around).Some?
    ensures var q := Call(p, o, around).value;
      && !q.stage.Await?
      && (Unhurt(q) || (p.stage.Announce? && !around.read))
      && (q.stage == Returned(false) ==>
           (p.stage.Dispatch? && CommandOf(p.origin.argv).Usage?) || (p.stage.Parse? && ParseFlags(p.args).Err?))
  {
    hide ParseFlags, CommandOf, ShouldDetach, IsDetached, PidLine, ExportLine, SocketPath, Answer, HasLine;
  }

  /** The copy's command line is not refused. */
  lemma CopyAccepted(p: Process, c: Process)
    requires PairFits(p, c)
    ensures !CommandOf(c.origin.argv).Usage?
    ensures c.stage.Parse? ==> ParseFlags(c.args).Ok?
  {
    hide ParseFlags, IsDetached, ShouldDetach, PasswordFits, SocketFits, OutputFits, LaunchFits, Settled,
      StreamsFit;
  }

  /** The starter is there to read the export line. */
  lemma StarterListens(p: Process, c: Process)
    requires PairFits(p, c) && Unhurt(p) && c.stage.Announce?
    ensures !Finished(p)
  {
    assert c.out == "" && c.outOpen by {
      assert RoleFits(c) && OutputFits(c);
      hide ExportLine, HasPrefix;
    }
    ExportLineStarts("");
    assert p.stage == Returned(true) ==> HasPrefix(p.launch.exports, SOCK_PREFIX) by {
      assert LaunchFits(p) && Paired(p, c.origin);
      hide HasPrefix;
    }
    hide Fits, CommandOf, IsDetached, HasPrefix;
  }

  lemma CopyGoesWell(p: Process, c: Process, o: Outcome)
    requires GoesWell([p, c]) && o.ok && Do([p, c], Move(1, Step(o))).Some?
    ensures GoesWell(Do([p, c], Move(1, Step(o))).value)
  {
    var s := [p, c];
    MoveKeeps(s, Move(1, Step(o)));
    CopyNeverAsks(p, c);
    CopyAccepted(p, c);
    if c.stage.Announce? {
      StarterListens(p, c);
    }
    assert RoleFits(c);
    assert c.origin.launcher == Some(0) by { hide Fits; hide CommandOf; hide IsDetached; }
    CallUnhurt(c, o, Around(s, 1));
    hide Call, Inv, CommandOf, ParseFlags, RoleFits;
  }

  /** Output that ended well holds the export line. */
  lemma CollectsExports(p: Process, c: Process)
    requires GoesWell([p, c]) && p.stage.Collect? && OutEnded(c) && p.launch.exports == c.out
    ensures HasPrefix(p.launch.exports, SOCK_PREFIX)
  {
    if !HasPrefix(c.out, SOCK_PREFIX) {
      UnprintedCopy(p, c);
    }
    hide PairFits;
  }

  lemma StarterGoesWell(p: Process, c: Process, o: Outcome)
    requires GoesWell([p, c]) && o.ok && Do([p, c], Move(0, Step(o))).Some?
    ensures GoesWell(Do([p, c], Move(0, Step(o))).value)
  {
    var s := [p, c];
    MoveKeeps(s, Move(0, Step(o)));
    PairCopies(p, c);
    if p.stage.Collect? {
      if OutEnded(c) && p.launch.exports == c.out {
        CollectsExports(p, c);
      }
      hide Inv, HasPrefix;
    } else {
      assert !p.stage.Start? by { hide Fits; hide CommandOf; hide IsDetached; }
      CallingStarter(p, c, o, Around(s, 0));
      hide Inv, Call, PidLine;
    }
  }

  lemma LoneGoesWell(p: Process, o: Outcome)
    requires GoesWell([p]) && o.ok && Do([p], Move(0, Step(o))).Some?
    ensures GoesWell(Do([p], Move(0, Step(o))).value)
  {
    var s := [p];
    MoveKeeps(s, Move(0, Step(o)));
    assert !p.stage.Collect? by { assert LaunchFits(p); }
    if !p.stage.Start? {
      assert RoleFits(p);
      CallUnhurt(p, o, Around(s, 0));
    }
    hide Call, Inv, RoleFits, ParseFlags, CommandOf, CopyOrigin, Handover;
  }

  lemma BytesGoWell(s: System, m: Move)
    requires GoesWell(s) && Do(s, m).Some? && !m.action.Step? && !IsSignal(m.action)
    ensures GoesWell(Do(s, m).value)
  {
    OnlyPairsMoveBytes(s, m);
    BytesMove(s[0], s[1], m);
    BytesKeepRole(s, m);
    hide Inv, Do;
  }

  lemma BytesKeepRole(s: System, m: Move)
    requires Do(s, m).Some? && !m.action.Step? && !IsSignal(m.action)
    ensures |Do(s, m).value| == |s| && forall i | 0 <= i < |s| :: Do(s, m).value[i].role == s[i].role
  {
    hide Call, Attend, Signal, Die;
  }

  lemma MoveGoesWell(s: System, m: Move)
    requires GoesWell(s) && Quiet(m) && Do(s, m).Some?
    ensures GoesWell(Do(s, m).value)
  {
    assert 1 <= |s| <= 2 && m.who < |s|;
    assert if |s| == 1 then s == [s[0]] else s == [s[0], s[1]];
    hide Do, GoesWell;
    if !m.action.Step? {
      BytesGoWell(s, m);
    } else if |s| == 1 {
      LoneGoesWell(s[0], m.action.o);
    } else if m.who == 0 {
      StarterGoesWell(s[0], s[1], m.action.o);
    } else {
      CopyGoesWell(s[0], s[1], m.action.o);
    }
  }

  lemma {:induction false} PlayGoesWell(s: System, moves: seq<Move>)
    requires GoesWell(s) && Play(s, moves).Some? && forall k | 0 <= k < |moves| :: Quiet(moves[k])
    ensures GoesWell(Play(s, moves).value)
    decreases |moves|
  {
    hide GoesWell, Do, Quiet;
    if moves != [] {
      MoveGoesWell(s, moves[0]);
      PlayGoesWell(Do(s, moves[0]).value, moves[1..]);
    }
  }

  /**
   When no call fails and no signal arrives, a starter that ends has succeeded,
   and printed the export line of its copy and the copy's pid.
   */
  lemma {:induction false} WellRunPrints(origin: Origin, moves: seq<Move>, s: System)
    requires origin.launcher.None? && Play([Boot(origin)], moves) == Some(s)
    requires forall k | 0 <= k < |moves| :: Quiet(moves[k])
    requires s != [] && s[0].role.Starter? && Finished(s[0])
    ensures s[0].stage == Returned(true) && |s| == 2
    ensures s[0].out == ExportLine(SocketPath(s[0].flags, s[0].origin.fallback)) + PidLine(s[1].origin.pid)
  {
    BootFits(origin);
    PlayGoesWell([Boot(origin)], moves);
    assert s[0].stage == Returned(true);
    StarterEnds(origin, moves, s);
    ExportsAreTrue(origin, moves, s);
    hide Inv, PidLine, ExportLine;
  }
}
