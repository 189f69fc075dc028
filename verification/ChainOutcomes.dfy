/** What the calls of the chain protocol answer, and what a request consumes on its way
    (src/prefill_cache_sim/chain/harness.py): continuation lengths, admissions, refusals,
    dropped frames, waste, checkpoints and restarts.
 */
module ChainOutcomes {
  import opened Options
  import opened Preemption
  import opened ChainProtocol

  /** Without budget or rounds only the terminal is left. */
  ghost predicate Open(s: State) {
    !s.budget.budgetExhausted && !s.budget.roundsExhausted
  }

  // --- answers --------------------------------------------------------------

  /** A lease that expires in time asks for the prompt and every frame the user has; one that does
      not leaves a fenced leg and an error. */
  lemma ContinuationIsPromptAndFrames(c: ChainConfig, inputTokens: nat, s: State)
    requires Invariant(c, s)
    ensures var t, r := ExpireLease(c, inputTokens, s).state, ExpireLease(c, inputTokens, s).outcome;
            && (r.Ok? <==> !s.finished && Open(s) && s.active && s.budget.attempt < c.maxRounds)
            && (r.Ok? ==> r.value == inputTokens + |s.stream.frames| && t.budget.leaseExpiryTotal == s.budget.leaseExpiryTotal + 1)
            && (r == Raised(RoundsExceeded) <==>
                  !s.finished && Open(s) && s.active && s.budget.attempt >= c.maxRounds)
            && (r.Ok? || r == Raised(RoundsExceeded) ==>
                  !t.active && t.fence.epoch == s.fence.epoch + 1 && t.budget.attempt == s.budget.attempt + 1)
            && (r == Raised(RoundsExceeded) ==> !Open(t))
            && t.budget.retryUsed == s.budget.retryUsed && t.terminals == s.terminals
  {
  }

  /** A restart answers with the number of frames the user has, and only durable records allow it.
      The leg that was running is an orphan from then on. */
  lemma RestartResumesBehindFrames(c: ChainConfig, s: State)
    requires Invariant(c, s)
    ensures var t, r := CrashAndRestart(c, s).state, CrashAndRestart(c, s).outcome;
            && (r.Ok? <==> !s.finished && c.durableOutputAck)
            && (r.Ok? ==>
                  && r.value == |s.stream.frames| == t.stream.delivered == t.fence.nextSeq
                  && t.stream.frames == s.stream.frames && t.fence.epoch == s.fence.epoch + 1
                  && t.budget == s.budget.(attempt := s.budget.attempt + 1)
                  && t.placement.failedHosts == s.placement.failedHosts && t.placement.waste == s.placement.waste
                  && !t.placement.prefillCommitted && t.placement.currentHost.None? && !t.active
                  && t.placement.orphans
                     == s.placement.orphans + if s.active then [s.legs[|s.legs| - 1].host] else [])
  {
  }

  /** The restarted client stands on its durable record alone: whatever the fence, the counters, the
      commit and the selection were, they are the same afterwards. */
  lemma RestartForgetsVolatile(c: ChainConfig, s: State, t: State)
    requires s.durable == t.durable && s.finished == t.finished && c.durableOutputAck && !s.finished
    ensures var a, b := CrashAndRestart(c, s).state, CrashAndRestart(c, t).state;
            && a.fence == b.fence == Fence(s.durable.epoch + 1, s.durable.ackedSeq) && a.durable == b.durable
            && a.stream.delivered == b.stream.delivered == s.durable.ackedSeq
            && a.stream.framesThisAttempt == b.stream.framesThisAttempt == 0
            && !a.placement.prefillCommitted && !b.placement.prefillCommitted
            && a.placement.currentHost.None? && b.placement.currentHost.None? && !a.active && !b.active
            && a.stream.frames == s.stream.frames && a.stream.dropped == s.stream.dropped
  {
  }

  /** A fence never rewinds: it waits for the later of the frame it waited for and the one to resume at. */
  lemma FenceNeverRewinds(f: Fence, epoch: int, resume: int)
    ensures var g := Advance(f, epoch, resume);
            && g.epoch == epoch && g.nextSeq >= f.nextSeq && g.nextSeq >= resume
            && (g.nextSeq == f.nextSeq || g.nextSeq == resume)
  {
  }

  /** A frame is dropped for one reason: an epoch that is over, a frame the user has, or one that
      comes too early. */
  lemma DropsAreTold(c: ChainConfig, s: State, epoch: int, outputSeq: int)
    requires Invariant(c, s) && Deliver(c, s, epoch, outputSeq).outcome == Ok(false)
    ensures var m, n := s.stream, Deliver(c, s, epoch, outputSeq).state.stream;
            && n.dropped == m.dropped + [(epoch, outputSeq)] && n.frames == m.frames
            && n.staleEpochDropped == m.staleEpochDropped + (if epoch < s.fence.epoch then 1 else 0)
            && n.duplicateDropped == m.duplicateDropped
                                     + (if epoch == s.fence.epoch && outputSeq < |m.frames| then 1 else 0)
            && n.outOfOrderDropped == m.outOfOrderDropped
                                      + (if epoch == s.fence.epoch && outputSeq > |m.frames| then 1 else 0)
  {
  }

  /** A leg is admitted where the owner placed it, on a committed prefill, and only if none runs. */
  lemma AdmissionIsOwnersChoice(c: ChainConfig, s: State, host: Option<string>)
    requires Invariant(c, s)
    ensures var t, r, p := AdmitDecode(s, host).state, AdmitDecode(s, host).outcome, s.placement;
            && (r.Ok? <==> Open(s) && !s.active && p.prefillCommitted && p.currentHost.Some?
                           && (host.None? || host == p.currentHost))
            && (r.Ok? ==>
                  && Some(r.value) == p.currentHost && t.active && t.stream.framesThisAttempt == 0
                  && t.legs == s.legs + [Leg(s.fence.epoch, s.budget.attempt, r.value)]
                  && t.fence == s.fence && t.stream.frames == s.stream.frames
                  && t.placement == p.(prefillCommitted := false, currentHost := None))
  {
  }

  /** A refused admission says whether another attempt may be made, and puts the refusing host, and
      no other, on the ledger that later entitles the client to exclude it. */
  lemma RefusalCostsRetry(c: ChainConfig, s: State)
    requires Invariant(c, s)
    ensures var t, r, p := RejectDecode(c, s).state, RejectDecode(c, s).outcome, s.placement;
            && (r.Ok? <==> Open(s) && !s.active && p.prefillCommitted && p.currentHost.Some?)
            && (r.Ok? ==>
                  && (r.value <==> Open(t)) && (r.value <==> s.budget.retryUsed + 1 < c.retryBudget)
                  && t.budget.retryUsed == s.budget.retryUsed + 1 && t.budget.attempt == s.budget.attempt + 1
                  && t.placement.failedHosts == p.failedHosts + {p.currentHost.value}
                  && !t.placement.prefillCommitted && t.placement.currentHost.None?
                  && t.fence == s.fence && t.stream == s.stream)
  {
  }

  /** A prefill may be disowned until its first frame is out or a leg runs on it. */
  lemma RollbackBeforeOutput(s: State, work: real)
    ensures var t, r := RollbackPrefill(s, work).state, RollbackPrefill(s, work).outcome;
            && (r.Ok? <==> work >= 0.0 && s.stream.framesThisAttempt == 0 && !s.active)
            && (r.Ok? ==> !t.placement.prefillCommitted && t.placement.waste == s.placement.waste + work
                          && t == s.(placement := t.placement)
                          && t.placement == s.placement.(prefillCommitted := false, waste := t.placement.waste))
  {
  }

  lemma CommitPermitsAdmission(s: State, work: real)
    ensures var t, r := CommitPrefill(s, work).state, CommitPrefill(s, work).outcome;
            && (r.Ok? <==> Open(s) && work >= 0.0)
            && (r.Ok? ==> t == s.(placement := s.placement.(prefillCommitted := true)))
  {
  }

  /** A checkpoint ends its leg exactly when it is the active leg's own, the gate is open, both
      sides negotiated it, the controller's epoch is current, the planner is there, the quantum is
      served, a preemption is left and moving wins; otherwise the leg goes on or, in required mode
      without a controller to ask, the call is refused. */
  lemma CheckpointEndsLegExactlyWhen(c: ChainConfig, s: State, idEmpty: bool, r: Report)
    requires Invariant(c, s)
    ensures var own := r.legNamed && s.active && r.legIsActive && r.legEpoch == s.fence.epoch
                       && r.legSeq == |s.stream.frames| && !idEmpty && r.quantum > 0;
            var asked := c.d2GateOpen && s.handshake.Some? && s.handshake.value.accepted
                         && CooperativePreempt !in s.handshake.value.degraded
                         && s.fence.epoch == s.control.authorizedEpoch;
            var t, out := ReportCheckpoint(c, s, idEmpty, r).state, ReportCheckpoint(c, s, idEmpty, r).outcome;
            && (out == Ok(AbortSelf) <==>
                  && own && asked && r.plannerAvailable && r.quantum >= c.preemption.minQuantum
                  && s.control.preemptions < c.preemption.maxPreemptions && r.moveWins)
            && (out.Raised? <==> !own || (c.d2GateOpen && c.mode.Required? && (!asked || !r.plannerAvailable)))
            && (out == Ok(AbortSelf) ==>
                  && !t.active && t.fence == Fence(s.fence.epoch + 1, |s.stream.frames|)
                  && t.budget.attempt == s.budget.attempt + 1 && t.control.authorizedEpoch == t.fence.epoch
                  && t.control.stored == Some(Stamp(s.fence.epoch, |s.stream.frames|)) && t.stream == s.stream)
            && (out == Ok(KeepDecoding) ==> t == s)
  {
  }

  /** What the controller would object to on its own: a leg of another epoch and, if it were to end
      it, a fence that moved on or a checkpoint stored later than this one. */
  lemma ControllerAcceptsExactlyWhen(c: ChainConfig, k: Control, r: Report)
    ensures var ends := r.plannerAvailable && r.quantum >= c.preemption.minQuantum
                        && k.preemptions < c.preemption.maxPreemptions && r.moveWins;
            ControllerObjection(c, k, r).None? <==>
              && r.legEpoch == k.latestEpoch
              && (ends ==>
                    && k.held.epoch == r.legEpoch
                    && (k.stored.Some? ==>
                          || k.stored.value.epoch < r.legEpoch
                          || (k.stored.value.epoch == r.legEpoch && k.stored.value.outputSeq < r.legSeq)))
  {
  }

  /** A handshake is what the two sides negotiate, and a selection what the owner answers, unless
      only the terminal is left. */
  lemma OwnersAnswerIsKept(c: ChainConfig, s: State, owner: Capabilities, instance: Capabilities, chosen: string)
    ensures Step(c, s, MakeHandshake(owner, instance)) == s.(handshake := Some(Negotiate(owner, instance)))
    ensures var t := Step(c, s, OwnerSelects(chosen));
            && t == s.(placement := s.placement.(currentHost := t.placement.currentHost))
            && t.placement.currentHost == if Open(s) then Some(chosen) else s.placement.currentHost
  {
  }

  /** One terminal ends a request, and after a spent budget it is ERROR. */
  lemma OneTerminal(s: State, reason: string)
    ensures var t, r := Finish(s, reason).state, Finish(s, reason).outcome;
            && (r.Ok? <==> !s.finished && (Open(s) || reason == "ERROR"))
            && (r.Ok? ==> t == s.(finished := true, terminals := s.terminals + [reason]))
  {
  }

  /** A call that raises changes nothing ... */
  lemma RaisingChangesNothing(c: ChainConfig, s: State, host: Option<string>, work: real, reason: string, epoch: int,
                              outputSeq: int)
    ensures Deliver(c, s, epoch, outputSeq).outcome.Raised? ==> Deliver(c, s, epoch, outputSeq).state == s
    ensures CommitPrefill(s, work).outcome.Raised? ==> CommitPrefill(s, work).state == s
    ensures RollbackPrefill(s, work).outcome.Raised? ==> RollbackPrefill(s, work).state == s
    ensures AdmitDecode(s, host).outcome.Raised? ==> AdmitDecode(s, host).state == s
    ensures RejectDecode(c, s).outcome.Raised? ==> RejectDecode(c, s).state == s
    ensures Finish(s, reason).outcome.Raised? ==> Finish(s, reason).state == s
  {
    hide Surface; hide DropFrom;
  }

  /** ... but for the lease that ran out of rounds. */
  lemma RaisingKeepsLeg(c: ChainConfig, s: State, inputTokens: nat, idEmpty: bool, report: Report)
    ensures ExpireLease(c, inputTokens, s).outcome.Raised? && ExpireLease(c, inputTokens, s).outcome.error != RoundsExceeded ==>
              ExpireLease(c, inputTokens, s).state == s
    ensures ReportCheckpoint(c, s, idEmpty, report).outcome.Raised? ==> ReportCheckpoint(c, s, idEmpty, report).state == s
    ensures CrashAndRestart(c, s).outcome.Raised? ==> CrashAndRestart(c, s).state == s
  {
    hide LegAborted; hide ControllerAborts; hide Restarted;
  }

  /** A capability is available exactly if both sides speak the same version and the instance
      reported it; one the owner never asked for is never missed. */
  lemma NegotiatedMeans(owner: Capabilities, instance: Capabilities, x: Capability)
    ensures var h := Negotiate(owner, instance);
            && (h.accepted <==> owner.protocolVersion == instance.protocolVersion)
            && (x in h.degraded <==> x in owner.supported && !(h.accepted && x in instance.supported))
            && (h.D2Available() <==> h.accepted && (CooperativePreempt in owner.supported ==> CooperativePreempt in instance.supported))
            && (h.CacheScores() <==> h.accepted && (PrefixCacheQuery in owner.supported ==> PrefixCacheQuery in instance.supported))
  {
  }

  /** The frames of the attempt are those surfaced since the last admission or restart. */
  lemma StepCountsFrames(c: ChainConfig, s: State, i: Input)
    ensures var t := Step(c, s, i);
            var anew := (i.Admit? && AdmitDecode(s, i.host).outcome.Ok?) || (i.Crash? && CrashAndRestart(c, s).outcome.Ok?);
            && |t.stream.frames| >= |s.stream.frames|
            && t.stream.framesThisAttempt
               == if anew then 0 else s.stream.framesThisAttempt + |t.stream.frames| - |s.stream.frames|
  {
    hide ControllerObjection; hide ChainProtocol.Verdict; hide ReportRefusal; hide Accepts;
  }

  // --- what a run consumes --------------------------------------------------

  function One(b: bool): nat { if b then 1 else 0 }

  /** How many prefill commits, and how many selections, a run was given. */
  function Commits(inputs: seq<Input>): nat {
    if inputs == [] then 0 else One(inputs[0].Commit?) + Commits(inputs[1..])
  }

  function Selections(inputs: seq<Input>): nat {
    if inputs == [] then 0 else One(inputs[0].OwnerSelects?) + Selections(inputs[1..])
  }

  lemma StepConsumesCommits(c: ChainConfig, s: State, i: Input)
    ensures var t := Step(c, s, i);
            |t.legs| + t.budget.retryUsed + One(t.placement.prefillCommitted)
            <= |s.legs| + s.budget.retryUsed + One(s.placement.prefillCommitted) + One(i.Commit?)
  {
    hide ControllerObjection; hide ChainProtocol.Verdict; hide ReportRefusal; hide Accepts; hide SurfaceStream; hide DropFrom;
  }

  lemma StepConsumesSelections(c: ChainConfig, s: State, i: Input)
    ensures var t := Step(c, s, i);
            |t.legs| + t.budget.retryUsed + One(t.placement.currentHost.Some?)
            <= |s.legs| + s.budget.retryUsed + One(s.placement.currentHost.Some?) + One(i.OwnerSelects?)
  {
    hide ControllerObjection; hide ChainProtocol.Verdict; hide ReportRefusal; hide Accepts; hide SurfaceStream; hide DropFrom;
  }

  /** Every leg and every refusal consumed a prefill commit and a selection of its own. */
  lemma {:induction false} LegsConsume(c: ChainConfig, s: State, inputs: seq<Input>)
    ensures var t := Run(c, s, inputs);
            && |t.legs| + t.budget.retryUsed + One(t.placement.prefillCommitted)
               <= |s.legs| + s.budget.retryUsed + One(s.placement.prefillCommitted) + Commits(inputs)
            && |t.legs| + t.budget.retryUsed + One(t.placement.currentHost.Some?)
               <= |s.legs| + s.budget.retryUsed + One(s.placement.currentHost.Some?) + Selections(inputs)
    decreases |inputs|
  {
    hide Step; hide One;
    if inputs != [] {
      StepConsumesCommits(c, s, inputs[0]);
      StepConsumesSelections(c, s, inputs[0]);
      LegsConsume(c, Step(c, s, inputs[0]), inputs[1..]);
    }
  }

  /** The work of the rollbacks that went through. */
  function RolledBack(c: ChainConfig, s: State, inputs: seq<Input>): real
    decreases |inputs|
  {
    if inputs == [] then 0.0
    else
      (if inputs[0].Rollback? && inputs[0].work >= 0.0 && s.stream.framesThisAttempt == 0 && !s.active
       then inputs[0].work else 0.0)
      + RolledBack(c, Step(c, s, inputs[0]), inputs[1..])
  }

  /** The hosts that refused an admission. */
  function Refusers(c: ChainConfig, s: State, inputs: seq<Input>): set<string>
    decreases |inputs|
  {
    if inputs == [] then {}
    else
      (if inputs[0].Reject? && RejectDecode(c, s).outcome.Ok? && s.placement.currentHost.Some?
       then {s.placement.currentHost.value} else {})
      + Refusers(c, Step(c, s, inputs[0]), inputs[1..])
  }

  lemma StepBooks(c: ChainConfig, s: State, i: Input)
    ensures Step(c, s, i).placement.waste
            == s.placement.waste + if i.Rollback? && i.work >= 0.0 && s.stream.framesThisAttempt == 0 && !s.active
                                   then i.work else 0.0
    ensures Step(c, s, i).placement.failedHosts
            == s.placement.failedHosts
               + if i.Reject? && RejectDecode(c, s).outcome.Ok? && s.placement.currentHost.Some?
                 then {s.placement.currentHost.value} else {}
  {
    hide ControllerObjection; hide ChainProtocol.Verdict; hide ReportRefusal; hide Accepts; hide SurfaceStream; hide DropFrom;
  }

  /** Waste is the work of the rollbacks, and the failed hosts are those that refused: the client
      can exclude no other. */
  lemma {:induction false} BooksAreTrue(c: ChainConfig, s: State, inputs: seq<Input>)
    ensures Run(c, s, inputs).placement.waste == s.placement.waste + RolledBack(c, s, inputs)
    ensures Run(c, s, inputs).placement.failedHosts == s.placement.failedHosts + Refusers(c, s, inputs)
    decreases |inputs|
  {
    hide Step; hide RejectDecode;
    if inputs != [] {
      StepBooks(c, s, inputs[0]);
      BooksAreTrue(c, Step(c, s, inputs[0]), inputs[1..]);
    }
  }
}
