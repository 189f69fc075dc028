/** The objects of src/prefill_cache_sim/chain/harness.py.

    Each method is proved to take exactly the step of `ChainProtocol` on the values its
    objects hold, including what aliasing does: the controller shares the client's fence
    object until a crash replaces it.
 */
module ChainHarnessObjects {
  import opened Options
  import opened Preemption
  import opened ChainProtocol
  import opened ChainSelection

  class DurableClientLedger {
    var ackedSeq: int
    var epoch: int

    constructor ()
      ensures ackedSeq == 0 && epoch == 0
    {
      ackedSeq, epoch := 0, 0;
    }
  }

  class DecodeLeg {
    const harness: ChainHarness
    const legNumber: nat
    const attempt: int
    const host: string
    const epoch: int
    var nextSeq: int

    constructor (harness: ChainHarness, legNumber: nat, attempt: int, host: string, epoch: int, nextSeq: int)
      ensures this.harness == harness && this.legNumber == legNumber && this.attempt == attempt
      ensures this.host == host && this.epoch == epoch && this.nextSeq == nextSeq
    {
      this.harness, this.legNumber, this.attempt := harness, legNumber, attempt;
      this.host, this.epoch, this.nextSeq := host, epoch, nextSeq;
    }

    /** Emit `tokens` frames.  The leg advances its own sequence whether or not the fence
        accepted; each frame is judged on its own. */
    method Emit(tokens: int) returns (r: Outcome<int>)
      requires harness.Wired()
      modifies this`nextSeq, harness`stream, harness.authority, harness.durable
      ensures harness.Wired()
      ensures r.Raised? <==> tokens <= 0 || harness.finished || !harness.everAdmitted || epoch > old(harness.authority.epoch)
      ensures r.Raised? ==> nextSeq == old(nextSeq) && harness.St() == old(harness.St())
      ensures r.Ok? ==>
                && nextSeq == old(nextSeq) + tokens
                && harness.St() == EmitFrames(harness.config, old(harness.St()), epoch, old(nextSeq), tokens)
                && r.value == AcceptedFrames(harness.config, old(harness.St()), epoch, old(nextSeq), tokens)
    {
      hide Deliver;
      if tokens <= 0 { return Raised(BadArgument); }
      var accepted := 0;
      ghost var s, first, fenceEpoch := harness.St(), nextSeq, harness.authority.epoch;
      for sent := 0 to tokens
        invariant harness.Wired() && harness.authority.epoch == fenceEpoch
        invariant sent > 0 ==> !harness.finished && harness.everAdmitted && epoch <= fenceEpoch
        invariant nextSeq == first + sent
        invariant harness.St() == EmitFrames(harness.config, s, epoch, first, sent)
        invariant accepted == AcceptedFrames(harness.config, s, epoch, first, sent)
      {
        var frame := harness.DeliverFrame(epoch, nextSeq);
        if frame.Raised? { return Raised(frame.error); }
        if frame.value { accepted := accepted + 1; }
        nextSeq := nextSeq + 1;
      }
      r := Ok(accepted);
    }

    function Identity(): Leg {
      Leg(epoch, attempt, host)
    }
  }

  function Identities(legs: seq<DecodeLeg>): seq<Leg> {
    seq(|legs|, i requires 0 <= i < |legs| => legs[i].Identity())
  }

  class ChainHarness {
    const config: ChainConfig
    const logicalRequestId: string
    const originalInputTokens: nat
    const kvHandle: string
    const store: R2CheckpointStore
    const controller: CooperativePreemptionController
    const durable: DurableClientLedger
    var authority: OutputAuthority
    /** the epoch the controller last authorized, as the client remembers it */
    var controllerEpoch: int
    var handshake: Option<Handshake>
    var stream: Stream
    var budget: Budget
    var placement: Placement
    var terminals: seq<string>
    var lastViewEpoch: int
    var activeLeg: DecodeLeg?
    var legCounter: nat
    var everAdmitted: bool
    var finished: bool
    var grantSequence: nat
    /** Every leg ever admitted, oldest first. */
    ghost var admitted: seq<DecodeLeg>

    ghost function FenceNow(): Fence
      reads `authority, authority
    {
      Fence(authority.epoch, authority.nextSeq)
    }

    ghost function DurableNow(): Durable
      reads durable
    {
      Durable(durable.ackedSeq, durable.epoch)
    }

    ghost function ControlNow(): Control
      requires logicalRequestId in controller.authorities
      reads `authority, `controllerEpoch, controller, store, controller.FenceOf(logicalRequestId)
    {
      var held := controller.authorities[logicalRequestId];
      Control(Fence(held.epoch, held.nextSeq), held == authority,
              Lookup(controller.latestEpoch, logicalRequestId, 0),
              Lookup(controller.preemptions, logicalRequestId, 0),
              if kvHandle in store.objects
              then Some(Stamp(store.objects[kvHandle].epoch, store.objects[kvHandle].outputSeq)) else None,
              controllerEpoch)
    }

    /** The protocol state these objects hold. */
    ghost function St(): State
      requires logicalRequestId in controller.authorities
      reads this, authority, durable, controller, store, controller.FenceOf(logicalRequestId)
    {
      State(FenceNow(), DurableNow(), stream, ControlNow(), budget, placement,
            Identities(admitted), activeLeg != null, handshake, terminals, finished)
    }

    /** How the objects hang together. */
    ghost predicate Wired()
      reads `everAdmitted, `admitted, `activeLeg, controller
    {
      && config.maxRounds > 0
      && controller.store == store && controller.config == config.preemption
      && logicalRequestId in controller.authorities
      && (everAdmitted <==> admitted != [])
      && (activeLeg != null ==> admitted != [] && admitted[|admitted| - 1] == activeLeg)
    }

    constructor (config: ChainConfig, logicalRequestId: string, inputTokens: nat, kvHandle: string)
      requires config.maxRounds > 0
      ensures Wired() && St() == Initial
      ensures this.config == config && this.logicalRequestId == logicalRequestId && this.kvHandle == kvHandle
      ensures originalInputTokens == inputTokens
    {
      this.config, this.logicalRequestId, this.kvHandle := config, logicalRequestId, kvHandle;
      originalInputTokens := inputTokens;
      var s := new R2CheckpointStore();
      var a := new OutputAuthority(0, 0);
      var c := new CooperativePreemptionController(config.preemption, s, map[logicalRequestId := a]);
      var d := new DurableClientLedger();
      store, authority, controller, durable := s, a, c, d;
      controllerEpoch, handshake := 0, None;
      stream, budget, placement := Initial.stream, Initial.budget, Initial.placement;
      terminals, lastViewEpoch := [], -1;
      activeLeg, legCounter, everAdmitted, finished := null, 0, false, false;
      admitted, grantSequence := [], 0;
    }

    predicate BudgetSpent()
      reads `budget
    {
      budget.budgetExhausted || budget.roundsExhausted
    }

    // --- frames ---

    method DeliverFrame(epoch: int, outputSeq: int) returns (r: Outcome<bool>)
      requires Wired()
      modifies `stream, authority, durable
      ensures Wired() && After(St(), r) == Deliver(config, old(St()), epoch, outputSeq)
      ensures r.Raised? <==> finished || !everAdmitted || epoch > authority.epoch
      ensures r.Raised? ==> St() == old(St())
      ensures authority.epoch == old(authority.epoch)
    {
      if finished {
        r := Raised(Finished);
      } else if !everAdmitted {
        r := Raised(NotAdmitted);
      } else if epoch > authority.epoch {
        r := Raised(ForgedEpoch);
      } else {
        var accepted := authority.Accept(epoch, outputSeq);
        if accepted {
          stream := SurfaceStream(stream, (epoch, outputSeq));
          if config.durableOutputAck { durable.ackedSeq := stream.delivered; }
        } else {
          stream := DropFrom(Fence(authority.epoch, authority.nextSeq), stream, epoch, outputSeq);
        }
        r := Ok(accepted);
      }
    }

    // --- selection and prefill ---

    method MakeHandshake(owner: Capabilities, instance: Capabilities)
      requires Wired()
      modifies `handshake
      ensures Wired() && St() == Step(config, old(St()), Input.MakeHandshake(owner, instance))
    {
      handshake := Some(Negotiate(owner, instance));
    }

    /** Ask the map owner to place this leg; to the protocol the answer is a chosen host. */
    method Select(snapshot: ViewSnapshot, exclude: set<string>, timeout: bool, error: bool)
      returns (r: Outcome<Selection>)
      requires Wired() && snapshot.WellFormed()
      modifies `placement, `lastViewEpoch
      ensures Wired()
      ensures r == Answer(config.mode, config.maxViewAgeMs, BudgetSpent(), old(placement).failedHosts,
                          old(lastViewEpoch), handshake, snapshot, exclude, timeout, error)
      ensures St() == if r.Ok? then Step(config, old(St()), OwnerSelects(r.value.host)) else old(St())
      ensures lastViewEpoch == if (r.Ok? || r.error.RequiredMode?) && !config.mode.Off?
                                  && old(lastViewEpoch) < snapshot.epoch
                               then snapshot.epoch else old(lastViewEpoch)
    {
      hide Answer;
      r := Answer(config.mode, config.maxViewAgeMs, BudgetSpent(), placement.failedHosts, lastViewEpoch,
                  handshake, snapshot, exclude, timeout, error);
      if !config.mode.Off? && lastViewEpoch < snapshot.epoch
         && (r.Ok? || r.error.RequiredMode?) { lastViewEpoch := snapshot.epoch; }
      if r.Ok? { placement := placement.(currentHost := Some(r.value.host)); }
    }

    method CommitPrefill(work: real) returns (r: Outcome<()>)
      requires Wired()
      modifies `placement
      ensures Wired() && After(St(), r) == ChainProtocol.CommitPrefill(old(St()), work)
    {
      if BudgetSpent() { return Raised(Exhausted); }
      if work < 0.0 { return Raised(BadArgument); }
      placement := placement.(prefillCommitted := true);
      r := Ok(());
    }

    method RollbackPrefill(work: real) returns (r: Outcome<()>)
      requires Wired()
      modifies `placement
      ensures Wired() && After(St(), r) == ChainProtocol.RollbackPrefill(old(St()), work)
    {
      if work < 0.0 { return Raised(BadArgument); }
      if stream.framesThisAttempt > 0 { return Raised(OutputSeen); }
      if activeLeg != null { return Raised(LegActive); }
      placement := placement.(prefillCommitted := false, waste := placement.waste + work);
      r := Ok(());
    }

    // --- decode admission ---

    method AdmitDecode(host: Option<string>) returns (r: Outcome<string>)
      requires Wired()
      modifies `placement, `stream, `everAdmitted, `legCounter, `activeLeg, `admitted
      ensures Wired() && After(St(), r) == ChainProtocol.AdmitDecode(old(St()), host)
      ensures old(admitted) <= admitted
      ensures r.Ok? ==> activeLeg != null && fresh(activeLeg) && activeLeg.harness == this
                        && activeLeg.nextSeq == stream.delivered
    {
      if BudgetSpent() { return Raised(Exhausted); }
      if activeLeg != null { return Raised(LegActive); }
      if !placement.prefillCommitted { return Raised(NotCommitted); }
      if placement.currentHost.None? { return Raised(NoHost); }
      if host.Some? && host != placement.currentHost { return Raised(HostMismatch); }
      r := Ok(placement.currentHost.value);
      StartLeg(placement.currentHost.value);
    }

    method StartLeg(host: string)
      requires Wired() && activeLeg == null
      modifies `placement, `stream, `everAdmitted, `legCounter, `activeLeg, `admitted
      ensures Wired() && activeLeg != null && fresh(activeLeg)
      ensures activeLeg.harness == this && activeLeg.nextSeq == stream.delivered
      ensures admitted == old(admitted) + [activeLeg]
      ensures Identities(admitted) == Identities(old(admitted)) + [Leg(authority.epoch, budget.attempt, host)]
      ensures placement == old(placement).(prefillCommitted := false, currentHost := None)
      ensures stream == old(stream).(framesThisAttempt := 0)
    {
      placement := placement.(prefillCommitted := false, currentHost := None);
      stream := stream.(framesThisAttempt := 0);
      everAdmitted := true;
      legCounter := legCounter + 1;
      activeLeg := new DecodeLeg(this, legCounter, budget.attempt, host, authority.epoch, stream.delivered);
      admitted := admitted + [activeLeg];
      assert Identities(admitted) == Identities(old(admitted)) + [activeLeg.Identity()];
    }

    method RejectDecode() returns (r: Outcome<bool>)
      requires Wired()
      modifies `placement, `budget
      ensures Wired() && After(St(), r) == ChainProtocol.RejectDecode(config, old(St()))
    {
      if BudgetSpent() { return Raised(Exhausted); }
      if activeLeg != null { return Raised(LegActive); }
      if placement.currentHost.None? { return Raised(NoHost); }
      if !placement.prefillCommitted { return Raised(NotCommitted); }
      placement := placement.(failedHosts := placement.failedHosts + {placement.currentHost.value},
                              currentHost := None, prefillCommitted := false);
      budget := budget.(retryUsed := budget.retryUsed + 1, attempt := budget.attempt + 1,
                        budgetExhausted := config.retryBudget - (budget.retryUsed + 1) <= 0);
      r := Ok(!budget.budgetExhausted);
    }

    // --- the end of a leg ---

    method ExpireLease() returns (r: Outcome<int>)
      requires Wired()
      modifies `activeLeg, `budget, authority, durable
      ensures Wired() && After(St(), r) == ChainProtocol.ExpireLease(config, originalInputTokens, old(St()))
    {
      if finished { return Raised(Finished); }
      if BudgetSpent() { return Raised(Exhausted); }
      if activeLeg == null { return Raised(NoActiveLeg); }
      activeLeg := null;
      var _ := authority.AdvanceEpoch(authority.epoch + 1, stream.delivered);
      if config.durableOutputAck { durable.epoch := authority.epoch; }
      if budget.attempt + 1 > config.maxRounds {
        budget := budget.(attempt := budget.attempt + 1, roundsExhausted := true);
        return Raised(RoundsExceeded);
      }
      budget := budget.(attempt := budget.attempt + 1, leaseExpiryTotal := budget.leaseExpiryTotal + 1);
      r := Ok(originalInputTokens + stream.delivered);
    }

    // --- cooperative preemption ---

    function CheckpointOf(leg: DecodeLeg, quantum: int): DecodeCheckpoint
      reads leg
    {
      DecodeCheckpoint(logicalRequestId, leg.epoch, leg.nextSeq, leg.nextSeq, Some(kvHandle), 1.0, quantum)
    }

    function ReportOf(leg: DecodeLeg?, quantum: int, inputs: KeepMoveInput, plannerAvailable: bool): Report
      reads `activeLeg, leg
    {
      if leg == null then Report(false, false, 0, 0, quantum, plannerAvailable, controller.MoveWins(inputs))
      else Report(true, leg == activeLeg, leg.epoch, leg.nextSeq, quantum, plannerAvailable, controller.MoveWins(inputs))
    }

    /** The only decode-side escape hatch, and it is advisory. */
    method ReportCheckpoint(inputs: KeepMoveInput, leg: DecodeLeg?, servedQuantum: Option<int>, plannerAvailable: bool)
      returns (r: Outcome<(Decision, ActionGrant)>)
      requires Wired()
      modifies `activeLeg, `budget, `controllerEpoch, `grantSequence, controller, store,
               controller.FenceOf(logicalRequestId), durable
      ensures Wired()
      ensures var quantum := if servedQuantum.Some? then servedQuantum.value else config.preemption.minQuantum;
              After(St(), if r.Ok? then Ok(r.value.0.action) else Raised(r.error))
              == ChainProtocol.ReportCheckpoint(config, old(St()), logicalRequestId == "",
                                                old(ReportOf(leg, quantum, inputs, plannerAvailable)))
      ensures r.Ok? ==> r.value.1.sourceEpoch == old(authority.epoch) <= r.value.1.targetEpoch
    {
      var quantum := if servedQuantum.Some? then servedQuantum.value else config.preemption.minQuantum;
      ghost var report := ReportOf(leg, quantum, inputs, plannerAvailable);
      if leg == null { return Raised(WrongLeg); }
      if activeLeg == null { return Raised(NoActiveLeg); }
      if leg != activeLeg { return Raised(WrongLeg); }
      if leg.epoch != authority.epoch { return Raised(EpochSuperseded); }
      if leg.nextSeq != stream.delivered { return Raised(SequenceMismatch); }
      var checkpoint := CheckpointOf(leg, quantum);
      if !checkpoint.WellFormed() { return Raised(BadArgument); }
      if !config.d2GateOpen {
        r := LocalGrant(Decision(KeepDecoding, 0.0, 0.0, D2GateClosed));
      } else if handshake.None? || !handshake.value.D2Available() {
        r := FailOpen(NotNegotiated);
      } else if authority.epoch != controllerEpoch {
        r := FailOpen(EpochDesync);
      } else if !plannerAvailable && config.mode.Required? {
        r := Raised(RequiredMode);
      } else {
        r := Consult(checkpoint, inputs, plannerAvailable, report);
      }
    }

    /** Answer without the controller; required mode refuses to. */
    method FailOpen(reason: Reason) returns (r: Outcome<(Decision, ActionGrant)>)
      modifies `grantSequence
      ensures if config.mode.Required? then r == Raised(RequiredMode)
              else r.Ok? && r.value.0.action == KeepDecoding
                   && r.value.1.sourceEpoch == authority.epoch == r.value.1.targetEpoch
    {
      if config.mode.Required? { return Raised(RequiredMode); }
      r := LocalGrant(Decision(KeepDecoding, 0.0, 0.0, reason));
    }

    method LocalGrant(decision: Decision) returns (r: Outcome<(Decision, ActionGrant)>)
      modifies `grantSequence
      ensures r.Ok? && r.value.0 == decision
      ensures r.value.1.sourceEpoch == authority.epoch == r.value.1.targetEpoch
    {
      grantSequence := grantSequence + 1;
      r := Ok((decision, ActionGrant(grantSequence, logicalRequestId, decision.action, authority.epoch, authority.epoch)));
    }

    /** Ask the controller; on a self-abort the leg ends and the client records the new epoch. */
    method Consult(checkpoint: DecodeCheckpoint, inputs: KeepMoveInput, plannerAvailable: bool, ghost report: Report)
      returns (r: Outcome<(Decision, ActionGrant)>)
      requires Wired() && activeLeg != null
      requires checkpoint == CheckpointOf(activeLeg, report.quantum)
      requires report == ReportOf(activeLeg, report.quantum, inputs, plannerAvailable)
      requires report.legEpoch == authority.epoch
      modifies `activeLeg, `budget, `controllerEpoch, `grantSequence, controller, store,
               controller.FenceOf(logicalRequestId), durable
      ensures Wired()
      ensures After(St(), if r.Ok? then Ok(r.value.0.action) else Raised(r.error))
              == ChainProtocol.Consult(config, old(St()), report)
      ensures r.Ok? ==> r.value.1.sourceEpoch == old(authority.epoch) <= r.value.1.targetEpoch
    {
      hide ControllerObjection; hide ChainProtocol.Verdict; hide ControllerAborts; hide LegAborted;
      var verdict := HearController(checkpoint, inputs, plannerAvailable, report);
      if verdict.Refused? { return Raised(ControllerRaised(verdict.error)); }
      grantSequence := grantSequence + 1;
      if verdict.decision.action.AbortSelf? { EndByGrant(verdict.grant.targetEpoch); }
      r := Ok((verdict.decision, verdict.grant));
    }

    /** The controller's answer and where it leaves the whole request. */
    method HearController(checkpoint: DecodeCheckpoint, inputs: KeepMoveInput, plannerAvailable: bool, ghost report: Report)
      returns (v: Preemption.Verdict)
      requires Wired() && activeLeg != null
      requires checkpoint == CheckpointOf(activeLeg, report.quantum)
      requires report == ReportOf(activeLeg, report.quantum, inputs, plannerAvailable)
      modifies controller, store, controller.FenceOf(logicalRequestId)
      ensures Wired()
      ensures var s := old(St());
              var objection := ControllerObjection(config, s.control, report);
              if objection.Some? then v == Refused(objection.value) && St() == s
              else
                && v.Granted? && v.decision.action == ChainProtocol.Verdict(config, s.control, report)
                && v.grant.sourceEpoch == report.legEpoch
                && (if v.decision.action.KeepDecoding? then
                      && v.grant.targetEpoch == report.legEpoch
                      && St() == s.(control := s.control.(latestEpoch := report.legEpoch))
                    else
                      && v.grant.targetEpoch == report.legEpoch + 1
                      && St() == ControllerAborts(s, report))
    {
      hide ControllerObjection; hide ChainProtocol.Verdict;
      v := AskController(checkpoint, inputs, plannerAvailable, report);
    }

    method EndByGrant(targetEpoch: int)
      requires Wired()
      modifies `activeLeg, `budget, `controllerEpoch, durable
      ensures Wired() && St() == LegAborted(config, old(St()), targetEpoch)
    {
      budget := budget.(abortSelfTotal := budget.abortSelfTotal + 1, attempt := budget.attempt + 1);
      activeLeg := null;
      controllerEpoch := targetEpoch;
      if config.durableOutputAck { durable.epoch := targetEpoch; }
    }

    /** What the controller does to the two fences and its own ledgers. */
    method AskController(checkpoint: DecodeCheckpoint, inputs: KeepMoveInput, plannerAvailable: bool, ghost report: Report)
      returns (v: Preemption.Verdict)
      requires Wired() && activeLeg != null
      requires checkpoint == CheckpointOf(activeLeg, report.quantum)
      requires report == ReportOf(activeLeg, report.quantum, inputs, plannerAvailable)
      modifies controller, store, controller.FenceOf(logicalRequestId)
      ensures Wired()
      ensures var k := old(ControlNow());
              var objection := ControllerObjection(config, k, report);
              if objection.Some? then
                v == Refused(objection.value) && ControlNow() == k && FenceNow() == old(FenceNow())
              else
                && v.Granted? && v.decision.action == ChainProtocol.Verdict(config, k, report)
                && v.grant.sourceEpoch == report.legEpoch
                && (if v.decision.action.KeepDecoding? then
                      && v.grant.targetEpoch == report.legEpoch
                      && ControlNow() == k.(latestEpoch := report.legEpoch) && FenceNow() == old(FenceNow())
                    else
                      && v.grant.targetEpoch == report.legEpoch + 1
                      && ControlNow() == Control(Advance(k.held, report.legEpoch + 1, report.legSeq), k.shared,
                                                 report.legEpoch + 1, k.preemptions + 1,
                                                 Some(Stamp(report.legEpoch, report.legSeq)), controllerEpoch)
                      && FenceNow() == (if k.shared then ControlNow().held else old(FenceNow())))
    {
      v := controller.ReportCheckpoint(checkpoint, inputs, plannerAvailable);
    }

    // --- crash and terminal ---

    /** The restarted client builds a new fence object; the controller keeps the old one. */
    method CrashAndRestart() returns (r: Outcome<int>)
      requires Wired()
      modifies `stream, `placement, `activeLeg, `authority, `budget, durable
      ensures Wired() && After(St(), r) == ChainProtocol.CrashAndRestart(config, old(St()))
    {
      if finished {
        r := Raised(Finished);
      } else if !config.durableOutputAck {
        r := Raised(NoDurableAck);
      } else {
        r := Ok(durable.ackedSeq);
        RestartFromDurable();
      }
    }

    method RestartFromDurable()
      requires Wired()
      modifies `stream, `placement, `activeLeg, `authority, `budget, durable
      ensures Wired() && St() == Restarted(old(St()))
    {
      hide Identities; hide Advance;
      ActiveLegIsLast();
      var resume := durable.ackedSeq;
      ForgetVolatile(resume);
      RebuildFence(resume);
    }

    /** The lost leg becomes an orphan; nothing but its host survives. */
    method ForgetVolatile(resume: int)
      modifies `stream, `placement, `activeLeg, `budget
      ensures activeLeg == null
      ensures stream == old(stream).(delivered := resume, framesThisAttempt := 0)
      ensures budget == old(budget).(attempt := old(budget).attempt + 1)
      ensures placement == old(placement).(prefillCommitted := false, currentHost := None,
                                           orphans := old(placement).orphans
                                                      + (if old(activeLeg) != null then [old(activeLeg).host] else []))
    {
      var lost := if activeLeg != null then [activeLeg.host] else [];
      placement := placement.(prefillCommitted := false, currentHost := None, orphans := placement.orphans + lost);
      stream := stream.(delivered := resume, framesThisAttempt := 0);
      budget := budget.(attempt := budget.attempt + 1);
      activeLeg := null;
    }

    lemma ActiveLegIsLast()
      requires Wired()
      ensures activeLeg != null ==> LastHost(Identities(admitted)) == [activeLeg.host]
    {
    }

    /** A new fence object from the durable ledger; whatever the controller holds stays as it was. */
    method RebuildFence(resume: int)
      requires Wired()
      modifies `authority, durable
      ensures fresh(authority)
      ensures FenceNow() == Advance(Fence(old(durable.epoch), resume), old(durable.epoch) + 1, resume)
      ensures DurableNow() == old(DurableNow()).(epoch := authority.epoch)
      ensures ControlNow() == old(ControlNow()).(shared := false)
    {
      var rebuilt := new OutputAuthority(durable.epoch, resume);
      var _ := rebuilt.AdvanceEpoch(durable.epoch + 1, resume);
      authority := rebuilt;
      durable.epoch := authority.epoch;
    }

    method SettleOrphanLeg() returns (r: Outcome<string>)
      ensures if placement.orphans == [] then r == Raised(NoOrphan) else r == Ok("natural_lease_expiry")
    {
      if placement.orphans == [] { return Raised(NoOrphan); }
      r := Ok("natural_lease_expiry");
    }

    /** Always refused: the prohibition is executable. */
    method RefuseHardAbort() returns (r: Outcome<()>)
      ensures r == Raised(HardAbort)
    {
      r := Raised(HardAbort);
    }

    method Finish(reason: string) returns (r: Outcome<()>)
      requires Wired()
      modifies `finished, `terminals
      ensures Wired() && After(St(), r) == ChainProtocol.Finish(old(St()), reason)
    {
      if finished { return Raised(Finished); }
      if BudgetSpent() && reason != "ERROR" { return Raised(OnlyErrorLeft); }
      finished := true;
      terminals := terminals + [reason];
      r := Ok(());
    }
  }
}
