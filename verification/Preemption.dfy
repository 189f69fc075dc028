/** The cooperative preemption ledgers of src/prefill_cache_sim/preemption.py: the output
    fence, the checkpoint store and the controller that grants self-aborts.
 */
module Preemption {
  import opened Options

  datatype DecodeAction = KeepDecoding | AbortSelf

  datatype DecodeCheckpoint = DecodeCheckpoint(
    logicalRequestId: string,
    epoch: int,
    outputSeq: int,
    emittedTokens: int,
    kvHandle: Option<string>,
    tpotWork: real,
    servedQuantum: int)
  {
    /** What the checkpoint record demands of its fields. */
    predicate WellFormed() {
      && logicalRequestId != "" && epoch >= 0 && outputSeq >= 0
      && emittedTokens >= 0 && tpotWork > 0.0 && servedQuantum > 0
    }
  }

  datatype ActionGrant = ActionGrant(
    grantNumber: nat, logicalRequestId: string, action: DecodeAction, sourceEpoch: int, targetEpoch: int)

  datatype KeepMoveInput = KeepMoveInput(
    completionValue: real,
    keepProbability: real,
    moveProbability: real,
    remainingGpuWork: real,
    interferenceGpuWork: real,
    checkpointGpuWork: real,
    recoveryGpuWork: real,
    migrationStallWork: real,
    duplicateRisk: real,
    waitWork: real,
    tenantWeight: real)

  datatype PreemptionConfig = PreemptionConfig(
    minQuantum: int,
    maxPreemptions: int,
    safetyMargin: real,
    lambdaGpu: real,
    lambdaInterference: real,
    lambdaStall: real,
    lambdaRisk: real,
    agingRate: real)

  datatype Reason =
    | PlannerFailOpen | MinimumQuantum | BoundedPreemption | MoveExceedsMargin | KeepWithMargin
    | D2GateClosed | NotNegotiated | EpochDesync

  datatype Decision = Decision(action: DecodeAction, keepScore: real, moveScore: real, reason: Reason)

  datatype ControllerError = StaleEpoch | DivergedAuthority | StaleStore

  datatype Verdict = Granted(decision: Decision, grant: ActionGrant) | Refused(error: ControllerError)

  function Lookup<K, V>(m: map<K, V>, k: K, default: V): V {
    if k in m then m[k] else default
  }

  /** Expected value of leaving the leg where it is; waiting ages the value of keeping. */
  function KeepScore(config: PreemptionConfig, inputs: KeepMoveInput): real {
    (inputs.completionValue + config.agingRate * inputs.waitWork * inputs.tenantWeight) * inputs.keepProbability
    - (config.lambdaGpu * inputs.remainingGpuWork + config.lambdaInterference * inputs.interferenceGpuWork)
  }

  /** Expected value of checkpointing it away. */
  function MoveScore(config: PreemptionConfig, inputs: KeepMoveInput): real {
    inputs.completionValue * inputs.moveProbability
    - (config.lambdaGpu * (inputs.checkpointGpuWork + inputs.recoveryGpuWork)
       + config.lambdaStall * inputs.migrationStallWork
       + config.lambdaRisk * inputs.duplicateRisk)
  }

  /** What moving gains and costs, input by input: the stall, the duplicate risk and the work of
      checkpoint and recovery each lower its value by their own weight. */
  lemma MovingCosts(config: PreemptionConfig, x: KeepMoveInput, d: real)
    ensures var m := MoveScore(config, x);
            && MoveScore(config, x.(completionValue := x.completionValue + d)) == m + d * x.moveProbability
            && MoveScore(config, x.(moveProbability := x.moveProbability + d)) == m + d * x.completionValue
            && MoveScore(config, x.(checkpointGpuWork := x.checkpointGpuWork + d)) == m - config.lambdaGpu * d
            && MoveScore(config, x.(recoveryGpuWork := x.recoveryGpuWork + d)) == m - config.lambdaGpu * d
            && MoveScore(config, x.(migrationStallWork := x.migrationStallWork + d)) == m - config.lambdaStall * d
            && MoveScore(config, x.(duplicateRisk := x.duplicateRisk + d)) == m - config.lambdaRisk * d
  {
  }

  /** Likewise for keeping: remaining work and interference lower its value, and waiting raises it in
      proportion to the tenant's weight. */
  lemma KeepingCosts(config: PreemptionConfig, x: KeepMoveInput, d: real)
    ensures var k := KeepScore(config, x);
            && KeepScore(config, x.(completionValue := x.completionValue + d)) == k + d * x.keepProbability
            && KeepScore(config, x.(remainingGpuWork := x.remainingGpuWork + d)) == k - config.lambdaGpu * d
            && KeepScore(config, x.(interferenceGpuWork := x.interferenceGpuWork + d)) == k - config.lambdaInterference * d
            && KeepScore(config, x.(waitWork := x.waitWork + d))
               == k + config.agingRate * d * x.tenantWeight * x.keepProbability
  {
    var w, a := x.waitWork, config.agingRate;
    var t := x.tenantWeight;
    assert a * (w + d) * t == a * w * t + a * d * t;
    var before, after := x.completionValue + a * w * t, x.completionValue + a * (w + d) * t;
    assert after * x.keepProbability == before * x.keepProbability + a * d * t * x.keepProbability;
  }

  /** With nothing to gain and nothing to pay both scores are zero, and neither looks at the other's
      inputs. */
  lemma ScoresAreSeparate(config: PreemptionConfig, x: KeepMoveInput, y: KeepMoveInput)
    ensures MoveScore(config, x.(keepProbability := y.keepProbability, remainingGpuWork := y.remainingGpuWork,
                                 interferenceGpuWork := y.interferenceGpuWork, waitWork := y.waitWork,
                                 tenantWeight := y.tenantWeight)) == MoveScore(config, x)
    ensures KeepScore(config, x.(moveProbability := y.moveProbability, checkpointGpuWork := y.checkpointGpuWork,
                                 recoveryGpuWork := y.recoveryGpuWork, migrationStallWork := y.migrationStallWork,
                                 duplicateRisk := y.duplicateRisk)) == KeepScore(config, x)
    ensures KeepScore(config, KeepMoveInput(0.0, 0.0, 0.0, 0.0, 0.0, 0.0, 0.0, 0.0, 0.0, 0.0, 0.0)) == 0.0
    ensures MoveScore(config, KeepMoveInput(0.0, 0.0, 0.0, 0.0, 0.0, 0.0, 0.0, 0.0, 0.0, 0.0, 0.0)) == 0.0
  {
  }

  lemma Scales(w: real, lo: real, hi: real)
    requires w >= 0.0 && lo <= hi
    ensures w * lo <= w * hi
  {
    assert w * (hi - lo) >= 0.0;
  }

  lemma DearerMove(config: PreemptionConfig, x: KeepMoveInput, y: KeepMoveInput)
    requires config.lambdaGpu >= 0.0 && config.lambdaStall >= 0.0 && config.lambdaRisk >= 0.0
    requires x.completionValue == y.completionValue && x.moveProbability == y.moveProbability
    requires x.checkpointGpuWork <= y.checkpointGpuWork && x.recoveryGpuWork <= y.recoveryGpuWork
    requires x.migrationStallWork <= y.migrationStallWork && x.duplicateRisk <= y.duplicateRisk
    ensures MoveScore(config, y) <= MoveScore(config, x)
  {
    Scales(config.lambdaGpu, x.checkpointGpuWork + x.recoveryGpuWork, y.checkpointGpuWork + y.recoveryGpuWork);
    Scales(config.lambdaStall, x.migrationStallWork, y.migrationStallWork);
    Scales(config.lambdaRisk, x.duplicateRisk, y.duplicateRisk);
  }

  lemma CheaperKeep(config: PreemptionConfig, x: KeepMoveInput, y: KeepMoveInput)
    requires config.lambdaGpu >= 0.0 && config.lambdaInterference >= 0.0 && config.agingRate >= 0.0
    requires x.tenantWeight == y.tenantWeight >= 0.0 && x.keepProbability == y.keepProbability >= 0.0
    requires x.completionValue == y.completionValue && x.waitWork <= y.waitWork
    requires y.remainingGpuWork <= x.remainingGpuWork && y.interferenceGpuWork <= x.interferenceGpuWork
    ensures KeepScore(config, x) <= KeepScore(config, y)
  {
    var a, b := config.agingRate * x.waitWork, config.agingRate * y.waitWork;
    Scales(config.agingRate, x.waitWork, y.waitWork);
    Scales(x.tenantWeight, a, b);
    Scales(x.keepProbability, x.completionValue + a * x.tenantWeight, x.completionValue + b * x.tenantWeight);
    Scales(config.lambdaGpu, y.remainingGpuWork, x.remainingGpuWork);
    Scales(config.lambdaInterference, y.interferenceGpuWork, x.interferenceGpuWork);
  }

  /** A leg that is not worth moving stays so while moving gets dearer, keeping cheaper and the wait
      longer. */
  lemma DearerMovesStayKept(config: PreemptionConfig, x: KeepMoveInput, y: KeepMoveInput)
    requires config.lambdaGpu >= 0.0 && config.lambdaInterference >= 0.0 && config.lambdaStall >= 0.0
    requires config.lambdaRisk >= 0.0 && config.agingRate >= 0.0 && x.tenantWeight >= 0.0 && x.keepProbability >= 0.0
    requires y.completionValue == x.completionValue && y.tenantWeight == x.tenantWeight
    requires y.keepProbability == x.keepProbability && y.moveProbability == x.moveProbability
    requires y.remainingGpuWork <= x.remainingGpuWork && y.interferenceGpuWork <= x.interferenceGpuWork
    requires x.checkpointGpuWork <= y.checkpointGpuWork && x.recoveryGpuWork <= y.recoveryGpuWork
    requires x.migrationStallWork <= y.migrationStallWork && x.duplicateRisk <= y.duplicateRisk && x.waitWork <= y.waitWork
    ensures MoveScore(config, y) - KeepScore(config, y) > config.safetyMargin ==>
              MoveScore(config, x) - KeepScore(config, x) > config.safetyMargin
  {
    hide MoveScore; hide KeepScore;
    DearerMove(config, x, y);
    CheaperKeep(config, x, y);
  }

  class R2CheckpointStore {
    var objects: map<string, DecodeCheckpoint>

    constructor ()
      ensures objects == map[]
    {
      objects := map[];
    }

    /** A checkpoint replaces the stored one only if its (epoch, sequence) is larger. */
    predicate Stale(handle: string, checkpoint: DecodeCheckpoint)
      reads this
    {
      && handle in objects
      && (checkpoint.epoch < objects[handle].epoch
          || (checkpoint.epoch == objects[handle].epoch && checkpoint.outputSeq <= objects[handle].outputSeq))
    }

    /** Only a later epoch, or a later frame of the same epoch, gets past a stored checkpoint. */
    lemma StoreMovesForward(handle: string, checkpoint: DecodeCheckpoint)
      ensures !Stale(handle, checkpoint) <==>
                (handle in objects ==>
                   || objects[handle].epoch < checkpoint.epoch
                   || (objects[handle].epoch == checkpoint.epoch && objects[handle].outputSeq < checkpoint.outputSeq))
    {
    }

    method Put(checkpoint: DecodeCheckpoint) returns (stored: bool)
      modifies this
      ensures stored <==> checkpoint.kvHandle.Some? && old(!Stale(checkpoint.kvHandle.value, checkpoint))
      ensures stored ==> objects == old(objects)[checkpoint.kvHandle.value := checkpoint]
      ensures !stored ==> objects == old(objects)
    {
      if checkpoint.kvHandle.None? || Stale(checkpoint.kvHandle.value, checkpoint) { return false; }
      objects := objects[checkpoint.kvHandle.value := checkpoint];
      return true;
    }
  }

  class OutputAuthority {
    var epoch: int
    var nextSeq: int

    constructor (epoch: int, nextSeq: int)
      ensures this.epoch == epoch && this.nextSeq == nextSeq
    {
      this.epoch, this.nextSeq := epoch, nextSeq;
    }

    method AdvanceEpoch(target: int, resumeOutputSeq: int) returns (advanced: bool)
      modifies this
      ensures advanced <==> target > old(epoch)
      ensures advanced ==> epoch == target
      ensures advanced ==> nextSeq == if old(nextSeq) >= resumeOutputSeq then old(nextSeq) else resumeOutputSeq
      ensures !advanced ==> epoch == old(epoch) && nextSeq == old(nextSeq)
    {
      if target <= epoch { return false; }
      epoch := target;
      if nextSeq < resumeOutputSeq { nextSeq := resumeOutputSeq; }
      return true;
    }

    method Accept(frameEpoch: int, outputSeq: int) returns (accepted: bool)
      modifies this
      ensures accepted <==> frameEpoch == old(epoch) && outputSeq == old(nextSeq)
      ensures epoch == old(epoch)
      ensures nextSeq == old(nextSeq) + (if accepted then 1 else 0)
    {
      if frameEpoch != epoch || outputSeq != nextSeq { return false; }
      nextSeq := nextSeq + 1;
      return true;
    }
  }

  class CooperativePreemptionController {
    const config: PreemptionConfig
    const store: R2CheckpointStore
    var preemptions: map<string, nat>
    var latestEpoch: map<string, int>
    var authorities: map<string, OutputAuthority>
    var grantSequence: nat

    constructor (config: PreemptionConfig, store: R2CheckpointStore, authorities: map<string, OutputAuthority>)
      ensures this.config == config && this.store == store && this.authorities == authorities
      ensures preemptions == map[] && latestEpoch == map[] && grantSequence == 0
    {
      this.config, this.store, this.authorities := config, store, authorities;
      preemptions, latestEpoch, grantSequence := map[], map[], 0;
    }

    /** Whether moving is worth more than keeping, with the safety margin. */
    predicate MoveWins(inputs: KeepMoveInput) {
      MoveScore(config, inputs) - KeepScore(config, inputs) > config.safetyMargin
    }

    /** `_decide`: fail open, wait out the quantum, respect the bound, then compare values. */
    function Decide(checkpoint: DecodeCheckpoint, inputs: KeepMoveInput, plannerAvailable: bool): (d: Decision)
      reads `preemptions
      ensures d.action.AbortSelf? <==>
                && plannerAvailable && checkpoint.servedQuantum >= config.minQuantum
                && Lookup(preemptions, checkpoint.logicalRequestId, 0) < config.maxPreemptions
                && MoveWins(inputs)
    {
      if !plannerAvailable then Decision(KeepDecoding, 0.0, 0.0, PlannerFailOpen)
      else if checkpoint.servedQuantum < config.minQuantum then Decision(KeepDecoding, 0.0, 0.0, MinimumQuantum)
      else if Lookup(preemptions, checkpoint.logicalRequestId, 0) >= config.maxPreemptions then
        Decision(KeepDecoding, 0.0, 0.0, BoundedPreemption)
      else
        var keep, move := KeepScore(config, inputs), MoveScore(config, inputs);
        if MoveWins(inputs) then Decision(AbortSelf, keep, move, MoveExceedsMargin)
        else Decision(KeepDecoding, keep, move, KeepWithMargin)
    }

    /** The decision says what stopped the move, in this order, and carries the scores it compared. */
    lemma DecisionSaysWhy(checkpoint: DecodeCheckpoint, inputs: KeepMoveInput, plannerAvailable: bool)
      ensures var d := Decide(checkpoint, inputs, plannerAvailable);
              var done := Lookup(preemptions, checkpoint.logicalRequestId, 0) >= config.maxPreemptions;
              && (d.reason == PlannerFailOpen <==> !plannerAvailable)
              && (d.reason == MinimumQuantum <==> plannerAvailable && checkpoint.servedQuantum < config.minQuantum)
              && (d.reason == BoundedPreemption <==>
                    plannerAvailable && checkpoint.servedQuantum >= config.minQuantum && done)
              && (!plannerAvailable || checkpoint.servedQuantum < config.minQuantum || done ==>
                    d.action.KeepDecoding? && d.keepScore == 0.0 == d.moveScore)
              && (plannerAvailable && checkpoint.servedQuantum >= config.minQuantum && !done ==>
                    && d.keepScore == KeepScore(config, inputs) && d.moveScore == MoveScore(config, inputs)
                    && (d.reason == if d.moveScore > d.keepScore + config.safetyMargin then MoveExceedsMargin else KeepWithMargin)
                    && (d.action.AbortSelf? <==> d.reason == MoveExceedsMargin))
    {
    }

    /** The fence object the controller holds for a request, if it holds one. */
    function FenceOf(id: string): set<OutputAuthority>
      reads this
    {
      if id in authorities then {authorities[id]} else {}
    }

    /** Why a self-abort would be refused, if it would. */
    function AbortRefusal(checkpoint: DecodeCheckpoint): Option<ControllerError>
      reads this, store, FenceOf(checkpoint.logicalRequestId)
    {
      var id := checkpoint.logicalRequestId;
      if id in authorities && authorities[id].epoch != checkpoint.epoch then Some(DivergedAuthority)
      else if checkpoint.kvHandle.Some? && store.Stale(checkpoint.kvHandle.value, checkpoint) then Some(StaleStore)
      else None
    }

    /** The self-abort branch: store the checkpoint, then move the fence to the next epoch. */
    method GrantSelfAbort(checkpoint: DecodeCheckpoint) returns (refusal: Option<ControllerError>)
      modifies this`authorities, this`latestEpoch, this`preemptions, store, FenceOf(checkpoint.logicalRequestId)
      ensures refusal == old(AbortRefusal(checkpoint))
      ensures refusal.Some? ==>
                && preemptions == old(preemptions) && latestEpoch == old(latestEpoch)
                && authorities == old(authorities) && store.objects == old(store.objects)
                && (forall a :: a in old(FenceOf(checkpoint.logicalRequestId)) ==>
                                  a.epoch == old(a.epoch) && a.nextSeq == old(a.nextSeq))
      ensures refusal.None? ==>
                var id := checkpoint.logicalRequestId;
                && preemptions == old(preemptions)[id := old(Lookup(preemptions, id, 0)) + 1]
                && latestEpoch == old(latestEpoch)[id := checkpoint.epoch + 1]
                && store.objects == (if checkpoint.kvHandle.Some?
                                     then old(store.objects)[checkpoint.kvHandle.value := checkpoint]
                                     else old(store.objects))
                && id in authorities && authorities == old(authorities)[id := authorities[id]]
                && (if id in old(authorities) then authorities[id] == old(authorities[id]) else fresh(authorities[id]))
                && authorities[id].epoch == checkpoint.epoch + 1
                && authorities[id].nextSeq == (if id in old(authorities) && old(authorities[id].nextSeq) >= checkpoint.outputSeq
                                               then old(authorities[id].nextSeq) else checkpoint.outputSeq)
    {
      var id := checkpoint.logicalRequestId;
      var authority: OutputAuthority;
      if id in authorities {
        authority := authorities[id];
      } else {
        authority := new OutputAuthority(checkpoint.epoch, checkpoint.outputSeq);
      }
      if authority.epoch != checkpoint.epoch { return Some(DivergedAuthority); }
      if checkpoint.kvHandle.Some? {
        var stored := store.Put(checkpoint);
        if !stored { return Some(StaleStore); }
      }
      authorities := authorities[id := authority];
      var _ := authority.AdvanceEpoch(checkpoint.epoch + 1, checkpoint.outputSeq);
      latestEpoch := latestEpoch[id := checkpoint.epoch + 1];
      preemptions := preemptions[id := Lookup(preemptions, id, 0) + 1];
      refusal := None;
    }

    method ReportCheckpoint(checkpoint: DecodeCheckpoint, inputs: KeepMoveInput, plannerAvailable: bool)
      returns (v: Verdict)
      modifies this, store, FenceOf(checkpoint.logicalRequestId)
      ensures checkpoint.epoch != old(Lookup(latestEpoch, checkpoint.logicalRequestId, 0)) ==> v == Refused(StaleEpoch)
      ensures checkpoint.epoch == old(Lookup(latestEpoch, checkpoint.logicalRequestId, 0)) ==>
                var decision := old(Decide(checkpoint, inputs, plannerAvailable));
                var refusal := if decision.action.AbortSelf? then old(AbortRefusal(checkpoint)) else None;
                if refusal.Some? then v == Refused(refusal.value) else
                  && v.Granted? && v.decision == decision
                  && v.grant == ActionGrant(old(grantSequence) + 1, checkpoint.logicalRequestId, decision.action,
                                            checkpoint.epoch,
                                            checkpoint.epoch + (if decision.action.AbortSelf? then 1 else 0))
                  && latestEpoch == old(latestEpoch)[checkpoint.logicalRequestId := v.grant.targetEpoch]
      ensures v.Refused? ==> latestEpoch == old(latestEpoch)
      ensures v.Refused? || v.decision.action.KeepDecoding? ==>
                && preemptions == old(preemptions) && authorities == old(authorities)
                && store.objects == old(store.objects)
                && (forall a :: a in old(FenceOf(checkpoint.logicalRequestId)) ==>
                                  a.epoch == old(a.epoch) && a.nextSeq == old(a.nextSeq))
      ensures v.Granted? && v.decision.action.AbortSelf? ==>
                var id := checkpoint.logicalRequestId;
                && preemptions == old(preemptions)[id := old(Lookup(preemptions, id, 0)) + 1]
                && store.objects == (if checkpoint.kvHandle.Some?
                                     then old(store.objects)[checkpoint.kvHandle.value := checkpoint]
                                     else old(store.objects))
                && id in authorities && authorities == old(authorities)[id := authorities[id]]
                && (if id in old(authorities) then authorities[id] == old(authorities[id]) else fresh(authorities[id]))
                && authorities[id].epoch == checkpoint.epoch + 1
                && authorities[id].nextSeq == (if id in old(authorities) && old(authorities[id].nextSeq) >= checkpoint.outputSeq
                                               then old(authorities[id].nextSeq) else checkpoint.outputSeq)
    {
      var id := checkpoint.logicalRequestId;
      if checkpoint.epoch != Lookup(latestEpoch, id, 0) { return Refused(StaleEpoch); }
      var decision := Decide(checkpoint, inputs, plannerAvailable);
      var targetEpoch := checkpoint.epoch;
      if decision.action.AbortSelf? {
        targetEpoch := targetEpoch + 1;
        var refusal := GrantSelfAbort(checkpoint);
        if refusal.Some? { return Refused(refusal.value); }
      } else {
        latestEpoch := latestEpoch[id := checkpoint.epoch];
      }
      grantSequence := grantSequence + 1;
      v := Granted(decision, ActionGrant(grantSequence, id, decision.action, checkpoint.epoch, targetEpoch));
    }
  }
}
