/** The chain protocol of src/prefill_cache_sim/chain/harness.py as steps on values: one
    logical request driven across client, selector owner, prefill and decode.

    Every public transition is a function from a state to a state and an outcome.  Some
    transitions move the state and then raise.  `Invariant` is what every step keeps and
    `Later` is what no step undoes; `EveryRunIsSafe` carries both over whole runs.
 */
module ChainProtocol {
  import opened Options
  import opened Preemption

  datatype Mode = Off | Shadow | Enforce | Required

  datatype Capability = PrefixCacheQuery | DecodeLeaseV1 | R2Checkpoints | CooperativePreempt

  datatype Capabilities = Capabilities(protocolVersion: nat, supported: set<Capability>)

  datatype Handshake = Handshake(accepted: bool, degraded: set<Capability>)
  {
    predicate D2Available() { accepted && CooperativePreempt !in degraded }
    predicate CacheScores() { accepted && PrefixCacheQuery !in degraded }
  }

  /** Only the protocol version gates acceptance; what the instance did not report is absent. */
  function Negotiate(owner: Capabilities, instance: Capabilities): Handshake {
    if owner.protocolVersion != instance.protocolVersion then Handshake(false, owner.supported)
    else Handshake(true, owner.supported - instance.supported)
  }

  datatype ChainConfig = ChainConfig(
    mode: Mode,
    maxViewAgeMs: nat,
    maxRounds: int,
    retryBudget: nat,
    d2GateOpen: bool,
    durableOutputAck: bool,
    preemption: PreemptionConfig)

  datatype Error =
    | Finished | NotAdmitted | ForgedEpoch | Exhausted | NoActiveLeg | LegActive | NotCommitted
    | NoHost | HostMismatch | UnprovenExclusion | AllExcluded | RequiredMode | OutputSeen | BadArgument
    | WrongLeg | EpochSuperseded | SequenceMismatch | RoundsExceeded | NoDurableAck | NoOrphan | OnlyErrorLeft
    | HardAbort | ControllerRaised(cause: ControllerError)

  datatype Outcome<T> = Ok(value: T) | Raised(error: Error)

  /** (epoch, output sequence) of one frame */
  type Frame = (int, int)

  datatype Fence = Fence(epoch: int, nextSeq: int)

  datatype Leg = Leg(epoch: int, attempt: int, host: string)

  /** The (epoch, sequence) stamp of the stored checkpoint. */
  datatype Stamp = Stamp(epoch: int, outputSeq: int)

  /** The client's durable record: what the user provably received, and the fence's epoch. */
  datatype Durable = Durable(ackedSeq: int, epoch: int)

  /** What the user saw. */
  datatype Stream = Stream(
    frames: seq<Frame>,
    dropped: seq<Frame>,
    staleEpochDropped: nat,
    duplicateDropped: nat,
    outOfOrderDropped: nat,
    delivered: int,
    framesThisAttempt: nat)

  /** The controller's side: the fence object it holds, whether that is still the client's
      own object, and the epoch it last authorized as each party recorded it. */
  datatype Control = Control(
    held: Fence,
    shared: bool,
    latestEpoch: int,
    preemptions: nat,
    stored: Option<Stamp>,
    authorizedEpoch: int)

  datatype Budget = Budget(
    attempt: int,
    retryUsed: nat,
    budgetExhausted: bool,
    roundsExhausted: bool,
    leaseExpiryTotal: nat,
    abortSelfTotal: nat)

  datatype Placement = Placement(
    prefillCommitted: bool,
    currentHost: Option<string>,
    failedHosts: set<string>,
    waste: real,
    orphans: seq<string>)

  datatype State = State(
    fence: Fence,
    durable: Durable,
    stream: Stream,
    control: Control,
    budget: Budget,
    placement: Placement,
    legs: seq<Leg>,
    active: bool,
    handshake: Option<Handshake>,
    terminals: seq<string>,
    finished: bool)

  datatype After<T> = After(state: State, outcome: Outcome<T>)

  const Initial := State(
    Fence(0, 0),
    Durable(0, 0),
    Stream([], [], 0, 0, 0, 0, 0),
    Control(Fence(0, 0), true, 0, 0, None, 0),
    Budget(0, 0, false, false, 0, 0),
    Placement(false, None, {}, 0.0, []),
    [], false, None, [], false)

  predicate BudgetGone(s: State) {
    s.budget.budgetExhausted || s.budget.roundsExhausted
  }

  // --- frames ---------------------------------------------------------------

  predicate Accepts(f: Fence, epoch: int, outputSeq: int) {
    epoch == f.epoch && outputSeq == f.nextSeq
  }

  /** Moving the client's fence takes the controller's along exactly while the object is shared. */
  function Follow(control: Control, f: Fence): Control {
    if control.shared then control.(held := f) else control
  }

  function SurfaceStream(m: Stream, frame: Frame): Stream {
    m.(frames := m.frames + [frame], delivered := m.delivered + 1, framesThisAttempt := m.framesThisAttempt + 1)
  }

  function Acknowledge(c: ChainConfig, d: Durable, delivered: int): Durable {
    if c.durableOutputAck then d.(ackedSeq := delivered) else d
  }

  function RecordEpoch(c: ChainConfig, d: Durable, epoch: int): Durable {
    if c.durableOutputAck then d.(epoch := epoch) else d
  }

  function Surface(c: ChainConfig, s: State, epoch: int, outputSeq: int): State {
    var f := Fence(s.fence.epoch, s.fence.nextSeq + 1);
    var m := SurfaceStream(s.stream, (epoch, outputSeq));
    s.(fence := f, control := Follow(s.control, f), stream := m, durable := Acknowledge(c, s.durable, m.delivered))
  }

  /** Each kind of drop has its own counter. */
  function DropFrom(f: Fence, m: Stream, epoch: int, outputSeq: int): Stream {
    var n := m.(dropped := m.dropped + [(epoch, outputSeq)]);
    if epoch < f.epoch then n.(staleEpochDropped := m.staleEpochDropped + 1)
    else if outputSeq < f.nextSeq then n.(duplicateDropped := m.duplicateDropped + 1)
    else n.(outOfOrderDropped := m.outOfOrderDropped + 1)
  }

  /** Route one frame through the fence.  Any epoch and sequence may arrive. */
  function Deliver(c: ChainConfig, s: State, epoch: int, outputSeq: int): After<bool> {
    if s.finished then After(s, Raised(Finished))
    else if s.legs == [] then After(s, Raised(NotAdmitted))
    else if epoch > s.fence.epoch then After(s, Raised(ForgedEpoch))
    else if Accepts(s.fence, epoch, outputSeq) then After(Surface(c, s, epoch, outputSeq), Ok(true))
    else After(s.(stream := DropFrom(s.fence, s.stream, epoch, outputSeq)), Ok(false))
  }

  /** `k` consecutive frames of one leg, starting at the leg's own sequence. */
  function EmitFrames(c: ChainConfig, s: State, epoch: int, first: int, k: nat): State {
    if k == 0 then s else Deliver(c, EmitFrames(c, s, epoch, first, k - 1), epoch, first + k - 1).state
  }

  function AcceptedFrames(c: ChainConfig, s: State, epoch: int, first: int, k: nat): nat {
    if k == 0 then 0
    else
      var last := Deliver(c, EmitFrames(c, s, epoch, first, k - 1), epoch, first + k - 1).outcome;
      AcceptedFrames(c, s, epoch, first, k - 1) + (if last == Ok(true) then 1 else 0)
  }

  // --- prefill and admission ------------------------------------------------

  function CommitPrefill(s: State, work: real): After<()> {
    if BudgetGone(s) then After(s, Raised(Exhausted))
    else if work < 0.0 then After(s, Raised(BadArgument))
    else After(s.(placement := s.placement.(prefillCommitted := true)), Ok(()))
  }

  /** A rollback may disown neither output the user saw nor a leg already running. */
  function RollbackPrefill(s: State, work: real): After<()> {
    if work < 0.0 then After(s, Raised(BadArgument))
    else if s.stream.framesThisAttempt > 0 then After(s, Raised(OutputSeen))
    else if s.active then After(s, Raised(LegActive))
    else
      After(s.(placement := s.placement.(prefillCommitted := false, waste := s.placement.waste + work)), Ok(()))
  }

  /** Admission consumes the prefill commit and the owner's selection. */
  function AdmitDecode(s: State, host: Option<string>): After<string> {
    var p := s.placement;
    if BudgetGone(s) then After(s, Raised(Exhausted))
    else if s.active then After(s, Raised(LegActive))
    else if !p.prefillCommitted then After(s, Raised(NotCommitted))
    else if p.currentHost.None? then After(s, Raised(NoHost))
    else if host.Some? && host != p.currentHost then After(s, Raised(HostMismatch))
    else
      After(s.(placement := p.(prefillCommitted := false, currentHost := None),
               stream := s.stream.(framesThisAttempt := 0),
               active := true,
               legs := s.legs + [Leg(s.fence.epoch, s.budget.attempt, p.currentHost.value)]),
            Ok(p.currentHost.value))
  }

  /** A capacity refusal costs one unit of retry budget and starts a new attempt. */
  function RejectDecode(c: ChainConfig, s: State): After<bool> {
    var p, b := s.placement, s.budget;
    if BudgetGone(s) then After(s, Raised(Exhausted))
    else if s.active then After(s, Raised(LegActive))
    else if p.currentHost.None? then After(s, Raised(NoHost))
    else if !p.prefillCommitted then After(s, Raised(NotCommitted))
    else
      var left := c.retryBudget - (b.retryUsed + 1);
      After(s.(placement := p.(failedHosts := p.failedHosts + {p.currentHost.value}, currentHost := None,
                               prefillCommitted := false),
               budget := b.(retryUsed := b.retryUsed + 1, attempt := b.attempt + 1,
                            budgetExhausted := left <= 0)),
            Ok(left > 0))
  }

  // --- the end of a leg -----------------------------------------------------

  function Advance(f: Fence, epoch: int, resume: int): Fence {
    Fence(epoch, if f.nextSeq >= resume then f.nextSeq else resume)
  }

  /** End the active leg by lease.  Exhausting the rounds still fences the leg, then raises. */
  function ExpireLease(c: ChainConfig, inputTokens: nat, s: State): After<int> {
    var b := s.budget;
    if s.finished then After(s, Raised(Finished))
    else if BudgetGone(s) then After(s, Raised(Exhausted))
    else if !s.active then After(s, Raised(NoActiveLeg))
    else
      var f := Advance(s.fence, s.fence.epoch + 1, s.stream.delivered);
      var exhausted := b.attempt + 1 > c.maxRounds;
      var spent := if exhausted then b.(attempt := b.attempt + 1, roundsExhausted := true)
                   else b.(attempt := b.attempt + 1, leaseExpiryTotal := b.leaseExpiryTotal + 1);
      After(s.(fence := f, control := Follow(s.control, f), durable := RecordEpoch(c, s.durable, f.epoch),
               active := false, budget := spent),
            if exhausted then Raised(RoundsExceeded) else Ok(inputTokens + s.stream.delivered))
  }

  // --- cooperative preemption -----------------------------------------------

  /** A checkpoint report, as far as the protocol sees it: which leg speaks, the leg's own
      sequence, and whether the controller's value comparison favours moving. */
  datatype Report = Report(
    legNamed: bool,
    legIsActive: bool,
    legEpoch: int,
    legSeq: int,
    quantum: int,
    plannerAvailable: bool,
    moveWins: bool)

  /** Why the report never reaches the gate. */
  function ReportRefusal(s: State, idEmpty: bool, r: Report): Option<Error> {
    if !r.legNamed then Some(WrongLeg)
    else if !s.active then Some(NoActiveLeg)
    else if !r.legIsActive then Some(WrongLeg)
    else if r.legEpoch != s.fence.epoch then Some(EpochSuperseded)
    else if r.legSeq != s.stream.delivered then Some(SequenceMismatch)
    else if idEmpty || r.legEpoch < 0 || r.legSeq < 0 || r.quantum <= 0 then Some(BadArgument)
    else None
  }

  /** The controller is consulted only past the gate, the handshake and the epoch check. */
  predicate Consulted(c: ChainConfig, s: State) {
    && c.d2GateOpen
    && s.handshake.Some? && s.handshake.value.D2Available()
    && s.fence.epoch == s.control.authorizedEpoch
  }

  /** `_decide`: fail open, wait out the quantum, respect the bound, then compare values. */
  function Verdict(c: ChainConfig, k: Control, r: Report): DecodeAction {
    if !r.plannerAvailable || r.quantum < c.preemption.minQuantum
       || k.preemptions >= c.preemption.maxPreemptions || !r.moveWins
    then KeepDecoding else AbortSelf
  }

  /** What the controller itself would object to. */
  function ControllerObjection(c: ChainConfig, k: Control, r: Report): Option<ControllerError> {
    if r.legEpoch != k.latestEpoch then Some(StaleEpoch)
    else if Verdict(c, k, r).KeepDecoding? then None
    else if k.held.epoch != r.legEpoch then Some(DivergedAuthority)
    else if k.stored.Some? && (r.legEpoch < k.stored.value.epoch
                               || (r.legEpoch == k.stored.value.epoch && r.legSeq <= k.stored.value.outputSeq))
    then Some(StaleStore)
    else None
  }

  /** The controller stores the checkpoint and moves its own fence object; the client's
      fence follows only while the object is shared. */
  function ControllerAborts(s: State, r: Report): State {
    var k := s.control;
    var moved := Advance(k.held, r.legEpoch + 1, r.legSeq);
    s.(control := Control(moved, k.shared, r.legEpoch + 1, k.preemptions + 1, Some(Stamp(r.legEpoch, r.legSeq)),
                          k.authorizedEpoch),
       fence := if k.shared then moved else s.fence)
  }

  /** The client side of a granted self-abort. */
  function LegAborted(c: ChainConfig, s: State, epoch: int): State {
    var b := s.budget;
    s.(control := s.control.(authorizedEpoch := epoch),
       budget := b.(abortSelfTotal := b.abortSelfTotal + 1, attempt := b.attempt + 1),
       active := false,
       durable := RecordEpoch(c, s.durable, epoch))
  }

  function SelfAbort(c: ChainConfig, s: State, r: Report): State {
    LegAborted(c, ControllerAborts(s, r), r.legEpoch + 1)
  }

  function Consult(c: ChainConfig, s: State, r: Report): After<DecodeAction> {
    var objection := ControllerObjection(c, s.control, r);
    if objection.Some? then After(s, Raised(ControllerRaised(objection.value)))
    else if Verdict(c, s.control, r).KeepDecoding? then
      After(s.(control := s.control.(latestEpoch := r.legEpoch)), Ok(KeepDecoding))
    else After(SelfAbort(c, s, r), Ok(AbortSelf))
  }

  function ReportCheckpoint(c: ChainConfig, s: State, idEmpty: bool, r: Report): After<DecodeAction> {
    var refusal := ReportRefusal(s, idEmpty, r);
    if refusal.Some? then After(s, Raised(refusal.value))
    else if !c.d2GateOpen then After(s, Ok(KeepDecoding))
    else if !Consulted(c, s) then
      After(s, if c.mode.Required? then Raised(RequiredMode) else Ok(KeepDecoding))
    else if !r.plannerAvailable && c.mode.Required? then After(s, Raised(RequiredMode))
    else Consult(c, s, r)
  }

  // --- crash and terminal ---------------------------------------------------

  function LastHost(legs: seq<Leg>): seq<string> {
    if legs == [] then [] else [legs[|legs| - 1].host]
  }

  /** Restart from durable state only: a new fence object, which the controller does not hold. */
  function Restarted(s: State): State {
    var d, p := s.durable, s.placement;
    var rebuilt := Advance(Fence(d.epoch, d.ackedSeq), d.epoch + 1, d.ackedSeq);
    s.(fence := rebuilt,
       durable := d.(epoch := rebuilt.epoch),
       control := s.control.(shared := false),
       stream := s.stream.(delivered := d.ackedSeq, framesThisAttempt := 0),
       placement := p.(prefillCommitted := false, currentHost := None,
                       orphans := p.orphans + (if s.active then LastHost(s.legs) else [])),
       budget := s.budget.(attempt := s.budget.attempt + 1),
       active := false)
  }

  function CrashAndRestart(c: ChainConfig, s: State): After<int> {
    if s.finished then After(s, Raised(Finished))
    else if !c.durableOutputAck then After(s, Raised(NoDurableAck))
    else After(Restarted(s), Ok(s.durable.ackedSeq))
  }

  function Finish(s: State, reason: string): After<()> {
    if s.finished then After(s, Raised(Finished))
    else if BudgetGone(s) && reason != "ERROR" then After(s, Raised(OnlyErrorLeft))
    else After(s.(finished := true, terminals := s.terminals + [reason]), Ok(()))
  }

  // --- what every step keeps ------------------------------------------------

  /** The user's i-th frame has sequence number i, and frame epochs never fall. */
  ghost predicate FramesInOrder(frames: seq<Frame>, epoch: int) {
    && (forall i :: 0 <= i < |frames| ==> frames[i].1 == i && frames[i].0 <= epoch)
    && (forall i, j :: 0 <= i < j < |frames| ==> frames[i].0 <= frames[j].0)
  }

  /** Legs are admitted with strictly increasing epochs and attempt indices.  The active
      leg is the last one and carries the fence's epoch; all others carry smaller ones. */
  ghost predicate LegsFenced(legs: seq<Leg>, active: bool, epoch: int, attempt: int) {
    && (active ==> legs != [])
    && (forall i, j :: 0 <= i < j < |legs| ==> legs[i].epoch < legs[j].epoch && legs[i].attempt < legs[j].attempt)
    && (forall i :: 0 <= i < |legs| ==>
                      if active && i == |legs| - 1 then legs[i].epoch == epoch && legs[i].attempt == attempt
                      else legs[i].epoch < epoch && legs[i].attempt < attempt)
  }

  /** The user's stream, the fence and the durable ack tell one story. */
  ghost predicate StreamInvariant(c: ChainConfig, f: Fence, d: Durable, m: Stream) {
    && FramesInOrder(m.frames, f.epoch)
    && |m.frames| == m.delivered == f.nextSeq && f.epoch >= 0
    && (c.durableOutputAck ==> d == Durable(m.delivered, f.epoch))
    && m.staleEpochDropped + m.duplicateDropped + m.outOfOrderDropped == |m.dropped|
  }

  /** While the epochs agree the controller holds the client's own fence object, and the
      stored checkpoint is always older than the controller's epoch. */
  ghost predicate ControlInvariant(f: Fence, k: Control) {
    && k.latestEpoch == k.authorizedEpoch <= f.epoch
    && (f.epoch == k.authorizedEpoch ==> k.shared)
    && (k.shared ==> k.held == f)
    && (k.stored.Some? ==> k.stored.value.epoch < k.authorizedEpoch)
  }

  ghost predicate BudgetInvariant(c: ChainConfig, epoch: int, preemptions: nat, b: Budget) {
    && b.attempt == epoch + b.retryUsed
    && b.leaseExpiryTotal <= b.attempt && b.leaseExpiryTotal <= c.maxRounds
    && b.abortSelfTotal == preemptions
    && (preemptions == 0 || preemptions <= c.preemption.maxPreemptions)
    && b.retryUsed <= (if c.retryBudget >= 1 then c.retryBudget else 1)
    && (b.budgetExhausted <==> b.retryUsed > 0 && b.retryUsed >= c.retryBudget)
  }

  ghost predicate Invariant(c: ChainConfig, s: State) {
    && StreamInvariant(c, s.fence, s.durable, s.stream)
    && LegsFenced(s.legs, s.active, s.fence.epoch, s.budget.attempt)
    && ControlInvariant(s.fence, s.control)
    && BudgetInvariant(c, s.fence.epoch, s.control.preemptions, s.budget)
    && |s.terminals| == (if s.finished then 1 else 0)
  }

  /** What no step ever undoes; in particular a fence past the controller's epoch never
      meets it again. */
  ghost predicate Later(s: State, t: State) {
    && s.fence.epoch <= t.fence.epoch
    && s.budget.attempt <= t.budget.attempt && s.budget.retryUsed <= t.budget.retryUsed
    && (s.budget.budgetExhausted ==> t.budget.budgetExhausted)
    && (s.budget.roundsExhausted ==> t.budget.roundsExhausted)
    && s.stream.frames <= t.stream.frames && s.legs <= t.legs
    && (s.finished ==> t.finished && t.terminals == s.terminals)
    && (s.fence.epoch > s.control.authorizedEpoch ==> t.fence.epoch > t.control.authorizedEpoch)
  }

  lemma InitialIsSafe(c: ChainConfig)
    requires c.maxRounds > 0
    ensures Invariant(c, Initial)
  {
  }

  lemma SurfaceKeepsStream(c: ChainConfig, f: Fence, d: Durable, m: Stream)
    requires StreamInvariant(c, f, d, m)
    ensures var n := SurfaceStream(m, (f.epoch, f.nextSeq));
            && StreamInvariant(c, Fence(f.epoch, f.nextSeq + 1), Acknowledge(c, d, n.delivered), n)
            && m.frames <= n.frames
  {
    var frames := m.frames + [(f.epoch, f.nextSeq)];
    assert FramesInOrder(frames, f.epoch);
  }

  lemma SurfaceKeeps(c: ChainConfig, s: State)
    requires Invariant(c, s)
    ensures var t := Surface(c, s, s.fence.epoch, s.fence.nextSeq); Invariant(c, t) && Later(s, t)
  {
    SurfaceKeepsStream(c, s.fence, s.durable, s.stream);
  }

  lemma DeliverKeeps(c: ChainConfig, s: State, epoch: int, outputSeq: int)
    requires Invariant(c, s)
    ensures var t := Deliver(c, s, epoch, outputSeq).state; Invariant(c, t) && Later(s, t)
  {
    if Accepts(s.fence, epoch, outputSeq) {
      SurfaceKeeps(c, s);
    } else {
      assert StreamInvariant(c, s.fence, s.durable, DropFrom(s.fence, s.stream, epoch, outputSeq));
    }
  }

  /** An open request accepts exactly the next frame of the fence's epoch. */
  lemma DeliverAnswers(c: ChainConfig, s: State, epoch: int, outputSeq: int)
    requires Invariant(c, s) && !s.finished && s.legs != [] && epoch <= s.fence.epoch
    ensures var d := Deliver(c, s, epoch, outputSeq);
            var accepted := epoch == s.fence.epoch && outputSeq == |s.stream.frames|;
            && d.outcome == Ok(accepted)
            && d.state.stream.frames == (if accepted then s.stream.frames + [(epoch, outputSeq)] else s.stream.frames)
            && d.state.fence.epoch == s.fence.epoch && d.state.finished == s.finished && d.state.legs == s.legs
  {
  }

  /** How many of `k` consecutive frames from `first` the fence accepts when it waits for
      sequence `expected`: those from `expected` on, if the leg holds the epoch. */
  function AcceptedOf(sameEpoch: bool, first: int, expected: int, k: nat): nat {
    if !sameEpoch || first > expected || k <= expected - first then 0 else k - (expected - first)
  }

  function FrameRun(epoch: int, from: int, n: nat): (run: seq<Frame>)
    ensures |run| == n
    ensures forall i :: 0 <= i < n ==> run[i] == (epoch, from + i)
  {
    if n == 0 then [] else FrameRun(epoch, from, n - 1) + [(epoch, from + n - 1)]
  }

  /** Where an emission stands after `k` frames, `before` being the state it began in. */
  ghost predicate EmittedSoFar(c: ChainConfig, before: State, epoch: int, first: int, k: nat, t: State, accepted: nat) {
    && Invariant(c, t)
    && accepted == AcceptedOf(epoch == before.fence.epoch, first, |before.stream.frames|, k)
    && t.stream.frames == before.stream.frames + FrameRun(epoch, |before.stream.frames|, accepted)
    && t.fence.epoch == before.fence.epoch && !t.finished && t.legs == before.legs
  }

  lemma OneMoreFrame(c: ChainConfig, before: State, epoch: int, first: int, k: nat, t: State, accepted: nat)
    requires EmittedSoFar(c, before, epoch, first, k, t, accepted)
    requires before.legs != [] && epoch <= before.fence.epoch
    ensures var d := Deliver(c, t, epoch, first + k);
            EmittedSoFar(c, before, epoch, first, k + 1, d.state, accepted + (if d.outcome == Ok(true) then 1 else 0))
  {
    hide Invariant;
    hide Deliver;
    hide AcceptedOf;
    hide FrameRun;
    DeliverKeeps(c, t, epoch, first + k);
    DeliverAnswers(c, t, epoch, first + k);
    EmitOneMore(before.stream.frames, epoch, epoch == before.fence.epoch, first, k + 1);
  }

  /** What a leg's emission does: the frames the user still waits for arrive in order, all
      others are dropped, and the fence's epoch does not move. */
  lemma {:induction false} EmissionIsDeduplicated(c: ChainConfig, s: State, epoch: int, first: int, k: nat)
    requires Invariant(c, s) && !s.finished && s.legs != [] && epoch <= s.fence.epoch
    ensures EmittedSoFar(c, s, epoch, first, k, EmitFrames(c, s, epoch, first, k), AcceptedFrames(c, s, epoch, first, k))
  {
    hide Invariant;
    hide Deliver;
    if k == 0 {
      assert EmittedSoFar(c, s, epoch, first, 0, s, 0);
    } else {
      EmissionIsDeduplicated(c, s, epoch, first, k - 1);
      OneMoreFrame(c, s, epoch, first, k - 1, EmitFrames(c, s, epoch, first, k - 1),
                   AcceptedFrames(c, s, epoch, first, k - 1));
    }
  }

  lemma {:induction false} EmitOneMore(seen: seq<Frame>, epoch: int, sameEpoch: bool, first: int, k: nat)
    requires k > 0
    ensures var n := AcceptedOf(sameEpoch, first, |seen|, k - 1);
            var accepted := sameEpoch && first + k - 1 == |seen + FrameRun(epoch, |seen|, n)|;
            && AcceptedOf(sameEpoch, first, |seen|, k) == n + (if accepted then 1 else 0)
            && seen + FrameRun(epoch, |seen|, AcceptedOf(sameEpoch, first, |seen|, k))
               == seen + FrameRun(epoch, |seen|, n) + (if accepted then [(epoch, first + k - 1)] else [])
  {
  }

  /** A superseded or orphan leg keeps emitting, and not one of its frames is surfaced. */
  lemma {:induction false} SupersededEmissionIsSilent(c: ChainConfig, s: State, i: nat, first: int, k: nat)
    requires Invariant(c, s) && !s.finished && i < |s.legs| && !(s.active && i == |s.legs| - 1)
    ensures AcceptedFrames(c, s, s.legs[i].epoch, first, k) == 0
    ensures EmitFrames(c, s, s.legs[i].epoch, first, k).stream.frames == s.stream.frames
  {
    assert s.legs[i].epoch < s.fence.epoch;
    EmissionIsDeduplicated(c, s, s.legs[i].epoch, first, k);
  }

  lemma AdmitKeeps(c: ChainConfig, s: State, host: Option<string>)
    requires Invariant(c, s)
    ensures var t := AdmitDecode(s, host).state; Invariant(c, t) && Later(s, t)
  {
  }

  lemma RejectKeeps(c: ChainConfig, s: State)
    requires Invariant(c, s)
    ensures var t := RejectDecode(c, s).state; Invariant(c, t) && Later(s, t)
  {
  }

  lemma ExpireKeeps(c: ChainConfig, inputTokens: nat, s: State)
    requires Invariant(c, s) && c.maxRounds > 0
    ensures var t := ExpireLease(c, inputTokens, s).state; Invariant(c, t) && Later(s, t)
  {
  }

  /** A granted self-abort moves both fences together and leaves every leg below them. */
  lemma SelfAbortKeeps(c: ChainConfig, s: State, r: Report)
    requires Invariant(c, s) && s.active
    requires r.legEpoch == s.fence.epoch == s.control.authorizedEpoch && r.legSeq == s.stream.delivered
    requires s.control.preemptions < c.preemption.maxPreemptions
    ensures var t := SelfAbort(c, s, r); Invariant(c, t) && Later(s, t)
  {
    var t := SelfAbort(c, s, r);
    assert t.fence == Fence(s.fence.epoch + 1, s.stream.delivered);
    assert StreamInvariant(c, t.fence, t.durable, t.stream);
    assert LegsFenced(t.legs, t.active, t.fence.epoch, t.budget.attempt);
  }

  lemma CheckpointKeeps(c: ChainConfig, s: State, idEmpty: bool, r: Report)
    requires Invariant(c, s)
    ensures var t := ReportCheckpoint(c, s, idEmpty, r).state; Invariant(c, t) && Later(s, t)
  {
    hide SelfAbort;
    hide StreamInvariant;
    hide LegsFenced;
    if ReportRefusal(s, idEmpty, r).None? && Consulted(c, s)
       && s.control.preemptions < c.preemption.maxPreemptions
    {
      SelfAbortKeeps(c, s, r);
    }
  }

  /** Whenever the controller is consulted, none of its own errors can fire. */
  lemma ControllerNeverObjects(c: ChainConfig, s: State, idEmpty: bool, r: Report)
    requires Invariant(c, s)
    ensures !(ReportCheckpoint(c, s, idEmpty, r).outcome.Raised?
              && ReportCheckpoint(c, s, idEmpty, r).outcome.error.ControllerRaised?)
  {
  }

  lemma CrashKeeps(c: ChainConfig, s: State)
    requires Invariant(c, s)
    ensures var t := CrashAndRestart(c, s).state; Invariant(c, t) && Later(s, t)
  {
  }

  lemma FinishKeeps(c: ChainConfig, s: State, reason: string)
    requires Invariant(c, s)
    ensures var t := Finish(s, reason).state; Invariant(c, t) && Later(s, t)
  {
  }

  // --- runs -----------------------------------------------------------------

  datatype Input =
    | DeliverFrame(epoch: int, outputSeq: int)
    | MakeHandshake(owner: Capabilities, instance: Capabilities)
    | OwnerSelects(chosen: string)
    | Commit(work: real)
    | Rollback(work: real)
    | Admit(host: Option<string>)
    | Reject
    | Expire(inputTokens: nat)
    | Checkpoint(idEmpty: bool, report: Report)
    | Crash
    | End(reason: string)

  /** What one environment input may do.  The selector's choice of host is free. */
  function Step(c: ChainConfig, s: State, i: Input): State {
    match i
    case DeliverFrame(epoch, outputSeq) => Deliver(c, s, epoch, outputSeq).state
    case MakeHandshake(owner, instance) => s.(handshake := Some(Negotiate(owner, instance)))
    case OwnerSelects(chosen) =>
      if BudgetGone(s) then s else s.(placement := s.placement.(currentHost := Some(chosen)))
    case Commit(work) => CommitPrefill(s, work).state
    case Rollback(work) => RollbackPrefill(s, work).state
    case Admit(host) => AdmitDecode(s, host).state
    case Reject => RejectDecode(c, s).state
    case Expire(inputTokens) => ExpireLease(c, inputTokens, s).state
    case Checkpoint(idEmpty, report) => ReportCheckpoint(c, s, idEmpty, report).state
    case Crash => CrashAndRestart(c, s).state
    case End(reason) => Finish(s, reason).state
  }

  function Run(c: ChainConfig, s: State, inputs: seq<Input>): State
    decreases |inputs|
  {
    if inputs == [] then s else Run(c, Step(c, s, inputs[0]), inputs[1..])
  }

  lemma PlacementKeeps(c: ChainConfig, s: State, t: State)
    requires Invariant(c, s)
    requires t == s.(placement := t.placement, handshake := t.handshake)
    ensures Invariant(c, t) && Later(s, t)
  {
  }

  lemma StepKeeps(c: ChainConfig, s: State, i: Input)
    requires Invariant(c, s) && c.maxRounds > 0
    ensures Invariant(c, Step(c, s, i)) && Later(s, Step(c, s, i))
  {
    hide Invariant;
    hide Later;
    match i
    case DeliverFrame(epoch, outputSeq) => DeliverKeeps(c, s, epoch, outputSeq);
    case Admit(host) => AdmitKeeps(c, s, host);
    case Reject => RejectKeeps(c, s);
    case Expire(inputTokens) => ExpireKeeps(c, inputTokens, s);
    case Checkpoint(idEmpty, report) => CheckpointKeeps(c, s, idEmpty, report);
    case Crash => CrashKeeps(c, s);
    case End(reason) => FinishKeeps(c, s, reason);
    case _ => PlacementKeeps(c, s, Step(c, s, i));
  }

  lemma LaterIsTransitive(s: State, t: State, u: State)
    requires Later(s, t) && Later(t, u)
    ensures Later(s, u)
  {
  }

  /** Safety over whole runs, whatever inputs arrive in whatever order. */
  lemma {:induction false} EveryRunIsSafe(c: ChainConfig, s: State, inputs: seq<Input>)
    requires Invariant(c, s) && c.maxRounds > 0
    ensures Invariant(c, Run(c, s, inputs)) && Later(s, Run(c, s, inputs))
    decreases |inputs|
  {
    if inputs != [] {
      var next := Step(c, s, inputs[0]);
      StepKeeps(c, s, inputs[0]);
      EveryRunIsSafe(c, next, inputs[1..]);
      LaterIsTransitive(s, next, Run(c, s, inputs));
    }
  }

  /** A leg that was ever superseded or orphaned is never heard again: after any further
      run, no frame it stamps is accepted, whatever sequence it claims. */
  lemma {:induction false} SupersededLegsStaySilent(c: ChainConfig, s: State, inputs: seq<Input>, i: nat,
                                                    outputSeq: int)
    requires Invariant(c, s) && c.maxRounds > 0
    requires i < |s.legs| && !(s.active && i == |s.legs| - 1)
    ensures var t := Run(c, s, inputs);
            i < |t.legs| && t.legs[i] == s.legs[i]
            && Deliver(c, t, s.legs[i].epoch, outputSeq).outcome != Ok(true)
            && Deliver(c, t, s.legs[i].epoch, outputSeq).state.stream.frames == t.stream.frames
  {
    EveryRunIsSafe(c, s, inputs);
    assert s.legs[i].epoch < s.fence.epoch;
  }

  /** From the start, whatever arrives: the i-th frame the user sees has sequence i, epochs
      never fall, the counts agree, and the protocol's budgets hold. */
  lemma {:induction false} WholeRunsDeliverExactlyOnce(c: ChainConfig, inputs: seq<Input>)
    requires c.maxRounds > 0
    ensures var t := Run(c, Initial, inputs);
            && FramesInOrder(t.stream.frames, t.fence.epoch)
            && |t.stream.frames| == t.stream.delivered == t.fence.nextSeq
            && (c.durableOutputAck ==> t.durable.ackedSeq == t.stream.delivered)
            && t.budget.attempt == t.fence.epoch + t.budget.retryUsed
            && t.budget.leaseExpiryTotal <= c.maxRounds
            && t.budget.retryUsed <= (if c.retryBudget >= 1 then c.retryBudget else 1)
            && (t.budget.abortSelfTotal == 0 || t.budget.abortSelfTotal <= c.preemption.maxPreemptions)
            && |t.terminals| <= 1
  {
    InitialIsSafe(c);
    EveryRunIsSafe(c, Initial, inputs);
  }
}
