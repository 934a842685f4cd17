/** Ingress to the Bridge from many threads: generation-scoped permits, one Bridge lock with an
    owner cell, and the host thread that starts and stops adapters. Every transition below is one
    atomic action of the program: taking or releasing one lock, or writing one cell under it. */
module Ingress {
  import opened Core

  type ThreadId = nat
  type PermitId = nat

  /** `active` is the value behind the permit's mutex, `holder` the thread that has it locked. */
  datatype Permit = Permit(active: bool, holder: Option<ThreadId>)

  datatype Phase =
    | Entering
    | Inside
    | Cleared
    | Holding
    | Operating
    | Leaving
    | Unlocked
    | Refused

  /** One call into the Bridge: through a handle's permit, or directly by the host. */
  datatype Call = Call(permit: Option<PermitId>, phase: Phase)
  {
    /** The call's permit guard is alive. */
    predicate InPermit(p: PermitId) {
      permit == Some(p) && phase != Entering
    }

    predicate InBridge() {
      phase == Holding || phase == Operating || phase == Leaving
    }
  }

  datatype AdapterState = Stopped | Running | StartFailed | StopFailed

  datatype Adapter = Adapter(state: AdapterState, permit: Option<PermitId>)

  datatype HostState = HostStopped | HostStarted | HostStopFailed

  /** Where the host thread stands inside `start` or `stop`. */
  datatype HostPc =
    | Resting
    | StartingFrom(next: nat)
    | InStart(starting: nat)
    | StartRefused(refused: nat)
    | Revoking(nextRevoked: nat)
    | ClearingSubscriptions
    | StoppingBelow(below: nat)
    | InStop(stopping: nat)

  datatype State = State(
    permits: map<PermitId, Permit>,
    bridgeHolder: Option<ThreadId>,
    owner: Option<ThreadId>,
    stacks: map<ThreadId, seq<Call>>,
    host: HostState,
    pc: HostPc,
    adapters: seq<Adapter>)
  {
    function Stack(t: ThreadId): seq<Call> {
      if t in stacks then stacks[t] else []
    }

    function Push(t: ThreadId, call: Call): State {
      this.(stacks := stacks[t := Stack(t) + [call]])
    }

    function Pop(t: ThreadId): State
      requires Stack(t) != []
    {
      this.(stacks := stacks[t := Stack(t)[..|Stack(t)| - 1]])
    }

    function Top(t: ThreadId): Call
      requires Stack(t) != []
    {
      Stack(t)[|Stack(t)| - 1]
    }

    function SetPhase(t: ThreadId, phase: Phase): State
      requires Stack(t) != []
    {
      this.(stacks := stacks[t := Stack(t)[|Stack(t)| - 1 := Top(t).(phase := phase)]])
    }

    predicate At(t: ThreadId, phase: Phase) {
      Stack(t) != [] && Top(t).phase == phase
    }

    /** `lock` in `IngressPermit::revoke` waits until nobody holds the permit. */
    predicate Revocable(p: Option<PermitId>) {
      p.Some? && p.value in permits ==> permits[p.value].holder == None
    }

    function Revoke(p: Option<PermitId>): State {
      if p.Some? && p.value in permits then this.(permits := permits[p.value := Permit(false, None)]) else this
    }

    function SetAdapter(i: nat, a: Adapter): State
      requires i < |adapters|
    {
      this.(adapters := adapters[i := a])
    }
  }

  datatype Action =
    | BeginCall(thread: ThreadId, permit: Option<PermitId>)
    | EnterPermit(thread: ThreadId)
    | CheckOwner(thread: ThreadId)
    | LockBridge(thread: ThreadId)
    | SetOwner(thread: ThreadId)
    | ClearOwner(thread: ThreadId)
    | UnlockBridge(thread: ThreadId)
    | LeavePermit(thread: ThreadId)
    | Register
    | BeginStart
    | StartAdapter(created: PermitId)
    | StartReturns(startOk: bool)
    | RevokeFailedStart
    | FinishStart
    | BeginStop
    | RevokeNext
    | SubscriptionsCleared(accessOk: bool)
    | StopAdapter
    | StopReturns(stopOk: bool)
    | FinishStop

  /** A call through a handle or from the host: `enter`, `access`, the operation, and both drops. */
  function ThreadStep(s: State, a: Action): State
    requires a.BeginCall? || a.EnterPermit? || a.CheckOwner? || a.LockBridge? || a.SetOwner? || a.ClearOwner?
             || a.UnlockBridge? || a.LeavePermit?
  {
    var t := a.thread;
    match a
    case BeginCall(_, permit) =>
      // From outside, or from an adapter callback inside a Bridge operation.
      if (s.Stack(t) != [] && !s.At(t, Operating)) || (permit.Some? && permit.value !in s.permits) then s
      else s.Push(t, Call(permit, if permit.Some? then Entering else Inside))
    case EnterPermit(_) =>
      if !s.At(t, Entering) || s.Top(t).permit.None? || s.Top(t).permit.value !in s.permits then s
      else
        var p := s.Top(t).permit.value;
        if s.permits[p].holder.Some? then s
        else if s.permits[p].active then s.SetPhase(t, Inside).(permits := s.permits[p := Permit(true, Some(t))])
        else s.Pop(t)
    case CheckOwner(_) =>
      if !s.At(t, Inside) then s else s.SetPhase(t, if s.owner == Some(t) then Refused else Cleared)
    case LockBridge(_) =>
      if !s.At(t, Cleared) || s.bridgeHolder.Some? then s else s.SetPhase(t, Holding).(bridgeHolder := Some(t))
    case SetOwner(_) => if !s.At(t, Holding) then s else s.SetPhase(t, Operating).(owner := Some(t))
    case ClearOwner(_) => if !s.At(t, Operating) then s else s.SetPhase(t, Leaving).(owner := None)
    case UnlockBridge(_) => if !s.At(t, Leaving) then s else s.SetPhase(t, Unlocked).(bridgeHolder := None)
    case LeavePermit(_) =>
      if !s.At(t, Unlocked) && !s.At(t, Refused) then s
      else
        var p := s.Top(t).permit;
        if p.Some? && p.value in s.permits
        then s.Pop(t).(permits := s.permits[p.value := s.permits[p.value].(holder := None)])
        else s.Pop(t)
  }

  function AllStopped(adapters: seq<Adapter>): bool {
    forall i :: 0 <= i < |adapters| ==> adapters[i].state == Stopped
  }

  /** The host thread, one adapter at a time. */
  function HostStep(s: State, a: Action): State {
    match a
    case Register =>
      if s.pc != Resting || s.host != HostStopped then s else s.(adapters := s.adapters + [Adapter(Stopped, None)])
    case BeginStart => if s.pc != Resting || s.host != HostStopped then s else s.(pc := StartingFrom(0))
    case StartAdapter(created) =>
      if !s.pc.StartingFrom? || s.pc.next >= |s.adapters| || created in s.permits then s
      else s.SetAdapter(s.pc.next, Adapter(StartFailed, Some(created)))
            .(permits := s.permits[created := Permit(true, None)], pc := InStart(s.pc.next))
    case StartReturns(ok) =>
      if !s.pc.InStart? || s.pc.starting >= |s.adapters| then s
      else if ok then s.SetAdapter(s.pc.starting, s.adapters[s.pc.starting].(state := AdapterState.Running))
                       .(pc := StartingFrom(s.pc.starting + 1))
      else s.(pc := StartRefused(s.pc.starting))
    case RevokeFailedStart =>
      if !s.pc.StartRefused? || s.pc.refused >= |s.adapters| || !s.Revocable(s.adapters[s.pc.refused].permit) then s
      else s.Revoke(s.adapters[s.pc.refused].permit).(pc := StartingFrom(s.pc.refused + 1))
    case FinishStart => if s.pc != StartingFrom(|s.adapters|) then s else s.(host := HostStarted, pc := Resting)
    case BeginStop => if s.pc != Resting || s.host == HostStopped then s else s.(pc := Revoking(0))
    case RevokeNext =>
      if !s.pc.Revoking? then s
      else if s.pc.nextRevoked >= |s.adapters| then s.(pc := ClearingSubscriptions)
      else if !s.Revocable(s.adapters[s.pc.nextRevoked].permit) then s
      else s.Revoke(s.adapters[s.pc.nextRevoked].permit).(pc := Revoking(s.pc.nextRevoked + 1))
    case SubscriptionsCleared(ok) =>
      if s.pc != ClearingSubscriptions then s else s.(pc := if ok then StoppingBelow(|s.adapters|) else Resting)
    case StopAdapter =>
      if !s.pc.StoppingBelow? || s.pc.below == 0 || s.pc.below > |s.adapters| then s
      else
        var i := s.pc.below - 1;
        if s.adapters[i].state == Stopped then s.(pc := StoppingBelow(i))
        else if !s.Revocable(s.adapters[i].permit) then s
        else s.Revoke(s.adapters[i].permit).SetAdapter(i, s.adapters[i].(state := StopFailed)).(pc := InStop(i))
    case StopReturns(ok) =>
      if !s.pc.InStop? || s.pc.stopping >= |s.adapters| then s
      else
        var i := s.pc.stopping;
        s.SetAdapter(i, s.adapters[i].(state := if ok then Stopped else StopFailed)).(pc := StoppingBelow(i))
    case FinishStop =>
      if s.pc != StoppingBelow(0) then s
      else s.(host := if AllStopped(s.adapters) then HostStopped else HostStopFailed, pc := Resting)
    case _ => s
  }

  function Step(s: State, a: Action): State {
    match a
    case BeginCall(_, _) => ThreadStep(s, a)
    case EnterPermit(_) => ThreadStep(s, a)
    case CheckOwner(_) => ThreadStep(s, a)
    case LockBridge(_) => ThreadStep(s, a)
    case SetOwner(_) => ThreadStep(s, a)
    case ClearOwner(_) => ThreadStep(s, a)
    case UnlockBridge(_) => ThreadStep(s, a)
    case LeavePermit(_) => ThreadStep(s, a)
    case _ => HostStep(s, a)
  }

  function Run(s: State, actions: seq<Action>): State {
    if actions == [] then s else Step(Run(s, actions[..|actions| - 1]), actions[|actions| - 1])
  }

  const NEW_HOST := State(map[], None, None, map[], HostStopped, Resting, [])

  // ---------- Locks and stacks ----------

  /** A nested call never gets further than the owner check. */
  ghost predicate StackShape(stack: seq<Call>) {
    && |stack| <= 2
    && (|stack| == 2 ==> stack[0].phase == Operating &&
                         (stack[1].phase == Entering || stack[1].phase == Inside || stack[1].phase == Refused))
    && (forall k :: 0 <= k < |stack| ==> stack[k].phase == Entering ==> stack[k].permit.Some?)
    && (|stack| == 2 && stack[0].permit.Some? && stack[1].phase != Entering ==> stack[1].permit != stack[0].permit)
  }

  /** A thread's calls hold exactly the locks the state records for it. */
  ghost predicate ThreadInv(s: State, t: ThreadId) {
    var stack := s.Stack(t);
    && StackShape(stack)
    && (forall k :: 0 <= k < |stack| && stack[k].permit.Some? && stack[k].phase != Entering ==>
          stack[k].permit.value in s.permits && s.permits[stack[k].permit.value].holder == Some(t))
    && (s.bridgeHolder == Some(t) <==> stack != [] && stack[0].InBridge())
    && (s.owner == Some(t) <==> stack != [] && stack[0].phase == Operating)
  }

  ghost predicate HeldIsActive(s: State) {
    forall p :: p in s.permits && s.permits[p].holder.Some? ==> s.permits[p].active
  }

  ghost predicate LockInv(s: State) {
    HeldIsActive(s) && forall t :: ThreadInv(s, t)
  }

  /** A thread whose stack and locks are untouched keeps its invariant. */
  lemma Undisturbed(s: State, s': State, t: ThreadId)
    requires ThreadInv(s, t) && s'.Stack(t) == s.Stack(t)
    requires (s'.bridgeHolder == Some(t) <==> s.bridgeHolder == Some(t)) && (s'.owner == Some(t) <==> s.owner == Some(t))
    requires forall p :: p in s.permits && s.permits[p].holder == Some(t) ==>
               p in s'.permits && s'.permits[p].holder == Some(t)
    ensures ThreadInv(s', t)
  {
  }

  ghost predicate CallAction(a: Action) {
    || a.BeginCall? || a.EnterPermit? || a.CheckOwner? || a.LockBridge? || a.SetOwner? || a.ClearOwner?
    || a.UnlockBridge? || a.LeavePermit?
  }

  lemma BeginKeepsLocks(s: State, t: ThreadId, permit: Option<PermitId>)
    requires HeldIsActive(s) && ThreadInv(s, t)
    ensures ThreadInv(ThreadStep(s, BeginCall(t, permit)), t)
  {
  }

  lemma PermitStepKeepsLocks(s: State, t: ThreadId)
    requires HeldIsActive(s) && ThreadInv(s, t)
    ensures ThreadInv(ThreadStep(s, EnterPermit(t)), t) && HeldIsActive(ThreadStep(s, EnterPermit(t)))
  {
  }

  lemma OwnerStepKeepsLocks(s: State, t: ThreadId)
    requires HeldIsActive(s) && ThreadInv(s, t)
    ensures ThreadInv(ThreadStep(s, CheckOwner(t)), t)
    ensures ThreadInv(ThreadStep(s, LockBridge(t)), t)
  {
  }

  lemma OperateKeepsLocks(s: State, t: ThreadId)
    requires HeldIsActive(s) && ThreadInv(s, t)
    ensures ThreadInv(ThreadStep(s, SetOwner(t)), t)
    ensures ThreadInv(ThreadStep(s, ClearOwner(t)), t)
  {
  }

  lemma UnlockKeepsLocks(s: State, t: ThreadId)
    requires HeldIsActive(s) && ThreadInv(s, t)
    ensures ThreadInv(ThreadStep(s, UnlockBridge(t)), t)
  {
  }

  lemma LeaveKeepsLocks(s: State, t: ThreadId)
    requires HeldIsActive(s) && ThreadInv(s, t)
    ensures ThreadInv(ThreadStep(s, LeavePermit(t)), t) && HeldIsActive(ThreadStep(s, LeavePermit(t)))
  {
  }

  /** What one thread's action leaves alone. */
  lemma ThreadStepFrame(s: State, a: Action, t: ThreadId)
    requires CallAction(a) && t != a.thread && ThreadInv(s, t) && ThreadInv(s, a.thread)
    ensures ThreadInv(ThreadStep(s, a), t)
  {
    var s' := ThreadStep(s, a);
    assert s'.Stack(t) == s.Stack(t);
    Undisturbed(s, s', t);
  }

  lemma ThreadStepKeepsLocks(s: State, a: Action)
    requires LockInv(s) && CallAction(a)
    ensures LockInv(ThreadStep(s, a))
  {
    hide ThreadInv, ThreadStep;
    var u := a.thread;
    assert ThreadInv(s, u);
    assert HeldIsActive(ThreadStep(s, a)) && ThreadInv(ThreadStep(s, a), u) by {
      match a
      case BeginCall(_, permit) =>
        BeginKeepsLocks(s, u, permit);
        OtherStepsKeepPermits(s, a);
      case EnterPermit(_) => PermitStepKeepsLocks(s, u);
      case CheckOwner(_) =>
        OwnerStepKeepsLocks(s, u);
        OtherStepsKeepPermits(s, a);
      case LockBridge(_) =>
        OwnerStepKeepsLocks(s, u);
        OtherStepsKeepPermits(s, a);
      case SetOwner(_) =>
        OperateKeepsLocks(s, u);
        OtherStepsKeepPermits(s, a);
      case ClearOwner(_) =>
        OperateKeepsLocks(s, u);
        OtherStepsKeepPermits(s, a);
      case UnlockBridge(_) =>
        UnlockKeepsLocks(s, u);
        OtherStepsKeepPermits(s, a);
      case LeavePermit(_) => LeaveKeepsLocks(s, u);
    }
    forall t ensures ThreadInv(ThreadStep(s, a), t) {
      assert ThreadInv(s, t);
      if t != u {
        ThreadStepFrame(s, a, t);
      }
    }
  }

  lemma OtherStepsKeepPermits(s: State, a: Action)
    requires CallAction(a) && !a.EnterPermit? && !a.LeavePermit?
    ensures ThreadStep(s, a).permits == s.permits
  {
  }

  lemma HostStepKeepsLocks(s: State, a: Action)
    requires LockInv(s) && !CallAction(a)
    ensures LockInv(HostStep(s, a))
  {
    hide ThreadInv;
    var s' := HostStep(s, a);
    forall t ensures ThreadInv(s', t) {
      assert ThreadInv(s, t);
      HostStepFrame(s, a);
      Undisturbed(s, s', t);
    }
  }

  lemma RevokeFrame(s: State, p: Option<PermitId>)
    requires HeldIsActive(s) && s.Revocable(p)
    ensures var s' := s.Revoke(p);
            HeldIsActive(s') && forall q :: q in s.permits && s.permits[q].holder.Some? ==>
                                  q in s'.permits && s'.permits[q] == s.permits[q]
  {
  }

  lemma HostStepOuter(s: State, a: Action)
    ensures var s' := HostStep(s, a);
            s'.stacks == s.stacks && s'.bridgeHolder == s.bridgeHolder && s'.owner == s.owner
  {
  }

  /** A host step makes a new permit, revokes one that nobody holds, or leaves the permits alone. */
  lemma HostStepPermitChange(s: State, a: Action)
    ensures var s' := HostStep(s, a);
            || s'.permits == s.permits
            || (exists p: PermitId :: p !in s.permits && s'.permits == s.permits[p := Permit(true, None)])
            || (exists p :: s.Revocable(p) && s'.permits == s.Revoke(p).permits)
  {
    if a.RevokeFailedStart? && s.pc.StartRefused? && s.pc.refused < |s.adapters| {
      assert s.Revocable(s.adapters[s.pc.refused].permit) || HostStep(s, a) == s;
    } else if a.RevokeNext? && s.pc.Revoking? && s.pc.nextRevoked < |s.adapters| {
      assert s.Revocable(s.adapters[s.pc.nextRevoked].permit) || HostStep(s, a) == s;
    } else if a.StopAdapter? && s.pc.StoppingBelow? && 0 < s.pc.below <= |s.adapters| {
      assert s.Revocable(s.adapters[s.pc.below - 1].permit) || HostStep(s, a).permits == s.permits;
    }
  }

  lemma HostStepFrame(s: State, a: Action)
    requires HeldIsActive(s)
    ensures var s' := HostStep(s, a);
            && s'.stacks == s.stacks && s'.bridgeHolder == s.bridgeHolder && s'.owner == s.owner && HeldIsActive(s')
            && forall p :: p in s.permits && s.permits[p].holder.Some? ==>
                 p in s'.permits && s'.permits[p] == s.permits[p]
  {
    hide HostStep;
    HostStepOuter(s, a);
    HostStepPermitChange(s, a);
    var s' := HostStep(s, a);
    if p :| s.Revocable(p) && s'.permits == s.Revoke(p).permits {
      RevokeFrame(s, p);
    }
  }

  // ---------- Adapters and their permits ----------

  ghost predicate StopTried(adapters: seq<Adapter>, from: nat) {
    forall i :: from <= i < |adapters| ==> adapters[i].state == Stopped || adapters[i].state == StopFailed
  }

  ghost predicate StoppedFrom(adapters: seq<Adapter>, from: nat) {
    forall i :: from <= i < |adapters| ==> adapters[i].state == Stopped
  }

  ghost predicate FailedStop(adapters: seq<Adapter>) {
    StopTried(adapters, 0) && exists i :: 0 <= i < |adapters| && adapters[i].state == StopFailed
  }

  /** What the host state and the host thread's position say about the adapters. */
  ghost predicate LifecycleInv(s: State) {
    && (s.host == HostStopFailed && (s.pc.Resting? || s.pc.Revoking? || s.pc.ClearingSubscriptions?) ==>
          FailedStop(s.adapters))
    && match s.pc
       case Resting => s.host == HostStopped ==> StoppedFrom(s.adapters, 0)
       case StartingFrom(i) => s.host == HostStopped && i <= |s.adapters| && StoppedFrom(s.adapters, i)
       case InStart(i) =>
         s.host == HostStopped && i < |s.adapters| && s.adapters[i].state == StartFailed
         && StoppedFrom(s.adapters, i + 1)
       case StartRefused(i) =>
         s.host == HostStopped && i < |s.adapters| && s.adapters[i].state == StartFailed
         && StoppedFrom(s.adapters, i + 1)
       case Revoking(_) => s.host != HostStopped
       case ClearingSubscriptions => s.host != HostStopped
       case StoppingBelow(k) => s.host != HostStopped && k <= |s.adapters| && StopTried(s.adapters, k)
       case InStop(i) =>
         s.host != HostStopped && i < |s.adapters| && s.adapters[i].state == StopFailed && StopTried(s.adapters, i)
  }

  /** The adapter is running, or the host is still inside its `start`. */
  ghost predicate Accepting(s: State, i: nat) {
    i < |s.adapters| && (s.adapters[i].state == AdapterState.Running || s.pc == InStart(i) || s.pc == StartRefused(i))
  }

  ghost predicate PermitInv(s: State) {
    forall p :: p in s.permits && s.permits[p].active ==>
      exists i :: 0 <= i < |s.adapters| && s.adapters[i].permit == Some(p) && Accepting(s, i)
  }

  lemma HostStepKeepsLifecycle(s: State, a: Action)
    requires LifecycleInv(s)
    ensures LifecycleInv(HostStep(s, a))
  {
  }

  /** The adapter behind a permit that stays active keeps it, and keeps accepting. */
  lemma WitnessSurvives(s: State, a: Action, p: PermitId, i: nat)
    requires LifecycleInv(s) && i < |s.adapters| && s.adapters[i].permit == Some(p) && Accepting(s, i)
    requires p in s.permits && p in HostStep(s, a).permits && HostStep(s, a).permits[p].active
    ensures var s' := HostStep(s, a);
            i < |s'.adapters| && s'.adapters[i].permit == Some(p) && Accepting(s', i)
  {
    hide FailedStop;
  }

  lemma HostStepKeepsPermits(s: State, a: Action)
    requires LifecycleInv(s) && PermitInv(s)
    ensures PermitInv(HostStep(s, a))
  {
    hide HostStep, LifecycleInv;
    var s' := HostStep(s, a);
    forall p | p in s'.permits && s'.permits[p].active
      ensures exists i :: 0 <= i < |s'.adapters| && s'.adapters[i].permit == Some(p) && Accepting(s', i)
    {
      HostStepPermits(s, a, p);
      if p in s.permits {
        var i :| 0 <= i < |s.adapters| && s.adapters[i].permit == Some(p) && Accepting(s, i);
        WitnessSurvives(s, a, p, i);
      }
    }
  }

  /** An active permit was active before, or was just made for the adapter being started. */
  lemma HostStepPermits(s: State, a: Action, p: PermitId)
    requires p in HostStep(s, a).permits && HostStep(s, a).permits[p].active
    ensures var s' := HostStep(s, a);
            if p in s.permits then s.permits[p].active
            else s'.pc.InStart? && Accepting(s', s'.pc.starting) && s'.adapters[s'.pc.starting].permit == Some(p)
  {
  }

  // ---------- Whole runs ----------

  ghost predicate Safe(s: State) {
    LockInv(s) && LifecycleInv(s) && PermitInv(s)
  }

  lemma ThreadStepKeepsAdapters(s: State, a: Action)
    requires CallAction(a) && LifecycleInv(s) && PermitInv(s)
    ensures LifecycleInv(ThreadStep(s, a)) && PermitInv(ThreadStep(s, a))
  {
    var s' := ThreadStep(s, a);
    assert s'.adapters == s.adapters && s'.pc == s.pc && s'.host == s.host;
    forall p | p in s'.permits && s'.permits[p].active
      ensures exists i :: 0 <= i < |s'.adapters| && s'.adapters[i].permit == Some(p) && Accepting(s', i)
    {
      var i :| 0 <= i < |s.adapters| && s.adapters[i].permit == Some(p) && Accepting(s, i);
      assert Accepting(s', i);
    }
  }

  lemma StepIsSafe(s: State, a: Action)
    requires Safe(s)
    ensures Safe(Step(s, a))
  {
    hide LockInv, LifecycleInv, PermitInv, ThreadStep, HostStep;
    if CallAction(a) {
      ThreadStepKeepsLocks(s, a);
      ThreadStepKeepsAdapters(s, a);
    } else {
      HostStepKeepsLocks(s, a);
      HostStepKeepsLifecycle(s, a);
      HostStepKeepsPermits(s, a);
    }
  }

  lemma {:induction false} RunIsSafe(actions: seq<Action>)
    ensures Safe(Run(NEW_HOST, actions))
  {
    hide Step;
    if actions != [] {
      RunIsSafe(actions[..|actions| - 1]);
      StepIsSafe(Run(NEW_HOST, actions[..|actions| - 1]), actions[|actions| - 1]);
    }
  }

  /** A permit that was revoked once. */
  ghost predicate Dead(s: State, p: PermitId) {
    p in s.permits && !s.permits[p].active
  }

  lemma DeadStaysDead(s: State, a: Action, p: PermitId)
    requires Dead(s, p)
    ensures Dead(Step(s, a), p)
  {
  }

  /** Once a permit is revoked, in every later state it is still revoked and no call is inside it:
      nothing started before the revocation is left, and no restart brings the handle back. */
  lemma {:induction false} RevokedStaysDead(before: seq<Action>, after: seq<Action>, p: PermitId)
    requires Dead(Run(NEW_HOST, before), p)
    ensures var s := Run(NEW_HOST, before + after);
            Dead(s, p) && forall t, k :: 0 <= k < |s.Stack(t)| ==> !s.Stack(t)[k].InPermit(p)
    decreases |after|
  {
    hide Step;
    var s := Run(NEW_HOST, before + after);
    if after == [] {
      assert before + after == before;
    } else {
      var n := |after| - 1;
      RevokedStaysDead(before, after[..n], p);
      assert (before + after)[..|before + after| - 1] == before + after[..n];
      DeadStaysDead(Run(NEW_HOST, before + after[..n]), after[n], p);
    }
    RunIsSafe(before + after);
    forall t, k | 0 <= k < |s.Stack(t)| ensures !s.Stack(t)[k].InPermit(p) {
      assert ThreadInv(s, t);
    }
  }

  /** At every point of every run, an active permit belongs to an adapter that is running or whose
      `start` has not returned to the host yet. */
  lemma ActivePermitsBelongToLiveAdapters(actions: seq<Action>, p: PermitId)
    requires var s := Run(NEW_HOST, actions); p in s.permits && s.permits[p].active
    ensures var s := Run(NEW_HOST, actions);
            exists i :: 0 <= i < |s.adapters| && s.adapters[i].permit == Some(p) && Accepting(s, i)
  {
    hide Run;
    RunIsSafe(actions);
  }

  /** `access` reports re-entry exactly when the calling thread already holds the Bridge. */
  lemma ReentryIffHolding(actions: seq<Action>, t: ThreadId)
    requires Run(NEW_HOST, actions).At(t, Inside)
    ensures var s := Run(NEW_HOST, actions);
            Step(s, CheckOwner(t)).At(t, Refused) <==> s.bridgeHolder == Some(t)
  {
    hide Run, LifecycleInv, PermitInv;
    RunIsSafe(actions);
    var s := Run(NEW_HOST, actions);
    assert ThreadInv(s, t);
  }

  /** At most one thread is inside a Bridge operation, and its permit is still active. */
  lemma OperationsExclude(actions: seq<Action>, t: ThreadId, u: ThreadId, j: nat, k: nat)
    requires var s := Run(NEW_HOST, actions);
             && j < |s.Stack(t)| && s.Stack(t)[j].InBridge()
             && k < |s.Stack(u)| && s.Stack(u)[k].InBridge()
    ensures t == u && j == k
    ensures var s := Run(NEW_HOST, actions);
            var permit := s.Stack(t)[j].permit;
            permit.Some? ==> permit.value in s.permits && s.permits[permit.value] == Permit(true, Some(t))
  {
    hide Run, LifecycleInv, PermitInv;
    RunIsSafe(actions);
    var s := Run(NEW_HOST, actions);
    assert ThreadInv(s, t) && ThreadInv(s, u);
  }

  /** The host's own state tells the truth about its adapters whenever it is not mid-call. */
  lemma HostStateIsTruthful(actions: seq<Action>)
    ensures var s := Run(NEW_HOST, actions);
            s.pc == Resting ==>
              && (s.host == HostStopped ==> AllStopped(s.adapters))
              && (s.host == HostStopFailed ==> FailedStop(s.adapters))
  {
    hide Run;
    RunIsSafe(actions);
  }

  // ---------- What is answered ----------

  /** The state of a lone call, phase by phase. */
  ghost predicate Alone(s: State, t: ThreadId, p: PermitId, phase: Phase, permit: Permit, holder: Option<ThreadId>,
                        owner: Option<ThreadId>) {
    && s.Stack(t) == [Call(Some(p), phase)] && p in s.permits && s.permits[p] == permit
    && s.bridgeHolder == holder && s.owner == owner
  }

  lemma CallEnters(s: State, t: ThreadId, p: PermitId)
    requires s.Stack(t) == [] && p in s.permits && s.permits[p] == Permit(true, None)
    requires s.bridgeHolder == None && s.owner == None
    ensures var entered := Step(Step(s, BeginCall(t, Some(p))), EnterPermit(t));
            && Alone(entered, t, p, Inside, Permit(true, Some(t)), None, None)
            && entered.permits == s.permits[p := Permit(true, Some(t))]
  {
    hide HostStep;
    assert Step(s, BeginCall(t, Some(p))).Stack(t) == [Call(Some(p), Entering)];
  }

  lemma CallAcquires(s: State, t: ThreadId, p: PermitId)
    requires Alone(s, t, p, Inside, Permit(true, Some(t)), None, None)
    ensures var operating := Step(Step(Step(s, CheckOwner(t)), LockBridge(t)), SetOwner(t));
            && Alone(operating, t, p, Operating, Permit(true, Some(t)), Some(t), Some(t))
            && operating.permits == s.permits
  {
    hide HostStep;
    var cleared := Step(s, CheckOwner(t));
    assert Alone(cleared, t, p, Cleared, Permit(true, Some(t)), None, None);
    var holding := Step(cleared, LockBridge(t));
    assert Alone(holding, t, p, Holding, Permit(true, Some(t)), Some(t), None);
  }

  lemma CallReleases(s: State, t: ThreadId, p: PermitId)
    requires Alone(s, t, p, Operating, Permit(true, Some(t)), Some(t), Some(t))
    ensures var left := Step(Step(Step(s, ClearOwner(t)), UnlockBridge(t)), LeavePermit(t));
            && left.Stack(t) == [] && left.bridgeHolder == None && left.owner == None
            && left.permits == s.permits[p := Permit(true, None)]
  {
    hide HostStep;
    var leaving := Step(s, ClearOwner(t));
    assert Alone(leaving, t, p, Leaving, Permit(true, Some(t)), Some(t), None);
    CallEnds(leaving, t, p);
  }

  lemma CallEnds(s: State, t: ThreadId, p: PermitId)
    requires Alone(s, t, p, Leaving, Permit(true, Some(t)), Some(t), None)
    ensures var left := Step(Step(s, UnlockBridge(t)), LeavePermit(t));
            && left.Stack(t) == [] && left.bridgeHolder == None && left.owner == None
            && left.permits == s.permits[p := Permit(true, None)]
  {
    hide HostStep;
    var unlocked := Step(s, UnlockBridge(t));
    assert Alone(unlocked, t, p, Unlocked, Permit(true, Some(t)), None, None);
  }

  /** A call through an active handle that finds its locks free reaches the Bridge, and leaves everything as
      it found it. */
  lemma FreeCallsOperate(s: State, t: ThreadId, p: PermitId)
    requires s.Stack(t) == [] && p in s.permits && s.permits[p] == Permit(true, None)
    requires s.bridgeHolder == None && s.owner == None
    ensures var entered := Step(Step(s, BeginCall(t, Some(p))), EnterPermit(t));
            var operating := Step(Step(Step(entered, CheckOwner(t)), LockBridge(t)), SetOwner(t));
            var left := Step(Step(Step(operating, ClearOwner(t)), UnlockBridge(t)), LeavePermit(t));
            && Alone(operating, t, p, Operating, Permit(true, Some(t)), Some(t), Some(t))
            && left.Stack(t) == [] && left.bridgeHolder == None && left.owner == None && left.permits == s.permits
  {
    hide Step, Alone;
    CallEnters(s, t, p);
    var entered := Step(Step(s, BeginCall(t, Some(p))), EnterPermit(t));
    CallAcquires(entered, t, p);
    CallReleases(Step(Step(Step(entered, CheckOwner(t)), LockBridge(t)), SetOwner(t)), t, p);
    assert s.permits[p := Permit(true, Some(t))][p := Permit(true, None)] == s.permits;
  }

  /** A call through a revoked handle ends at the permit, with nothing taken. */
  lemma DeadCallsEnd(s: State, t: ThreadId, p: PermitId)
    requires s.Stack(t) == [] && p in s.permits && s.permits[p] == Permit(false, None)
    ensures var ended := Step(Step(s, BeginCall(t, Some(p))), EnterPermit(t));
            && ended.Stack(t) == [] && ended.permits == s.permits && ended.bridgeHolder == s.bridgeHolder
            && ended.owner == s.owner
  {
    assert Step(s, BeginCall(t, Some(p))).Stack(t) == [Call(Some(p), Entering)];
  }

  /** What the callbacks' outcomes make of an adapter, and of the host when a stop ends. */
  lemma OutcomesByName(s: State, ok: bool)
    requires LifecycleInv(s)
    ensures s.pc.InStart? ==>
              var s' := Step(s, StartReturns(ok));
              && s'.adapters[s.pc.starting].state == (if ok then AdapterState.Running else StartFailed)
              && s'.pc == (if ok then StartingFrom(s.pc.starting + 1) else StartRefused(s.pc.starting))
    ensures s.pc.InStop? ==>
              var s' := Step(s, StopReturns(ok));
              && s'.adapters[s.pc.stopping].state == (if ok then Stopped else StopFailed)
              && s'.pc == StoppingBelow(s.pc.stopping)
    ensures s.pc == StoppingBelow(0) ==>
              var s' := Step(s, FinishStop);
              s'.pc == Resting && s'.host == if AllStopped(s.adapters) then HostStopped else HostStopFailed
  {
  }
}
