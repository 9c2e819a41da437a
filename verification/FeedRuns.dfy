/** Runs of a feed session together with the ingress monitors it may be bound to. */
module FeedRuns {
  import opened Common
  import opened Ingress
  import opened Feed

  /** `held` is the monitor whose admission guard is outstanding; the guard also holds the
      session's lock, so no session operation can run while it lives. */
  datatype World = World(inner: Inner<nat>, monitors: map<nat, Monitor>, nextToken: Token, held: Option<nat>)

  datatype Step =
    | Create(m: nat)
    | Receive(m: nat, account: bool)
    | Discharge(m: nat, account: bool, acknowledged: bool)
    | Finish(m: nat, drained: bool)
    | Abandon(m: nat)
    | Bind(scope: Scope)
    | Attach(m: nat)
    | Ledger(identity: Token)
    | FillWalk(stamp: Stamp, receipt: Receipt)
    | Caught(stamp: Stamp, at: nat)
    | Lost
    | Fail(detail: string)
    | Tick(at: nat)
    | Admit(shown: Option<Stamp>, scope: Scope)
    | Release(panicking: bool)

  predicate SessionStep(s: Step) {
    s.Bind? || s.Attach? || s.Ledger? || s.FillWalk? || s.Caught? || s.Lost? || s.Fail? || s.Tick? || s.Admit?
  }

  /** Whether a step can run now. Session steps wait for the lock, and a monitor's
      mutations wait for admitted work; a frame registers without waiting. */
  predicate Enabled(w: World, s: Step) {
    if SessionStep(s) then w.held.None? && (s.Attach? ==> s.m in w.monitors)
    else match s
      case Create(m) => m !in w.monitors
      case Receive(m, _) => m in w.monitors
      case Discharge(m, account, _) =>
        m in w.monitors && w.monitors[m].admitted == 0
        && HasObligation(w.monitors[m].outstanding, w.monitors[m].pending, account)
      case Finish(m, _) => m in w.monitors && w.monitors[m].admitted == 0
      case Abandon(m) => m in w.monitors && w.monitors[m].admitted == 0
      case Release(_) => w.held.Some? && w.held.value in w.monitors && w.monitors[w.held.value].admitted > 0
      case _ => false
  }

  function Observation(w: World): Option<Token> {
    match w.inner.ingress
    case None => None
    case Some(m) => if m in w.monitors then Some(w.monitors[m].epoch) else None
  }

  function StampNow(w: World): Stamp {
    Stamp(w.inner.epoch, Observation(w))
  }

  predicate Eligible(w: World) {
    w.inner.ingress.Some? && w.inner.ingress.value in w.monitors
    && ReplacementEligible(w.monitors[w.inner.ingress.value])
  }

  /** `FeedSession::admit` succeeds. */
  predicate Admits(w: World, stamp: Option<Stamp>, scope: Scope) {
    && SessionAdmits(w.inner, stamp, scope)
    && w.inner.ingress.value in w.monitors
    && AdmitError(w.monitors[w.inner.ingress.value], stamp.value.ingress.value).None?
  }

  function Next(w: World, s: Step): World {
    if !Enabled(w, s) then w else Effect(w, s).(nextToken := w.nextToken + 1)
  }

  function Effect(w: World, s: Step): World
    requires Enabled(w, s)
  {
    var t := w.nextToken;
    match s
    case Create(m) => w.(monitors := w.monitors[m := NewMonitor(t)])
    case Receive(m, account) => w.(monitors := w.monitors[m := Send(w.monitors[m], account, t)])
    case Discharge(m, account, acked) => w.(monitors := w.monitors[m := Settle(w.monitors[m], account, acked)])
    case Finish(m, drained) => w.(monitors := w.monitors[m := Complete(w.monitors[m], drained)])
    case Abandon(m) => w.(monitors := w.monitors[m := w.monitors[m].(failed := true)])
    case Bind(scope) => w.(inner := BindScope(w.inner, scope, t).0)
    case Attach(m) => w.(inner := BindMonitor(w.inner, m, Eligible(w), t).0)
    case Ledger(id) => w.(inner := BindLedger(w.inner, id, t).0)
    case FillWalk(stamp, receipt) => w.(inner := Walked(w.inner, stamp, StampNow(w), receipt))
    case Caught(stamp, at) => w.(inner := Reconciled(w.inner, stamp, StampNow(w), at))
    case Lost => w.(inner := Unreconciled(w.inner, t))
    case Fail(detail) => w.(inner := WithFailure(w.inner, detail, t))
    case Tick(at) => w.(inner := w.inner.(lastTick := Ticked(w.inner.lastTick, at)))
    case Admit(stamp, scope) =>
      if !Admits(w, stamp, scope) then w
      else
        var m := w.inner.ingress.value;
        w.(monitors := w.monitors[m := w.monitors[m].(admitted := w.monitors[m].admitted + 1)], held := Some(m))
    case Release(panicking) =>
      var m := w.held.value;
      var mon := w.monitors[m];
      w.(monitors := w.monitors[m := mon.(admitted := mon.admitted - 1, failed := mon.failed || panicking)],
         held := None)
  }

  const START: World := World(Unseen(0), map[], 1, None)

  function Run(w: World, steps: seq<Step>): World {
    if steps == [] then w else Next(Run(w, steps[..|steps| - 1]), steps[|steps| - 1])
  }

  /** The state before step `k` of a run from the start. */
  function At(steps: seq<Step>, k: nat): World
    requires k <= |steps|
  {
    Run(START, steps[..k])
  }

  lemma AtNext(steps: seq<Step>, k: nat)
    requires k < |steps|
    ensures At(steps, k + 1) == Next(At(steps, k), steps[k])
  {
    assert steps[..k + 1][..k] == steps[..k];
  }

  // ---- tokens ------------------------------------------------------------------------------------

  ghost predicate Sound(w: World) {
    && w.inner.epoch < w.nextToken
    && (forall m :: m in w.monitors ==> w.monitors[m].epoch < w.nextToken)
    && (w.inner.ingress.Some? ==> w.inner.ingress.value in w.monitors)
    // no two monitors ever share an observation
    && (forall m, n :: m in w.monitors && n in w.monitors && m != n ==> w.monitors[m].epoch != w.monitors[n].epoch)
    // a monitor's account frames are pending, acknowledged, or it has failed
    && (forall m :: m in w.monitors ==> Tallied(w.monitors[m]))
    && (w.held.Some? ==> w.held.value in w.monitors && Guarded(w.monitors[w.held.value]))
  }

  /** A monitor with an admission guard out is healthy and open. */
  predicate Guarded(m: Monitor) {
    m.admitted > 0 && !m.failed && !m.completed
  }

  /** Replacing one monitor keeps the world sound if its new observation is its own. */
  lemma ReplaceKeepsSound(w: World, m: nat, mon: Monitor, held: Option<nat>)
    requires Sound(w)
    requires mon.epoch == w.nextToken || (m in w.monitors && mon.epoch == w.monitors[m].epoch)
    requires Tallied(mon)
    requires held.Some? ==> if held.value == m then Guarded(mon)
                            else held.value in w.monitors && Guarded(w.monitors[held.value])
    ensures Sound(w.(monitors := w.monitors[m := mon], nextToken := w.nextToken + 1, held := held))
  {
  }

  lemma SessionKeepsSound(w: World, s: Step)
    requires Sound(w) && Enabled(w, s) && SessionStep(s) && !s.Admit?
    ensures Sound(Next(w, s))
  {
    hide Ticked;
  }

  lemma StepKeepsSound(w: World, s: Step)
    requires Sound(w)
    ensures Sound(Next(w, s))
  {
    if !Enabled(w, s) {
    } else if SessionStep(s) && !s.Admit? {
      SessionKeepsSound(w, s);
    } else {
      MonitorKeepsSound(w, s);
    }
  }

  /** A healthy monitor's account frames are pending or acknowledged. */
  predicate Tallied(m: Monitor) {
    !m.failed ==> m.sent == m.pending + m.acknowledged
  }

  lemma FrameKeepsTally(m: Monitor, account: bool, acked: bool, drained: bool, token: Token)
    requires Tallied(m)
    ensures Tallied(Send(m, account, token)) && Tallied(Complete(m, drained)) && Tallied(NewMonitor(token))
    ensures Guarded(m) ==> Guarded(Send(m, account, token))
    ensures HasObligation(m.outstanding, m.pending, account) ==> Tallied(Settle(m, account, acked))
  {
  }

  lemma SoundHolds(w: World)
    requires Sound(w)
    ensures forall m :: m in w.monitors ==> Tallied(w.monitors[m])
    ensures w.held.Some? ==> w.held.value in w.monitors && Guarded(w.monitors[w.held.value])
  {
  }

  lemma MonitorKeepsSound(w: World, s: Step)
    requires Sound(w) && Enabled(w, s) && (s.Admit? || !SessionStep(s))
    ensures Sound(Next(w, s))
  {
    hide Sound;
    match s
    case Admit(shown, scope) => AdmitKeepsSound(w, shown, scope);
    case Release(panicking) => ReleaseKeepsSound(w, panicking);
    case Receive(m, account) => ReceiveKeepsSound(w, m, account);
    case _ => QuietMonitorKeepsSound(w, s);
  }

  lemma ReceiveKeepsSound(w: World, m: nat, account: bool)
    requires Sound(w) && Enabled(w, Receive(m, account))
    ensures Sound(Next(w, Receive(m, account)))
  {
    hide Sound;
    hide Tallied;
    SoundHolds(w);
    FrameKeepsTally(w.monitors[m], account, true, true, w.nextToken);
    ReplaceKeepsSound(w, m, Send(w.monitors[m], account, w.nextToken), w.held);
  }

  /** Steps of a monitor no guard is out on. */
  lemma QuietMonitorKeepsSound(w: World, s: Step)
    requires Sound(w) && Enabled(w, s) && (s.Create? || s.Discharge? || s.Finish? || s.Abandon?)
    ensures Sound(Next(w, s))
  {
    hide Sound;
    SoundHolds(w);
    match s
    case Create(m) => ReplaceKeepsSound(w, m, NewMonitor(w.nextToken), w.held);
    case Discharge(m, account, acked) =>
      FrameKeepsTally(w.monitors[m], account, acked, true, w.nextToken);
      ReplaceKeepsSound(w, m, Settle(w.monitors[m], account, acked), w.held);
    case Finish(m, drained) =>
      FrameKeepsTally(w.monitors[m], true, true, drained, w.nextToken);
      ReplaceKeepsSound(w, m, Complete(w.monitors[m], drained), w.held);
    case Abandon(m) => ReplaceKeepsSound(w, m, w.monitors[m].(failed := true), w.held);
  }

  lemma AdmitKeepsSound(w: World, shown: Option<Stamp>, scope: Scope)
    requires Sound(w) && Enabled(w, Admit(shown, scope))
    ensures Sound(Next(w, Admit(shown, scope)))
  {
    var w' := Effect(w, Admit(shown, scope));
    if Admits(w, shown, scope) {
      var m := w.inner.ingress.value;
      ReplaceKeepsSound(w, m, w'.monitors[m], Some(m));
    }
  }

  lemma ReleaseKeepsSound(w: World, panicking: bool)
    requires Sound(w) && Enabled(w, Release(panicking))
    ensures Sound(Next(w, Release(panicking)))
  {
    var m := w.held.value;
    ReplaceKeepsSound(w, m, Effect(w, Release(panicking)).monitors[m], None);
  }

  lemma {:induction false} RunIsSound(steps: seq<Step>, k: nat)
    requires k <= |steps|
    ensures Sound(At(steps, k))
    decreases k
  {
    hide Next;
    if k > 0 {
      RunIsSound(steps, k - 1);
      AtNext(steps, k - 1);
      StepKeepsSound(At(steps, k - 1), steps[k - 1]);
    } else {
      assert steps[..0] == [];
    }
  }

  // ---- what invalidates a snapshot ---------------------------------------------------------------

  /** The things after which an earlier snapshot says nothing: the account is no longer known
      to be caught up, a failure was recorded, or the session was bound to something else. */
  predicate Invalidates(w: World, s: Step) {
    && Enabled(w, s)
    && match s
       case Lost => true
       case Fail(_) => true
       case Bind(_) => w.inner.scope.None?
       case Attach(m) => w.inner.ingress != Some(m)
       case Ledger(id) => w.inner.ledger.Some? && w.inner.ledger.value != id
       case _ => false
  }

  /** An account frame reaches the monitor the session is bound to. */
  predicate AccountFrame(w: World, s: Step) {
    && Enabled(w, s) && s.Receive? && s.account && w.inner.ingress == Some(s.m)
    && !w.monitors[s.m].completed
  }

  lemma EpochMoves(w: World, s: Step)
    requires Sound(w)
    ensures w.inner.epoch <= Next(w, s).inner.epoch
    ensures Invalidates(w, s) <==> w.inner.epoch != Next(w, s).inner.epoch
    ensures !Invalidates(w, s) ==> Next(w, s).inner.ingress == w.inner.ingress
    ensures Invalidates(w, s) ==> !Next(w, s).inner.reconciled
  {
  }

  lemma {:induction false} EpochNeverReturns(steps: seq<Step>, i: nat, j: nat)
    requires i <= j <= |steps|
    ensures At(steps, i).inner.epoch <= At(steps, j).inner.epoch
    ensures At(steps, i).inner.epoch == At(steps, j).inner.epoch ==>
              && (forall k :: i <= k < j ==> !Invalidates(At(steps, k), steps[k]))
              && (forall k :: i <= k <= j ==>
                    && At(steps, k).inner.epoch == At(steps, i).inner.epoch
                    && At(steps, k).inner.ingress == At(steps, i).inner.ingress)
    decreases j - i
  {
    hide At;
    hide Next;
    hide Invalidates;
    if i < j {
      EpochNeverReturns(steps, i, j - 1);
      RunIsSound(steps, j - 1);
      AtNext(steps, j - 1);
      EpochMoves(At(steps, j - 1), steps[j - 1]);
    }
  }

  /** A reconciled session has a completed reconcile behind it, stamped in the same epoch with
      an observation that was still current when the walk returned. */
  ghost predicate CaughtUpAt(steps: seq<Step>, k: nat)
    requires k < |steps|
  {
    && steps[k].Caught? && Enabled(At(steps, k), steps[k])
    && steps[k].stamp == StampNow(At(steps, k))
    && At(steps, k).inner.failure.None?
  }

  lemma {:induction false} ReconciledHasWitness(steps: seq<Step>, j: nat) returns (k: nat)
    requires j <= |steps| && At(steps, j).inner.reconciled
    ensures k < j && CaughtUpAt(steps, k)
    ensures At(steps, k).inner.epoch == At(steps, j).inner.epoch
    decreases j
  {
    hide At;
    hide Next;
    if j == 0 {
      StartsUnreconciled(steps);
    }
    var p := j - 1;
    AtNext(steps, p);
    RunIsSound(steps, p);
    EpochMoves(At(steps, p), steps[p]);
    ReconciledComesFrom(At(steps, p), steps[p]);
    if At(steps, p).inner.reconciled {
      k := ReconciledHasWitness(steps, p);
    } else {
      k := p;
    }
  }

  lemma StartsUnreconciled(steps: seq<Step>)
    ensures !At(steps, 0).inner.reconciled && At(steps, 0).inner.failure.None?
  {
    assert steps[..0] == [];
  }

  lemma ReconciledComesFrom(w: World, s: Step)
    ensures Next(w, s).inner.reconciled ==>
              || w.inner.reconciled
              || (s.Caught? && Enabled(w, s) && s.stamp == StampNow(w) && w.inner.failure.None?)
  {
  }

  // ---- admission is never stale --------------------------------------------------------------

  /** The bound monitor saw no account frame between two states with the same observation. */
  lemma {:induction false} ObservationNeverReturns(steps: seq<Step>, i: nat, j: nat, m: nat)
    requires i <= j <= |steps|
    requires m in At(steps, i).monitors
    requires forall k :: i <= k <= j ==> At(steps, k).inner.ingress == Some(m)
    ensures m in At(steps, j).monitors
    ensures At(steps, i).monitors[m].epoch <= At(steps, j).monitors[m].epoch
    ensures At(steps, i).monitors[m].epoch == At(steps, j).monitors[m].epoch ==>
              forall k :: i <= k < j ==> !AccountFrame(At(steps, k), steps[k])
    decreases j - i
  {
    hide At;
    hide Next;
    hide AccountFrame;
    if i < j {
      ObservationNeverReturns(steps, i, j - 1, m);
      RunIsSound(steps, j - 1);
      AtNext(steps, j - 1);
      ObservationMoves(At(steps, j - 1), steps[j - 1], m);
    }
  }

  lemma ObservationMoves(w: World, s: Step, m: nat)
    requires Sound(w) && m in w.monitors && w.inner.ingress == Some(m)
    ensures m in Next(w, s).monitors
    ensures w.monitors[m].epoch <= Next(w, s).monitors[m].epoch
    ensures AccountFrame(w, s) ==> w.monitors[m].epoch < Next(w, s).monitors[m].epoch
  {
  }

  /** Whenever admission succeeds for a stamp captured earlier in the run: nothing that
      invalidates a snapshot happened since the capture; no account frame reached the bound
      monitor since; every account frame it was ever sent has been acknowledged; no failure
      was recorded; and a reconcile stamped inside this very epoch has completed. */
  lemma AdmissionIsNeverStale(steps: seq<Step>, i: nat, j: nat, stamp: Stamp, scope: Scope)
    returns (k: nat)
    requires i <= j <= |steps|
    requires stamp == StampNow(At(steps, i))
    requires Admits(At(steps, j), Some(stamp), scope)
    ensures forall n :: i <= n < j ==> !Invalidates(At(steps, n), steps[n])
    ensures forall n :: i <= n < j ==> !AccountFrame(At(steps, n), steps[n])
    ensures At(steps, i).inner.ingress == At(steps, j).inner.ingress
    ensures var m := At(steps, j).inner.ingress.value;
            && m in At(steps, j).monitors
            && At(steps, j).monitors[m].sent == At(steps, j).monitors[m].acknowledged
    ensures At(steps, j).inner.failure.None?
    ensures k < j && CaughtUpAt(steps, k) && At(steps, k).inner.epoch == stamp.epoch
    ensures forall n :: k <= n < j ==> !Invalidates(At(steps, n), steps[n])
  {
    hide At;
    hide Next;
    hide Invalidates;
    hide AccountFrame;
    EpochNeverReturns(steps, i, j);
    RunIsSound(steps, i);
    RunIsSound(steps, j);
    var m := At(steps, j).inner.ingress.value;
    ObservationNeverReturns(steps, i, j, m);
    k := ReconciledHasWitness(steps, j);
    EpochNeverReturns(steps, k, j);
  }

  lemma QuietStepStands(w: World, s: Step)
    requires Sound(w) && !Invalidates(w, s)
    ensures Next(w, s).inner.failure == w.inner.failure
    ensures w.inner.reconciled && w.inner.failure.None? ==> Next(w, s).inner.reconciled
    ensures w.inner.ingress.Some? && !AccountFrame(w, s) ==> Observation(Next(w, s)) == Observation(w)
  {
    hide Sound;
    if SessionStep(s) {
      QuietSessionStands(w, s);
    } else {
      QuietMonitorStands(w, s);
    }
  }

  lemma QuietSessionStands(w: World, s: Step)
    requires SessionStep(s) && !Invalidates(w, s)
    ensures Next(w, s).inner.failure == w.inner.failure
    ensures w.inner.reconciled && w.inner.failure.None? ==> Next(w, s).inner.reconciled
    ensures w.inner.ingress.Some? ==> Observation(Next(w, s)) == Observation(w)
  {
    hide Ticked;
  }

  lemma QuietMonitorStands(w: World, s: Step)
    requires !SessionStep(s)
    ensures Next(w, s).inner == w.inner
    ensures w.inner.ingress.Some? && !AccountFrame(w, s) && Sound(w) ==> Observation(Next(w, s)) == Observation(w)
  {
  }

  /** With nothing invalidating in between, epoch, binding and failure stand, a caught-up
      session stays caught up, and the observation moves only with an account frame. */
  lemma {:induction false} QuietRunStands(steps: seq<Step>, i: nat, j: nat)
    requires i <= j <= |steps|
    requires forall n :: i <= n < j ==> !Invalidates(At(steps, n), steps[n])
    ensures var a, b := At(steps, i), At(steps, j);
            && b.inner.epoch == a.inner.epoch && b.inner.ingress == a.inner.ingress
            && b.inner.failure == a.inner.failure
            && (a.inner.reconciled && a.inner.failure.None? ==> b.inner.reconciled)
            && (a.inner.ingress.Some? && (forall n :: i <= n < j ==> !AccountFrame(At(steps, n), steps[n])) ==>
                  Observation(b) == Observation(a))
    decreases j - i
  {
    hide At;
    hide Next;
    hide Invalidates;
    hide AccountFrame;
    hide Observation;
    if i < j {
      QuietRunStands(steps, i, j - 1);
      RunIsSound(steps, j - 1);
      AtNext(steps, j - 1);
      EpochMoves(At(steps, j - 1), steps[j - 1]);
      QuietStepStands(At(steps, j - 1), steps[j - 1]);
    }
  }

  /** Nothing has invalidated or overtaken a stamp between its capture and now. */
  ghost predicate Undisturbed(steps: seq<Step>, i: nat, j: nat)
    requires i <= j <= |steps|
  {
    forall n :: i <= n < j ==> !Invalidates(At(steps, n), steps[n]) && !AccountFrame(At(steps, n), steps[n])
  }

  /** Some reconcile was accepted and nothing has invalidated it since. */
  ghost predicate CaughtUpSince(steps: seq<Step>, j: nat)
    requires j <= |steps|
  {
    exists k :: 0 <= k < j && CaughtUpAt(steps, k)
                && forall n :: k < n < j ==> !Invalidates(At(steps, n), steps[n])
  }

  /** The bound monitor is healthy and has nothing unprocessed. */
  predicate Drained(w: World) {
    && w.inner.ingress.Some? && w.inner.ingress.value in w.monitors
    && var m := w.monitors[w.inner.ingress.value]; !m.failed && !m.completed && m.pending == 0
  }

  lemma CaughtUpIsReconciled(steps: seq<Step>, j: nat)
    requires j <= |steps|
    ensures CaughtUpSince(steps, j) <==> At(steps, j).inner.reconciled
    ensures At(steps, j).inner.reconciled ==> At(steps, j).inner.failure.None?
  {
    hide At;
    hide Next;
    hide Invalidates;
    hide CaughtUpAt;
    if CaughtUpSince(steps, j) {
      var k :| 0 <= k < j && CaughtUpAt(steps, k)
               && forall n :: k < n < j ==> !Invalidates(At(steps, n), steps[n]);
      CaughtStep(steps, k);
      QuietRunStands(steps, k + 1, j);
    }
    if At(steps, j).inner.reconciled {
      var k := ReconciledHasWitness(steps, j);
      EpochNeverReturns(steps, k, j);
      CaughtStep(steps, k);
      QuietRunStands(steps, k + 1, j);
    }
  }

  lemma CaughtStep(steps: seq<Step>, k: nat)
    requires k < |steps| && CaughtUpAt(steps, k)
    ensures At(steps, k + 1).inner.reconciled && At(steps, k + 1).inner.failure.None?
  {
    hide At;
    AtNext(steps, k);
  }

  /** Admission is exact. A stamp captured at `i` is admitted at `j` if and only if nothing
      invalidated or overtook it in between, a reconcile was accepted and still stands, the
      bound monitor is drained and healthy, and the session is bound to the account asked for. */
  lemma AdmissionIsExact(steps: seq<Step>, i: nat, j: nat, scope: Scope)
    requires i <= j <= |steps|
    ensures Admits(At(steps, j), Some(StampNow(At(steps, i))), scope)
       <==> && Undisturbed(steps, i, j) && CaughtUpSince(steps, j)
            && Drained(At(steps, j)) && At(steps, j).inner.scope == Some(scope)
  {
    hide At;
    hide Next;
    hide Invalidates;
    hide AccountFrame;
    hide CaughtUpSince;
    hide CaughtUpAt;
    RunIsSound(steps, i);
    RunIsSound(steps, j);
    CaughtUpIsReconciled(steps, j);
    if Admits(At(steps, j), Some(StampNow(At(steps, i))), scope) {
      var k := AdmissionIsNeverStale(steps, i, j, StampNow(At(steps, i)), scope);
    }
    if Undisturbed(steps, i, j) {
      QuietRunStands(steps, i, j);
    }
  }

  /** An older walk can never clear a newer outage: reporting a reconcile whose stamp predates
      an invalidation changes nothing. */
  lemma StaleReconcileIsIgnored(steps: seq<Step>, i: nat, n: nat, j: nat, at: nat)
    requires i <= n < j <= |steps| && Invalidates(At(steps, n), steps[n])
    ensures var stale := Caught(StampNow(At(steps, i)), at);
            Next(At(steps, j), stale).inner == At(steps, j).inner
  {
    hide At;
    hide Invalidates;
    EpochNeverReturns(steps, i, j);
  }

  /** A recorded failure blocks admission for the rest of the session, and keeps its first detail. */
  lemma {:induction false} FailureIsForever(steps: seq<Step>, n: nat, j: nat, stamp: Option<Stamp>, scope: Scope)
    requires n < j <= |steps| && steps[n].Fail? && Enabled(At(steps, n), steps[n])
    ensures At(steps, j).inner.failure.Some?
    ensures At(steps, j).inner.failure == At(steps, n + 1).inner.failure
    ensures !Admits(At(steps, j), stamp, scope)
    decreases j
  {
    hide At;
    AtNext(steps, j - 1);
    if n < j - 1 {
      FailureIsForever(steps, n, j - 1, stamp, scope);
    }
  }

  /** The freshness clock never goes back. */
  lemma {:induction false} TicksNeverGoBack(steps: seq<Step>, i: nat, j: nat)
    requires i <= j <= |steps| && At(steps, i).inner.lastTick.Some?
    ensures At(steps, j).inner.lastTick.Some?
    ensures At(steps, i).inner.lastTick.value <= At(steps, j).inner.lastTick.value
    decreases j - i
  {
    hide At;
    if i < j {
      TicksNeverGoBack(steps, i, j - 1);
      AtNext(steps, j - 1);
    }
  }

  /** Everything an admission was granted on stands in `b` as it stood in `a`; frames may have
      arrived, and none has been settled. */
  ghost predicate EvidenceStands(a: World, b: World, m: nat) {
    && b.inner == a.inner && m in a.monitors && m in b.monitors
    && !b.monitors[m].failed && !b.monitors[m].completed
    && b.monitors[m].acknowledged == a.monitors[m].acknowledged
    && b.monitors[m].outstanding >= a.monitors[m].outstanding && b.monitors[m].pending >= a.monitors[m].pending
  }

  lemma HeldStep(w: World, s: Step)
    requires Sound(w) && w.held.Some? && !s.Release?
    ensures Next(w, s).held == w.held && EvidenceStands(w, Next(w, s), w.held.value)
  {
  }

  lemma AdmitHolds(w: World, s: Step)
    requires Sound(w) && s.Admit? && Enabled(w, s) && Admits(w, s.shown, s.scope)
    ensures w.inner.ingress.Some? && Next(w, s).held == w.inner.ingress
    ensures EvidenceStands(w, Next(w, s), w.inner.ingress.value)
  {
  }

  /** From an admission until its guard is released, whatever else is tried, the evidence it was
      granted on stands still: the session does not change at all, and the monitor stays open and
      healthy and settles no frame. */
  lemma {:induction false} GuardFreezesEvidence(steps: seq<Step>, i: nat, j: nat)
    requires i < j <= |steps|
    requires steps[i].Admit? && Enabled(At(steps, i), steps[i])
    requires Admits(At(steps, i), steps[i].shown, steps[i].scope)
    requires forall n :: i < n < j ==> !steps[n].Release?
    ensures At(steps, j).held.Some? && At(steps, j).held == At(steps, i).inner.ingress
    ensures EvidenceStands(At(steps, i), At(steps, j), At(steps, i).inner.ingress.value)
    decreases j
  {
    hide At;
    hide Next;
    hide Admits;
    RunIsSound(steps, j - 1);
    AtNext(steps, j - 1);
    if j == i + 1 {
      AdmitHolds(At(steps, i), steps[i]);
    } else {
      GuardFreezesEvidence(steps, i, j - 1);
      HeldStep(At(steps, j - 1), steps[j - 1]);
    }
  }

  // ---- evidence is never lost by rebinding -----------------------------------------------------

  /** Account obligations are obligations, and a completed monitor has none left. */
  ghost predicate Accounted(w: World) {
    forall m :: m in w.monitors ==>
      && w.monitors[m].pending <= w.monitors[m].outstanding
      && (w.monitors[m].completed ==> w.monitors[m].outstanding == 0)
  }

  lemma StepKeepsAccounted(w: World, s: Step)
    requires Accounted(w)
    ensures Accounted(Next(w, s))
  {
  }

  lemma {:induction false} RunIsAccounted(steps: seq<Step>, k: nat)
    requires k <= |steps|
    ensures Accounted(At(steps, k))
    decreases k
  {
    hide Next;
    hide Accounted;
    if k > 0 {
      RunIsAccounted(steps, k - 1);
      AtNext(steps, k - 1);
      StepKeepsAccounted(At(steps, k - 1), steps[k - 1]);
    } else {
      NothingToAccount();
      assert steps[..0] == [];
    }
  }

  lemma NothingToAccount()
    ensures Accounted(START)
  {
  }

  /** Whenever the bound monitor changes, the one left was completed and healthy, had nothing
      outstanding, and every account frame it was ever sent had been acknowledged. */
  lemma ReplacedMonitorIsDone(steps: seq<Step>, n: nat, m: nat)
    requires n < |steps| && At(steps, n).inner.ingress == Some(m)
    requires At(steps, n + 1).inner.ingress != Some(m)
    ensures steps[n].Attach? && At(steps, n + 1).inner.ingress == Some(steps[n].m)
    ensures m in At(steps, n).monitors
    ensures var left := At(steps, n).monitors[m];
            && left.completed && !left.failed && left.outstanding == 0 && left.sent == left.acknowledged
  {
    hide At;
    RunIsSound(steps, n);
    RunIsAccounted(steps, n);
    AtNext(steps, n);
    RebindingIsExact(At(steps, n), steps[n], m);
  }

  lemma RebindingIsExact(w: World, s: Step, m: nat)
    requires Sound(w) && Accounted(w) && w.inner.ingress == Some(m) && Next(w, s).inner.ingress != Some(m)
    ensures s.Attach? && Next(w, s).inner.ingress == Some(s.m) && m in w.monitors
    ensures var left := w.monitors[m];
            left.completed && !left.failed && left.outstanding == 0 && left.sent == left.acknowledged
  {
  }

  // ---- the recorded walk ---------------------------------------------------------------------------

  /** A recorded walk covered the initial window of the bound account and ledger. */
  ghost predicate WalkIsOurs(w: World) {
    w.inner.fillWalk.Some? ==>
      && w.inner.fillWalk.value.initialWindow
      && w.inner.scope == Some(w.inner.fillWalk.value.scope)
      && w.inner.ledger == Some(w.inner.fillWalk.value.ledger)
  }

  lemma StepKeepsWalk(w: World, s: Step)
    requires WalkIsOurs(w)
    ensures WalkIsOurs(Next(w, s))
    ensures w.inner.scope.Some? ==> Next(w, s).inner.scope == w.inner.scope
    ensures w.inner.ledger.Some? ==> Next(w, s).inner.ledger == w.inner.ledger
    ensures w.inner.fillWalk.Some? && Next(w, s).inner.fillWalk != w.inner.fillWalk ==>
              Next(w, s).inner.fillWalk.None? && Next(w, s).inner.ingress != w.inner.ingress
  {
    hide Ticked;
  }

  /** In every reachable state the recorded walk is one of the bound account and ledger, however
      the session was bound and rebound. */
  lemma {:induction false} RecordedWalkIsOurs(steps: seq<Step>, k: nat)
    requires k <= |steps|
    ensures WalkIsOurs(At(steps, k))
    decreases k
  {
    hide Next;
    if k > 0 {
      RecordedWalkIsOurs(steps, k - 1);
      AtNext(steps, k - 1);
      StepKeepsWalk(At(steps, k - 1), steps[k - 1]);
    } else {
      assert steps[..0] == [];
    }
  }
}
