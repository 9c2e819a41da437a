/** The feed session: whether the account is caught up, and whether a snapshot may be acted on. */
module Feed {
  import opened Common
  import opened Ingress

  datatype Scope = Scope(network: nat, account: string)
  datatype Receipt = Receipt(initialWindow: bool, scope: Scope, ledger: Token)

  /** Snapshot provenance: the session's epoch and the ingress observation it was taken at. */
  datatype Stamp = Stamp(epoch: Token, ingress: Option<Token>)

  /** The session's state, over whatever identifies an ingress monitor. */
  datatype Inner<M> = Inner(
    epoch: Token, ingress: Option<M>, scope: Option<Scope>, lastTick: Option<nat>,
    reconciled: bool, failure: Option<string>, fillWalk: Option<Receipt>, ledger: Option<Token>)

  function Unseen<M>(token: Token): Inner<M> {
    Inner(token, None, None, None, false, None, None, None)
  }

  function Ticked(last: Option<nat>, at: nat): Option<nat> {
    Some(if last.Some? && last.value > at then last.value else at)
  }

  /** `t` is the later of `at` and the last tick, if there was one. */
  predicate IsGreatest(t: nat, last: Option<nat>, at: nat) {
    && at <= t && (last.Some? ==> last.value <= t)
    && (t == at || last == Some(t))
  }

  function BindScope<M>(s: Inner<M>, scope: Scope, token: Token): (Inner<M>, bool) {
    match s.scope
    case Some(bound) => (s, bound == scope)
    case None => (s.(scope := Some(scope), reconciled := false, epoch := token), true)
  }

  /** Only a cleanly completed consumer may be replaced; an attempt to replace any other
      still un-reconciles the session. */
  function BindMonitor<M(==)>(s: Inner<M>, m: M, oldEligible: bool, token: Token): (Inner<M>, bool) {
    if s.ingress == Some(m) then (s, true)
    else
      var s' := s.(epoch := token, reconciled := false);
      if s.ingress.Some? && !oldEligible then (s', false)
      else (s'.(ingress := Some(m), fillWalk := None), true)
  }

  /** Only a monitor that is done, healthy and with nothing outstanding gives way to another, and a
      refused attempt leaves the binding and the walk it was made under alone. */
  lemma BindMonitorExact<M>(s: Inner<M>, m: M, was: Monitor, token: Token)
    ensures var (r, ok) := BindMonitor(s, m, ReplacementEligible(was), token);
            && (ok <==> s.ingress.None? || s.ingress.value == m
                        || (was.completed && !was.failed && was.outstanding == 0))
            && r.ingress == (if ok then Some(m) else s.ingress)
            && r.fillWalk == (if ok && s.ingress != Some(m) then None else s.fillWalk)
            && (s.ingress == Some(m) ==> r == s)
            && (s.ingress != Some(m) ==> r.epoch == token && !r.reconciled)
            && r.scope == s.scope && r.ledger == s.ledger && r.failure == s.failure && r.lastTick == s.lastTick
  {
  }

  function BindLedger<M>(s: Inner<M>, ledger: Token, token: Token): (Inner<M>, bool) {
    if s.ledger.Some? && s.ledger.value != ledger then (s.(reconciled := false, epoch := token), false)
    else (s.(ledger := Some(ledger)), true)
  }

  function Walked<M>(s: Inner<M>, stamp: Stamp, now: Stamp, receipt: Receipt): Inner<M> {
    if stamp == now && receipt.initialWindow && s.scope == Some(receipt.scope)
       && s.ledger == Some(receipt.ledger) && s.fillWalk.None?
    then s.(fillWalk := Some(receipt)) else s
  }

  function Reconciled<M>(s: Inner<M>, stamp: Stamp, now: Stamp, at: nat): Inner<M> {
    if stamp != now then s
    else s.(reconciled := s.failure.None?, lastTick := Ticked(s.lastTick, at))
  }

  function Unreconciled<M>(s: Inner<M>, token: Token): Inner<M> {
    s.(reconciled := false, epoch := token)
  }

  function WithFailure<M>(s: Inner<M>, detail: string, token: Token): Inner<M> {
    s.(epoch := token, failure := Some(if s.failure.Some? then s.failure.value else detail),
       reconciled := false)
  }

  /** The session's own half of admission; the bound monitor decides the rest. */
  predicate SessionAdmits<M>(s: Inner<M>, stamp: Option<Stamp>, scope: Scope) {
    && stamp.Some? && stamp.value.epoch == s.epoch
    && s.scope == Some(scope) && s.reconciled && s.failure.None?
    && s.ingress.Some? && stamp.value.ingress.Some?
  }

  /** What an event means to the session. */
  datatype Event = Disconnected | Reconnected(at: nat) | Data(at: nat) | Control
  datatype Action = Nothing | Reconcile

  const INGRESS_FAILED: string := "ingress evidence was abandoned or its lock poisoned"

  class FeedSession {
    const tokens: TokenSource
    var epoch: Token
    var ingress: IngressMonitor?
    var scope: Option<Scope>
    var lastTick: Option<nat>
    var reconciled: bool
    var failure: Option<string>
    var fillWalk: Option<Receipt>
    var ledger: Option<Token>

    ghost function View(): Inner<IngressMonitor>
      reads this
    {
      var bound: Option<IngressMonitor> := if ingress == null then None else Some(ingress);
      Inner(epoch, bound, scope, lastTick, reconciled, failure, fillWalk, ledger)
    }

    function CurrentStamp(): Stamp
      reads this, ingress
    {
      Stamp(epoch, if ingress == null then None else Some(ingress.epoch))
    }

    /** The epoch in force was handed out before, so a new one differs from every earlier one. */
    ghost predicate Valid()
      reads this, tokens, ingress, if ingress == null then {} else {ingress.tokens}
    {
      epoch < tokens.next && (ingress != null ==> ingress.Valid())
    }

    constructor (tokens: TokenSource)
      modifies tokens
      ensures Valid() && View() == Unseen(old(tokens.next)) && this.tokens == tokens
      ensures tokens.next == old(tokens.next) + 1
    {
      this.tokens := tokens;
      epoch := tokens.next;
      ingress, scope, lastTick := null, None, None;
      reconciled, failure, fillWalk, ledger := false, None, None, None;
      new;
      var t := tokens.Fresh();
    }

    /** The published state. The cached flag is believed only while the bound monitor is drained,
        healthy and open; the session's own failure is reported before the monitor's. */
    method State() returns (tick: Option<nat>, caughtUp: bool, problem: Option<string>)
      ensures tick == lastTick
      ensures caughtUp <==> reconciled && ingress != null
                            && ingress.pending == 0 && !ingress.failed && !ingress.completed
      ensures problem.Some? <==> failure.Some? || (ingress != null && ingress.failed)
      ensures failure.Some? ==> problem == failure
      ensures failure.None? && problem.Some? ==>
                problem.value == "ingress evidence was abandoned or its lock poisoned"
    {
      tick := lastTick;
      caughtUp := false;
      problem := failure;
      if ingress != null {
        caughtUp := reconciled && ingress.pending == 0 && !ingress.failed && !ingress.completed;
        if failure.None? && ingress.failed {
          problem := Some(INGRESS_FAILED);
        }
      }
    }

    method Bind(requested: Scope) returns (ok: bool)
      requires Valid()
      modifies this, tokens
      ensures Valid() && (View(), ok) == BindScope(old(View()), requested, old(tokens.next))
      ensures tokens.next == old(tokens.next) + (if old(scope).None? then 1 else 0)
      ensures (epoch != old(epoch)) == old(scope).None?
      ensures ok <==> old(scope).None? || old(scope).value == requested
      ensures scope == (if old(scope).None? then Some(requested) else old(scope))
      ensures reconciled == (old(reconciled) && old(scope).Some?)
    {
      if scope.Some? {
        return scope.value == requested;
      }
      scope, reconciled := Some(requested), false;
      epoch := tokens.Fresh();
      ok := true;
    }

    method BindIngress(m: IngressMonitor) returns (ok: bool)
      requires Valid() && m.Valid()
      modifies this, tokens
      ensures Valid() && tokens.next == old(tokens.next) + (if old(ingress) == m then 0 else 1)
      ensures (epoch != old(epoch)) == (old(ingress) != m)
      ensures (View(), ok) == BindMonitor(old(View()), m,
                old(ingress != null && ReplacementEligible(ingress.View())), old(tokens.next))
      ensures ok <==> old(ingress == null || ingress == m
                          || (ingress.completed && !ingress.failed && ingress.outstanding == 0))
      ensures ingress == (if ok then m else old(ingress))
      ensures fillWalk == (if ok && old(ingress) != m then None else old(fillWalk))
      ensures reconciled == (old(reconciled) && old(ingress) == m)
    {
      if ingress == m {
        return true;
      }
      epoch := tokens.Fresh();
      reconciled := false;
      if ingress != null && !(ingress.completed && !ingress.failed && ingress.outstanding == 0) {
        return false;
      }
      ingress, fillWalk := m, None;
      ok := true;
    }

    method RecordFillWalk(stamp: Stamp, receipt: Receipt)
      requires Valid()
      modifies this`fillWalk
      ensures Valid() && View() == Walked(old(View()), stamp, old(CurrentStamp()), receipt)
      ensures fillWalk != old(fillWalk) ==> old(fillWalk).None? && fillWalk == Some(receipt)
      ensures fillWalk != old(fillWalk) <==>
                && old(fillWalk).None? && stamp == CurrentStamp() && receipt.initialWindow
                && scope == Some(receipt.scope) && ledger == Some(receipt.ledger)
    {
      if stamp == CurrentStamp() && receipt.initialWindow && scope == Some(receipt.scope)
         && ledger == Some(receipt.ledger) && fillWalk.None? {
        fillWalk := Some(receipt);
      }
    }

    method AttachLedger(identity: Token) returns (ok: bool)
      requires Valid()
      modifies this, tokens
      ensures Valid() && (View(), ok) == BindLedger(old(View()), identity, old(tokens.next))
      ensures tokens.next == old(tokens.next) + (if ok then 0 else 1)
      ensures (epoch != old(epoch)) == !ok
      ensures ok <==> old(ledger).None? || old(ledger).value == identity
      ensures ledger == (if ok then Some(identity) else old(ledger)) && reconciled == (old(reconciled) && ok)
    {
      if ledger.Some? && ledger.value != identity {
        reconciled := false;
        epoch := tokens.Fresh();
        return false;
      }
      ledger := Some(identity);
      ok := true;
    }

    method Admit(stamp: Option<Stamp>, requested: Scope) returns (ok: bool)
      requires Valid()
      modifies ingress
      ensures Valid() && View() == old(View())
      ensures ok <==> old(SessionAdmits(View(), stamp, requested)
                          && AdmitError(ingress.View(), stamp.value.ingress.value).None?)
      ensures old(ingress) != null ==>
                old(ingress).View() == old(ingress.View())
                  .(admitted := if ok then old(ingress.admitted) + 1 else old(ingress.admitted))
    {
      if !(stamp.Some? && stamp.value.epoch == epoch) || scope != Some(requested)
         || !reconciled || failure.Some? {
        return false;
      }
      if ingress == null || stamp.value.ingress.None? {
        return false;
      }
      var refused := ingress.Admit(stamp.value.ingress.value);
      ok := refused.None?;
    }

    method MarkReconciled(stamp: Stamp, at: nat)
      requires Valid()
      modifies this`reconciled, this`lastTick
      ensures Valid() && View() == Reconciled(old(View()), stamp, old(CurrentStamp()), at)
      ensures stamp != CurrentStamp() ==> View() == old(View())
      ensures stamp == CurrentStamp() ==>
                reconciled == failure.None? && lastTick.Some? && IsGreatest(lastTick.value, old(lastTick), at)
    {
      if stamp != CurrentStamp() {
        return;
      }
      reconciled := failure.None?;
      lastTick := Some(match lastTick case None => at case Some(last) => if last > at then last else at);
    }

    method MarkUnreconciled() returns (stamp: Stamp)
      requires Valid()
      modifies this, tokens
      ensures Valid() && tokens.next == old(tokens.next) + 1 && epoch != old(epoch)
      ensures View() == Unreconciled(old(View()), old(tokens.next)) && stamp == CurrentStamp()
    {
      reconciled := false;
      epoch := tokens.Fresh();
      stamp := CurrentStamp();
    }

    method RecordFailure(detail: string)
      requires Valid()
      modifies this, tokens
      ensures Valid() && tokens.next == old(tokens.next) + 1 && epoch != old(epoch)
      ensures !reconciled && failure == Some(if old(failure).Some? then old(failure).value else detail)
      ensures View() == WithFailure(old(View()), detail, old(tokens.next))
    {
      epoch := tokens.Fresh();
      failure := Some(if failure.Some? then failure.value else detail);
      reconciled := false;
    }

    method Tick(at: nat)
      requires Valid()
      modifies this`lastTick
      ensures Valid() && View() == old(View()).(lastTick := Ticked(old(lastTick), at))
      ensures lastTick.Some? && IsGreatest(lastTick.value, old(lastTick), at)
    {
      lastTick := Some(match lastTick case None => at case Some(last) => if last > at then last else at);
    }

    /** Fold one event in. A reconnect asks for a reconcile; it does not clear the flag. */
    method ApplyEvent(event: Event) returns (action: Action)
      requires Valid()
      modifies this, tokens
      ensures Valid() && tokens.next == old(tokens.next) + (if event.Disconnected? then 1 else 0)
      ensures (epoch != old(epoch)) == event.Disconnected?
      ensures match event
              case Disconnected => View() == Unreconciled(old(View()), old(tokens.next)) && action == Nothing
              case Reconnected(at) => View() == old(View()).(lastTick := Ticked(old(lastTick), at)) && action == Reconcile
              case Data(at) => View() == old(View()).(lastTick := Ticked(old(lastTick), at)) && action == Nothing
              case Control => View() == old(View()) && action == Nothing
    {
      action := Nothing;
      match event
      case Disconnected => var _ := MarkUnreconciled();
      case Reconnected(at) => Tick(at); action := Reconcile;
      case Data(at) => Tick(at);
      case Control =>
    }
  }
}
