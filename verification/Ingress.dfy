/** Process-local evidence between socket receipt and completed consumption. Identities that
    the program allocates with `Arc::new(())` are numbers handed out by a `TokenSource`. */
module Ingress {
  import opened Common

  type Token = nat

  class TokenSource {
    var next: Token

    constructor ()
      ensures next == 0
    {
      next := 0;
    }

    method Fresh() returns (t: Token)
      modifies this
      ensures t == old(next) && next == old(next) + 1
    {
      t := next;
      next := next + 1;
    }
  }

  /** `sent` and `acknowledged` count account frames only, and are bookkeeping: nothing reads
      them to decide anything. */
  datatype Monitor = Monitor(
    epoch: Token, pending: nat, outstanding: nat, failed: bool, completed: bool, admitted: nat,
    sent: nat, acknowledged: nat)

  function NewMonitor(token: Token): Monitor {
    Monitor(token, 0, 0, false, false, 0, 0, 0)
  }

  datatype IngressError = Failed | Pending | Changed | Closed

  /** A frame is registered at invocation, before it waits for a permit or a queue slot. */
  function Send(m: Monitor, account: bool, token: Token): Monitor {
    if m.completed then m.(failed := true)
    else if account then
      m.(outstanding := m.outstanding + 1, pending := m.pending + 1, epoch := token, sent := m.sent + 1)
    else m.(outstanding := m.outstanding + 1)
  }

  /** There is an unsettled obligation of this kind; account ones are the pending ones. */
  predicate HasObligation(outstanding: nat, pending: nat, account: bool) {
    if account then 0 < pending && 0 < outstanding else pending < outstanding
  }

  /** A processing obligation ends, acknowledged or dropped. */
  function Settle(m: Monitor, account: bool, acknowledged: bool): Monitor
    requires HasObligation(m.outstanding, m.pending, account)
  {
    m.(failed := m.failed || !acknowledged,
       outstanding := m.outstanding - 1,
       pending := if account then m.pending - 1 else m.pending,
       acknowledged := if account && acknowledged then m.acknowledged + 1 else m.acknowledged)
  }

  /** The consumer finishes. A completion that is refused drops the receiver, which fails. */
  function Complete(m: Monitor, drained: bool): Monitor {
    if !m.failed && drained && m.outstanding == 0 then m.(completed := true) else m.(failed := true)
  }

  function AdmitError(m: Monitor, observed: Token): Option<IngressError> {
    if m.failed then Some(Failed)
    else if m.completed then Some(Closed)
    else if m.pending != 0 then Some(Pending)
    else if m.epoch != observed then Some(Changed)
    else None
  }

  predicate ReplacementEligible(m: Monitor) {
    m.completed && !m.failed && m.outstanding == 0
  }

  class IngressMonitor {
    const tokens: TokenSource
    var epoch: Token
    var pending: nat
    var outstanding: nat
    var failed: bool
    var completed: bool
    var admitted: nat
    ghost var sent: nat
    ghost var acknowledged: nat

    ghost function View(): Monitor
      reads this
    {
      Monitor(epoch, pending, outstanding, failed, completed, admitted, sent, acknowledged)
    }

    /** The observation in force was handed out before, so no later one can equal it. */
    ghost predicate Valid()
      reads this, tokens
    {
      epoch < tokens.next
    }

    constructor (tokens: TokenSource)
      modifies tokens
      ensures Valid() && View() == NewMonitor(old(tokens.next)) && this.tokens == tokens
      ensures tokens.next == old(tokens.next) + 1
    {
      this.tokens := tokens;
      epoch := tokens.next;
      pending, outstanding, failed, completed, admitted := 0, 0, false, false, 0;
      sent, acknowledged := 0, 0;
      new;
      var t := tokens.Fresh();
    }

    method Register(account: bool) returns (delivered: bool)
      requires Valid()
      modifies this, tokens
      ensures Valid() && View() == Send(old(View()), account, old(tokens.next))
      ensures tokens.next == old(tokens.next) + (if account && delivered then 1 else 0)
      ensures (epoch != old(epoch)) == (account && delivered)
      ensures failed == (old(failed) || old(completed)) && completed == old(completed) && admitted == old(admitted)
      ensures outstanding == old(outstanding) + (if delivered then 1 else 0)
      ensures pending == old(pending) + (if account && delivered then 1 else 0)
      ensures delivered == !old(completed)
    {
      delivered := !completed;
      if completed {
        failed := true;
        return;
      }
      outstanding := outstanding + 1;
      if account {
        pending, sent := pending + 1, sent + 1;
        epoch := tokens.Fresh();
      }
    }

    method EndObligation(account: bool, acked: bool)
      requires Valid() && admitted == 0 && HasObligation(outstanding, pending, account)
      modifies this
      ensures Valid() && View() == Settle(old(View()), account, acked)
      ensures failed == (old(failed) || !acked) && outstanding == old(outstanding) - 1
      ensures pending == old(pending) - (if account then 1 else 0) && epoch == old(epoch)
    {
      if !acked {
        failed := true;
      }
      outstanding := outstanding - 1;
      if account {
        pending := pending - 1;
        acknowledged := if acked then acknowledged + 1 else acknowledged;
      }
    }

    method Finish(drained: bool) returns (ok: bool)
      requires Valid() && admitted == 0
      modifies this
      ensures Valid() && View() == Complete(old(View()), drained) && ok == (completed && !failed)
      ensures ok <==> drained && !old(failed) && old(outstanding) == 0
      ensures if ok then completed && !failed && outstanding == 0 else failed && completed == old(completed)
    {
      ok := false;
      if failed || !drained || outstanding != 0 {
        failed := true;
      } else {
        completed := true;
        ok := true;
      }
    }

    method Admit(observed: Token) returns (r: Option<IngressError>)
      modifies this`admitted
      ensures r == AdmitError(old(View()), observed)
      ensures r.None? <==> !failed && !completed && pending == 0 && epoch == observed
      ensures r == Some(Failed) <==> failed
      ensures r == Some(Closed) <==> !failed && completed
      ensures r == Some(Pending) <==> !failed && !completed && pending != 0
      ensures View() == old(View()).(admitted := if r.None? then old(admitted) + 1 else old(admitted))
    {
      if failed {
        return Some(Failed);
      }
      if completed {
        return Some(Closed);
      }
      if pending != 0 {
        return Some(Pending);
      }
      if epoch != observed {
        return Some(Changed);
      }
      admitted := admitted + 1;
      r := None;
    }
  }
}
