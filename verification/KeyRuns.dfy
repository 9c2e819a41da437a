/** Every run of the wallet store: any number of agents and operations, one backend call at a
    time, with a crash possible between any two calls and, where stated, the record entry
    edited from outside at any moment. Operations exclude each other, as the wallet lock makes
    them; loads do not take the lock and may fall between any two calls. */
module KeyRuns {
  import opened Common
  import opened KeyNames
  import opened KeyStore

  datatype Op =
    | Create(agent: string, keyText: string, validUntil: nat, now: nat)
    | Rotate(agent: string, keyText: string, validUntil: nat, now: nat)
    | Delete(agent: string)

  /** The operation holding the lock, and how many of its backend calls have been made. */
  datatype Job = Idle | Installing(install: Install, made: nat) | Sweeping(agent: string, made: nat)

  /** `installed` lists the addresses of all record writes so far, oldest first. */
  datatype Sys = Sys(store: Store, job: Job, installed: seq<string>)

  datatype Step = Begin(op: Op) | Call | Crash | Edit(agent: string, value: Value)

  function Start(m: Store, derive: Derive, op: Op): Job {
    match op
    case Create(a, k, v, n) =>
      (match PlanCreate(m, derive, a, k, v, n) case Err(_) => Idle case Ok(i) => Installing(i, 0))
    case Rotate(a, k, v, n) =>
      (match PlanRotate(m, derive, a, k, v, n) case Err(_) => Idle case Ok(i) => Installing(i, 0))
    case Delete(a) => if Checked(a) then Sweeping(a, 0) else Idle
  }

  function Next(s: Sys, derive: Derive, step: Step): Sys {
    match step
    case Begin(op) => if s.job.Idle? then s.(job := Start(s.store, derive, op)) else s
    case Crash => s.(job := Idle)
    case Edit(a, v) => s.(store := s.store[RecordSlot(a) := v])
    case Call => MakeCall(s)
  }

  function MakeCall(s: Sys): Sys {
    match s.job
    case Idle => s
    case Installing(i, k) =>
      if k >= 3 then s.(job := Idle)
      else Sys(Apply(s.store, Actions(i)[k]),
               if k == 2 then Idle else Installing(i, k + 1),
               if k == 2 then s.installed + [i.wallet.address] else s.installed)
    case Sweeping(a, k) =>
      if k >= |Sweep(a)| then s.(job := Idle)
      else s.(store := Apply(s.store, Sweep(a)[k]),
              job := if k + 1 == |Sweep(a)| then Idle else Sweeping(a, k + 1))
  }

  function Run(s: Sys, derive: Derive, steps: seq<Step>): Sys {
    if steps == [] then s else Next(Run(s, derive, steps[..|steps| - 1]), derive, steps[|steps| - 1])
  }

  /** `n` backend calls in a row. */
  function Calls(n: nat): (r: seq<Step>)
    ensures |r| == n && forall i :: 0 <= i < n ==> r[i] == Call
  {
    seq(n, _ => Call)
  }

  /** The component's writes are the transition system's: `k` calls into an installation the
      store is what performing the first `k` planned actions makes it. */
  lemma {:induction false} CallsInstall(s: Sys, derive: Derive, i: Install, k: nat)
    requires s.job == Installing(i, 0) && k <= 3
    ensures Run(s, derive, Calls(k)).store == Perform(s.store, Actions(i)[..k])
    ensures Run(s, derive, Calls(k)).job == if k == 3 then Idle else Installing(i, k)
    decreases k
  {
    if k == 0 {
      assert Actions(i)[..0] == [];
    } else {
      CallsInstall(s, derive, i, k - 1);
      assert Calls(k)[..k - 1] == Calls(k - 1);
      PerformSnoc(s.store, Actions(i), k - 1);
    }
  }

  lemma {:induction false} CallsSweep(s: Sys, derive: Derive, agent: string, k: nat)
    requires s.job == Sweeping(agent, 0) && k <= |Sweep(agent)|
    ensures Run(s, derive, Calls(k)).store == Perform(s.store, Sweep(agent)[..k])
    ensures Run(s, derive, Calls(k)).job == if k == |Sweep(agent)| then Idle else Sweeping(agent, k)
    decreases k
  {
    hide Sweep;
    hide Apply;
    SweepLength(agent);
    if k == 0 {
      assert Sweep(agent)[..0] == [];
    } else {
      CallsSweep(s, derive, agent, k - 1);
      assert Calls(k)[..k - 1] == Calls(k - 1);
      PerformSnoc(s.store, Sweep(agent), k - 1);
    }
  }

  const EMPTY: Sys := Sys(map[], Idle, [])

  // ---- an address is installed at most once ----------------------------------------------------

  ghost predicate Once(s: Sys) {
    && (forall i, j :: 0 <= i < j < |s.installed| ==> s.installed[i] != s.installed[j])
    && (forall i :: 0 <= i < |s.installed| ==> MarkSlot(s.installed[i]) in s.store)
    && (s.job.Installing? ==>
          var x := s.job.install.wallet.address;
          if s.job.made == 0 then MarkSlot(x) !in s.store
          else MarkSlot(x) in s.store && x !in s.installed)
  }

  lemma StartsFresh(m: Store, derive: Derive, op: Op)
    ensures var job := Start(m, derive, op);
            job.Installing? ==>
              && job.made == 0 && MarkSlot(job.install.wallet.address) !in m
              && Checked(job.install.agent)
              && job.install.wallet.generation <= MAX_GENERATION
              && derive(job.install.key) == Some(job.install.wallet.address)
              && match ReadWallet(m, job.install.agent)
                 case Ok(None) => true
                 case Ok(Some(w)) => w.generation < job.install.wallet.generation
                 case Err(_) => false
  {
    hide NormalizeKey;
    hide Checked;
  }

  lemma StepKeepsOnce(s: Sys, derive: Derive, step: Step)
    requires Once(s)
    ensures Once(Next(s, derive, step))
  {
    hide Start;
    if step.Begin? {
      StartsFresh(s.store, derive, step.op);
    }
  }

  /** In every run — crashes, deletions, re-creations under any id, and edited records
      included — no address is ever named by two record writes. */
  lemma {:induction false} AddressInstalledAtMostOnce(derive: Derive, steps: seq<Step>)
    ensures Once(Run(EMPTY, derive, steps))
    ensures var done := Run(EMPTY, derive, steps).installed;
            forall i, j :: 0 <= i < j < |done| ==> done[i] != done[j]
    decreases |steps|
  {
    hide Next;
    if steps != [] {
      var n := |steps| - 1;
      AddressInstalledAtMostOnce(derive, steps[..n]);
      StepKeepsOnce(Run(EMPTY, derive, steps[..n]), derive, steps[n]);
    }
  }

  // ---- record and key always agree ---------------------------------------------------------------

  /** The record can be loaded: its generation's key is present and derives its address. */
  ghost predicate Loadable(m: Store, derive: Derive, agent: string) {
    && RecordSlot(agent) in m && m[RecordSlot(agent)].Record?
    && var w := m[RecordSlot(agent)].wallet;
       && w.generation <= MAX_GENERATION
       && KeySlot(agent, w.generation) in m
       && m[KeySlot(agent, w.generation)].Secret?
       && derive(m[KeySlot(agent, w.generation)].hex) == Some(w.address)
  }

  ghost predicate Agree(s: Sys, derive: Derive) {
    && (forall a :: RecordSlot(a) in s.store ==> Checked(a) && Loadable(s.store, derive, a))
    && match s.job
       case Idle => true
       case Installing(i, k) =>
         var w := i.wallet;
         && k < 3 && Checked(i.agent)
         && w.generation <= MAX_GENERATION && derive(i.key) == Some(w.address)
         && (RecordSlot(i.agent) in s.store ==> s.store[RecordSlot(i.agent)].wallet.generation < w.generation)
         && (k == 2 ==> KeySlot(i.agent, w.generation) in s.store
                        && s.store[KeySlot(i.agent, w.generation)] == Secret(i.key))
       case Sweeping(a, k) => k < |Sweep(a)| && (k > 0 ==> RecordSlot(a) !in s.store)
  }

  lemma CallKeepsAgree(s: Sys, derive: Derive)
    requires Agree(s, derive)
    ensures Agree(MakeCall(s), derive)
  {
    hide Checked;
    hide Sweep;
    var r := MakeCall(s);
    match s.job
    case Idle =>
    case Installing(i, k) =>
      forall a | RecordSlot(a) in r.store ensures Checked(a) && Loadable(r.store, derive, a) {
        if !(k == 2 && a == i.agent) {
          assert Loadable(s.store, derive, a);
        }
      }
    case Sweeping(b, k) =>
      SweepStep(b, k);
      forall a | RecordSlot(a) in r.store ensures Checked(a) && Loadable(r.store, derive, a) {
        assert Loadable(s.store, derive, a);
      }
  }

  lemma StepKeepsAgree(s: Sys, derive: Derive, step: Step)
    requires Agree(s, derive) && !step.Edit?
    ensures Agree(Next(s, derive, step), derive)
  {
    hide Checked;
    hide Start;
    hide MakeCall;
    match step
    case Begin(op) =>
      StartsFresh(s.store, derive, op);
      StartsAtZero(s.store, derive, op);
    case Call => CallKeepsAgree(s, derive);
    case Crash =>
  }

  lemma StartsAtZero(m: Store, derive: Derive, op: Op)
    ensures !Start(m, derive, op).Idle? ==> Start(m, derive, op).made == 0
  {
    hide Checked;
  }

  ghost predicate NoEdits(steps: seq<Step>) {
    forall i :: 0 <= i < |steps| ==> !steps[i].Edit?
  }

  /** In every reachable state, crashed and half-finished ones included, a stored record's
      generation has a key that derives the recorded address, so loading it succeeds. */
  lemma {:induction false} RecordAndKeyAlwaysAgree(derive: Derive, steps: seq<Step>, agent: string)
    requires NoEdits(steps)
    ensures Agree(Run(EMPTY, derive, steps), derive)
    ensures var m := Run(EMPTY, derive, steps).store;
            RecordSlot(agent) in m ==>
              && RequireWallet(m, agent).Ok?
              && LoadKey(m, derive, agent, RequireWallet(m, agent).value).Ok?
    decreases |steps|
  {
    hide Next;
    hide Checked;
    if steps != [] {
      var n := |steps| - 1;
      RecordAndKeyAlwaysAgree(derive, steps[..n], agent);
      StepKeepsAgree(Run(EMPTY, derive, steps[..n]), derive, steps[n]);
    }
  }

  // ---- a load may straddle any number of rotations ------------------------------------------------

  ghost predicate Pinned(s: Sys, derive: Derive, agent: string, w: AgentWallet, key: string) {
    && Agree(s, derive)
    && RecordSlot(agent) in s.store && w.generation <= s.store[RecordSlot(agent)].wallet.generation
    && KeySlot(agent, w.generation) in s.store && s.store[KeySlot(agent, w.generation)] == Secret(key)
    && derive(key) == Some(w.address)
    && !(s.job.Sweeping? && s.job.agent == agent)
  }

  /** No step deletes the agent, and none edits a record. */
  ghost predicate Spares(steps: seq<Step>, agent: string) {
    forall i :: 0 <= i < |steps| ==> !steps[i].Edit? && steps[i] != Begin(Delete(agent))
  }

  lemma StepKeepsPinned(s: Sys, derive: Derive, step: Step, agent: string, w: AgentWallet, key: string)
    requires Pinned(s, derive, agent, w, key) && !step.Edit? && step != Begin(Delete(agent))
    ensures Pinned(Next(s, derive, step), derive, agent, w, key)
  {
    hide Checked;
    hide Sweep;
    hide NormalizeKey;
    StepKeepsAgree(s, derive, step);
    if step.Call? && s.job.Sweeping? {
      SweepStep(s.job.agent, s.job.made);
    }
  }

  lemma {:induction false} RunKeepsPinned(s: Sys, derive: Derive, steps: seq<Step>, agent: string, w: AgentWallet, key: string)
    requires Pinned(s, derive, agent, w, key) && Spares(steps, agent)
    ensures Pinned(Run(s, derive, steps), derive, agent, w, key)
    decreases |steps|
  {
    hide Next;
    hide Pinned;
    if steps != [] {
      var n := |steps| - 1;
      RunKeepsPinned(s, derive, steps[..n], agent, w, key);
      StepKeepsPinned(Run(s, derive, steps[..n]), derive, steps[n], agent, w, key);
    }
  }

  /** A load reads the record, then the key. Whatever happens in between short of deleting
      that agent — any number of rotations, finished or crashed, of it and of others — the
      second read still finds the key of the record the first one read. */
  lemma LoadSurvivesRotations(derive: Derive, before: seq<Step>, between: seq<Step>, agent: string)
    requires NoEdits(before) && Spares(between, agent)
    requires var s := Run(EMPTY, derive, before);
             RecordSlot(agent) in s.store && !(s.job.Sweeping? && s.job.agent == agent)
    ensures var s := Run(EMPTY, derive, before);
            && RequireWallet(s.store, agent).Ok?
            && var w := RequireWallet(s.store, agent).value;
               && LoadKey(s.store, derive, agent, w).Ok?
               && LoadKey(Run(s, derive, between).store, derive, agent, w) == LoadKey(s.store, derive, agent, w)
  {
    hide Checked;
    hide Run;
    var s := Run(EMPTY, derive, before);
    RecordAndKeyAlwaysAgree(derive, before, agent);
    var w := RequireWallet(s.store, agent).value;
    var key := LoadKey(s.store, derive, agent, w).value;
    RunKeepsPinned(s, derive, between, agent, w, key);
  }

  // ---- revocation is exact -----------------------------------------------------------------------

  ghost predicate Bounded(s: Sys) {
    && (forall a, g: nat :: KeySlot(a, g) in s.store ==> g <= MAX_GENERATION)
    && (s.job.Installing? ==> s.job.install.wallet.generation <= MAX_GENERATION)
  }

  lemma StepKeepsBounded(s: Sys, derive: Derive, step: Step)
    requires Bounded(s)
    ensures Bounded(Next(s, derive, step))
  {
    hide Checked;
    hide Start;
    if step.Begin? {
      StartsFresh(s.store, derive, step.op);
    }
    if step.Call? && s.job.Sweeping? && s.job.made < |Sweep(s.job.agent)| {
      SweepStep(s.job.agent, s.job.made);
    }
  }

  /** No write ever passes `MAX_GENERATION`, whatever records were edited to. */
  lemma {:induction false} GenerationsAreBounded(derive: Derive, steps: seq<Step>)
    ensures Bounded(Run(EMPTY, derive, steps))
    decreases |steps|
  {
    hide Next;
    if steps != [] {
      var n := |steps| - 1;
      GenerationsAreBounded(derive, steps[..n]);
      StepKeepsBounded(Run(EMPTY, derive, steps[..n]), derive, steps[n]);
    }
  }

  ghost predicate Swept(slot: Slot, agent: string, n: nat) {
    && n > 0
    && (slot == RecordSlot(agent) || (slot.KeySlot? && slot.agent == agent && slot.generation < n - 1))
  }

  /** The first `n` calls of a sweep remove exactly the record and generations below `n - 1`. */
  lemma {:induction false} SweepPrefix(m: Store, agent: string, n: nat)
    requires n <= |Sweep(agent)|
    ensures forall slot :: slot in Perform(m, Sweep(agent)[..n]) <==> slot in m && !Swept(slot, agent, n)
    ensures forall slot :: slot in Perform(m, Sweep(agent)[..n]) ==> Perform(m, Sweep(agent)[..n])[slot] == m[slot]
  {
    hide Sweep;
    if n > 0 {
      SweepPrefix(m, agent, n - 1);
      PerformSnoc(m, Sweep(agent), n - 1);
      SweepStep(agent, n - 1);
    }
  }

  /** An uninterrupted sweep of any reachable store removes the record and every key of the
      agent and nothing else. */
  lemma SweepIsExact(derive: Derive, steps: seq<Step>, agent: string)
    ensures var m := Run(EMPTY, derive, steps).store; var after := Perform(m, Sweep(agent));
            && (forall g: nat :: KeySlot(agent, g) !in after) && RecordSlot(agent) !in after
            && (forall slot :: !Owned(slot, agent) ==>
                  && (slot in after <==> slot in m)
                  && (slot in m ==> after[slot] == m[slot]))
  {
    hide Sweep;
    hide Perform;
    hide Run;
    var m, n := Run(EMPTY, derive, steps).store, |Sweep(agent)|;
    GenerationsAreBounded(derive, steps);
    SweepPrefix(m, agent, n);
    assert Sweep(agent)[..n] == Sweep(agent);
    SweepLength(agent);
  }

  /** The entries that exist for one agent: its record and its keys. */
  predicate Owned(slot: Slot, agent: string) {
    slot == RecordSlot(agent) || (slot.KeySlot? && slot.agent == agent)
  }

  /** Some step writes the slot from outside. */
  ghost predicate EditsSlot(steps: seq<Step>, slot: Slot) {
    exists i :: 0 <= i < |steps| && steps[i].Edit? && RecordSlot(steps[i].agent) == slot
  }

  /** The sweep of `agent` is in progress before each of these steps. */
  ghost predicate SweepsThrough(s: Sys, derive: Derive, steps: seq<Step>, agent: string) {
    forall n :: 0 <= n < |steps| ==>
      Run(s, derive, steps[..n]).job.Sweeping? && Run(s, derive, steps[..n]).job.agent == agent
  }

  /** What a sweep has done to the store `m` after `made` calls, among the outside edits of
      `steps`: keys of the generations passed are gone and no edit can bring one back. */
  ghost predicate SweptUpTo(m: Store, r: Store, steps: seq<Step>, agent: string, made: nat) {
    && (forall g: nat :: g + 1 < made ==> KeySlot(agent, g) !in r)
    && (made > 0 && !EditsSlot(steps, RecordSlot(agent)) ==> RecordSlot(agent) !in r)
    && (forall slot :: !Owned(slot, agent) && !EditsSlot(steps, slot) ==>
          (slot in r <==> slot in m) && (slot in m ==> r[slot] == m[slot]))
  }

  function MadeBy(job: Job, agent: string): nat {
    if job.Sweeping? then job.made else |Sweep(agent)|
  }

  lemma SweepCallAdvances(m: Store, s: Sys, steps: seq<Step>, agent: string)
    requires s.job.Sweeping? && s.job.agent == agent && s.job.made < |Sweep(agent)|
    requires SweptUpTo(m, s.store, steps, agent, s.job.made)
    ensures SweptUpTo(m, MakeCall(s).store, steps, agent, s.job.made + 1)
    ensures MadeBy(MakeCall(s).job, agent) == s.job.made + 1
  {
    hide Sweep;
    hide EditsSlot;
    SweepStep(agent, s.job.made);
  }

  lemma SweepStepAdvances(m: Store, s: Sys, derive: Derive, steps: seq<Step>, i: nat, agent: string)
    requires s.job.Sweeping? && s.job.agent == agent && s.job.made < |Sweep(agent)|
    requires i < |steps| && !steps[i].Crash? && SweptUpTo(m, s.store, steps, agent, s.job.made)
    ensures var r := Next(s, derive, steps[i]);
            && SweptUpTo(m, r.store, steps, agent, MadeBy(r.job, agent))
            && (r.job.Sweeping? ==> r.job.agent == agent && r.job.made < |Sweep(agent)|)
            && (r.job.Idle? ==> steps[i].Call?) && !r.job.Installing?
  {
    hide Sweep;
    hide SweptUpTo;
    if steps[i].Call? {
      SweepCallAdvances(m, s, steps, agent);
    } else if steps[i].Edit? {
      EditKeepsSwept(m, s.store, steps, i, agent, s.job.made);
    }
  }

  lemma EditKeepsSwept(m: Store, r: Store, steps: seq<Step>, i: nat, agent: string, made: nat)
    requires i < |steps| && steps[i].Edit? && SweptUpTo(m, r, steps, agent, made)
    ensures SweptUpTo(m, r[RecordSlot(steps[i].agent) := steps[i].value], steps, agent, made)
  {
    assert EditsSlot(steps, RecordSlot(steps[i].agent));
  }

  lemma {:induction false} SweepRunAdvances(s: Sys, derive: Derive, steps: seq<Step>, n: nat, agent: string)
    requires n <= |steps| && s.job == Sweeping(agent, 0) && SweepsThrough(s, derive, steps, agent)
    requires forall i :: 0 <= i < |steps| ==> !steps[i].Crash?
    ensures var r := Run(s, derive, steps[..n]);
            && SweptUpTo(s.store, r.store, steps, agent, MadeBy(r.job, agent)) && !r.job.Installing?
            && (r.job.Sweeping? ==> r.job.agent == agent && r.job.made < |Sweep(agent)|)
  {
    hide Sweep;
    hide SweptUpTo;
    hide Next;
    SweepLength(agent);
    if n == 0 {
      assert steps[..0] == [];
      NothingSwept(s.store, steps, agent);
    } else {
      SweepRunAdvances(s, derive, steps, n - 1, agent);
      assert steps[..n][..n - 1] == steps[..n - 1];
      SweepStepAdvances(s.store, Run(s, derive, steps[..n - 1]), derive, steps, n - 1, agent);
    }
  }

  lemma NothingSwept(m: Store, steps: seq<Step>, agent: string)
    ensures SweptUpTo(m, m, steps, agent, 0)
  {
  }

  lemma {:induction false} RunKeepsBounded(s: Sys, derive: Derive, steps: seq<Step>)
    requires Bounded(s)
    ensures Bounded(Run(s, derive, steps))
    decreases |steps|
  {
    hide Next;
    hide Bounded;
    if steps != [] {
      var n := |steps| - 1;
      RunKeepsBounded(s, derive, steps[..n]);
      StepKeepsBounded(Run(s, derive, steps[..n]), derive, steps[n]);
    }
  }

  /** Revocation is exact, over runs. Let a delete of `agent` begin in any reachable state and
      run to its end, one removal at a time, with records edited to anything before it, during
      it and between any two of its removals. Then no key of any generation of that agent is
      left; its record is gone unless it was edited back in meanwhile; and no other agent's
      entry and no address mark changed, except a record edited from outside. */
  lemma RevocationIsExact(derive: Derive, before: seq<Step>, during: seq<Step>, agent: string)
    requires var s := Run(EMPTY, derive, before);
             && s.job == Sweeping(agent, 0) && SweepsThrough(s, derive, during, agent)
             && Run(s, derive, during).job.Idle?
    requires forall i :: 0 <= i < |during| ==> !during[i].Crash?
    ensures var m := Run(EMPTY, derive, before).store;
            var after := Run(Run(EMPTY, derive, before), derive, during).store;
            && (forall g: nat :: KeySlot(agent, g) !in after)
            && (!EditsSlot(during, RecordSlot(agent)) ==> RecordSlot(agent) !in after)
            && (forall slot :: !Owned(slot, agent) && !EditsSlot(during, slot) ==>
                  && (slot in after <==> slot in m)
                  && (slot in m ==> after[slot] == m[slot]))
  {
    hide Sweep;
    hide Run;
    hide SweepsThrough;
    hide EditsSlot;
    var s := Run(EMPTY, derive, before);
    GenerationsAreBounded(derive, before);
    RunKeepsBounded(s, derive, during);
    SweepRunAdvances(s, derive, during, |during|, agent);
    assert during[..|during|] == during;
    SweepLength(agent);
  }

  /** A delete that fails part-way leaves an agent that cannot sign. */
  lemma PartialDeleteCannotSign(m: Store, agent: string, n: nat)
    requires 0 < n <= |Sweep(agent)| && Checked(agent)
    ensures RequireWallet(Perform(m, Sweep(agent)[..n]), agent) == Err(Missing(Account(RecordSlot(agent))))
  {
    hide Sweep;
    hide Perform;
    hide Checked;
    SweepPrefix(m, agent, n);
  }
}
