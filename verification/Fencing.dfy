/** Leases, fencing tokens and the fence: who may write for a partition.

    Engine processes compete for one partition's lease key, draw a fencing token, stamp what
    they emit, and may lose the lease without noticing; the database worker compares tokens.
    Acquiring, drawing, renewing, stamping, publishing and reading are separate steps that
    interleave freely, with time passing in between. */
module Fencing {
  import opened Types

  /** The lease key: absent, or held until a deadline. A lapsed key counts as absent. */
  datatype Lease = Free | Held(owner: Id, until: nat)

  /** Where a process's ownership loop is: competing, holding the lease without a token, or
      consuming commands with one. */
  datatype Phase = Idle | Won(tenure: nat) | Serving(tenure: nat, token: nat)

  datatype Process = Process(phase: Phase, sequence: nat)

  datatype Envelope = Envelope(token: nat, sequence: nat)

  /** One period of ownership, from a successful acquire to release or deadline. `token` is zero
      until one is drawn; `punctual` says it was drawn before the lease lapsed. */
  datatype Tenure = Tenure(process: Id, start: nat, end: nat, token: nat, punctual: bool)

  /** An envelope that passed the fence, with the counter the fence compared it to. */
  datatype Passed = Passed(envelope: Envelope, counter: nat)

  /** `tenures` is history; the lease key and the counter are what Redis stores. */
  datatype Net = Net(
    clock: nat, lease: Lease, counter: nat, processes: map<Id, Process>, tenures: seq<Tenure>,
    stamped: seq<Envelope>, stream: seq<Envelope>, passed: seq<Passed>)

  /** Each process's engine id, which is what it writes into the key, and its time to live. */
  datatype Config = Config(name: Id -> Id, ttl: Id -> nat)

  datatype Step =
    | Tick(d: nat)
    | Acquire(p: Id)
    | Draw(p: Id)
    | LoseDraw(p: Id)
    | GiveUp(p: Id)
    | Renew(p: Id)
    | Stop(p: Id)
    | Restart(p: Id)
    | Stamp(p: Id)
    | Publish(i: nat)
    | Read(i: nat)

  // ---------------------------------------------------------------- the key and the fence

  predicate Live(lease: Lease, clock: nat) { lease.Held? && clock < lease.until }

  predicate Owns(lease: Lease, clock: nat, id: Id) { Live(lease, clock) && lease.owner == id }

  /** Set if absent. */
  function Acquired(lease: Lease, clock: nat, id: Id, ttl: nat): Lease {
    if Live(lease, clock) then lease else Held(id, clock + ttl)
  }

  /** Compare and extend. */
  function Renewed(lease: Lease, clock: nat, id: Id, ttl: nat): Lease {
    if Owns(lease, clock, id) then Held(id, clock + ttl) else lease
  }

  /** Compare and delete. */
  function Released(lease: Lease, clock: nat, id: Id): Lease {
    if Owns(lease, clock, id) then Free else lease
  }

  /** The worker's rule: token zero predates fencing; an older token is stale. */
  predicate Stale(token: nat, current: nat) { token != 0 && token < current }

  // ---------------------------------------------------------------- steps

  function PhaseOf(n: Net, p: Id): Phase { if p in n.processes then n.processes[p].phase else Idle }

  function SeqOf(n: Net, p: Id): nat { if p in n.processes then n.processes[p].sequence else 0 }

  function Enter(n: Net, p: Id, phase: Phase): Net {
    n.(processes := n.processes[p := Process(phase, SeqOf(n, p))])
  }

  /** Moves the end of the current tenure. */
  function EndAt(tenures: seq<Tenure>, time: nat): seq<Tenure> {
    if tenures == [] then tenures
    else tenures[|tenures| - 1 := tenures[|tenures| - 1].(end := time)]
  }

  function LetGo(n: Net, id: Id): Net {
    if !Owns(n.lease, n.clock, id) then n
    else n.(lease := Released(n.lease, n.clock, id), tenures := EndAt(n.tenures, n.clock))
  }

  /** The counter is incremented for tenure `k`. */
  function Drawn(n: Net, k: nat): Net
    requires k < |n.tenures|
  {
    var t := n.tenures[k].(token := n.counter + 1, punctual := n.clock < n.tenures[k].end);
    n.(counter := n.counter + 1, tenures := n.tenures[k := t])
  }

  /** One step; a step that is not enabled changes nothing. `LoseDraw` is a draw whose reply is
      lost: the counter has moved, the process does not know its token and gives the lease back. */
  function Next(c: Config, n: Net, step: Step): Net {
    match step
    case Tick(d) => n.(clock := n.clock + d)
    case Acquire(p) =>
      if !PhaseOf(n, p).Idle? || Live(n.lease, n.clock) then n
      else Enter(n.(lease := Acquired(n.lease, n.clock, c.name(p), c.ttl(p)),
                    tenures := n.tenures + [Tenure(p, n.clock, n.clock + c.ttl(p), 0, false)]),
                 p, Won(|n.tenures|))
    case Draw(p) =>
      if !PhaseOf(n, p).Won? || PhaseOf(n, p).tenure >= |n.tenures| then n
      else
        var k := PhaseOf(n, p).tenure;
        Enter(Drawn(n, k), p, Serving(k, n.counter + 1))
    case LoseDraw(p) =>
      if !PhaseOf(n, p).Won? || PhaseOf(n, p).tenure >= |n.tenures| then n
      else Enter(LetGo(Drawn(n, PhaseOf(n, p).tenure), c.name(p)), p, Idle)
    case GiveUp(p) => if !PhaseOf(n, p).Won? then n else Enter(LetGo(n, c.name(p)), p, Idle)
    case Stop(p) => if !PhaseOf(n, p).Serving? then n else Enter(LetGo(n, c.name(p)), p, Idle)
    case Renew(p) =>
      if !PhaseOf(n, p).Serving? || !Owns(n.lease, n.clock, c.name(p)) then n
      else n.(lease := Renewed(n.lease, n.clock, c.name(p), c.ttl(p)), tenures := EndAt(n.tenures, n.clock + c.ttl(p)))
    case Restart(p) => n.(processes := n.processes[p := Process(Idle, 0)])
    case Stamp(p) =>
      if !PhaseOf(n, p).Serving? then n
      else
        var number := SeqOf(n, p) + 1;
        n.(processes := n.processes[p := Process(PhaseOf(n, p), number)],
           stamped := n.stamped + [Envelope(PhaseOf(n, p).token, number)])
    case Publish(i) => if i >= |n.stamped| then n else n.(stream := n.stream + [n.stamped[i]])
    case Read(i) =>
      if i >= |n.stream| || Stale(n.stream[i].token, n.counter) then n
      else n.(passed := n.passed + [Passed(n.stream[i], n.counter)])
  }

  function Run(c: Config, n: Net, steps: seq<Step>): Net {
    if steps == [] then n else Next(c, Run(c, n, steps[..|steps| - 1]), steps[|steps| - 1])
  }

  const START := Net(0, Free, 0, map[], [], [], [], [])

  // ---------------------------------------------------------------- invariant

  /** Ownership periods follow one another, and the key is the last one while it lasts. */
  ghost predicate TenuresOk(c: Config, n: Net) {
    && (forall i :: 0 <= i < |n.tenures| ==> n.tenures[i].start <= n.clock && n.tenures[i].start <= n.tenures[i].end)
    && (forall i, j :: 0 <= i < j < |n.tenures| ==> n.tenures[i].end <= n.tenures[j].start)
    && (n.lease.Held? ==>
          n.tenures != [] && (
          var last := n.tenures[|n.tenures| - 1];
          last.end == n.lease.until && c.name(last.process) == n.lease.owner))
    && (n.lease.Free? ==> forall i :: 0 <= i < |n.tenures| ==> n.tenures[i].end <= n.clock)
  }

  /** `k` is the latest tenure of `p`. */
  ghost predicate Latest(tenures: seq<Tenure>, p: Id, k: nat) {
    && k < |tenures| && tenures[k].process == p
    && (forall j :: k < j < |tenures| ==> tenures[j].process != p)
  }

  ghost predicate PhaseOk(tenures: seq<Tenure>, p: Id, phase: Phase) {
    match phase
    case Idle => true
    case Won(k) => Latest(tenures, p, k) && tenures[k].token == 0
    case Serving(k, token) => Latest(tenures, p, k) && tenures[k].token == token > 0
  }

  ghost predicate PhasesOk(n: Net) {
    forall p :: p in n.processes ==> PhaseOk(n.tenures, p, n.processes[p].phase)
  }

  ghost predicate TokensOk(n: Net) {
    && (forall i :: 0 <= i < |n.tenures| ==>
          n.tenures[i].token <= n.counter && (n.tenures[i].punctual ==> n.tenures[i].token > 0))
    && (forall i, j :: 0 <= i < j < |n.tenures| && n.tenures[i].token > 0 ==> n.tenures[i].token != n.tenures[j].token)
    && (forall i, j :: 0 <= i < j < |n.tenures| && n.tenures[i].punctual && n.tenures[j].punctual ==>
          n.tenures[i].token < n.tenures[j].token)
  }

  /** The counter is the token of some tenure, and a late draw was for a tenure that is over. */
  ghost predicate DrawsOk(n: Net) {
    && (n.counter > 0 ==> exists k :: 0 <= k < |n.tenures| && n.tenures[k].token == n.counter)
    && (forall i :: 0 <= i < |n.tenures| && n.tenures[i].token > 0 && !n.tenures[i].punctual ==>
          n.tenures[i].end <= n.clock)
  }

  /** A serving process has not run ahead of its sequence numbers. */
  ghost predicate NumbersOk(stamped: seq<Envelope>, proc: Process) {
    proc.phase.Serving? ==>
      forall i :: 0 <= i < |stamped| && stamped[i].token == proc.phase.token ==> stamped[i].sequence <= proc.sequence
  }

  ghost predicate StampsOk(n: Net) {
    && (forall i :: 0 <= i < |n.stamped| ==> 0 < n.stamped[i].token <= n.counter)
    && (forall i, j :: 0 <= i < j < |n.stamped| ==> n.stamped[i] != n.stamped[j])
    && (forall p :: p in n.processes ==> NumbersOk(n.stamped, n.processes[p]))
  }

  ghost predicate ReadsOk(n: Net) {
    && (forall e :: e in n.stream ==> e in n.stamped)
    && (forall i :: 0 <= i < |n.passed| ==>
          n.passed[i].envelope in n.stamped && n.passed[i].envelope.token == n.passed[i].counter <= n.counter)
    && (forall i, j :: 0 <= i < j < |n.passed| ==> n.passed[i].counter <= n.passed[j].counter)
  }

  ghost predicate Unique(c: Config) { forall p, q :: p != q ==> c.name(p) != c.name(q) }

  ghost predicate Inv(c: Config, n: Net) {
    TenuresOk(c, n) && PhasesOk(n) && TokensOk(n) && DrawsOk(n) && StampsOk(n) && ReadsOk(n)
  }

  // ---------------------------------------------------------------- tenures

  lemma LetGoKeepsTenures(c: Config, n: Net, id: Id)
    requires TenuresOk(c, n)
    ensures TenuresOk(c, LetGo(n, id))
  {
  }

  lemma AcquireKeepsTenures(c: Config, n: Net, p: Id)
    requires TenuresOk(c, n)
    ensures TenuresOk(c, Next(c, n, Acquire(p)))
  {
  }

  lemma RenewKeepsTenures(c: Config, n: Net, p: Id)
    requires TenuresOk(c, n)
    ensures TenuresOk(c, Next(c, n, Renew(p)))
  {
  }

  lemma DrawKeepsTenures(c: Config, n: Net, k: nat)
    requires TenuresOk(c, n) && k < |n.tenures|
    ensures TenuresOk(c, Drawn(n, k))
  {
  }

  lemma StepKeepsTenures(c: Config, n: Net, step: Step)
    requires TenuresOk(c, n)
    ensures TenuresOk(c, Next(c, n, step))
  {
    hide LetGo;
    hide EndAt;
    hide Drawn;
    match step
    case Acquire(p) => AcquireKeepsTenures(c, n, p);
    case Renew(p) => RenewKeepsTenures(c, n, p);
    case Draw(p) =>
      if PhaseOf(n, p).Won? && PhaseOf(n, p).tenure < |n.tenures| {
        DrawKeepsTenures(c, n, PhaseOf(n, p).tenure);
      }
    case LoseDraw(p) =>
      if PhaseOf(n, p).Won? && PhaseOf(n, p).tenure < |n.tenures| {
        DrawKeepsTenures(c, n, PhaseOf(n, p).tenure);
        LetGoKeepsTenures(c, Drawn(n, PhaseOf(n, p).tenure), c.name(p));
      }
    case GiveUp(p) => LetGoKeepsTenures(c, n, c.name(p));
    case Stop(p) => LetGoKeepsTenures(c, n, c.name(p));
    case _ =>
  }

  // ---------------------------------------------------------------- phases

  lemma StepKeepsPhases(c: Config, n: Net, step: Step)
    requires PhasesOk(n)
    ensures PhasesOk(Next(c, n, step))
  {
    match step
    case Draw(p) => DrawKeepsPhases(c, n, p);
    case LoseDraw(p) => LoseDrawKeepsPhases(c, n, p);
    case Acquire(p) => AcquireKeepsPhases(c, n, p);
    case _ =>
  }

  lemma LetGoKeepsPhases(n: Net, id: Id)
    requires PhasesOk(n)
    ensures PhasesOk(LetGo(n, id))
  {
  }

  lemma LoseDrawKeepsPhases(c: Config, n: Net, p: Id)
    requires PhasesOk(n)
    ensures PhasesOk(Next(c, n, LoseDraw(p)))
  {
    if PhaseOf(n, p).Won? && PhaseOf(n, p).tenure < |n.tenures| {
      var idle := Enter(Drawn(n, PhaseOf(n, p).tenure), p, Idle);
      assert PhasesOk(idle);
      LetGoKeepsPhases(idle, c.name(p));
      assert Next(c, n, LoseDraw(p)) == LetGo(idle, c.name(p));
    }
  }

  lemma AcquireKeepsPhases(c: Config, n: Net, p: Id)
    requires PhasesOk(n)
    ensures PhasesOk(Next(c, n, Acquire(p)))
  {
  }

  lemma DrawKeepsPhases(c: Config, n: Net, p: Id)
    requires PhasesOk(n)
    ensures PhasesOk(Next(c, n, Draw(p)))
  {
  }

  // ---------------------------------------------------------------- tokens

  lemma LetGoKeepsTokens(n: Net, id: Id)
    requires TokensOk(n)
    ensures TokensOk(LetGo(n, id))
  {
  }

  lemma DrawKeepsTokens(c: Config, n: Net, k: nat)
    requires TenuresOk(c, n) && TokensOk(n) && k < |n.tenures|
    ensures TokensOk(Drawn(n, k))
  {
  }

  lemma AcquireKeepsTokens(c: Config, n: Net, p: Id)
    requires TokensOk(n)
    ensures TokensOk(Next(c, n, Acquire(p)))
  {
  }

  lemma RenewKeepsTokens(c: Config, n: Net, p: Id)
    requires TokensOk(n)
    ensures TokensOk(Next(c, n, Renew(p)))
  {
  }

  lemma StepKeepsTokens(c: Config, n: Net, step: Step)
    requires TenuresOk(c, n) && PhasesOk(n) && TokensOk(n)
    ensures TokensOk(Next(c, n, step))
  {
    hide LetGo;
    hide EndAt;
    hide Drawn;
    hide Latest;
    match step
    case Acquire(p) => AcquireKeepsTokens(c, n, p);
    case Renew(p) => RenewKeepsTokens(c, n, p);
    case Draw(p) =>
      if PhaseOf(n, p).Won? && PhaseOf(n, p).tenure < |n.tenures| {
        DrawKeepsTokens(c, n, PhaseOf(n, p).tenure);
      }
    case LoseDraw(p) =>
      if PhaseOf(n, p).Won? && PhaseOf(n, p).tenure < |n.tenures| {
        DrawKeepsTokens(c, n, PhaseOf(n, p).tenure);
        LetGoKeepsTokens(Drawn(n, PhaseOf(n, p).tenure), c.name(p));
      }
    case GiveUp(p) => LetGoKeepsTokens(n, c.name(p));
    case Stop(p) => LetGoKeepsTokens(n, c.name(p));
    case _ =>
  }

  // ---------------------------------------------------------------- draws

  lemma LetGoKeepsDraws(c: Config, n: Net, id: Id)
    requires DrawsOk(n)
    ensures DrawsOk(LetGo(n, id))
  {
    if n.counter > 0 && Owns(n.lease, n.clock, id) {
      var k :| 0 <= k < |n.tenures| && n.tenures[k].token == n.counter;
      assert LetGo(n, id).tenures[k].token == n.counter;
    }
  }

  lemma DrawKeepsDraws(n: Net, k: nat)
    requires DrawsOk(n) && k < |n.tenures|
    ensures DrawsOk(Drawn(n, k))
  {
    assert Drawn(n, k).tenures[k].token == Drawn(n, k).counter;
  }

  lemma AcquireKeepsDraws(c: Config, n: Net, p: Id)
    requires DrawsOk(n)
    ensures DrawsOk(Next(c, n, Acquire(p)))
  {
    var n' := Next(c, n, Acquire(p));
    if n.counter > 0 {
      var k :| 0 <= k < |n.tenures| && n.tenures[k].token == n.counter;
      assert n'.tenures[k].token == n.counter;
    }
  }

  lemma RenewKeepsDraws(c: Config, n: Net, p: Id)
    requires TenuresOk(c, n) && DrawsOk(n)
    ensures DrawsOk(Next(c, n, Renew(p)))
  {
    var n' := Next(c, n, Renew(p));
    if n.counter > 0 {
      var k :| 0 <= k < |n.tenures| && n.tenures[k].token == n.counter;
      assert n'.tenures[k].token == n.counter;
    }
  }

  lemma StepKeepsDraws(c: Config, n: Net, step: Step)
    requires TenuresOk(c, n) && DrawsOk(n)
    ensures DrawsOk(Next(c, n, step))
  {
    hide LetGo;
    hide EndAt;
    hide Drawn;
    match step
    case Acquire(p) => AcquireKeepsDraws(c, n, p);
    case Renew(p) => RenewKeepsDraws(c, n, p);
    case Draw(p) =>
      if PhaseOf(n, p).Won? && PhaseOf(n, p).tenure < |n.tenures| {
        DrawKeepsDraws(n, PhaseOf(n, p).tenure);
      }
    case LoseDraw(p) =>
      if PhaseOf(n, p).Won? && PhaseOf(n, p).tenure < |n.tenures| {
        DrawKeepsDraws(n, PhaseOf(n, p).tenure);
        LetGoKeepsDraws(c, Drawn(n, PhaseOf(n, p).tenure), c.name(p));
      }
    case GiveUp(p) => LetGoKeepsDraws(c, n, c.name(p));
    case Stop(p) => LetGoKeepsDraws(c, n, c.name(p));
    case _ =>
  }

  // ---------------------------------------------------------------- stamps and reads

  lemma StampKeepsStamps(c: Config, n: Net, p: Id)
    requires PhasesOk(n) && TokensOk(n) && StampsOk(n)
    ensures StampsOk(Next(c, n, Stamp(p)))
  {
    var n' := Next(c, n, Stamp(p));
    forall q | q in n'.processes ensures NumbersOk(n'.stamped, n'.processes[q]) {
      assert p in n.processes ==> PhaseOk(n.tenures, p, n.processes[p].phase);
      assert q in n.processes ==> PhaseOk(n.tenures, q, n.processes[q].phase) && NumbersOk(n.stamped, n.processes[q]);
    }
  }

  lemma StepKeepsStamps(c: Config, n: Net, step: Step)
    requires PhasesOk(n) && TokensOk(n) && StampsOk(n)
    ensures StampsOk(Next(c, n, step))
  {
    hide EndAt;
    match step
    case Stamp(p) => StampKeepsStamps(c, n, p);
    case _ =>
  }

  lemma ReadKeepsReads(c: Config, n: Net, i: nat)
    requires StampsOk(n) && ReadsOk(n)
    ensures ReadsOk(Next(c, n, Read(i)))
  {
    if i < |n.stream| {
      assert n.stream[i] in n.stream;
    }
  }

  lemma StampKeepsReads(c: Config, n: Net, p: Id)
    requires ReadsOk(n)
    ensures ReadsOk(Next(c, n, Stamp(p)))
  {
  }

  lemma StepKeepsReads(c: Config, n: Net, step: Step)
    requires StampsOk(n) && ReadsOk(n)
    ensures ReadsOk(Next(c, n, step))
  {
    hide EndAt;
    hide StampsOk;
    match step
    case Read(i) => ReadKeepsReads(c, n, i);
    case Stamp(p) => StampKeepsReads(c, n, p);
    case _ =>
  }

  // ---------------------------------------------------------------- every run

  /** Every interleaving, from the empty store, keeps the invariant. */
  lemma {:induction false} RunIsOk(c: Config, steps: seq<Step>)
    ensures Inv(c, Run(c, START, steps))
  {
    if steps != [] {
      var before, last := steps[..|steps| - 1], steps[|steps| - 1];
      RunIsOk(c, before);
      var n := Run(c, START, before);
      StepKeepsTenures(c, n, last);
      StepKeepsPhases(c, n, last);
      StepKeepsTokens(c, n, last);
      StepKeepsDraws(c, n, last);
      StepKeepsStamps(c, n, last);
      StepKeepsReads(c, n, last);
      hide Next;
      hide TenuresOk;
      hide PhasesOk;
      hide TokensOk;
      hide DrawsOk;
      hide StampsOk;
      hide ReadsOk;
    }
  }

  predicate During(t: Tenure, time: nat) { t.start <= time < t.end }

  /** Ownership periods never overlap: at any time there is at most one owner, and whoever the
      live key names is it. */
  lemma OwnershipIsExclusive(c: Config, steps: seq<Step>, time: nat, i: nat, j: nat)
    requires var n := Run(c, START, steps);
             i < |n.tenures| && j < |n.tenures| && During(n.tenures[i], time) && During(n.tenures[j], time)
    ensures i == j
    ensures var n := Run(c, START, steps);
            time == n.clock ==> i == |n.tenures| - 1 && Owns(n.lease, n.clock, c.name(n.tenures[i].process))
  {
    RunIsOk(c, steps);
  }

  /** Tokens drawn in time are ordered as the ownership periods they were drawn for. */
  lemma TokensFollowOwnership(c: Config, steps: seq<Step>, i: nat, j: nat)
    requires var n := Run(c, START, steps);
             i < |n.tenures| && j < |n.tenures| && n.tenures[i].punctual && n.tenures[j].punctual
    ensures var n := Run(c, START, steps);
            n.tenures[i].token < n.tenures[j].token <==> i < j
  {
    RunIsOk(c, steps);
  }

  /** What a serving process stamps is never token zero and never repeats, over all processes
      and restarts; what passes the fence carries exactly the counter the fence read; and the
      tokens that pass never decrease. */
  lemma FenceIsSafe(c: Config, steps: seq<Step>)
    ensures var n := Run(c, START, steps);
            && (forall i :: 0 <= i < |n.stamped| ==> n.stamped[i].token > 0)
            && (forall i, j :: 0 <= i < j < |n.stamped| ==> n.stamped[i] != n.stamped[j])
            && (forall i :: 0 <= i < |n.passed| ==>
                  n.passed[i].envelope in n.stamped && n.passed[i].envelope.token == n.passed[i].counter)
            && (forall i, j :: 0 <= i < j < |n.passed| ==> n.passed[i].envelope.token <= n.passed[j].envelope.token)
  {
    RunIsOk(c, steps);
  }

  /** Once a later owner has drawn its token in time, nothing of an earlier punctual owner
      passes the fence any more. */
  lemma EarlierOwnersAreFenced(c: Config, steps: seq<Step>, i: nat, j: nat)
    requires var n := Run(c, START, steps);
             i < j < |n.tenures| && n.tenures[i].punctual && n.tenures[j].punctual
    ensures var n := Run(c, START, steps);
            Stale(n.tenures[i].token, n.counter)
  {
    RunIsOk(c, steps);
  }

  /** Some tenure, earlier or later, holds a larger token. */
  ghost predicate Overtaken(n: Net, token: nat) {
    exists k :: 0 <= k < |n.tenures| && n.tenures[k].token > token
  }

  /** In every reachable net, what a serving process stamps is dropped by the fence if and only if
      a larger token was drawn for some tenure. */
  lemma StaleIffOvertaken(c: Config, steps: seq<Step>, p: Id)
    requires PhaseOf(Run(c, START, steps), p).Serving?
    ensures var n := Run(c, START, steps);
            Stale(PhaseOf(n, p).token, n.counter) <==> Overtaken(n, PhaseOf(n, p).token)
  {
    RunIsOk(c, steps);
    var n := Run(c, START, steps);
    hide Run;
    assert PhaseOk(n.tenures, p, n.processes[p].phase);
  }

  /** The process is serving, and holds the live lease. */
  ghost predicate Leads(n: Net, p: Id) {
    && PhaseOf(n, p).Serving? && Live(n.lease, n.clock)
    && n.tenures != [] && n.tenures[|n.tenures| - 1].process == p
  }

  /** The owner of the live lease is fenced out if and only if some tenure drew late and got a
      larger token. In particular it passes whenever every draw was in time. */
  lemma OwnerFencedIff(c: Config, steps: seq<Step>, p: Id)
    requires Leads(Run(c, START, steps), p)
    ensures var n := Run(c, START, steps);
            Stale(PhaseOf(n, p).token, n.counter)
            <==> exists k :: 0 <= k < |n.tenures| && n.tenures[k].token > PhaseOf(n, p).token && !n.tenures[k].punctual
  {
    StaleIffOvertaken(c, steps, p);
    RunIsOk(c, steps);
    var n := Run(c, START, steps);
    hide Run;
    OwnerIsPunctual(c, n, p);
    var token := PhaseOf(n, p).token;
    if Stale(token, n.counter) {
      var k :| 0 <= k < |n.tenures| && n.tenures[k].token > token;
      assert !n.tenures[k].punctual;
    }
  }

  lemma OwnerIsPunctual(c: Config, n: Net, p: Id)
    requires Inv(c, n) && Leads(n, p)
    ensures var last := n.tenures[|n.tenures| - 1];
            last.token == PhaseOf(n, p).token && last.punctual
  {
    assert PhaseOk(n.tenures, p, n.processes[p].phase);
  }

  // ---------------------------------------------------------------- one period of ownership

  predicate OwnsNow(c: Config, n: Net, p: Id) { Owns(n.lease, n.clock, c.name(p)) }

  /** The process owns the lease after a step and `d` units of time. */
  predicate OwnsAfter(c: Config, n: Net, step: Step, d: nat, p: Id) {
    OwnsNow(c, Next(c, Next(c, n, step), Tick(d)), p)
  }

  /** A competing process gets a free lease for exactly its time to live; renewing in time gives
      the owner the same time again from then on; stopping frees the key at once, so the next
      competitor gets it. */
  lemma LeaseLasts(c: Config, n: Net, p: Id, q: Id, d: nat)
    ensures PhaseOf(n, p).Idle? && !Live(n.lease, n.clock) ==> (OwnsAfter(c, n, Acquire(p), d, p) <==> d < c.ttl(p))
    ensures PhaseOf(n, p).Serving? && OwnsNow(c, n, p) ==> (OwnsAfter(c, n, Renew(p), d, p) <==> d < c.ttl(p))
    ensures PhaseOf(n, p).Serving? && OwnsNow(c, n, p) && PhaseOf(n, q).Idle? ==>
              (OwnsAfter(c, Next(c, n, Stop(p)), Acquire(q), d, q) <==> d < c.ttl(q))
    ensures PhaseOf(n, p).Serving? && !OwnsNow(c, n, p) ==>
              Next(c, n, Renew(p)).lease == n.lease && Next(c, n, Stop(p)).lease == n.lease
  {
    hide EndAt;
  }

  /** The three steps that bring an event of `p` from the engine through the stream to the
      worker. */
  function Emitted(c: Config, n: Net, p: Id): Net {
    Next(c, Next(c, Next(c, n, Stamp(p)), Publish(|n.stamped|)), Read(|n.stream|))
  }

  /** A token is fresh when it is drawn: whatever the process then emits passes the fence. */
  lemma FreshTokenPasses(c: Config, steps: seq<Step>, p: Id)
    requires PhaseOf(Run(c, START, steps), p).Won?
    ensures var n := Next(c, Run(c, START, steps), Draw(p));
            && PhaseOf(n, p).Serving? && !Stale(PhaseOf(n, p).token, n.counter)
            && (forall k :: 0 <= k < |n.tenures| && k != PhaseOf(n, p).tenure ==>
                  n.tenures[k].token < PhaseOf(n, p).token)
  {
    RunIsOk(c, steps);
    var n := Run(c, START, steps);
    hide Run;
    assert PhaseOk(n.tenures, p, n.processes[p].phase);
  }

  /** In every reachable net the next event of a serving process is stamped with its token and
      its next number, and it passes the fence if and only if no tenure holds a larger token. */
  lemma PassesIffNotOvertaken(c: Config, steps: seq<Step>, p: Id)
    requires PhaseOf(Run(c, START, steps), p).Serving?
    ensures var n := Run(c, START, steps);
            var e, n' := Envelope(PhaseOf(n, p).token, SeqOf(n, p) + 1), Emitted(c, n, p);
            && n'.stamped == n.stamped + [e] && n'.stream == n.stream + [e] && SeqOf(n', p) == e.sequence
            && n'.passed == if Overtaken(n, e.token) then n.passed else n.passed + [Passed(e, n.counter)]
  {
    StaleIffOvertaken(c, steps, p);
    EmittedIs(c, Run(c, START, steps), p);
    hide *;
  }

  lemma EmittedIs(c: Config, n: Net, p: Id)
    requires PhaseOf(n, p).Serving?
    ensures var e, n' := Envelope(PhaseOf(n, p).token, SeqOf(n, p) + 1), Emitted(c, n, p);
            && n'.stamped == n.stamped + [e] && n'.stream == n.stream + [e] && SeqOf(n', p) == e.sequence
            && n'.passed == if Stale(e.token, n.counter) then n.passed else n.passed + [Passed(e, n.counter)]
  {
    var stamped := Next(c, n, Stamp(p));
    assert stamped.stamped[|n.stamped|] == Envelope(PhaseOf(n, p).token, SeqOf(n, p) + 1);
  }

  // ---------------------------------------------------------------- who touches the key

  /** The step was taken by the process whose tenure is current. */
  predicate ByOwner(n: Net, step: Step) {
    && n.tenures != []
    && (step.Renew? || step.Stop? || step.GiveUp? || step.LoseDraw?)
    && step.p == n.tenures[|n.tenures| - 1].process
  }

  /** On every run, while the key is live, only steps of its current owner change it. */
  ghost predicate OwnersOnly(c: Config) {
    forall steps, step ::
      var n := Run(c, START, steps);
      Live(n.lease, n.clock) && Next(c, n, step).lease != n.lease ==> ByOwner(n, step)
  }

  lemma UniqueNamesProtect(c: Config, steps: seq<Step>, step: Step)
    requires Unique(c)
    ensures var n := Run(c, START, steps);
            Live(n.lease, n.clock) && Next(c, n, step).lease != n.lease ==> ByOwner(n, step)
  {
    RunIsOk(c, steps);
  }

  lemma OneMore(c: Config, steps: seq<Step>, step: Step)
    ensures Run(c, START, steps + [step]) == Next(c, Run(c, START, steps), step)
  {
    assert (steps + [step])[..|steps|] == steps;
  }

  /** `p` acquires, draws or not, and lapses; `q` takes over. */
  lemma TakeOver(c: Config, p: Id, q: Id, draws: bool) returns (steps: seq<Step>)
    requires p != q && c.ttl(p) > 0 && c.ttl(q) > 0
    ensures var n := Run(c, START, steps);
            && PhaseOf(n, p) == (if draws then Serving(0, 1) else Won(0)) && PhaseOf(n, q) == Won(1)
            && n.lease == Held(c.name(q), n.clock + c.ttl(q))
            && |n.tenures| == 2 && n.tenures[1].process == q
            && n.counter == if draws then 1 else 0
  {
    steps := [] + [Acquire(p)];
    OneMore(c, [], Acquire(p));
    if draws {
      OneMore(c, steps, Draw(p));
      steps := steps + [Draw(p)];
    }
    OneMore(c, steps, Tick(c.ttl(p)));
    OneMore(c, steps + [Tick(c.ttl(p))], Acquire(q));
    ghost var n := Run(c, START, steps);
    assert n.lease == Held(c.name(p), c.ttl(p)) && n.clock == 0 && |n.tenures| == 1 && PhaseOf(n, q) == Idle;
    steps := steps + [Tick(c.ttl(p))] + [Acquire(q)];
    hide Run;
  }

  /** The key is protected if and only if no two processes share an engine id. With a shared id
      the process that lapsed deletes its successor's key when it stops. */
  lemma OwnersOnlyIffUnique(c: Config)
    requires forall p :: c.ttl(p) > 0
    ensures OwnersOnly(c) <==> Unique(c)
  {
    if Unique(c) {
      forall steps, step
        ensures var n := Run(c, START, steps);
                Live(n.lease, n.clock) && Next(c, n, step).lease != n.lease ==> ByOwner(n, step)
      {
        UniqueNamesProtect(c, steps, step);
      }
    } else {
      var p, q :| p != q && c.name(p) == c.name(q);
      var steps := TakeOver(c, p, q, true);
      var n := Run(c, START, steps);
      assert Live(n.lease, n.clock) && Next(c, n, Stop(p)).lease == Free && !ByOwner(n, Stop(p));
    }
  }

  /** Drawing late breaks the order: the lapsed process draws after its successor, and the
      fence drops what the owner stamps. */
  lemma LateDrawFencesOwner(c: Config, p: Id, q: Id)
    requires p != q && c.ttl(p) > 0 && c.ttl(q) > 0
    ensures exists steps ::
              var n := Run(c, START, steps);
              && Owns(n.lease, n.clock, c.name(q)) && PhaseOf(n, q).Serving?
              && Stale(PhaseOf(n, q).token, n.counter)
  {
    var steps := TakeOver(c, p, q, false);
    OneMore(c, steps, Draw(q));
    OneMore(c, steps + [Draw(q)], Draw(p));
    hide Run;
    assert PhaseOf(Run(c, START, steps + [Draw(q)] + [Draw(p)]), q) == Serving(1, 1);
  }

  // ---------------------------------------------------------------- the shared keys

  /** The lease key and the token counter of one partition, as the engines and the worker use
      them. */
  class Store {
    var clock: nat
    var lease: Lease
    var counter: nat

    constructor ()
      ensures clock == START.clock && lease == START.lease && counter == START.counter
    {
      clock, lease, counter := 0, Free, 0;
    }

    /** Succeeds exactly when nobody holds the key; a holder is never disturbed. */
    method Acquire(id: Id, ttl: nat) returns (ok: bool)
      modifies this`lease
      ensures ok <==> !Live(old(lease), clock)
      ensures lease == Acquired(old(lease), clock, id, ttl)
      ensures lease == if ok then Held(id, clock + ttl) else old(lease)
      ensures ok && ttl > 0 ==> Owns(lease, clock, id)
      ensures forall other :: Owns(old(lease), clock, other) ==> Owns(lease, clock, other) && !ok
    {
      ok := !(lease.Held? && clock < lease.until);
      if ok {
        lease := Held(id, clock + ttl);
      }
    }

    /** Extends the caller's own key and nobody else's. */
    method Renew(id: Id, ttl: nat) returns (ok: bool)
      modifies this`lease
      ensures ok <==> Owns(old(lease), clock, id)
      ensures lease == Renewed(old(lease), clock, id, ttl)
      ensures lease == if ok then Held(id, clock + ttl) else old(lease)
      ensures forall other :: other != id && Owns(old(lease), clock, other) ==> lease == old(lease)
    {
      ok := lease.Held? && clock < lease.until && lease.owner == id;
      if ok {
        lease := lease.(until := clock + ttl);
      }
    }

    /** Deletes the caller's own key and nobody else's. */
    method Release(id: Id)
      modifies this`lease
      ensures lease == Released(old(lease), clock, id) && !Owns(lease, clock, id)
      ensures Owns(old(lease), clock, id) ==> lease == Free
      ensures forall other :: other != id && Owns(old(lease), clock, other) ==> Owns(lease, clock, other)
    {
      if lease.Held? && clock < lease.until && lease.owner == id {
        lease := Free;
      }
    }

    /** A token larger than every earlier one. */
    method DrawToken() returns (token: nat)
      modifies this`counter
      ensures token == counter == old(counter) + 1
    {
      counter := counter + 1;
      token := counter;
    }

    /** The worker's verdict on an envelope. Of tokens this store has issued, only the latest
        passes. */
    method Passes(token: nat) returns (ok: bool)
      ensures ok <==> !Stale(token, counter)
      ensures 0 < token <= counter ==> (ok <==> token == counter)
      ensures token == 0 || token > counter ==> ok
    {
      ok := token == 0 || token >= counter;
    }
  }
}
