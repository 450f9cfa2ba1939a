/** The project aggregate as a value and its operations as a transition
    function (main.py:107-184). The `Projet` class in module Project is proved
    to change its fields exactly as `Step` says; the properties of the
    operations are stated here, about `Step` and `Run`. */
module ProjectModel {
  import opened Entities
  import opened Notification

  /** The version in tenths: 1.0 at creation, plus 0.1 per recorded change. */
  const INITIAL_VERSION: int := 10

  /** Everything a project operation can change: the project's own lists and
      numbers, the team roster, and the notification context's strategy and
      outbox. */
  datatype ProjectState = ProjectState(
    taches: seq<Tache>,
    membres: seq<Membre>,
    budget: real,
    risques: seq<Risque>,
    jalons: seq<Jalon>,
    version: int,
    changements: seq<Changement>,
    cheminCritique: seq<Tache>,
    strategy: Option<Channel>,
    outbox: seq<Delivery>)

  /** A new project bound to a context that holds `strategy` and has already
      sent `outbox`: nothing recorded yet, budget 0, version 1.0. */
  function Initial(strategy: Option<Channel>, outbox: seq<Delivery>): (r: ProjectState)
    ensures Inv(r) && CountsOf(r) == Counts(0, 0, 0, 0, 0)
    ensures r.budget == 0.0 && r.version == INITIAL_VERSION
    ensures r.strategy == strategy && r.outbox == outbox
  {
    ProjectState([], [], 0.0, [], [], INITIAL_VERSION, [], [], strategy, outbox)
  }

  /** One call of a public `Projet` method, with its arguments. `now` is the
      clock reading a change record is stamped with. */
  datatype Op =
    | AddTask(tache: Tache)
    | AddMember(membre: Membre)
    | SetBudget(amount: real)
    | AddRisk(risque: Risque)
    | AddMilestone(jalon: Jalon)
    | RecordChange(description: string, now: DateTime)
    | ComputeCriticalPath
    | ExplicitNotify(message: Message, recipients: seq<Membre>)
    | SetStrategy(newStrategy: Option<Channel>)

  /** The state after one operation. Every operation but the critical-path and
      strategy ones notifies: the new member alone on `AddMember`, the given
      recipients on `ExplicitNotify`, and otherwise the whole current team.
      Every operation keeps the project invariant, and only recording a change
      moves the version, by one tenth. */
  function Step(s: ProjectState, op: Op): (r: ProjectState)
    ensures Inv(s) ==> Inv(r)
    ensures r.version == s.version + Adds(op).changements
  {
    match op
    case AddTask(t) =>
      s.(taches := s.taches + [t],
         outbox := s.outbox + Deliveries(s.strategy, TaskAdded(t.nom), s.membres))
    case AddMember(m) =>
      s.(membres := s.membres + [m],
         outbox := s.outbox + Deliveries(s.strategy, MemberAdded(m.nom), [m]))
    case SetBudget(b) =>
      s.(budget := b,
         outbox := s.outbox + Deliveries(s.strategy, BudgetSet(b), s.membres))
    case AddRisk(r) =>
      s.(risques := s.risques + [r],
         outbox := s.outbox + Deliveries(s.strategy, RiskAdded(r.description), s.membres))
    case AddMilestone(j) =>
      s.(jalons := s.jalons + [j],
         outbox := s.outbox + Deliveries(s.strategy, MilestoneAdded(j.nom), s.membres))
    case RecordChange(d, now) =>
      s.(changements := s.changements + [Changement(d, s.version, now)],
         version := s.version + 1,
         outbox := s.outbox + Deliveries(s.strategy, ChangeRecorded(d, s.version + 1), s.membres))
    case ComputeCriticalPath =>
      s.(cheminCritique := [])
    case ExplicitNotify(m, rs) =>
      s.(outbox := s.outbox + Deliveries(s.strategy, m, rs))
    case SetStrategy(st) =>
      s.(strategy := st)
  }

  /** The state after a sequence of operations, applied in order. */
  function Run(s: ProjectState, ops: seq<Op>): ProjectState
    decreases |ops|
  {
    if ops == [] then s else Run(Step(s, ops[0]), ops[1..])
  }

  /** The project invariant: the version is 1.0 plus 0.1 per recorded change,
      the k-th record (from 0) carries version 1.0 + 0.1 * k, and the critical
      path is empty. */
  ghost predicate Inv(s: ProjectState)
  {
    s.version == INITIAL_VERSION + |s.changements| &&
    (forall k :: 0 <= k < |s.changements| ==> s.changements[k].version == INITIAL_VERSION + k) &&
    s.cheminCritique == []
  }

  /** `t` extends `s`: every list is a prefix of its later value (nothing is
      removed or reordered) and the version has not decreased. */
  ghost predicate Grows(s: ProjectState, t: ProjectState)
  {
    s.taches <= t.taches && s.membres <= t.membres && s.risques <= t.risques &&
    s.jalons <= t.jalons && s.changements <= t.changements && s.outbox <= t.outbox &&
    s.version <= t.version
  }

  /** The five counts of the performance report. */
  datatype Counts = Counts(taches: nat, membres: nat, risques: nat, jalons: nat, changements: nat)

  function CountsOf(s: ProjectState): Counts
  {
    Counts(|s.taches|, |s.membres|, |s.risques|, |s.jalons|, |s.changements|)
  }

  function Plus(a: Counts, b: Counts): Counts
  {
    Counts(a.taches + b.taches, a.membres + b.membres, a.risques + b.risques,
           a.jalons + b.jalons, a.changements + b.changements)
  }

  /** How many elements an operation adds, read off the operation alone. */
  function Adds(op: Op): Counts
  {
    match op
    case AddTask(_) => Counts(1, 0, 0, 0, 0)
    case AddMember(_) => Counts(0, 1, 0, 0, 0)
    case AddRisk(_) => Counts(0, 0, 1, 0, 0)
    case AddMilestone(_) => Counts(0, 0, 0, 1, 0)
    case RecordChange(_, _) => Counts(0, 0, 0, 0, 1)
    case _ => Counts(0, 0, 0, 0, 0)
  }

  /** The operations of a sequence, counted by kind. */
  function Tally(ops: seq<Op>): Counts
  {
    if ops == [] then Counts(0, 0, 0, 0, 0) else Plus(Adds(ops[0]), Tally(ops[1..]))
  }

  /** The operations that add the tasks of `ts`, in order. */
  function AddTasks(ts: seq<Tache>): (ops: seq<Op>)
    ensures |ops| == |ts|
  {
    if ts == [] then [] else [AddTask(ts[0])] + AddTasks(ts[1..])
  }

  // ---------------------------------------------------------------------
  // One operation at a time
  // ---------------------------------------------------------------------

  lemma StepGrows(s: ProjectState, op: Op)
    ensures Grows(s, Step(s, op))
  {
  }

  /** Adding a task appends it, notifies every current team member once, in
      team order, and changes nothing else. */
  lemma AddTaskNotifiesTeam(s: ProjectState, t: Tache)
    ensures var n := Step(s, AddTask(t));
      n.taches == s.taches + [t] &&
      n == s.(taches := n.taches, outbox := n.outbox) &&
      DeliveredInOrder(s.outbox, n.outbox, s.strategy, TaskAdded(t.nom), s.membres)
  {
    DeliveriesInOrder(s.outbox, s.strategy, TaskAdded(t.nom), s.membres);
  }

  /** Adding a member appends it to the team and sends exactly one message,
      addressed to the newcomer alone, however large the team already is
      (none when no strategy is set). */
  lemma AddMemberNotifiesOnlyNewcomer(s: ProjectState, m: Membre)
    ensures var n := Step(s, AddMember(m));
      n.membres == s.membres + [m] &&
      n == s.(membres := n.membres, outbox := n.outbox) &&
      n.outbox == s.outbox + (if s.strategy.Some? then [Delivery(s.strategy.value, m, MemberAdded(m.nom))] else [])
  {
    DeliveriesInOrder(s.outbox, s.strategy, MemberAdded(m.nom), [m]);
  }

  /** Setting the budget overwrites it with the given amount, whatever it was
      and whatever its sign, notifies the whole team and changes no list. */
  lemma SetBudgetOverwrites(s: ProjectState, b: real)
    ensures var n := Step(s, SetBudget(b));
      n.budget == b &&
      n == s.(budget := b, outbox := n.outbox) &&
      DeliveredInOrder(s.outbox, n.outbox, s.strategy, BudgetSet(b), s.membres)
  {
    DeliveriesInOrder(s.outbox, s.strategy, BudgetSet(b), s.membres);
  }

  lemma AddRiskAppends(s: ProjectState, r: Risque)
    ensures var n := Step(s, AddRisk(r));
      n.risques == s.risques + [r] &&
      n == s.(risques := n.risques, outbox := n.outbox) &&
      DeliveredInOrder(s.outbox, n.outbox, s.strategy, RiskAdded(r.description), s.membres)
  {
    DeliveriesInOrder(s.outbox, s.strategy, RiskAdded(r.description), s.membres);
  }

  lemma AddMilestoneAppends(s: ProjectState, j: Jalon)
    ensures var n := Step(s, AddMilestone(j));
      n.jalons == s.jalons + [j] &&
      n == s.(jalons := n.jalons, outbox := n.outbox) &&
      DeliveredInOrder(s.outbox, n.outbox, s.strategy, MilestoneAdded(j.nom), s.membres)
  {
    DeliveriesInOrder(s.outbox, s.strategy, MilestoneAdded(j.nom), s.membres);
  }

  /** Recording a change appends one record that carries the version from
      BEFORE the call, then raises the version by one tenth; the message sent
      to the team carries the version from AFTER the call, so the two differ. */
  lemma RecordChangeVersions(s: ProjectState, d: string, now: DateTime)
    ensures var n := Step(s, RecordChange(d, now));
      |n.changements| == |s.changements| + 1 &&
      n.changements[..|s.changements|] == s.changements &&
      n.changements[|s.changements|] == Changement(d, s.version, now) &&
      n.version == s.version + 1 &&
      n == s.(changements := n.changements, version := n.version, outbox := n.outbox) &&
      DeliveredInOrder(s.outbox, n.outbox, s.strategy, ChangeRecorded(d, n.version), s.membres) &&
      n.changements[|s.changements|].version != n.version
  {
    DeliveriesInOrder(s.outbox, s.strategy, ChangeRecorded(d, s.version + 1), s.membres);
  }

  /** The critical path is empty after the computation, whatever the tasks and
      their dependencies, and nothing else changes. */
  lemma CriticalPathAlwaysEmpty(s: ProjectState)
    ensures Step(s, ComputeCriticalPath) == s.(cheminCritique := [])
  {
  }

  /** An explicit notification sends the message to the given recipients only,
      in order, and changes nothing else. */
  lemma NotifyOnlyRecipients(s: ProjectState, m: Message, rs: seq<Membre>)
    ensures var n := Step(s, ExplicitNotify(m, rs));
      n == s.(outbox := n.outbox) &&
      DeliveredInOrder(s.outbox, n.outbox, s.strategy, m, rs)
  {
    DeliveriesInOrder(s.outbox, s.strategy, m, rs);
  }

  /** With no strategy set, no operation sends anything. */
  lemma NoStrategyIsSilent(s: ProjectState, op: Op)
    requires s.strategy.None? && !op.SetStrategy?
    ensures Step(s, op).outbox == s.outbox
  {
  }

  // ---------------------------------------------------------------------
  // Sequences of operations
  // ---------------------------------------------------------------------

  lemma {:induction false} RunInv(s: ProjectState, ops: seq<Op>)
    requires Inv(s)
    ensures Inv(Run(s, ops))
    decreases |ops|
  {
    if ops != [] {
      RunInv(Step(s, ops[0]), ops[1..]);
    }
  }

  /** Whatever the operations, nothing is ever removed or reordered and the
      version never decreases. */
  lemma {:induction false} RunGrows(s: ProjectState, ops: seq<Op>)
    ensures Grows(s, Run(s, ops))
    decreases |ops|
  {
    if ops != [] {
      var n := Step(s, ops[0]);
      StepGrows(s, ops[0]);
      RunGrows(n, ops[1..]);
      PrefixTransitive(s.taches, n.taches, Run(n, ops[1..]).taches);
      PrefixTransitive(s.membres, n.membres, Run(n, ops[1..]).membres);
      PrefixTransitive(s.risques, n.risques, Run(n, ops[1..]).risques);
      PrefixTransitive(s.jalons, n.jalons, Run(n, ops[1..]).jalons);
      PrefixTransitive(s.changements, n.changements, Run(n, ops[1..]).changements);
      PrefixTransitive(s.outbox, n.outbox, Run(n, ops[1..]).outbox);
    }
  }

  lemma PrefixTransitive<T>(a: seq<T>, b: seq<T>, c: seq<T>)
    requires a <= b && b <= c
    ensures a <= c
  {
  }

  /** The report's counts after any run are the starting counts plus the
      number of operations of each adding kind. */
  lemma {:induction false} RunCounts(s: ProjectState, ops: seq<Op>)
    ensures CountsOf(Run(s, ops)) == Plus(CountsOf(s), Tally(ops))
    decreases |ops|
  {
    if ops != [] {
      StepCounts(s, ops[0]);
      RunCounts(Step(s, ops[0]), ops[1..]);
    }
  }

  /** Over any run the version rises by one tenth exactly per recorded change. */
  lemma {:induction false} RunVersion(s: ProjectState, ops: seq<Op>)
    ensures Run(s, ops).version == s.version + Tally(ops).changements
    decreases |ops|
  {
    if ops != [] {
      RunVersion(Step(s, ops[0]), ops[1..]);
    }
  }

  /** One operation adds to the counts exactly what `Adds` reads off it. */
  lemma StepCounts(s: ProjectState, op: Op)
    ensures CountsOf(Step(s, op)) == Plus(CountsOf(s), Adds(op))
  {
    match op
    case AddTask(_) =>
    case AddMember(_) =>
    case SetBudget(_) =>
    case AddRisk(_) =>
    case AddMilestone(_) =>
    case RecordChange(_, _) =>
    case ComputeCriticalPath =>
    case ExplicitNotify(_, _) =>
    case SetStrategy(_) =>
  }

  /** Any sequence of task additions leaves the tasks exactly as the old list
      followed by the added ones, in call order. */
  lemma {:induction false} RunAddTasks(s: ProjectState, ts: seq<Tache>)
    ensures Run(s, AddTasks(ts)).taches == s.taches + ts
    decreases |ts|
  {
    if ts != [] {
      var n := Step(s, AddTask(ts[0]));
      assert AddTasks(ts)[1..] == AddTasks(ts[1..]);
      RunAddTasks(n, ts[1..]);
      assert s.taches + [ts[0]] + ts[1..] == s.taches + ts;
    }
  }

  /** The version of a valid state bounds every record's version from above,
      and records are ordered by strictly increasing version. */
  lemma ChangeLogOrdered(s: ProjectState)
    requires Inv(s)
    ensures forall k :: 0 <= k < |s.changements| ==> s.changements[k].version < s.version
    ensures forall k, l :: 0 <= k < l < |s.changements| ==>
      s.changements[k].version < s.changements[l].version
  {
  }
}
