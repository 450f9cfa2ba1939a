# Project tracker: a verified model of the `Projet` aggregate

This project models the project-tracking core of `main.py` in Dafny. A
project (`Projet`) owns a list of tasks (`Tache`), a team (`Equipe`) of
members (`Membre`), a budget, a list of risks (`Risque`), a list of
milestones (`Jalon`), a version number, a change log (`Changement`) and a
critical path. Every mutating method appends to one list or overwrites one
field. It then sends a message through a `NotificationContext`. The context
holds the active strategy (e-mail or SMS) and calls it once per recipient.

The model keeps the source's imperative form:

- `Membre`, `Tache`, `Equipe`, `NotificationContext` and `Projet` are classes.
  Their methods update fields in place, under `modifies` clauses that name
  exactly the fields the source changes.
- Risks, milestones and change records are never changed after creation, so
  they are datatypes.
- `NotificationContext.Notify` is a loop. Each iteration appends one
  `Delivery(channel, recipient, message)` to the context's `outbox`. The
  outbox stands for the console the strategies print to.

The behaviour is stated in two layers:

- **Specification.** Module `ProjectModel` gives the whole mutable state as a
  value (`ProjectState`), each public call as an `Op`, and the effect of one
  call as `Step`. The properties of the operations are proved as lemmas about
  `Step` and about `Run`, which applies a sequence of calls.
- **Implementation.** Each method of the `Projet` class is proved to take its
  abstract state `State()` to `Step(old(State()), op)`. It is also proved to
  keep the project invariant `Inv`.

Modelling choices:

- The version is an integer count of tenths. It starts at 10 (1.0) and each
  recorded change adds 1 (0.1).
- The budget and a risk's probability are `real`. The source only stores
  them and never computes with them.
- Message texts are a datatype with one variant per formatted text
  (`TaskAdded`, `MemberAdded`, `BudgetSet`, `RiskAdded`, `MilestoneAdded`,
  `ChangeRecorded`, `Text`). This keeps the numbers in them as values: the
  budget as given, the version in tenths. The mapping to the printed strings
  is not one-to-one: `TaskAdded("x")` and `Text("Nouvelle tâche ajoutée: x")`
  are different values that the source would print as the same line, so an
  equality of messages in the model is finer than an equality of console text.
- The strategy is `Option<Channel>` with `Channel = Email | SMS`. `None` is
  the case where `notify` sends nothing (main.py:31).
- Dates are a `DateTime` record (year, month, day, second of day) that the
  model never interprets; sub-second precision is not kept. The clock reading that stamps a
  change record is a parameter of `EnregistrerChangement`.
- Members and tasks are references, so the team, task owners and task
  dependencies can share them. Fields that the source never reassigns
  (a member's name and role; a task's name, description, dates and owner)
  are `const`.
- The notification context is passed to the project's constructor, as in
  the source, so two projects may share one context.
- Module `Demo` replays the example block at the end of `main.py` as a client
  of the verified methods. It proves the report's counts (2 tasks,
  2 members, 1 risk, 1 milestone, 1 change), its version and budget, and the
  whole outbox: the twelve deliveries the run sends, each with its channel,
  recipient and message, in order.

## Model

| member | source | states |
|---|---|---|
| `Entities.Membre.constructor` | main.py:38-40 | a new member has the given name and role |
| `Entities.Membre.ToString` | main.py:42-43 | the display text is the name, then " (", the role and ")"; each part is recoverable from its position |
| `Entities.Tache.constructor` | main.py:48-63 | a new task stores its arguments and has no dependencies |
| `Entities.Tache.AjouterDependance` | main.py:65-66 | appends the given task to the dependencies; nothing is required of it (no cycle or duplicate check) and the status is untouched |
| `Entities.Tache.MettreAJourStatut` | main.py:68-69 | the status becomes the given string, whatever it was; the dependencies are untouched |
| `Entities.Equipe.constructor` | main.py:74-75 | a new team is empty |
| `Entities.Equipe.AjouterMembre` | main.py:77-78 | the roster becomes the old roster followed by the member; duplicates are allowed |
| `Entities.Equipe.ObtenirMembres` | main.py:80-81 | returns the roster in insertion order |
| `Notification.Deliveries` | main.py:30-33 | what `notify` sends has one entry per recipient when a strategy is set, none otherwise |
| `Notification.DeliveriesOnePerRecipient` | main.py:30-33 | with a strategy, the i-th delivery goes to the i-th recipient, over the active channel, with the given message |
| `Notification.DeliveriesInOrder` | main.py:30-33 | appending what `notify` sends to any outbox extends it by exactly one delivery per recipient, in order, and by nothing without a strategy |
| `Notification.DeliveriesAppend` | main.py:32-33 | notifying a list in two parts sends what notifying the whole list sends, in the same order |
| `Notification.NotificationContext.constructor` | main.py:27-28 | a new context holds the given strategy and has sent nothing |
| `Notification.NotificationContext.Envoyer` | main.py:14-22 | one strategy call adds exactly one delivery, to the given recipient, over the given channel |
| `Notification.NotificationContext.Notify` | main.py:30-33 | the loop extends the outbox by one delivery per recipient, in the recipients' order, and by nothing when no strategy is set; the strategy is unchanged |
| `ProjectModel.Initial` | main.py:117-129 | the state of a new project: all five counts 0, budget 0, version 1.0, the given context's strategy and outbox; the invariant holds |
| `ProjectModel.Step` | main.py:131-184 | the state after one call: the call's one list gains the new element at its end, or the budget, the critical path or the strategy is overwritten, and the outbox gains what `notify` sends; every call keeps the invariant (version = 1.0 + 0.1 per record, the k-th record carries 1.0 + 0.1·k, empty critical path), and only recording a change moves the version, by one tenth |
| `ProjectModel.StepGrows` | main.py:134-171 | no operation removes or reorders an element of any list or of the outbox, and none lowers the version |
| `ProjectModel.AddTaskNotifiesTeam` | main.py:134-138 | adding a task appends it at the end, notifies every current team member once in team order, and changes nothing else |
| `ProjectModel.AddMemberNotifiesOnlyNewcomer` | main.py:140-142 | adding a member appends it to the team and sends exactly one message, to the newcomer alone, whatever the team's size (none without a strategy); nothing else changes |
| `ProjectModel.SetBudgetOverwrites` | main.py:144-149 | the budget becomes the given amount, whatever its previous value or sign; no list changes; the whole team is notified in order |
| `ProjectModel.AddRiskAppends` | main.py:151-156 | adding a risk appends it at the end of the risks, notifies the team in order, and changes nothing else |
| `ProjectModel.AddMilestoneAppends` | main.py:158-162 | adding a milestone appends it at the end of the milestones, notifies the team in order, and changes nothing else |
| `ProjectModel.RecordChangeVersions` | main.py:164-171 | the change log grows by exactly one record; the record carries the description and the version from before the call; the version rises by one tenth; the team's message carries the version from after the call, so it differs from the record's |
| `ProjectModel.CriticalPathAlwaysEmpty` | main.py:179-181 | computing the critical path leaves it empty whatever the tasks and dependencies, and changes nothing else |
| `ProjectModel.NotifyOnlyRecipients` | main.py:183-184 | an explicit notification reaches exactly the given recipients, in order, and changes nothing else |
| `ProjectModel.NoStrategyIsSilent` | main.py:30-31 | without a strategy, no operation other than setting one sends anything |
| `ProjectModel.RunInv` | main.py:164-167 | any sequence of operations keeps the invariant |
| `ProjectModel.RunGrows` | main.py:121-171 | over any sequence of operations, every list only grows at its end and the version never decreases |
| `ProjectModel.StepCounts` | main.py:173-177 | one operation adds to the report's counts exactly what its kind adds: one task, member, risk, milestone or change, or nothing |
| `ProjectModel.RunCounts` | main.py:173-177 | after any sequence of operations, each count is the starting count plus the number of operations of that kind |
| `ProjectModel.RunVersion` | main.py:164-167 | after any sequence of operations, the version has risen by exactly one tenth per recorded change, whatever else was done |
| `ProjectModel.RunAddTasks` | main.py:134-135 | any sequence of task additions leaves the tasks as the old list followed by the added tasks, in call order |
| `ProjectModel.ChangeLogOrdered` | main.py:164-167 | in a valid state, record versions strictly increase along the log and are all below the current version |
| `Project.Projet.constructor` | main.py:109-129 | a new project has an empty fresh team, budget 0, version 1.0, empty lists and critical path, and the given context |
| `Project.Projet.SetNotificationStrategy` | main.py:131-132 | replaces the context's strategy and changes nothing else |
| `Project.Projet.AjouterTache` | main.py:134-138 | changes the tasks and the outbox exactly as `Step` does for adding a task |
| `Project.Projet.AjouterMembreEquipe` | main.py:140-142 | changes the team and the outbox exactly as `Step` does for adding a member; the project's own fields are untouched |
| `Project.Projet.DefinirBudget` | main.py:144-149 | changes the budget and the outbox exactly as `Step` does for setting the budget |
| `Project.Projet.AjouterRisque` | main.py:151-156 | changes the risks and the outbox exactly as `Step` does for adding a risk |
| `Project.Projet.AjouterJalon` | main.py:158-162 | changes the milestones and the outbox exactly as `Step` does for adding a milestone |
| `Project.Projet.EnregistrerChangement` | main.py:164-171 | changes the log, the version and the outbox exactly as `Step` does for recording a change |
| `Project.Projet.GenererRapportPerformance` | main.py:173-177 | the report carries the name, description, budget and version, and the counts of the current state; its version is 1.0 plus 0.1 per recorded change |
| `Project.Projet.CalculerCheminCritique` | main.py:179-181 | sets the critical path to empty and changes nothing else |
| `Project.Projet.Notifier` | main.py:183-184 | extends the outbox exactly as `Step` does for an explicit notification |
| `Demo.Exemple` | main.py:188-259 | the example run's report has counts 2, 2, 1, 1, 1, version 1.1 and budget 150000; the run sends exactly twelve e-mails, in order: the two arrival messages, then the budget, risk, milestone and change messages to both members, then one direct message to each member |
| `Demo.ExempleProjet` | main.py:188-233 | creating the project and adding the two tasks (one given a dependency) while the team is empty sends nothing and leaves two tasks, no member, version 1.0 |
| `Demo.ExempleArrivals` | main.py:235-237 | from an empty team, the two arrivals send exactly one message each, to the newcomer, in order |
| `Demo.ExempleBroadcasts` | main.py:239-251 | with both members on the team, the budget, risk, milestone and change messages each reach both, in team order; afterwards the counts are 2, 2, 1, 1, 1, the version 1.1 and the budget 150000 |
| `Demo.ExempleDirect` | main.py:257-259 | the two closing messages reach one member each, which completes the twelve-entry outbox |

## Left out

- Console output: the `print` in each strategy (main.py:16, main.py:22) is modelled only as an outbox entry. The `print` calls of the example block are not modelled.
- The text of messages and of the report. The f-strings of main.py:137-169 and main.py:174-176 are modelled as structured values. Rendering the budget and the version as decimal text is float formatting, and `1.0 + 0.1` drifts in binary floating point.
- Float arithmetic on the version (main.py:167): the model counts tenths exactly, so it does not reproduce values such as 1.2000000000000002.
- Date parsing in `Jalon` (main.py:88): a milestone is built from a `DateTime` value. Parsing "YYYY-MM-DD", and the parse error on a malformed string, are library behaviour and are not modelled.
- The clock reading in `Changement` (main.py:104) is a parameter of `EnregistrerChangement`.
- The abstract base class's `NotImplementedError` (main.py:7-10): the strategy is a datatype with the two concrete variants, so there is no abstract case.
- `Entities.Equipe.ObtenirMembres`: returns the roster as a value. In the source it returns the list object itself, so a caller who mutates the returned list changes the team. That aliasing is not modelled.
- Aliasing of the other lists: `Tache.dependances` and `Projet`'s `taches`, `risques`, `jalons` and `changements` are live Python lists, which any holder of a reference could mutate behind the object's back. In the model they are sequence values, changed only through the methods.
- Identity of risks, milestones and change records: they are datatypes, so two equal records are indistinguishable, while in the source they are distinct objects that could be told apart with `is` or mutated through a shared reference.
- The test at test_main.py:60 expects the word "rapport" in the report. None of the report's labels (main.py:174-176) contains it, so the test holds only if the name or description happens to contain it. It is not used as a property.
