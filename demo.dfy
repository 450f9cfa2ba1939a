/** The example run of main.py:188-259, without its console output: what a
    caller can prove from the contracts of the project's methods alone. */
module Demo {
  import opened Entities
  import opened Notification
  import opened ProjectModel
  import opened Project

  /** `now` stands for every clock reading the run makes. Adding the tasks
      before anyone joins the team sends nothing; afterwards each member
      addition reaches the newcomer only and every other notification reaches
      both members, twelve messages in all. */
  method Exemple(now: DateTime) returns (rapport: Report, envoyes: seq<Delivery>,
                                         membre1: Membre, membre2: Membre)
    ensures membre1.nom == "Ndeye coumba" && membre2.nom == "Awa"
    ensures rapport.counts == Counts(2, 2, 1, 1, 1)
    ensures rapport.version == INITIAL_VERSION + 1 && rapport.budget == 150000.0
    ensures envoyes == ExempleOutbox(membre1, membre2)
  {
    membre1 := new Membre("Ndeye coumba", "Chef de projet");
    membre2 := new Membre("Awa", "Directeur General");
    var projet, context;
    ghost var s2;
    projet, context, s2 := ExempleProjet(now, membre1, membre2);
    projet.AjouterMembreEquipe(membre1);
    ghost var s3 := projet.State();
    projet.AjouterMembreEquipe(membre2);
    ghost var s4 := projet.State();
    ExempleArrivals(s2, s3, s4, membre1, membre2);
    projet.DefinirBudget(150000.0);
    ghost var s5 := projet.State();
    var risque1 := Risque("Risque 1", 0.3, "Élevé");
    projet.AjouterRisque(risque1);
    ghost var s6 := projet.State();
    var jalon1 := Jalon("Jalon 1", DateTime(2024, 6, 1, 0));
    projet.AjouterJalon(jalon1);
    ghost var s7 := projet.State();
    projet.EnregistrerChangement("Modifier le nom du projet", now);
    ghost var s8 := projet.State();
    ExempleBroadcasts(s4, s5, s6, s7, s8, membre1, membre2, risque1, jalon1, now);

    rapport := projet.GenererRapportPerformance();

    projet.Notifier(Text("bonjour, comment allez-vous?"), [membre1]);
    ghost var s9 := projet.State();
    projet.Notifier(Text("bonjour, ce message est important"), [membre2]);
    ghost var s10 := projet.State();
    envoyes := context.outbox;
    ExempleDirect(s8, s9, s10, membre1, membre2);
  }

  /** The first part of the run: the project and its two tasks, one of them
      with a dependency, added while the team is still empty. `s2` is the
      abstract state it leaves the project in. */
  method ExempleProjet(now: DateTime, membre1: Membre, membre2: Membre)
    returns (projet: Projet, context: NotificationContext, ghost s2: ProjectState)
    ensures fresh(projet) && fresh(projet.equipe) && fresh(context)
    ensures projet.notificationContext == context && projet.Valid() && projet.State() == s2
    ensures s2.outbox == [] && s2.membres == [] && s2.strategy == Some(Email)
    ensures s2.version == INITIAL_VERSION && CountsOf(s2) == Counts(2, 0, 0, 0, 0)
  {
    context := new NotificationContext(Some(Email));
    projet := new Projet("MQP", "Mesure Qualité et Performance Logicielle",
                         now, DateTime(2024, 12, 31, 0), context);

    var tache1 := new Tache("PartieA", "Classes Principales ", now, DateTime(2024, 6, 5, 0),
                            membre1, "En cours");
    var tache2 := new Tache("PartieB", "Test, Mesure et Qualité du code", now,
                            DateTime(2024, 6, 5, 0), membre2, "En cours");
    ghost var s0 := projet.State();
    projet.AjouterTache(tache1);
    ghost var s1 := projet.State();
    projet.AjouterTache(tache2);
    s2 := projet.State();

    var tacheDependante := new Tache("Tâche Dépendante", "Description de la tâche dépendante",
                                     now, DateTime(2024, 5, 1, 0), membre1, "En cours");
    tache1.AjouterDependance(tacheDependante);
  }

  /** The twelve messages of the example run, in the order they are sent: the
      two arrival messages, then the budget, the risk, the milestone and the
      change, each to both members, then one direct message to each. */
  function ExempleOutbox(m1: Membre, m2: Membre): seq<Delivery>
  {
    [Delivery(Email, m1, MemberAdded(m1.nom)), Delivery(Email, m2, MemberAdded(m2.nom)),
     Delivery(Email, m1, BudgetSet(150000.0)), Delivery(Email, m2, BudgetSet(150000.0)),
     Delivery(Email, m1, RiskAdded("Risque 1")), Delivery(Email, m2, RiskAdded("Risque 1")),
     Delivery(Email, m1, MilestoneAdded("Jalon 1")), Delivery(Email, m2, MilestoneAdded("Jalon 1")),
     Delivery(Email, m1, ChangeRecorded("Modifier le nom du projet", INITIAL_VERSION + 1)),
     Delivery(Email, m2, ChangeRecorded("Modifier le nom du projet", INITIAL_VERSION + 1)),
     Delivery(Email, m1, Text("bonjour, comment allez-vous?")),
     Delivery(Email, m2, Text("bonjour, ce message est important"))]
  }

  /** With the team still empty, each arrival reaches the newcomer alone. */
  lemma ExempleArrivals(s2: ProjectState, s3: ProjectState, s4: ProjectState, m1: Membre, m2: Membre)
    requires s2.outbox == [] && s2.membres == [] && s2.strategy == Some(Email)
    requires s2.version == INITIAL_VERSION && CountsOf(s2) == Counts(2, 0, 0, 0, 0)
    requires s3 == Step(s2, AddMember(m1)) && s4 == Step(s3, AddMember(m2))
    ensures s4.outbox == [Delivery(Email, m1, MemberAdded(m1.nom)), Delivery(Email, m2, MemberAdded(m2.nom))]
    ensures s4.membres == [m1, m2] && s4.strategy == Some(Email) && s4.version == INITIAL_VERSION
    ensures CountsOf(s4) == Counts(2, 2, 0, 0, 0)
  {
    AddMemberNotifiesOnlyNewcomer(s2, m1);
    AddMemberNotifiesOnlyNewcomer(s3, m2);
  }

  /** With both members on the team, the budget, the risk, the milestone and
      the change each reach both of them, in team order. */
  lemma ExempleBroadcasts(s4: ProjectState, s5: ProjectState, s6: ProjectState, s7: ProjectState,
                          s8: ProjectState, m1: Membre, m2: Membre, r: Risque, j: Jalon, now: DateTime)
    requires s4.membres == [m1, m2] && s4.strategy == Some(Email) && s4.version == INITIAL_VERSION
    requires CountsOf(s4) == Counts(2, 2, 0, 0, 0)
    requires s4.outbox == [Delivery(Email, m1, MemberAdded(m1.nom)), Delivery(Email, m2, MemberAdded(m2.nom))]
    requires r.description == "Risque 1" && j.nom == "Jalon 1"
    requires s5 == Step(s4, SetBudget(150000.0))
    requires s6 == Step(s5, AddRisk(r)) && s7 == Step(s6, AddMilestone(j))
    requires s8 == Step(s7, RecordChange("Modifier le nom du projet", now))
    ensures CountsOf(s8) == Counts(2, 2, 1, 1, 1) && s8.version == INITIAL_VERSION + 1 && s8.budget == 150000.0
    ensures s8.membres == [m1, m2] && s8.strategy == Some(Email)
    ensures s8.outbox == ExempleOutbox(m1, m2)[..10]
  {
    DeliveriesPair(Email, BudgetSet(150000.0), m1, m2);
    DeliveriesPair(Email, RiskAdded("Risque 1"), m1, m2);
    DeliveriesPair(Email, MilestoneAdded("Jalon 1"), m1, m2);
    DeliveriesPair(Email, ChangeRecorded("Modifier le nom du projet", INITIAL_VERSION + 1), m1, m2);
  }

  /** The two closing messages reach one member each. */
  lemma ExempleDirect(s8: ProjectState, s9: ProjectState, s10: ProjectState, m1: Membre, m2: Membre)
    requires s8.strategy == Some(Email) && s8.outbox == ExempleOutbox(m1, m2)[..10]
    requires s9 == Step(s8, ExplicitNotify(Text("bonjour, comment allez-vous?"), [m1]))
    requires s10 == Step(s9, ExplicitNotify(Text("bonjour, ce message est important"), [m2]))
    ensures s10.outbox == ExempleOutbox(m1, m2)
  {
    assert s10.outbox == s8.outbox + [Delivery(Email, m1, Text("bonjour, comment allez-vous?")),
                                      Delivery(Email, m2, Text("bonjour, ce message est important"))];
  }

  /** Notifying two members over one channel sends one delivery to each, in order. */
  lemma DeliveriesPair(c: Channel, message: Message, m1: Membre, m2: Membre)
    ensures Deliveries(Some(c), message, [m1, m2]) == [Delivery(c, m1, message), Delivery(c, m2, message)]
  {
    DeliveriesOnePerRecipient(Some(c), message, [m1, m2]);
  }
}
