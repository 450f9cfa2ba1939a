/** The project aggregate as the source has it: an object whose methods
    append to its lists or overwrite its fields in place and then notify
    (main.py:107-184). Each method is proved to take the abstract state
    `State()` to `Step(old(State()), op)`; module ProjectModel states what that
    means. */
module Project {
  import opened Entities
  import opened Notification
  import opened ProjectModel

  /** The performance report's content: name, description, budget, version
      (in tenths) and the five counts. Its layout as text is not modelled. */
  datatype Report = Report(nom: string, description: string, budget: real, version: int, counts: Counts)

  class Projet {
    const nom: string
    const description: string
    const dateDebut: DateTime
    const dateFin: DateTime
    var taches: seq<Tache>
    const equipe: Equipe
    var budget: real
    var risques: seq<Risque>
    var jalons: seq<Jalon>
    var version: int
    var changements: seq<Changement>
    var cheminCritique: seq<Tache>
    /** Passed in by the caller, so it may be shared with other projects. */
    const notificationContext: NotificationContext

    /** The abstract value of the project, its team and its context. */
    ghost function State(): ProjectState
      reads this, equipe, notificationContext
    {
      ProjectState(taches, equipe.membres, budget, risques, jalons, version, changements,
                   cheminCritique, notificationContext.strategy, notificationContext.outbox)
    }

    ghost predicate Valid()
      reads this, equipe, notificationContext
    {
      Inv(State())
    }

    constructor (nom: string, description: string, dateDebut: DateTime, dateFin: DateTime,
                 notificationContext: NotificationContext)
      ensures this.nom == nom && this.description == description
      ensures this.dateDebut == dateDebut && this.dateFin == dateFin
      ensures this.notificationContext == notificationContext && fresh(equipe)
      ensures Valid()
      ensures State() == Initial(notificationContext.strategy, notificationContext.outbox)
    {
      this.nom := nom;
      this.description := description;
      this.dateDebut := dateDebut;
      this.dateFin := dateFin;
      taches := [];
      equipe := new Equipe();
      budget := 0.0;
      risques := [];
      jalons := [];
      version := INITIAL_VERSION;
      changements := [];
      cheminCritique := [];
      this.notificationContext := notificationContext;
    }

    method SetNotificationStrategy(strategy: Option<Channel>)
      requires Valid()
      modifies notificationContext`strategy
      ensures Valid()
      ensures State() == Step(old(State()), SetStrategy(strategy))
    {
      notificationContext.strategy := strategy;
    }

    method AjouterTache(tache: Tache)
      requires Valid()
      modifies this`taches, notificationContext`outbox
      ensures Valid()
      ensures State() == Step(old(State()), AddTask(tache))
    {
      taches := taches + [tache];
      var membres := equipe.ObtenirMembres();
      Notifier(TaskAdded(tache.nom), membres);
    }

    method AjouterMembreEquipe(membre: Membre)
      requires Valid()
      modifies equipe, notificationContext`outbox
      ensures Valid()
      ensures State() == Step(old(State()), AddMember(membre))
    {
      equipe.AjouterMembre(membre);
      Notifier(MemberAdded(membre.nom), [membre]);
    }

    method DefinirBudget(budget: real)
      requires Valid()
      modifies this`budget, notificationContext`outbox
      ensures Valid()
      ensures State() == Step(old(State()), SetBudget(budget))
    {
      this.budget := budget;
      var membres := equipe.ObtenirMembres();
      Notifier(BudgetSet(budget), membres);
    }

    method AjouterRisque(risque: Risque)
      requires Valid()
      modifies this`risques, notificationContext`outbox
      ensures Valid()
      ensures State() == Step(old(State()), AddRisk(risque))
    {
      risques := risques + [risque];
      var membres := equipe.ObtenirMembres();
      Notifier(RiskAdded(risque.description), membres);
    }

    method AjouterJalon(jalon: Jalon)
      requires Valid()
      modifies this`jalons, notificationContext`outbox
      ensures Valid()
      ensures State() == Step(old(State()), AddMilestone(jalon))
    {
      jalons := jalons + [jalon];
      var membres := equipe.ObtenirMembres();
      Notifier(MilestoneAdded(jalon.nom), membres);
    }

    /** `now` is the clock reading the new record is stamped with. */
    method EnregistrerChangement(description: string, now: DateTime)
      requires Valid()
      modifies this`changements, this`version, notificationContext`outbox
      ensures Valid()
      ensures State() == Step(old(State()), RecordChange(description, now))
    {
      var changement := Changement(description, version, now);
      changements := changements + [changement];
      version := version + 1;
      var membres := equipe.ObtenirMembres();
      Notifier(ChangeRecorded(description, version), membres);
    }

    /** The report's content, read off the current state. */
    function GenererRapportPerformance(): (r: Report)
      requires Valid()
      reads this, equipe, notificationContext
      ensures r.nom == nom && r.description == description
      ensures r.budget == budget && r.version == version
      ensures r.counts == CountsOf(State())
      ensures r.version == INITIAL_VERSION + r.counts.changements
    {
      Report(nom, description, budget, version,
             Counts(|taches|, |equipe.membres|, |risques|, |jalons|, |changements|))
    }

    method CalculerCheminCritique()
      requires Valid()
      modifies this`cheminCritique
      ensures Valid()
      ensures State() == Step(old(State()), ComputeCriticalPath)
    {
      cheminCritique := [];
    }

    method Notifier(message: Message, destinataires: seq<Membre>)
      requires Valid()
      modifies notificationContext`outbox
      ensures Valid()
      ensures State() == Step(old(State()), ExplicitNotify(message, destinataires))
    {
      notificationContext.Notify(message, destinataires);
    }
  }
}
