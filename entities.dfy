/** The entities of the project tracker: members, tasks, the team, and the
    value records for risks, milestones and change-log entries (main.py:36-104). */
module Entities {

  /** A calendar date and time of day, to the second: an uninterpreted record
      that is stored and handed back, never parsed, compared or computed on.
      Sub-second precision is not kept. */
  datatype DateTime = DateTime(year: int, month: int, day: int, secondOfDay: int)

  /** A team member. Members are shared by reference between the team, the
      tasks they own and the notifications addressed to them. */
  class Membre {
    const nom: string
    const role: string

    constructor (nom: string, role: string)
      ensures this.nom == nom && this.role == role
    {
      this.nom := nom;
      this.role := role;
    }

    /** The display form "nom (role)": the name, then the role in parentheses. */
    function ToString(): (r: string)
      ensures |r| == |nom| + |role| + 3
      ensures r[..|nom|] == nom && r[|nom|..|nom| + 2] == " ("
      ensures r[|nom| + 2..|r| - 1] == role && r[|r| - 1] == ')'
    {
      nom + " (" + role + ")"
    }
  }

  /** A work item. Its status is overwritten and its dependencies grow after
      construction; everything else is fixed when it is created. */
  class Tache {
    const nom: string
    const description: string
    const dateDebut: DateTime
    const dateFin: DateTime
    const responsable: Membre
    var statut: string
    var dependances: seq<Tache>

    constructor (nom: string, description: string, dateDebut: DateTime, dateFin: DateTime,
                 responsable: Membre, statut: string)
      ensures this.nom == nom && this.description == description
      ensures this.dateDebut == dateDebut && this.dateFin == dateFin
      ensures this.responsable == responsable && this.statut == statut
      ensures dependances == []
    {
      this.nom := nom;
      this.description := description;
      this.dateDebut := dateDebut;
      this.dateFin := dateFin;
      this.responsable := responsable;
      this.statut := statut;
      dependances := [];
    }

    /** Appends any task, itself or one already listed included: there is no
        cycle check and no duplicate check. The status is left alone. */
    method AjouterDependance(tache: Tache)
      modifies this`dependances
      ensures dependances == old(dependances) + [tache]
    {
      dependances := dependances + [tache];
    }

    /** Overwrites the status with any string: there is no transition table.
        The dependencies are left alone. */
    method MettreAJourStatut(statut: string)
      modifies this`statut
      ensures this.statut == statut
    {
      this.statut := statut;
    }
  }

  /** The team: an ordered roster that only grows, duplicates allowed. */
  class Equipe {
    var membres: seq<Membre>

    constructor ()
      ensures membres == []
    {
      membres := [];
    }

    method AjouterMembre(membre: Membre)
      modifies this
      ensures membres == old(membres) + [membre]
    {
      membres := membres + [membre];
    }

    /** The roster in insertion order. */
    method ObtenirMembres() returns (r: seq<Membre>)
      ensures r == membres
    {
      r := membres;
    }
  }

  /** A risk; the probability is stored as given, without a range check. */
  datatype Risque = Risque(description: string, probabilite: real, impact: string)

  /** A named milestone at a date. */
  datatype Jalon = Jalon(nom: string, date: DateTime)

  /** A change-log entry: a description, the project version (in tenths) in
      force when it was recorded, and the clock reading at that moment. */
  datatype Changement = Changement(description: string, version: int, date: DateTime)
}
