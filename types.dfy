/**
 * The entities of the dashboard. Each entity is a `Rec(id, data)` whose `data`
 * is the entity without its identifier, the shape every form emits and every
 * save handler completes with an id. Closed string unions become datatypes
 * whose labels are the strings the screens display and filter on.
 */
module Types {
  import opened Wrappers
  import opened Records
  import opened Rounding

  // ---------------------------------------------------------------- actions

  datatype ActionStatut = EnCours | Termine | EnRetard | AFaire
  datatype Priorite = Haute | Moyenne | Basse

  function ActionStatutLabel(s: ActionStatut): string {
    match s
    case EnCours => "En cours"
    case Termine => "Terminé"
    case EnRetard => "En retard"
    case AFaire => "À faire"
  }

  function PrioriteLabel(p: Priorite): string {
    match p
    case Haute => "Haute"
    case Moyenne => "Moyenne"
    case Basse => "Basse"
  }

  datatype ActionData = ActionData(
    titre: string,
    description: string,
    responsable: string,
    statut: ActionStatut,
    priorite: Priorite,
    dateCreation: string,
    dateEcheance: string,
    origine: string,
    observations: string,
    progression: int)

  type Action = Rec<ActionData>

  // ----------------------------------------------------------------- emails

  /** `actionAssociee` is an optional property of the source record. */
  datatype EmailData = EmailData(
    expediteur: string,
    destinataire: string,
    sujet: string,
    contenu: string,
    dateReception: string,
    actionAssociee: Option<string>,
    traite: bool)

  type Email = Rec<EmailData>

  // --------------------------------------------------------- meeting topics

  datatype SujetStatut = Ouvert | EnCours | Ferme
  datatype TypeReunion = Manager | Equipe

  function SujetStatutLabel(s: SujetStatut): string {
    match s
    case Ouvert => "Ouvert"
    case EnCours => "En cours"
    case Ferme => "Fermé"
  }

  function TypeReunionLabel(t: TypeReunion): string {
    match t
    case Manager => "Manager"
    case Equipe => "Équipe"
  }

  datatype SujetData = SujetData(
    titre: string,
    description: string,
    statut: SujetStatut,
    responsable: string,
    dateReunion: string,
    typeReunion: TypeReunion,
    actions: seq<string>,
    notes: string)

  type SujetReunion = Rec<SujetData>

  // ----------------------------------------------------------- team members

  /** The two counters are JavaScript numbers parsed from text inputs, so they may be negative. */
  datatype MembreData = MembreData(
    nom: string,
    prenom: string,
    email: string,
    poste: string,
    actionsAssignees: int,
    actionsTerminees: int)

  type Membre = Rec<MembreData>

  /**
   * The completion ratio of a member as a percentage, dividing by one when no
   * action is assigned (`(terminees / (assignees || 1)) * 100`).
   */
  function CompletionPercent(m: MembreData): (r: real)
    ensures m.actionsAssignees == 0 ==> r == m.actionsTerminees as real * 100.0
    ensures 0 <= m.actionsTerminees <= m.actionsAssignees ==> 0.0 <= r <= 100.0
  {
    var divisor := if m.actionsAssignees == 0 then 1 else m.actionsAssignees;
    QuotientAtMostOne(m.actionsTerminees, divisor);
    (m.actionsTerminees as real / divisor as real) * 100.0
  }

  /** A quotient of a non-negative integer by a larger positive one lies in [0, 1]. */
  lemma QuotientAtMostOne(t: int, d: int)
    requires d != 0
    ensures 0 <= t <= d ==> 0.0 <= t as real / d as real <= 1.0
  {
    if 0 <= t <= d {
      var q := t as real / d as real;
      assert q * d as real == t as real;
    }
  }

  /** Members whose counters are consistent: nothing negative, no more done than assigned. */
  predicate ConsistentCounters(membres: seq<Membre>) {
    forall i :: 0 <= i < |membres| ==> 0 <= membres[i].data.actionsTerminees <= membres[i].data.actionsAssignees
  }

  function Completion(m: Membre): real { CompletionPercent(m.data) }

  /**
   * The rounded mean completion percentage of a team, `None` for the `NaN`
   * an empty team gives; with consistent counters it lies in [0, 100].
   */
  function MeanCompletion(membres: seq<Membre>): (r: Option<int>)
    ensures r.None? <==> membres == []
    ensures r.Some? ==> r.value == RoundReal(SumReal(membres, Completion) / |membres| as real)
    ensures ConsistentCounters(membres) && r.Some? ==> 0 <= r.value <= 100
  {
    if membres == [] then None
    else
      var total := SumReal(membres, Completion);
      var n := |membres| as real;
      if ConsistentCounters(membres) then
        SumRealBounds(membres, Completion, 100.0);
        MeanWithin(total, n, 100.0);
        RoundRealRange(total / n, 100);
        Some(RoundReal(total / n))
      else
        Some(RoundReal(total / n))
  }

  /** A total between 0 and `k` per item averages to between 0 and `k`. */
  lemma MeanWithin(total: real, n: real, k: real)
    requires n > 0.0 && 0.0 <= total <= k * n
    ensures 0.0 <= total / n <= k
  {
    var m := total / n;
    assert m * n == total;
    if m > k {
      assert m * n > k * n;
    }
  }

  // ------------------------------------------------------ individual goals

  datatype ObjectifStatut = NonCommence | EnCours | Termine | EnRetard
  datatype ObjectifType = Strategique | Operationnel | Developpement
  datatype Trimestre = Q1 | Q2 | Q3 | Q4

  function ObjectifStatutLabel(s: ObjectifStatut): string {
    match s
    case NonCommence => "Non commencé"
    case EnCours => "En cours"
    case Termine => "Terminé"
    case EnRetard => "En retard"
  }

  function TrimestreLabel(t: Trimestre): string {
    match t
    case Q1 => "Q1"
    case Q2 => "Q2"
    case Q3 => "Q3"
    case Q4 => "Q4"
  }

  /** `typeObjectif` is the source's `type` property. */
  datatype ObjectifData = ObjectifData(
    titre: string,
    description: string,
    membreId: string,
    membreNom: string,
    dateCreation: string,
    dateEcheance: string,
    statut: ObjectifStatut,
    priorite: Priorite,
    progression: int,
    typeObjectif: ObjectifType,
    trimestre: Trimestre,
    notes: string,
    jalons: seq<string>)

  type Objectif = Rec<ObjectifData>

  /** Distinct statuses have distinct labels, so filtering on a label selects one status. */
  lemma LabelsInjective()
    ensures forall a, b :: ActionStatutLabel(a) == ActionStatutLabel(b) ==> a == b
    ensures forall a, b :: SujetStatutLabel(a) == SujetStatutLabel(b) ==> a == b
    ensures forall a, b :: ObjectifStatutLabel(a) == ObjectifStatutLabel(b) ==> a == b
    ensures forall a, b :: TrimestreLabel(a) == TrimestreLabel(b) ==> a == b
  {
  }
}
