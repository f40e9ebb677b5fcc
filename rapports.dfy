/**
 * The reports screen: counters over the stored actions, team and meeting
 * topics, the period label, and the résumé ratios of the spreadsheet report.
 */
module Rapports {
  import opened Wrappers
  import opened Text
  import opened Records
  import opened Types
  import opened Rounding

  datatype ActionsStats = ActionsStats(total: nat, terminees: nat, enCours: nat, enRetard: nat, nouvelles: nat)
  datatype EquipeStats = EquipeStats(membres: nat, actionsParMembre: int, tauxCompletion: int, performance: int)
  datatype ReunionsStats = ReunionsStats(totalSujets: nat, sujetsOuverts: nat, sujetsEnCours: nat, sujetsFermes: nat)

  /** `rapportData`. */
  datatype RapportData = RapportData(actions: ActionsStats, equipe: EquipeStats, reunions: ReunionsStats)

  predicate ActionTerminee(a: Action) { a.data.statut == ActionStatut.Termine }
  predicate ActionEnCours(a: Action) { a.data.statut == ActionStatut.EnCours }
  predicate ActionEnRetard(a: Action) { a.data.statut == ActionStatut.EnRetard }

  /**
   * An action created at or after `since`: `parseTime` stands for `new Date(..)`
   * (`None` for an invalid date, which compares false) and `since` for the
   * instant one week before now.
   */
  predicate CreatedSince(a: Action, parseTime: string -> Option<int>, since: int) {
    parseTime(a.data.dateCreation).Some? && parseTime(a.data.dateCreation).value >= since
  }

  /** The action counters: three disjoint statuses never exceed the total, nor do the recent actions. */
  function ActionsSummary(actions: seq<Action>, parseTime: string -> Option<int>, since: int): (r: ActionsStats)
    ensures r.total == |actions|
    ensures r.terminees == Count(actions, ActionTerminee)
    ensures r.enCours == Count(actions, ActionEnCours)
    ensures r.enRetard == Count(actions, ActionEnRetard)
    ensures r.terminees + r.enCours + r.enRetard <= r.total
    ensures r.nouvelles <= r.total
  {
    CountThree(actions, ActionTerminee, ActionEnCours, ActionEnRetard);
    ActionsStats(|actions|, Count(actions, ActionTerminee), Count(actions, ActionEnCours),
                 Count(actions, ActionEnRetard), Count(actions, a => CreatedSince(a, parseTime, since)))
  }

  /**
   * The team counters: with no member every figure is 0; otherwise actions
   * per member is the rounded quotient, and completion and performance are
   * the same rounded mean completion percentage.
   */
  function EquipeSummary(actions: seq<Action>, membres: seq<Membre>): (r: EquipeStats)
    ensures r.membres == |membres|
    ensures membres == [] ==> r.actionsParMembre == 0 && r.tauxCompletion == 0 && r.performance == 0
    ensures membres != [] ==> r.actionsParMembre == RoundReal(|actions| as real / |membres| as real)
    ensures membres != [] ==> r.tauxCompletion == MeanCompletion(membres).value
    ensures r.tauxCompletion == r.performance
    ensures r.actionsParMembre >= 0
    ensures ConsistentCounters(membres) ==> 0 <= r.tauxCompletion <= 100
  {
    if membres == [] then EquipeStats(0, 0, 0, 0)
    else
      RoundDivIsRoundReal(|actions|, |membres|);
      RoundDivNonNegative(|actions|, |membres|);
      var mean := MeanCompletion(membres).value;
      EquipeStats(|membres|, RoundDiv(|actions|, |membres|), mean, mean)
  }

  /** A non-negative quotient rounds to a non-negative integer. */
  lemma RoundDivNonNegative(p: nat, q: nat)
    requires q > 0
    ensures RoundDiv(p, q) >= 0
  {
    RoundDivRange(p, q, p);
  }

  predicate SujetOuvert(s: SujetReunion) { s.data.statut == Ouvert }
  predicate SujetEnCours(s: SujetReunion) { s.data.statut == SujetStatut.EnCours }
  predicate SujetFerme(s: SujetReunion) { s.data.statut == Ferme }

  /**
   * The meeting counters over the manager topics followed by the team topics;
   * every topic has one of the three statuses, so the counts add up to the total.
   */
  function ReunionsSummary(manager: seq<SujetReunion>, equipe: seq<SujetReunion>): (r: ReunionsStats)
    ensures r.totalSujets == |manager| + |equipe|
    ensures r.sujetsOuverts == Count(manager, SujetOuvert) + Count(equipe, SujetOuvert)
    ensures r.sujetsFermes == Count(manager, SujetFerme) + Count(equipe, SujetFerme)
    ensures r.sujetsOuverts + r.sujetsEnCours + r.sujetsFermes == r.totalSujets
  {
    var all := manager + equipe;
    CountThree(all, SujetOuvert, SujetEnCours, SujetFerme);
    FilterConcat(manager, equipe, SujetOuvert);
    FilterConcat(manager, equipe, SujetFerme);
    ReunionsStats(|all|, Count(all, SujetOuvert), Count(all, SujetEnCours), Count(all, SujetFerme))
  }

  function ComputeRapportData(actions: seq<Action>, membres: seq<Membre>, manager: seq<SujetReunion>,
                              equipe: seq<SujetReunion>, parseTime: string -> Option<int>, since: int): RapportData
  {
    RapportData(ActionsSummary(actions, parseTime, since), EquipeSummary(actions, membres),
                ReunionsSummary(manager, equipe))
  }

  /** `getPeriodLabel`: the four periods of the select, and "Ce mois" for anything else. */
  function PeriodLabel(period: string): (text: string)
    ensures period == "week" ==> text == "Cette semaine"
    ensures period == "month" ==> text == "Ce mois"
    ensures period == "quarter" ==> text == "Ce trimestre"
    ensures period == "year" ==> text == "Cette année"
    ensures period != "week" && period != "quarter" && period != "year" ==> text == "Ce mois"
  {
    if period == "week" then "Cette semaine"
    else if period == "month" then "Ce mois"
    else if period == "quarter" then "Ce trimestre"
    else if period == "year" then "Cette année"
    else "Ce mois"
  }

  /**
   * `Math.round((part / total) * 100)` on counts: `None` stands for the `NaN`
   * of a zero total; otherwise the rounded percentage, within [0, 100] for a
   * part of the total.
   */
  function Percent(part: nat, total: nat): (r: Option<int>)
    ensures r.None? <==> total == 0
    ensures r.Some? ==> r.value == RoundReal((part as real / total as real) * 100.0)
    ensures r.Some? && part <= total ==> 0 <= r.value <= 100
  {
    if total == 0 then None
    else
      RoundDivIsRoundReal(100 * part, total);
      PercentScaling(part, total);
      if part <= total then
        RoundDivRange(100 * part, total, 100);
        Some(RoundDiv(100 * part, total))
      else
        Some(RoundDiv(100 * part, total))
  }

  /** `(part / total) * 100` is `(100 part) / total`. */
  lemma PercentScaling(part: nat, total: nat)
    requires total > 0
    ensures (100 * part) as real / total as real == (part as real / total as real) * 100.0
  {
    var q := part as real / total as real;
    assert q * total as real == part as real;
    assert (q * 100.0) * total as real == (100 * part) as real;
  }

  /** The "Résumé" sheet: the actions completion rate, the team performance and the topics closing rate. */
  datatype Resume = Resume(tauxCompletionActions: Option<int>, performanceEquipe: int, tauxFermeture: Option<int>)

  function ResumeOf(d: RapportData): Resume {
    Resume(Percent(d.actions.terminees, d.actions.total), d.equipe.performance,
           Percent(d.reunions.sujetsFermes, d.reunions.totalSujets))
  }

  /**
   * The résumé rates of computed report data are defined exactly when there
   * is an action, respectively a topic, and then lie in [0, 100].
   */
  lemma ResumeRates(actions: seq<Action>, membres: seq<Membre>, manager: seq<SujetReunion>,
                    equipe: seq<SujetReunion>, parseTime: string -> Option<int>, since: int)
    ensures var r := ResumeOf(ComputeRapportData(actions, membres, manager, equipe, parseTime, since));
      (r.tauxCompletionActions.Some? <==> actions != []) &&
      (r.tauxCompletionActions.Some? ==> 0 <= r.tauxCompletionActions.value <= 100) &&
      (r.tauxFermeture.Some? <==> manager + equipe != []) &&
      (r.tauxFermeture.Some? ==> 0 <= r.tauxFermeture.value <= 100)
  {
    var d := ComputeRapportData(actions, membres, manager, equipe, parseTime, since);
    assert d.actions.terminees <= d.actions.total;
    assert d.reunions.sujetsFermes <= d.reunions.totalSujets;
  }

  /** The report's file name: `Rapport_Analytics_<period>_<date><extension>`. */
  function ReportFileName(period: string, nowIso: string, extension: string): string {
    "Rapport_Analytics_" + period + "_" + DatePart(nowIso) + extension
  }
}
