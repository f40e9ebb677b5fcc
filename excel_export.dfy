/**
 * The spreadsheet exports: every entity list mapped row by row to records
 * with fixed column headers, the statistics sheet, the sheet and file names,
 * and the three-sheet workbook of the model update.
 */
module ExcelExport {
  import opened Wrappers
  import opened Text
  import opened Records
  import opened Types
  import opened Rounding
  import GestionEquipe

  /** A spreadsheet cell: text or a number. */
  datatype Cell = Str(text: string) | Num(value: int)

  /** One row: its (header, cell) pairs in column order, as the object literal lists them. */
  type Row = seq<(string, Cell)>

  datatype Sheet = Sheet(name: string, rows: seq<Row>)

  /** The sheets in the order they are appended, and the name the file is written under. */
  datatype Workbook = Workbook(sheets: seq<Sheet>, fileName: string)

  function Headers(row: Row): seq<string> {
    seq(|row|, i requires 0 <= i < |row| => row[i].0)
  }

  /** `array.map(f)` into rows. */
  function MapRows<T>(s: seq<T>, f: T -> Row): (rows: seq<Row>)
    ensures |rows| == |s|
    ensures forall i :: 0 <= i < |s| ==> rows[i] == f(s[i])
  {
    seq(|s|, i requires 0 <= i < |s| => f(s[i]))
  }

  /** `<prefix>_<date>.xlsx`, the date being that of the ISO timestamp `nowIso`. */
  function FileName(prefix: string, nowIso: string): string {
    prefix + "_" + DatePart(nowIso) + ".xlsx"
  }

  function YesNo(b: bool): (s: string)
    ensures s == "Oui" <==> b
    ensures s == "Non" <==> !b
  {
    if b then "Oui" else "Non"
  }

  // ------------------------------------------------------------ actions

  const ActionHeaders: seq<string> :=
    ["ID", "Titre", "Description", "Responsable", "Statut", "Priorité", "Date Création",
     "Date Échéance", "Origine", "Progression (%)", "Observations"]

  /** An action's row; `localeDate` stands for `new Date(..).toLocaleDateString('fr-FR')`. */
  function ActionRow(a: Action, localeDate: string -> string): (row: Row)
    ensures Headers(row) == ActionHeaders
    ensures row[0].1 == Str(a.id) && row[1].1 == Str(a.data.titre)
    ensures row[4].1 == Str(ActionStatutLabel(a.data.statut))
    ensures row[9].1 == Num(a.data.progression)
  {
    var d := a.data;
    [("ID", Str(a.id)), ("Titre", Str(d.titre)), ("Description", Str(d.description)),
     ("Responsable", Str(d.responsable)), ("Statut", Str(ActionStatutLabel(d.statut))),
     ("Priorité", Str(PrioriteLabel(d.priorite))), ("Date Création", Str(localeDate(d.dateCreation))),
     ("Date Échéance", Str(localeDate(d.dateEcheance))), ("Origine", Str(d.origine)),
     ("Progression (%)", Num(d.progression)), ("Observations", Str(d.observations))]
  }

  /** The "Actions" sheet: the row of each action, in order. */
  function ActionsSheet(actions: seq<Action>, localeDate: string -> string): (sh: Sheet)
    ensures sh.name == "Actions" && |sh.rows| == |actions|
    ensures sh.rows == MapRows(actions, a => ActionRow(a, localeDate))
  {
    Sheet("Actions", MapRows(actions, a => ActionRow(a, localeDate)))
  }

  /** The actions sheet has one row per action, in order, each with the eleven headers from ID to Observations. */
  lemma ActionsSheetShape(actions: seq<Action>, localeDate: string -> string)
    ensures var rows := ActionsSheet(actions, localeDate).rows;
      |rows| == |actions| &&
      forall i :: 0 <= i < |actions| ==>
        Headers(rows[i]) == ActionHeaders && rows[i][0].1 == Str(actions[i].id) &&
        rows[i][9].1 == Num(actions[i].data.progression)
  {
  }

  // ------------------------------------------------------------ team

  const MembreHeaders: seq<string> :=
    ["ID", "Prénom", "Nom", "Email", "Poste", "Actions Assignées", "Actions Terminées", "Performance (%)"]

  /** `Math.round((terminees / (assignees || 1)) * 100)`. */
  function ExportPerformance(m: MembreData): (r: int)
    ensures r == RoundReal(CompletionPercent(m))
    ensures 0 <= m.actionsTerminees <= m.actionsAssignees ==> 0 <= r <= 100
  {
    var p := CompletionPercent(m);
    if 0 <= m.actionsTerminees <= m.actionsAssignees then
      RoundRealRange(p, 100);
      RoundReal(p)
    else
      RoundReal(p)
  }

  /**
   * The export agrees with the team screen's performance whenever actions are
   * assigned; with none assigned but some completed the export shows
   * 100 times the completed count where the screen shows 0.
   */
  lemma ExportPerformanceVersusScreen(m: MembreData)
    ensures m.actionsAssignees != 0 ==> ExportPerformance(m) == GestionEquipe.CalculatePerformance(m)
    ensures m.actionsAssignees == 0 ==> ExportPerformance(m) == 100 * m.actionsTerminees
    ensures m.actionsAssignees == 0 && m.actionsTerminees > 0 ==>
      ExportPerformance(m) != GestionEquipe.CalculatePerformance(m)
  {
    if m.actionsAssignees == 0 {
      RoundUnique(m.actionsTerminees as real * 100.0, ExportPerformance(m), 100 * m.actionsTerminees);
    }
  }

  function MembreRow(m: Membre): (row: Row)
    ensures Headers(row) == MembreHeaders
    ensures row[0].1 == Str(m.id)
    ensures row[5].1 == Num(m.data.actionsAssignees) && row[6].1 == Num(m.data.actionsTerminees)
    ensures row[7].1 == Num(ExportPerformance(m.data))
  {
    var d := m.data;
    [("ID", Str(m.id)), ("Prénom", Str(d.prenom)), ("Nom", Str(d.nom)), ("Email", Str(d.email)),
     ("Poste", Str(d.poste)), ("Actions Assignées", Num(d.actionsAssignees)),
     ("Actions Terminées", Num(d.actionsTerminees)), ("Performance (%)", Num(ExportPerformance(d)))]
  }

  /** The "Équipe" sheet: the row of each member, in order. */
  function EquipeSheet(membres: seq<Membre>): (sh: Sheet)
    ensures sh.name == "Équipe" && |sh.rows| == |membres|
    ensures sh.rows == MapRows(membres, MembreRow)
  {
    Sheet("Équipe", MapRows(membres, MembreRow))
  }

  // ------------------------------------------------------------ emails

  const EmailHeaders: seq<string> :=
    ["ID", "Expéditeur", "Destinataire", "Sujet", "Date Réception", "Traité", "Action Associée", "Contenu"]

  /** `actionAssociee || 'N/A'`: the linked action's id, "N/A" when absent or empty. */
  function LinkedAction(e: EmailData): (s: string)
    ensures e.actionAssociee.Some? && e.actionAssociee.value != "" ==> s == e.actionAssociee.value
    ensures e.actionAssociee.None? || e.actionAssociee.value == "" ==> s == "N/A"
  {
    match e.actionAssociee
    case Some(id) => if id != "" then id else "N/A"
    case None => "N/A"
  }

  /** An email's row; `localeDateTime` stands for `new Date(..).toLocaleString('fr-FR')`. */
  function EmailRow(e: Email, localeDateTime: string -> string): (row: Row)
    ensures Headers(row) == EmailHeaders
    ensures row[0].1 == Str(e.id)
    ensures row[5].1 == Str("Oui") <==> e.data.traite
    ensures row[5].1 == Str("Non") <==> !e.data.traite
    ensures row[6].1 == Str(LinkedAction(e.data))
  {
    var d := e.data;
    [("ID", Str(e.id)), ("Expéditeur", Str(d.expediteur)), ("Destinataire", Str(d.destinataire)),
     ("Sujet", Str(d.sujet)), ("Date Réception", Str(localeDateTime(d.dateReception))),
     ("Traité", Str(YesNo(d.traite))), ("Action Associée", Str(LinkedAction(d))), ("Contenu", Str(d.contenu))]
  }

  /** The "Emails" sheet: the row of each e-mail, in order. */
  function EmailsSheet(emails: seq<Email>, localeDateTime: string -> string): (sh: Sheet)
    ensures sh.name == "Emails" && |sh.rows| == |emails|
    ensures sh.rows == MapRows(emails, e => EmailRow(e, localeDateTime))
  {
    Sheet("Emails", MapRows(emails, e => EmailRow(e, localeDateTime)))
  }

  // ------------------------------------------------------------ meeting topics

  const ManagerHeaders: seq<string> :=
    ["ID", "Titre", "Description", "Statut", "Responsable", "Date Réunion", "Type", "Actions Liées", "Notes"]

  const StandupHeaders: seq<string> :=
    ["ID", "Titre", "Description", "Statut", "Responsable", "Date Stand-up", "Actions Liées", "Notes"]

  /** `actions.join(', ')`. */
  function LinkedActions(s: SujetData): string {
    Join(s.actions, ", ")
  }

  /**
   * No linked action gives an empty cell and one gives its id; for a longer
   * list, cutting it anywhere gives the joined halves separated by ", ".
   */
  lemma LinkedActionsShape(s: SujetData)
    ensures s.actions == [] ==> LinkedActions(s) == ""
    ensures |s.actions| == 1 ==> LinkedActions(s) == s.actions[0]
    ensures forall k :: 0 < k < |s.actions| ==>
      LinkedActions(s) == Join(s.actions[..k], ", ") + ", " + Join(s.actions[k..], ", ")
    ensures |s.actions| == 2 ==> LinkedActions(s) == s.actions[0] + ", " + s.actions[1]
  {
    forall k | 0 < k < |s.actions|
      ensures LinkedActions(s) == Join(s.actions[..k], ", ") + ", " + Join(s.actions[k..], ", ")
    {
      JoinConcat(s.actions[..k], s.actions[k..], ", ");
      assert s.actions[..k] + s.actions[k..] == s.actions;
    }
    if |s.actions| == 2 {
      assert s.actions[..1] == [s.actions[0]] && s.actions[1..] == [s.actions[1]];
    }
  }

  function ManagerRow(r: SujetReunion, localeDateTime: string -> string): (row: Row)
    ensures Headers(row) == ManagerHeaders
    ensures row[6].1 == Str(TypeReunionLabel(r.data.typeReunion))
    ensures row[7].1 == Str(LinkedActions(r.data))
  {
    var d := r.data;
    [("ID", Str(r.id)), ("Titre", Str(d.titre)), ("Description", Str(d.description)),
     ("Statut", Str(SujetStatutLabel(d.statut))), ("Responsable", Str(d.responsable)),
     ("Date Réunion", Str(localeDateTime(d.dateReunion))), ("Type", Str(TypeReunionLabel(d.typeReunion))),
     ("Actions Liées", Str(LinkedActions(d))), ("Notes", Str(d.notes))]
  }

  function StandupRow(r: SujetReunion, localeDateTime: string -> string): (row: Row)
    ensures Headers(row) == StandupHeaders
    ensures row[6].1 == Str(LinkedActions(r.data))
  {
    var d := r.data;
    [("ID", Str(r.id)), ("Titre", Str(d.titre)), ("Description", Str(d.description)),
     ("Statut", Str(SujetStatutLabel(d.statut))), ("Responsable", Str(d.responsable)),
     ("Date Stand-up", Str(localeDateTime(d.dateReunion))), ("Actions Liées", Str(LinkedActions(d))),
     ("Notes", Str(d.notes))]
  }

  /** The "Réunions Manager" sheet: the row of each manager topic, in order. */
  function ManagerSheet(sujets: seq<SujetReunion>, localeDateTime: string -> string): (sh: Sheet)
    ensures sh.name == "Réunions Manager" && |sh.rows| == |sujets|
    ensures sh.rows == MapRows(sujets, r => ManagerRow(r, localeDateTime))
  {
    Sheet("Réunions Manager", MapRows(sujets, r => ManagerRow(r, localeDateTime)))
  }

  /** The "Stand-up Équipe" sheet: the row of each stand-up topic, in order. */
  function StandupSheet(sujets: seq<SujetReunion>, localeDateTime: string -> string): (sh: Sheet)
    ensures sh.name == "Stand-up Équipe" && |sh.rows| == |sujets|
    ensures sh.rows == MapRows(sujets, r => StandupRow(r, localeDateTime))
  {
    Sheet("Stand-up Équipe", MapRows(sujets, r => StandupRow(r, localeDateTime)))
  }

  /** The manager sheet has a Type column and the stand-up sheet none; otherwise only the date header differs. */
  lemma MeetingSheetsColumns()
    ensures "Type" in ManagerHeaders && "Type" !in StandupHeaders
    ensures |ManagerHeaders| == |StandupHeaders| + 1
    ensures ManagerHeaders[..5] == StandupHeaders[..5] && ManagerHeaders[7..] == StandupHeaders[6..]
  {
  }

  // ------------------------------------------------------------ statistics

  const StatsHeaders: seq<string> := ["Métrique", "Valeur", "Détails"]

  function StatsRow(metric: string, value: int, details: string): (row: Row)
    ensures Headers(row) == StatsHeaders
  {
    [("Métrique", Str(metric)), ("Valeur", Num(value)), ("Détails", Str(details))]
  }

  predicate ActionTerminee(a: Action) { a.data.statut == ActionStatut.Termine }
  predicate ActionEnCours(a: Action) { a.data.statut == ActionStatut.EnCours }
  predicate EmailTraite(e: Email) { e.data.traite }
  predicate EmailNonTraite(e: Email) { !e.data.traite }
  predicate SujetOuvert(s: SujetReunion) { s.data.statut == Ouvert }
  predicate SujetFerme(s: SujetReunion) { s.data.statut == Ferme }

  /** "n ouverts, m fermés" for a list of topics. */
  function TopicDetails(sujets: seq<SujetReunion>): string {
    IntToString(Count(sujets, SujetOuvert)) + " ouverts, " + IntToString(Count(sujets, SujetFerme)) + " fermés"
  }

  /** "Performance moyenne: p%", where an empty team prints the `NaN` of its unguarded mean. */
  function PerformanceDetails(membres: seq<Membre>): (s: string)
    ensures membres == [] ==> s == "Performance moyenne: NaN%"
    ensures membres != [] ==> s == "Performance moyenne: " + IntToString(MeanCompletion(membres).value) + "%"
  {
    var mean := match MeanCompletion(membres)
      case Some(v) => IntToString(v)
      case None => "NaN";
    "Performance moyenne: " + mean + "%"
  }

  function EmailDetails(emails: seq<Email>): string {
    IntToString(Count(emails, EmailTraite)) + " traités, " + IntToString(Count(emails, EmailNonTraite)) + " non traités"
  }

  /** "n terminées, m en cours" for a list of actions. */
  function ActionDetails(actions: seq<Action>): string {
    IntToString(Count(actions, ActionTerminee)) + " terminées, " + IntToString(Count(actions, ActionEnCours)) + " en cours"
  }

  /** The five statistics rows: one per list, its length as the value. */
  function StatsRows(actions: seq<Action>, membres: seq<Membre>, emails: seq<Email>,
                     manager: seq<SujetReunion>, equipe: seq<SujetReunion>): (rows: seq<Row>)
    ensures |rows| == 5
    ensures Headers(rows[0]) == Headers(rows[1]) == Headers(rows[2]) == Headers(rows[3]) == Headers(rows[4]) == StatsHeaders
    ensures rows[0][1].1 == Num(|actions|) && rows[1][1].1 == Num(|membres|) && rows[2][1].1 == Num(|emails|)
    ensures rows[3][1].1 == Num(|manager|) && rows[4][1].1 == Num(|equipe|)
    ensures rows[1][2].1 == Str(PerformanceDetails(membres)) && rows[2][2].1 == Str(EmailDetails(emails))
  {
    var r0 := StatsRow("Total Actions", |actions|, ActionDetails(actions));
    var r1 := StatsRow("Total Membres Équipe", |membres|, PerformanceDetails(membres));
    var r2 := StatsRow("Total Emails", |emails|, EmailDetails(emails));
    var r3 := StatsRow("Sujets Réunions Manager", |manager|, TopicDetails(manager));
    var r4 := StatsRow("Sujets Stand-up Équipe", |equipe|, TopicDetails(equipe));
    [r0, r1, r2, r3, r4]
  }

  /** The two figures of the emails detail add up to the number of emails. */
  lemma EmailDetailsAddUp(emails: seq<Email>)
    ensures exists traites: nat, nonTraites: nat ::
      EmailDetails(emails) == IntToString(traites) + " traités, " + IntToString(nonTraites) + " non traités" &&
      traites + nonTraites == |emails|
  {
    CountComplement(emails, EmailTraite, EmailNonTraite);
    var traites, nonTraites := Count(emails, EmailTraite), Count(emails, EmailNonTraite);
    assert EmailDetails(emails) == IntToString(traites) + " traités, " + IntToString(nonTraites) + " non traités";
  }

  // ------------------------------------------------------------ workbooks

  /** The "Statistiques" sheet. */
  function StatsSheet(actions: seq<Action>, membres: seq<Membre>, emails: seq<Email>,
                      manager: seq<SujetReunion>, equipe: seq<SujetReunion>): Sheet {
    Sheet("Statistiques", StatsRows(actions, membres, emails, manager, equipe))
  }

  /** `exportAllData`: six sheets in a fixed order, written under a dated name. */
  function ExportAllData(actions: seq<Action>, membres: seq<Membre>, emails: seq<Email>,
                         manager: seq<SujetReunion>, equipe: seq<SujetReunion>,
                         localeDate: string -> string, localeDateTime: string -> string, nowIso: string): (w: Workbook)
    ensures w.sheets == [ActionsSheet(actions, localeDate), EquipeSheet(membres), EmailsSheet(emails, localeDateTime),
                         ManagerSheet(manager, localeDateTime), StandupSheet(equipe, localeDateTime),
                         StatsSheet(actions, membres, emails, manager, equipe)]
    ensures w.fileName == FileName("Direction_Etudes_Management", nowIso)
  {
    Workbook([ActionsSheet(actions, localeDate), EquipeSheet(membres), EmailsSheet(emails, localeDateTime),
              ManagerSheet(manager, localeDateTime), StandupSheet(equipe, localeDateTime),
              StatsSheet(actions, membres, emails, manager, equipe)],
             FileName("Direction_Etudes_Management", nowIso))
  }

  /** `exportActions`: the actions sheet alone, written as `Actions_<date>.xlsx`. */
  function ExportActions(actions: seq<Action>, localeDate: string -> string, nowIso: string): (w: Workbook)
    ensures w.sheets == [ActionsSheet(actions, localeDate)]
    ensures w.fileName == FileName("Actions", nowIso)
  {
    Workbook([ActionsSheet(actions, localeDate)], FileName("Actions", nowIso))
  }

  /** `exportEquipe`: the team sheet alone, written as `Equipe_<date>.xlsx`. */
  function ExportEquipe(membres: seq<Membre>, nowIso: string): (w: Workbook)
    ensures w.sheets == [EquipeSheet(membres)]
    ensures w.fileName == FileName("Equipe", nowIso)
  {
    Workbook([EquipeSheet(membres)], FileName("Equipe", nowIso))
  }

  /** The signature sheet `exportEmails` appends. */
  function InfoSheet(localeDate: string -> string, nowIso: string): (sh: Sheet)
    ensures sh.name == "Info" && |sh.rows| == 1 && Headers(sh.rows[0]) == ["Info", "Date"]
    ensures sh.rows[0][0].1 == Str("Développé par Soufian RAMZI") && sh.rows[0][1].1 == Str(localeDate(nowIso))
  {
    Sheet("Info", [[("Info", Str("Développé par Soufian RAMZI")), ("Date", Str(localeDate(nowIso)))]])
  }

  /** `exportEmails`: the emails, then the signature, written as `Emails_<date>.xlsx`. */
  function ExportEmails(emails: seq<Email>, localeDate: string -> string, localeDateTime: string -> string,
                        nowIso: string): (w: Workbook)
    ensures w.sheets == [EmailsSheet(emails, localeDateTime), InfoSheet(localeDate, nowIso)]
    ensures w.fileName == FileName("Emails", nowIso)
  {
    Workbook([EmailsSheet(emails, localeDateTime), InfoSheet(localeDate, nowIso)], FileName("Emails", nowIso))
  }

  /** The single-list exports produce the same sheets as the full export, in the full export's order. */
  lemma SingleExportsMatchFullExport(actions: seq<Action>, membres: seq<Membre>, emails: seq<Email>,
                                     manager: seq<SujetReunion>, equipe: seq<SujetReunion>,
                                     localeDate: string -> string, localeDateTime: string -> string, nowIso: string)
    ensures var all := ExportAllData(actions, membres, emails, manager, equipe, localeDate, localeDateTime, nowIso);
      all.sheets[0] == ExportActions(actions, localeDate, nowIso).sheets[0] &&
      all.sheets[1] == ExportEquipe(membres, nowIso).sheets[0] &&
      all.sheets[2] == ExportEmails(emails, localeDate, localeDateTime, nowIso).sheets[0]
  {
    var all := ExportAllData(actions, membres, emails, manager, equipe, localeDate, localeDateTime, nowIso);
    var a, m, e := ActionsSheet(actions, localeDate), EquipeSheet(membres), EmailsSheet(emails, localeDateTime);
    var r, u := ManagerSheet(manager, localeDateTime), StandupSheet(equipe, localeDateTime);
    var st := StatsSheet(actions, membres, emails, manager, equipe);
    assert all.sheets == [a, m, e, r, u, st];
    assert ExportActions(actions, localeDate, nowIso).sheets == [a];
    assert ExportEquipe(membres, nowIso).sheets == [m];
    assert ExportEmails(emails, localeDate, localeDateTime, nowIso).sheets == [e, InfoSheet(localeDate, nowIso)];
  }

  // ------------------------------------------------------------ model update

  function ModelActionRow(a: Action): (row: Row)
    ensures Headers(row) == ["ID", "Titre", "Responsable", "Statut", "Priorite", "Echeance", "Progression"]
    ensures row[5].1 == Str(a.data.dateEcheance) && row[6].1 == Num(a.data.progression)
  {
    [("ID", Str(a.id)), ("Titre", Str(a.data.titre)), ("Responsable", Str(a.data.responsable)),
     ("Statut", Str(ActionStatutLabel(a.data.statut))), ("Priorite", Str(PrioriteLabel(a.data.priorite))),
     ("Echeance", Str(a.data.dateEcheance)), ("Progression", Num(a.data.progression))]
  }

  /** A member's row of the model: the full name "prénom nom" in one column. */
  function ModelMembreRow(m: Membre): (row: Row)
    ensures Headers(row) == ["ID", "Nom", "Email", "Poste", "Actions_Assignees", "Actions_Terminees"]
    ensures row[1].1 == Str(m.data.prenom + " " + m.data.nom)
  {
    [("ID", Str(m.id)), ("Nom", Str(m.data.prenom + " " + m.data.nom)), ("Email", Str(m.data.email)),
     ("Poste", Str(m.data.poste)), ("Actions_Assignees", Num(m.data.actionsAssignees)),
     ("Actions_Terminees", Num(m.data.actionsTerminees))]
  }

  function ModelEmailRow(e: Email): (row: Row)
    ensures Headers(row) == ["ID", "Expediteur", "Sujet", "Date", "Traite"]
    ensures row[4].1 == Str("Oui") <==> e.data.traite
    ensures row[3].1 == Str(e.data.dateReception)
  {
    [("ID", Str(e.id)), ("Expediteur", Str(e.data.expediteur)), ("Sujet", Str(e.data.sujet)),
     ("Date", Str(e.data.dateReception)), ("Traite", Str(YesNo(e.data.traite)))]
  }

  /** What `updateExcelModel` resolves to on its success path. */
  datatype SaveResult = SaveResult(success: bool, fileName: string)

  /** `updateExcelModel`: three sheets (Actions, Equipe, Emails) written as `suivi_des_actions_<date>.xlsx`. */
  function UpdateExcelModel(actions: seq<Action>, membres: seq<Membre>, emails: seq<Email>, nowIso: string)
    : (result: (Workbook, SaveResult))
    ensures |result.0.sheets| == 3
    ensures result.0.sheets[0].name == "Actions" && result.0.sheets[1].name == "Equipe"
    ensures result.0.sheets[2].name == "Emails"
    ensures result.1.success && result.1.fileName == result.0.fileName
    ensures result.0.fileName == FileName("suivi_des_actions", nowIso)
    ensures |result.0.sheets[0].rows| == |actions| && |result.0.sheets[1].rows| == |membres|
    ensures |result.0.sheets[2].rows| == |emails|
    ensures forall i :: 0 <= i < |actions| ==> result.0.sheets[0].rows[i] == ModelActionRow(actions[i])
    ensures forall i :: 0 <= i < |membres| ==> result.0.sheets[1].rows[i] == ModelMembreRow(membres[i])
    ensures forall i :: 0 <= i < |emails| ==> result.0.sheets[2].rows[i] == ModelEmailRow(emails[i])
  {
    var w := Workbook([Sheet("Actions", MapRows(actions, ModelActionRow)),
                       Sheet("Equipe", MapRows(membres, ModelMembreRow)),
                       Sheet("Emails", MapRows(emails, ModelEmailRow))],
                      FileName("suivi_des_actions", nowIso));
    (w, SaveResult(true, w.fileName))
  }
}
