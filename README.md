# DEIMA-V2 dashboard core in Dafny

This project models the logic behind a client-side management dashboard
("Direction Études Management"). The dashboard has five screens, and each keeps
an ordered list of records:

- global actions;
- individual goals;
- team members;
- e-mails;
- meeting topics.

Every screen filters its list with a case-insensitive search and a category
select. It saves a record through a modal form: in place when editing, or
appended under a fresh id when creating. It deletes a record after a
confirmation. The mail screen also:

- marks e-mails as processed;
- turns an e-mail into an action draft;
- sends new mails and replies, which it prepends to the list.

The reports screen aggregates the lists into counters and rates. The
spreadsheet export service maps every list to rows with fixed column headers.

Layout of the model:

- `Types` holds the records of `src/types/index.ts`. Each entity is
  `Rec(id, data)`, where `data` is the record without its id. That is the shape
  a form emits and a save handler completes. The closed string unions become
  datatypes, and their labels are the strings the screens show and filter on.
- `Records` holds the list operations every screen shares: filter, replace by
  id, update by id, remove by id, remove at an index, count and sum. `Text`
  holds the string built-ins the source relies on: `toLowerCase`, `includes`,
  `trim`, `split`, `join`, `parseInt` and number-to-text. `Rounding` holds
  `Math.round` on exact quotients and on reals.
- Each screen is a module:
  - its pure parts (filters, status cards, averages) are functions and lemmas;
  - its state updates are a class whose `seq` field holds the list and whose
    methods state the new list in terms of the `Records` functions.
- Each modal is a class that holds its form:
  - the opening effect is `Open`, which sets the form to an `InitialForm`
    function;
  - the submit handler returns the record a `Submitted` function describes.
- `Rapports` holds the report aggregates and `ExcelExport` the spreadsheet rows.

Conventions of the model:

- Values that depend on the environment are parameters:
  - the `Date.now()` id is `freshId`;
  - the current time is the ISO string `nowIso`;
  - the user's answer to `confirm()` is `confirmed`;
  - locale date formatting is a function `string -> string`;
  - parsing a date into a time stamp is `parseTime`.
- JavaScript numbers are exact integers and reals. A division by zero, which
  gives `NaN` in the source, is an `Option` that is `None`.

## Model

| member | source | states |
|---|---|---|
| Types.CompletionPercent | src/services/ExcelExportService.ts:43 | terminees / (assignees or 1) * 100; equals 100 * terminees when nothing is assigned; within [0, 100] when 0 <= terminees <= assignees |
| Types.MeanCompletion | src/components/Rapports.tsx:67-72 | the rounded mean completion of a team; `None` (NaN) exactly for an empty team; within [0, 100] when every member's counters are consistent |
| Types.LabelsInjective | src/types/index.ts:1-36 | distinct statuses and quarters have distinct labels, so comparing labels compares statuses |
| Text.LowerChar | src/components/ActionsGlobales.tsx:94-95 | `toLowerCase` on one character: an upper-case letter maps to the code point 32 above it, other characters are kept, and the result is never upper-case |
| Text.LowerIdempotent | src/components/ActionsGlobales.tsx:94-95 | lowering keeps the length, and lowering twice is lowering once |
| Text.IncludesIff | src/components/ActionsGlobales.tsx:94-95 | `includes` holds exactly when the substring occurs at some position |
| Text.EmptyQueryMatches | src/components/ActionsGlobales.tsx:94-95 | an empty search matches every field |
| Text.Trim | src/components/ObjectifModal.tsx:80-88 | `trim` removes exactly the leading and trailing white space: the result is a slice of the input with only white space around it, and neither of its ends is white space |
| Text.TrimEmptyIff | src/components/ObjectifModal.tsx:81 | a string trims to empty exactly when it is all white space |
| Text.TrimIdempotent | src/components/ObjectifModal.tsx:84 | trimming twice is trimming once |
| Text.Split | src/components/SujetReunionModal.tsx:32 | `split(c)` yields at least one piece, and no piece contains the separator |
| Text.JoinSplit | src/components/SujetReunionModal.tsx:32 | joining the pieces of a split with the separator gives the string back |
| Text.SplitSecondPieceIff | src/components/SujetReunionModal.tsx:32 | there is a second piece exactly when the separator occurs |
| Text.SplitAroundSeparator | src/components/SujetReunionModal.tsx:32 | a + sep + b, with no separator in a, splits into a followed by the pieces of b |
| Text.JoinConcat | src/services/ExcelExportService.ts:71 | joining two non-empty lists is joining each and putting one separator between them |
| Text.DatePart | src/components/ActionModal.tsx:57 | `iso.split('T')[0]` is a prefix of `iso` with no 'T', ending just before the first 'T' |
| Text.ParseIntToString | src/components/MembreModal.tsx:125-135 | `parseInt` reads back the decimal text of every integer |
| Text.RangeValue | src/components/ActionModal.tsx:170-176 | the value `parseInt` reads from the `position`-th stop of a range input is step times position |
| Records.Filter | src/components/ActionsGlobales.tsx:93 | `filter` keeps exactly the elements that pass, as an order-preserving subsequence |
| Records.FilterNarrows | src/components/ObjectifsIndividuels.tsx:118-120 | a stronger predicate keeps a subsequence of what a weaker one keeps |
| Records.UpdateById | src/components/TraitementMailing.tsx:66-68 | `map(x => x.id === id ? f(x) : x)`: same length and ids; records with the id are updated and every other record is untouched |
| Records.ReplaceById | src/components/ActionsGlobales.tsx:113-117 | `{...data, id}` for records with the id, every other record untouched, same length, and unique ids stay unique |
| Records.AppendFresh | src/components/ActionsGlobales.tsx:121-125 | appending one record makes the list one longer and keeps the old prefix; a fresh id keeps ids unique |
| Records.RemoveById | src/components/ActionsGlobales.tsx:133 | `filter(x => x.id !== id)` keeps exactly the records with another id, in order, and leaves none with the id |
| Records.RemoveKeepsUnique | src/components/ActionsGlobales.tsx:133 | removing by id keeps ids unique |
| Records.RemoveExactlyOne | src/components/ActionsGlobales.tsx:133 | with unique ids, removing a present id shortens the list by one, and removing an absent id changes nothing |
| Records.RemoveAt | src/components/ObjectifModal.tsx:90-95 | `filter((_, i) => i !== index)` drops exactly the element at the index, and changes nothing for an index out of range |
| Records.CountComplement | src/components/TraitementMailing.tsx:158-176 | the counts of a predicate and of its negation add up to the length |
| Records.CountThree | src/components/ReunionsManager.tsx:117-145 | the counts of three disjoint predicates add up to at most the length, and to the length when they cover every element |
| Records.SumBounds | src/components/ObjectifsIndividuels.tsx:226 | a sum of terms within [lo, hi] lies within [lo * n, hi * n] |
| Records.SumRealBounds | src/components/Rapports.tsx:68 | a sum of real terms within [0, hi] lies within [0, hi * n] |
| Rounding.RoundReal | src/components/Rapports.tsx:67 | `Math.round(x)` is the integer within half of x, with halves going up |
| Rounding.RoundDiv | src/components/Rapports.tsx:66 | `Math.round(p / q)` is the integer r with 2r - 1 <= 2p/q < 2r + 1 |
| Rounding.RoundDivIsRoundReal | src/components/Rapports.tsx:66 | the integer rounding of p / q agrees with rounding the exact real quotient |
| Rounding.RoundDivRange | src/components/GestionEquipe.tsx:69 | a quotient within [0, k] rounds to an integer within [0, k] |
| ActionsGlobales.FilteredActions | src/components/ActionsGlobales.tsx:93-98 | the shown actions are an order-preserving subsequence holding exactly the actions whose title or owner matches the search and whose status passes the select |
| ActionsGlobales.UnfilteredShowsAll | src/components/ActionsGlobales.tsx:93-98 | an empty search with no status selected shows the whole list |
| ActionsGlobales.StatusFilterSelectsStatus | src/components/ActionsGlobales.tsx:96 | selecting a status label shows only actions of that status, and every searched action of that status |
| ActionsGlobales.StatusFilterNarrows | src/components/ActionsGlobales.tsx:96 | a status selection never shows more than the search alone |
| ActionsGlobales.ActionsScreen.NewAction | src/components/ActionsGlobales.tsx:100-103 | opens the modal with nothing being edited; the list is unchanged |
| ActionsGlobales.ActionsScreen.EditAction | src/components/ActionsGlobales.tsx:105-108 | opens the modal on the action; the list is unchanged |
| ActionsGlobales.ActionsScreen.CloseModal | src/components/ActionsGlobales.tsx:283-286 | closes the modal and clears the edited action |
| ActionsGlobales.ActionsScreen.SaveAction | src/components/ActionsGlobales.tsx:110-129 | edit mode replaces the edited id's records in place; create mode appends the record under the fresh id; editing is cleared; unique ids stay unique when the fresh id is new |
| ActionsGlobales.ActionsScreen.DeleteAction | src/components/ActionsGlobales.tsx:131-135 | a confirmed delete removes the id's records and a declined one changes nothing; unique ids stay unique and a present id shortens the list by one |
| ActionModal.Submitted | src/components/ActionModal.tsx:53-58 | the emitted action carries the form's fields, and its creation date is the edited action's when that is non-empty, otherwise today's date |
| ActionModal.EditSubmitRoundTrip | src/components/ActionModal.tsx:25-58 | opening an action and submitting without changes saves that action's data unchanged |
| ActionModal.NewSubmitDefaults | src/components/ActionModal.tsx:38-58 | submitting an untouched new form saves empty texts, "À faire", "Moyenne", progression 0, dated today |
| ActionModal.ActionModalState.Open | src/components/ActionModal.tsx:25-51 | the form is prefilled from the edited action, or reset to the defaults |
| ActionModal.ActionModalState.SetProgression | src/components/ActionModal.tsx:170-176 | the slider sets only the progression, to a multiple of 5 within [0, 100] |
| ActionModal.ActionModalState.Submit | src/components/ActionModal.tsx:53-58 | returns the record `Submitted` describes: the form's fields, with the kept or fresh creation date |
| ObjectifsIndividuels.FilteredObjectifs | src/components/ObjectifsIndividuels.tsx:115-121 | exactly the goals whose title or member name matches and whose status and quarter pass both selects, in order |
| ObjectifsIndividuels.UnfilteredShowsAll | src/components/ObjectifsIndividuels.tsx:115-121 | no search and no selection shows every goal |
| ObjectifsIndividuels.SelectsNarrow | src/components/ObjectifsIndividuels.tsx:118-120 | a status or quarter selection never shows more than leaving that select empty |
| ObjectifsIndividuels.SelectsAreExact | src/components/ObjectifsIndividuels.tsx:118-120 | selecting a status and a quarter label shows only goals of that status and quarter |
| ObjectifsIndividuels.StatusCardsWithinTotal | src/components/ObjectifsIndividuels.tsx:185-212 | the "En cours" and "Terminé" cards add up to at most the total |
| ObjectifsIndividuels.AverageProgression | src/components/ObjectifsIndividuels.tsx:226 | the rounded mean progression; `None` (NaN) exactly for no goals; within [0, 100] when every progression is |
| ObjectifsIndividuels.ObjectifsScreen.NewObjectif | src/components/ObjectifsIndividuels.tsx:123-126 | opens the modal with nothing being edited |
| ObjectifsIndividuels.ObjectifsScreen.EditObjectif | src/components/ObjectifsIndividuels.tsx:128-131 | opens the modal on the goal |
| ObjectifsIndividuels.ObjectifsScreen.CloseModal | src/components/ObjectifsIndividuels.tsx:391-394 | closes the modal and clears the edited goal |
| ObjectifsIndividuels.ObjectifsScreen.SaveObjectif | src/components/ObjectifsIndividuels.tsx:133-150 | replaces in place when editing, appends under the fresh id otherwise, then clears editing; unique ids stay unique |
| ObjectifsIndividuels.ObjectifsScreen.DeleteObjectif | src/components/ObjectifsIndividuels.tsx:152-157 | a confirmed delete removes the id's goals and a declined one changes nothing |
| ObjectifModal.FindNomFirstMatch | src/components/ObjectifModal.tsx:71-78 | the looked-up name is that of the first entry with the id, or "" when there is none |
| ObjectifModal.PickerNames | src/components/ObjectifModal.tsx:30-35 | ids "1" to "4" give Marie Dubois, Jean Martin, Sophie Laurent and Pierre Durand, and any other id gives "" |
| ObjectifModal.WithJalon | src/components/ObjectifModal.tsx:80-88 | adding a milestone appends the trimmed input when it is not blank and changes nothing otherwise; a clean list stays clean |
| ObjectifModal.RemoveKeepsClean | src/components/ObjectifModal.tsx:90-95 | removing a milestone keeps a list of trimmed, non-empty milestones clean |
| ObjectifModal.Submitted | src/components/ObjectifModal.tsx:97-104 | the emitted goal is the form plus the edited goal's creation date when non-empty, otherwise today's |
| ObjectifModal.EditSubmitRoundTrip | src/components/ObjectifModal.tsx:37-104 | opening a goal and submitting it unchanged saves that goal's data |
| ObjectifModal.NewSubmitDefaults | src/components/ObjectifModal.tsx:53-104 | an untouched new form saves the defaults "Non commencé", "Moyenne", 0, "Opérationnel", "Q1", no milestones, dated today |
| ObjectifModal.ObjectifModalState.Open | src/components/ObjectifModal.tsx:37-69 | prefill or reset of the form; the pending milestone text is kept |
| ObjectifModal.ObjectifModalState.ChangeMembre | src/components/ObjectifModal.tsx:71-78 | sets the member id and the name found for it, nothing else |
| ObjectifModal.ObjectifModalState.AddJalon | src/components/ObjectifModal.tsx:80-88 | the milestones become `WithJalon` of the input, which is cleared exactly when it was not blank |
| ObjectifModal.ObjectifModalState.RemoveJalon | src/components/ObjectifModal.tsx:90-95 | drops the milestone at the index, nothing else; clean milestones stay clean |
| ObjectifModal.ObjectifModalState.SetProgression | src/components/ObjectifModal.tsx:245-250 | sets only the progression, to a multiple of 5 within [0, 100] |
| ObjectifModal.ObjectifModalState.Submit | src/components/ObjectifModal.tsx:97-104 | returns the record `Submitted` describes, with the form's milestones carried over |
| MembreModal.InitialForm | src/components/MembreModal.tsx:24-44 | edit mode with a member copies the member's data; otherwise empty texts and zero counts |
| MembreModal.ParseCount | src/components/MembreModal.tsx:125-135 | `parseInt` of the text, or 0: the parsed integer, or 0 when the text does not parse |
| MembreModal.ParseCountRoundTrip | src/components/MembreModal.tsx:125-135 | a count typed as its decimal text is read back unchanged |
| MembreModal.MembreModalState.Open | src/components/MembreModal.tsx:24-44 | the form becomes `InitialForm` of the mode and member |
| MembreModal.MembreModalState.SetAssignees | src/components/MembreModal.tsx:125 | sets only the assigned count, to the parsed count |
| MembreModal.MembreModalState.SetTerminees | src/components/MembreModal.tsx:135 | sets only the completed count, to the parsed count |
| MembreModal.MembreModalState.Submit | src/components/MembreModal.tsx:46-50 | emits the form unchanged, without id |
| GestionEquipe.FilteredMembres | src/components/GestionEquipe.tsx:61-65 | exactly the members whose "prénom nom" or post matches the search, in order |
| GestionEquipe.NameSearchFinds | src/components/GestionEquipe.tsx:62-63 | a search matching the first name or the last name finds the member |
| GestionEquipe.UnfilteredShowsAll | src/components/GestionEquipe.tsx:61-65 | an empty search shows every member |
| GestionEquipe.CalculatePerformance | src/components/GestionEquipe.tsx:67-70 | 0 with nothing assigned; otherwise the rounded percentage of completed actions, within [0, 100] for consistent counters |
| GestionEquipe.PerformanceBand | src/components/GestionEquipe.tsx:72-76 | every performance falls in exactly one band: at least 80, from 60 below 80, or below 60 |
| GestionEquipe.TotalsOrdered | src/components/GestionEquipe.tsx:185-199 | with consistent counters, the completed total is non-negative and at most the assigned total |
| GestionEquipe.AveragePerformance | src/components/GestionEquipe.tsx:171 | the rounded mean performance; `None` (NaN) exactly for an empty team; within [0, 100] for consistent counters |
| GestionEquipe.TeamScreen.ModalMode | src/components/GestionEquipe.tsx:328 | the modal is in edit mode exactly when a member is being edited |
| GestionEquipe.TeamScreen.OpenNew | src/components/GestionEquipe.tsx:140 | only shows the modal; the edited member is left as it was |
| GestionEquipe.TeamScreen.EditMembre | src/components/GestionEquipe.tsx:100-103 | opens the modal on the member |
| GestionEquipe.TeamScreen.CloseModal | src/components/GestionEquipe.tsx:105-108 | closes the modal and clears the edited member |
| GestionEquipe.TeamScreen.SaveMembre | src/components/GestionEquipe.tsx:110-130 | replaces in place or appends under the fresh id, then closes the modal; unique ids stay unique |
| GestionEquipe.TeamScreen.DeleteMembre | src/components/GestionEquipe.tsx:78-82 | a confirmed delete removes the id's members and a declined one changes nothing |
| EmailModal.QuotedBody | src/components/EmailModal.tsx:25 | the reply body starts with the quote header, contains "De: " + sender and "Sujet: " + subject, and ends with the original content |
| EmailModal.InitialForm | src/components/EmailModal.tsx:20-34 | a reply to an original is addressed to its sender under "Re: " + its subject with the quoted body; otherwise all fields are empty |
| EmailModal.EmailModalState.Open | src/components/EmailModal.tsx:20-34 | the form becomes `InitialForm` of the kind and original |
| EmailModal.EmailModalState.Submit | src/components/EmailModal.tsx:36-45 | emits the current form and resets every field to "" |
| TraitementMailing.FilteredEmails | src/components/TraitementMailing.tsx:56-63 | exactly the e-mails whose subject or sender matches and whose processed flag passes the select, in order |
| TraitementMailing.UnknownFilterShowsNothing | src/components/TraitementMailing.tsx:59-61 | a select value other than "", "traite" and "non-traite" shows nothing |
| TraitementMailing.ProcessedViewsPartition | src/components/TraitementMailing.tsx:59-61 | the processed view and the unprocessed view together hold as many e-mails as the unfiltered search |
| TraitementMailing.CardsAddUp | src/components/TraitementMailing.tsx:148-175 | the "Traités" and "Non Traités" cards add up to the total |
| TraitementMailing.MarkProcessed | src/components/TraitementMailing.tsx:65-69 | same length; e-mails with the id become processed and every other e-mail is untouched |
| TraitementMailing.MarkIdempotent | src/components/TraitementMailing.tsx:65-69 | marking twice is marking once |
| TraitementMailing.MarkProcessedNoop | src/components/TraitementMailing.tsx:65-69 | marking an already processed e-mail changes nothing |
| TraitementMailing.MarkMovesOne | src/components/TraitementMailing.tsx:65-69 | with unique ids, marking an unprocessed e-mail moves exactly one e-mail from "Non Traités" to "Traités" |
| TraitementMailing.ActionDraftCarriesEmail | src/components/TraitementMailing.tsx:72-73 | the action draft's title contains the subject, and its description names the sender and ends with the content |
| TraitementMailing.SentEmail | src/components/TraitementMailing.tsx:82-91 | a sent e-mail comes from the manager address, is processed, has no linked action, and takes the form's recipient, subject and content |
| TraitementMailing.ReplyEmail | src/components/TraitementMailing.tsx:97-106 | a reply goes to the original sender under "Re: " + subject, from the manager address, processed, with the reply's content |
| TraitementMailing.UntouchedReplyQuotesOriginal | src/components/TraitementMailing.tsx:97-106 | a reply sent from the untouched reply form ends with the original content and names the original sender |
| TraitementMailing.PrependFresh | src/components/TraitementMailing.tsx:82-110 | prepending an e-mail with a new id keeps ids unique |
| TraitementMailing.MailingScreen.OpenCompose | src/components/TraitementMailing.tsx:130 | shows the compose modal, nothing else |
| TraitementMailing.MailingScreen.CloseCompose | src/components/TraitementMailing.tsx:302 | hides the compose modal, nothing else |
| TraitementMailing.MailingScreen.OpenReply | src/components/TraitementMailing.tsx:274-275 | selects the e-mail and shows the reply modal |
| TraitementMailing.MailingScreen.CloseReply | src/components/TraitementMailing.tsx:309-312 | hides the reply modal and clears the selection |
| TraitementMailing.MailingScreen.MarkAsProcessed | src/components/TraitementMailing.tsx:65-69 | the list becomes `MarkProcessed` of the id |
| TraitementMailing.MailingScreen.CreateAction | src/components/TraitementMailing.tsx:71-80 | returns the action draft and leaves the list as marking that e-mail processed would |
| TraitementMailing.MailingScreen.SendEmail | src/components/TraitementMailing.tsx:82-95 | prepends the sent e-mail; unique ids stay unique under a fresh id |
| TraitementMailing.MailingScreen.SendReply | src/components/TraitementMailing.tsx:97-110 | prepends the reply to the selected e-mail, or changes nothing when none is selected |
| ReunionsManager.FilteredSujets | src/components/ReunionsManager.tsx:76-81 | exactly the topics whose title or description matches and whose status passes the select, in order |
| ReunionsManager.UnfilteredShowsAll | src/components/ReunionsManager.tsx:76-81 | no search and no selection shows every topic |
| ReunionsManager.StatusFilterSelectsStatus | src/components/ReunionsManager.tsx:79 | selecting a status label shows only topics of that status |
| ReunionsManager.StatusCardsAddUp | src/components/ReunionsManager.tsx:117-145 | the three status cards add up to the number of topics |
| ReunionsManager.SujetsScreen.NewSujet | src/components/ReunionsManager.tsx:99 | only shows the modal |
| ReunionsManager.SujetsScreen.DeleteSujet | src/components/ReunionsManager.tsx:87-91 | a confirmed delete removes the id's topics and a declined one changes nothing; unique ids stay unique |
| SujetReunionModal.TrimMeetingDate | src/components/SujetReunionModal.tsx:32 | defined exactly when the date has a 'T'; the result is a prefix of the date starting with its date part and a 'T' |
| SujetReunionModal.TrimMeetingDateOf | src/components/SujetReunionModal.tsx:32 | for any date part d without a 'T', "d" + "T" + "t" is cut to "d" + "T" + the first five characters of t's piece before any further 'T', which is t's first five characters when t has no 'T' |
| SujetReunionModal.TrimMeetingDateIdempotent | src/components/SujetReunionModal.tsx:32 | cutting an already cut date changes nothing |
| SujetReunionModal.BlankForm | src/components/SujetReunionModal.tsx:37-48 | a new topic is open, of the modal's type, without actions or texts, and its owner is "Manager" exactly for a manager meeting |
| SujetReunionModal.InitialForm | src/components/SujetReunionModal.tsx:25-49 | with no topic, the defaults; with a topic, its fields with the cut date, undefined exactly when its date has no 'T' |
| SujetReunionModal.PrefillOfCutDate | src/components/SujetReunionModal.tsx:25-36 | a topic whose date is already cut is prefilled unchanged |
| SujetReunionModal.SujetModalState.Open | src/components/SujetReunionModal.tsx:25-49 | sets the form to the prefill when it is defined; `ok == false`, with the form unchanged, stands for the TypeError that `split('T')[1].substring` throws on a date without 'T' |
| SujetReunionModal.SujetModalState.Submit | src/components/SujetReunionModal.tsx:51-58 | emits the form with the date converted by `toIso` |
| Rapports.ActionsSummary | src/components/Rapports.tsx:52-63 | the total and the three status counts of the actions; the status counts add up to at most the total, as do the new actions |
| Rapports.EquipeSummary | src/components/Rapports.tsx:64-73 | zeros for no members; otherwise actions per member is the rounded ratio, and completion rate and performance are both the mean completion, within [0, 100] for consistent counters |
| Rapports.ReunionsSummary | src/components/Rapports.tsx:74-79 | the total is the sum of both lists' lengths and the three status counts add up to it |
| Rapports.PeriodLabel | src/components/Rapports.tsx:367-375 | the labels of week, month, quarter and year, and "Ce mois" for any other value |
| Rapports.Percent | src/components/Rapports.tsx:244-248 | the rounded percentage, `None` (NaN) exactly for a zero total, within [0, 100] for a part of the total |
| Rapports.ResumeRates | src/components/Rapports.tsx:244-248 | the résumé rates are defined exactly when there is an action, respectively a topic, and then lie in [0, 100] |
| ExcelExport.ActionRow | src/services/ExcelExportService.ts:18-30 | the eleven headers from ID to Observations in order, with the id, title, status label and progression copied |
| ExcelExport.ActionsSheet | src/services/ExcelExportService.ts:18-32 | a sheet named "Actions" whose i-th row is the row of the i-th action |
| ExcelExport.ActionsSheetShape | src/services/ExcelExportService.ts:18-32 | one row per action in input order, each with the action headers, its id and its progression |
| ExcelExport.ExportPerformance | src/services/ExcelExportService.ts:43 | the rounded completion percentage, within [0, 100] for consistent counters |
| ExcelExport.ExportPerformanceVersusScreen | src/services/ExcelExportService.ts:43 | agrees with the team screen's performance when actions are assigned; with none assigned it is 100 times the completed count, so it differs from the screen's 0 as soon as one is completed |
| ExcelExport.MembreRow | src/services/ExcelExportService.ts:35-44 | the eight member headers in order, the counters copied and the export performance |
| ExcelExport.EquipeSheet | src/services/ExcelExportService.ts:35-46 | a sheet named "Équipe" whose i-th row is the row of the i-th member |
| ExcelExport.LinkedAction | src/services/ExcelExportService.ts:56 | the linked action's id, or "N/A" when it is absent or empty |
| ExcelExport.EmailRow | src/services/ExcelExportService.ts:49-58 | the eight e-mail headers; "Traité" is "Oui" exactly for a processed e-mail and "Non" exactly for the others |
| ExcelExport.EmailsSheet | src/services/ExcelExportService.ts:49-60 | a sheet named "Emails" whose i-th row is the row of the i-th e-mail |
| ExcelExport.LinkedActionsShape | src/services/ExcelExportService.ts:71 | no linked action gives "", one gives its id; for every list, cutting it at any inner position k gives the join of the first k ids, ", ", then the join of the rest |
| ExcelExport.ManagerRow | src/services/ExcelExportService.ts:63-73 | the nine manager headers, with the meeting type label and the joined action ids |
| ExcelExport.ManagerSheet | src/services/ExcelExportService.ts:63-75 | a sheet named "Réunions Manager" whose i-th row is the manager row of the i-th topic |
| ExcelExport.StandupRow | src/services/ExcelExportService.ts:78-87 | the eight stand-up headers, with the joined action ids |
| ExcelExport.StandupSheet | src/services/ExcelExportService.ts:78-89 | a sheet named "Stand-up Équipe" whose i-th row is the stand-up row of the i-th topic |
| ExcelExport.MeetingSheetsColumns | src/services/ExcelExportService.ts:63-87 | the manager sheet has a Type column and the stand-up sheet none; the other columns line up |
| ExcelExport.PerformanceDetails | src/services/ExcelExportService.ts:101 | "Performance moyenne: NaN%" for no members, otherwise the mean completion |
| ExcelExport.StatsRows | src/services/ExcelExportService.ts:92-118 | exactly five rows with the three statistics headers, each value the length of its list |
| ExcelExport.EmailDetailsAddUp | src/services/ExcelExportService.ts:106 | the two figures of the e-mails detail add up to the number of e-mails |
| ExcelExport.ExportAllData | src/services/ExcelExportService.ts:8-125 | exactly the six sheets Actions, Équipe, Emails, Réunions Manager, Stand-up Équipe and Statistiques, in that order: each of the first five is the sheet of its list (whose contract gives its name and its rows, one per element), the last holds the statistics rows; written as `Direction_Etudes_Management_<date>.xlsx` |
| ExcelExport.ExportActions | src/services/ExcelExportService.ts:128-149 | one sheet, the actions sheet, written as `Actions_<date>.xlsx` |
| ExcelExport.ExportEquipe | src/services/ExcelExportService.ts:152-170 | one sheet, the team sheet, written as `Equipe_<date>.xlsx` |
| ExcelExport.InfoSheet | src/services/ExcelExportService.ts:189-192 | the "Info" sheet: one row with the headers Info and Date, the author's signature and today's locale date |
| ExcelExport.ExportEmails | src/services/ExcelExportService.ts:173-196 | the e-mails sheet followed by the "Info" signature sheet, written as `Emails_<date>.xlsx` |
| ExcelExport.SingleExportsMatchFullExport | src/services/ExcelExportService.ts:128-196 | the actions, team and e-mails exports produce the same sheets as the full export |
| ExcelExport.ModelActionRow | src/services/ExcelExportService.ts:224-232 | the seven model headers, with the raw due date and the progression |
| ExcelExport.ModelMembreRow | src/services/ExcelExportService.ts:234-241 | the six model headers, with the name as "prénom nom" |
| ExcelExport.ModelEmailRow | src/services/ExcelExportService.ts:243-249 | the five model headers; "Traite" is "Oui" exactly for a processed e-mail; the raw date |
| ExcelExport.UpdateExcelModel | src/services/ExcelExportService.ts:214-259 | three sheets named Actions, Equipe and Emails; the i-th row of each is the model row of the i-th action, member or e-mail; a success result naming `suivi_des_actions_<date>.xlsx` |

## Left out

- Rendering: the JSX, the CSS classes, colours and icons. The numeric thresholds of the performance bands are kept.
- The spreadsheet and PDF libraries: `XLSX.utils`, `writeFile`, `jsPDF` and `autoTable`, with the PDF page layout. The model keeps the rows and the sheet and file names handed to them.
- The per-report metric tables and percentages that the reports screen draws into its PDF and Excel reports. Only the résumé sheet and the `rapportData` aggregates are modelled.
- Browser input and output: `localStorage`, `alert`, the `mailto:` link with its clipboard fallback, and the `window.downloadAllFiles` global. `confirm()` is a boolean parameter.
- The clock, the locale and the time zone: the id, the current time, locale date formatting, date parsing and `toISOString` are parameters. The one-week cut-off of "nouvelles" is the parameter `since`.
- Floating point: numbers are exact integers and reals, so IEEE rounding errors in sums of non-integer percentages are not modelled.
- GestionEquipe.CalculatePerformance, ExcelExport.ExportPerformance, Types.CompletionPercent and Rapports.Percent: the single quotient `(t / a) * 100` is exact here, while the source computes it in doubles before `Math.round`. For t = 29 and a = 200 the double product is just below 14.5 and the source shows 14, where these members give 15.
- Text.ParseInt: reads an optional sign and decimal digits after white space. It does not model the hexadecimal "0x" prefix, which number and range inputs never produce.
- Text.Lower: covers ASCII and Latin-1 upper-case letters only, not full Unicode case mapping.
- The plain text-field setters of every form (`setFormData({...formData, field: value})`). They replace one field and are not modelled one by one.
- `exportCustomReport`: it passes its caller's rows through unchanged.
- The `try`/`catch` and promise paths of `updateExcelModel`, and the button sequencing in `ExportButtons.tsx`. The model covers the success path only.
- The application shell and the screens without logic: layout, configuration section, dashboard, report and meeting modals.
- The individual goal record: the types file does not declare it. Its fields follow the goal modal and the goal screen's sample data.
- The meetings screen's edit button and "Nouveau Sujet" form. The edit button has no handler, and the screen renders no modal, so only the delete and the modal flag are modelled.
- Rapports.ComputeRapportData and Rapports.ReportFileName: plain assembly of the three aggregates and of the dated file name. They have no contract of their own.
