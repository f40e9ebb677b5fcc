/**
 * The action form: prefilled from the action being edited or reset to the
 * defaults when the modal opens, and turned into an action (without id) on
 * submit, keeping the original creation date or stamping today's.
 */
module ActionModal {
  import opened Wrappers
  import opened Text
  import opened Records
  import opened Types

  /** The editable fields: an action without identifier and creation date. */
  datatype ActionForm = ActionForm(
    titre: string,
    description: string,
    responsable: string,
    statut: ActionStatut,
    priorite: Priorite,
    dateEcheance: string,
    origine: string,
    observations: string,
    progression: int)

  /** The form of a new action. */
  function BlankForm(): ActionForm {
    ActionForm("", "", "", AFaire, Moyenne, "", "", "", 0)
  }

  /** The editable fields of an action. */
  function FormOf(d: ActionData): ActionForm {
    ActionForm(d.titre, d.description, d.responsable, d.statut, d.priorite,
               d.dateEcheance, d.origine, d.observations, d.progression)
  }

  /** What the opening effect puts in the form. */
  function InitialForm(editing: Option<Action>): ActionForm {
    match editing
    case Some(a) => FormOf(a.data)
    case None => BlankForm()
  }

  /**
   * The record handed to the save callback: the form's fields, with the
   * creation date of the edited action when it has one and otherwise the
   * date part of `nowIso`.
   */
  function Submitted(form: ActionForm, editing: Option<Action>, nowIso: string): (d: ActionData)
    ensures FormOf(d) == form
    ensures editing.Some? && editing.value.data.dateCreation != "" ==> d.dateCreation == editing.value.data.dateCreation
    ensures (editing.None? || editing.value.data.dateCreation == "") ==> d.dateCreation == DatePart(nowIso)
  {
    var created := if editing.Some? && editing.value.data.dateCreation != "" then editing.value.data.dateCreation
                   else DatePart(nowIso);
    ActionData(form.titre, form.description, form.responsable, form.statut, form.priorite,
               created, form.dateEcheance, form.origine, form.observations, form.progression)
  }

  /** Opening an action and submitting without changes saves that action unchanged. */
  lemma EditSubmitRoundTrip(a: Action, nowIso: string)
    requires a.data.dateCreation != ""
    ensures Submitted(InitialForm(Some(a)), Some(a), nowIso) == a.data
  {
  }

  /** Submitting an untouched new form saves the defaults dated today. */
  lemma NewSubmitDefaults(nowIso: string)
    ensures Submitted(InitialForm(None), None, nowIso)
         == ActionData("", "", "", AFaire, Moyenne, DatePart(nowIso), "", "", "", 0)
  {
  }

  /** The modal's form state. */
  class ActionModalState {
    var form: ActionForm

    constructor ()
      ensures form == BlankForm()
    {
      form := BlankForm();
    }

    /** The effect run when the modal opens or the edited action changes. */
    method Open(editing: Option<Action>)
      modifies this
      ensures form == InitialForm(editing)
    {
      form := InitialForm(editing);
    }

    /** Moving the progression slider (0 to 100, step 5) to its `position`-th stop. */
    method SetProgression(position: nat)
      requires position <= 20
      modifies this
      ensures form == old(form).(progression := 5 * position)
      ensures 0 <= form.progression <= 100 && form.progression % 5 == 0
    {
      var v := RangeValue(position, 5);
      StopWithinRange(position);
      form := form.(progression := v);
    }

    /** The submit handler: the record passed to the save callback (the modal then closes). */
    method Submit(editing: Option<Action>, nowIso: string) returns (d: ActionData)
      ensures d == Submitted(form, editing, nowIso)
    {
      d := Submitted(form, editing, nowIso);
    }
  }
}
