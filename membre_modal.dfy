/**
 * The team-member form: prefilled in edit mode, reset otherwise, with the two
 * counters read from number inputs, and emitted unchanged on submit.
 */
module MembreModal {
  import opened Wrappers
  import opened Text
  import opened Records
  import opened Types

  /** The `mode` property; it defaults to adding. */
  datatype Mode = Add | Edit

  /** The form of a new member. */
  function BlankForm(): MembreData {
    MembreData("", "", "", "", 0, 0)
  }

  /** What the opening effect puts in the form: the member's fields in edit mode with a member, else blanks. */
  function InitialForm(mode: Mode, membre: Option<Membre>): (f: MembreData)
    ensures mode == Edit && membre.Some? ==> f == membre.value.data
    ensures !(mode == Edit && membre.Some?) ==> f == BlankForm()
  {
    if mode == Edit && membre.Some? then
      var m := membre.value.data;
      MembreData(m.nom, m.prenom, m.email, m.poste, m.actionsAssignees, m.actionsTerminees)
    else BlankForm()
  }

  /** A counter input: `parseInt(text) || 0`, so unreadable text (and zero) give zero. */
  function ParseCount(text: string): (n: int)
    ensures ParseInt(text).None? ==> n == 0
    ensures ParseInt(text).Some? ==> n == ParseInt(text).value
  {
    match ParseInt(text)
    case Some(v) => if v != 0 then v else 0
    case None => 0
  }

  /** A counter input reads back the number it displays. */
  lemma ParseCountRoundTrip(n: int)
    ensures ParseCount(IntToString(n)) == n
  {
    ParseIntToString(n);
  }

  /** The modal's form state. */
  class MembreModalState {
    var form: MembreData

    constructor ()
      ensures form == BlankForm()
    {
      form := BlankForm();
    }

    /** The effect run when the modal opens or its mode or member changes. */
    method Open(mode: Mode, membre: Option<Membre>)
      modifies this
      ensures form == InitialForm(mode, membre)
    {
      form := InitialForm(mode, membre);
    }

    /** Typing in the "Actions Assignées" input. */
    method SetAssignees(text: string)
      modifies this
      ensures form == old(form).(actionsAssignees := ParseCount(text))
    {
      form := form.(actionsAssignees := ParseCount(text));
    }

    /** Typing in the "Actions Terminées" input. */
    method SetTerminees(text: string)
      modifies this
      ensures form == old(form).(actionsTerminees := ParseCount(text))
    {
      form := form.(actionsTerminees := ParseCount(text));
    }

    /** The submit handler passes the form as it is; the effect resets it afterwards. */
    method Submit() returns (d: MembreData)
      ensures d == form
    {
      d := form;
    }
  }
}
