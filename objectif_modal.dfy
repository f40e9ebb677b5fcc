/**
 * The goal form: prefilled or reset when the modal opens, a member picker over
 * a fixed list of members, a list of milestones edited through a text input,
 * and the goal (without id) handed to the save callback.
 */
module ObjectifModal {
  import opened Wrappers
  import opened Text
  import opened Records
  import opened Types

  /** The editable fields: a goal without identifier and creation date. */
  datatype ObjectifForm = ObjectifForm(
    titre: string,
    description: string,
    membreId: string,
    membreNom: string,
    dateEcheance: string,
    statut: ObjectifStatut,
    priorite: Priorite,
    progression: int,
    typeObjectif: ObjectifType,
    trimestre: Trimestre,
    notes: string,
    jalons: seq<string>)

  /** The form of a new goal. */
  function BlankForm(): ObjectifForm {
    ObjectifForm("", "", "", "", "", NonCommence, Moyenne, 0, Operationnel, Q1, "", [])
  }

  /** The editable fields of a goal. */
  function FormOf(d: ObjectifData): ObjectifForm {
    ObjectifForm(d.titre, d.description, d.membreId, d.membreNom, d.dateEcheance, d.statut,
                 d.priorite, d.progression, d.typeObjectif, d.trimestre, d.notes, d.jalons)
  }

  /** What the opening effect puts in the form. */
  function InitialForm(editing: Option<Objectif>): ObjectifForm {
    match editing
    case Some(o) => FormOf(o.data)
    case None => BlankForm()
  }

  /** The members offered by the picker, as (id, name). */
  const Membres: seq<(string, string)> :=
    [("1", "Marie Dubois"), ("2", "Jean Martin"), ("3", "Sophie Laurent"), ("4", "Pierre Durand")]

  /** `membres.find(m => m.id === id)?.nom || ''` over a list of (id, name) pairs. */
  function FindNom(membres: seq<(string, string)>, id: string): string {
    if membres == [] then ""
    else if membres[0].0 == id then membres[0].1
    else FindNom(membres[1..], id)
  }

  /** The name found is that of the first entry with the id, or empty when no entry has it. */
  lemma {:induction false} FindNomFirstMatch(membres: seq<(string, string)>, id: string)
    ensures (exists i :: 0 <= i < |membres| && membres[i].0 == id) ==>
      exists i :: 0 <= i < |membres| && membres[i].0 == id && FindNom(membres, id) == membres[i].1 &&
        forall j :: 0 <= j < i ==> membres[j].0 != id
    ensures (forall i :: 0 <= i < |membres| ==> membres[i].0 != id) ==> FindNom(membres, id) == ""
  {
    if membres != [] && membres[0].0 != id {
      var tail := membres[1..];
      FindNomFirstMatch(tail, id);
      assert forall i :: 0 < i < |membres| ==> membres[i] == tail[i - 1];
      if exists i :: 0 <= i < |membres| && membres[i].0 == id {
        var i :| 0 <= i < |membres| && membres[i].0 == id;
        assert tail[i - 1].0 == id;
        var k :| 0 <= k < |tail| && tail[k].0 == id && FindNom(tail, id) == tail[k].1 &&
          forall j :: 0 <= j < k ==> tail[j].0 != id;
        assert membres[k + 1].0 == id && FindNom(membres, id) == membres[k + 1].1;
      }
    }
  }

  /** Each member of the picker is found under its id; any other id gives the empty name. */
  lemma PickerNames(id: string)
    ensures FindNom(Membres, "1") == "Marie Dubois" && FindNom(Membres, "2") == "Jean Martin"
    ensures FindNom(Membres, "3") == "Sophie Laurent" && FindNom(Membres, "4") == "Pierre Durand"
    ensures id != "1" && id != "2" && id != "3" && id != "4" ==> FindNom(Membres, id) == ""
  {
    FindNomFirstMatch(Membres, id);
  }

  /** Milestones as the add button keeps them: non-empty and already trimmed. */
  predicate CleanJalons(jalons: seq<string>) {
    forall k :: 0 <= k < |jalons| ==> CleanJalon(jalons[k])
  }

  predicate CleanJalon(jalon: string) {
    jalon != "" && Trim(jalon) == jalon
  }

  /**
   * The milestones after the add button with `input` typed: the trimmed input
   * is appended when it is not blank, and nothing happens otherwise.
   */
  function WithJalon(jalons: seq<string>, input: string): (r: seq<string>)
    ensures |r| == |jalons| + (if Trim(input) == "" then 0 else 1)
    ensures r[..|jalons|] == jalons
    ensures |r| > |jalons| ==> r[|jalons|] == Trim(input)
    ensures CleanJalons(jalons) ==> CleanJalons(r)
  {
    var t := Trim(input);
    if t != "" then
      TrimIdempotent(input);
      AppendKeeps(jalons, t, CleanJalon);
      jalons + [t]
    else jalons
  }

  /** Removing a milestone by position keeps the list clean. */
  lemma RemoveKeepsClean(jalons: seq<string>, index: int)
    requires CleanJalons(jalons)
    ensures CleanJalons(RemoveAt(jalons, index))
  {
    RemoveAtKeeps(jalons, index, CleanJalon);
  }

  /**
   * The record handed to the save callback: the form's fields, with the
   * creation date of the edited goal when it has one and otherwise the date
   * part of `nowIso`.
   */
  function Submitted(form: ObjectifForm, editing: Option<Objectif>, nowIso: string): (d: ObjectifData)
    ensures FormOf(d) == form
    ensures editing.Some? && editing.value.data.dateCreation != "" ==> d.dateCreation == editing.value.data.dateCreation
    ensures (editing.None? || editing.value.data.dateCreation == "") ==> d.dateCreation == DatePart(nowIso)
  {
    var created := if editing.Some? && editing.value.data.dateCreation != "" then editing.value.data.dateCreation
                   else DatePart(nowIso);
    ObjectifData(form.titre, form.description, form.membreId, form.membreNom, created, form.dateEcheance,
                 form.statut, form.priorite, form.progression, form.typeObjectif, form.trimestre,
                 form.notes, form.jalons)
  }

  /** Opening a goal and submitting without changes saves that goal unchanged. */
  lemma EditSubmitRoundTrip(o: Objectif, nowIso: string)
    requires o.data.dateCreation != ""
    ensures Submitted(InitialForm(Some(o)), Some(o), nowIso) == o.data
  {
  }

  /** Submitting an untouched new form saves the defaults dated today. */
  lemma NewSubmitDefaults(nowIso: string)
    ensures Submitted(InitialForm(None), None, nowIso)
         == ObjectifData("", "", "", "", DatePart(nowIso), "", NonCommence, Moyenne, 0, Operationnel, Q1, "", [])
  {
  }

  /** The modal's state: the form and the pending milestone text. */
  class ObjectifModalState {
    var form: ObjectifForm
    var newJalon: string

    constructor ()
      ensures form == BlankForm() && newJalon == ""
    {
      form := BlankForm();
      newJalon := "";
    }

    /** The effect run when the modal opens or the edited goal changes; the pending milestone text stays. */
    method Open(editing: Option<Objectif>)
      modifies this
      ensures form == InitialForm(editing) && newJalon == old(newJalon)
    {
      form := InitialForm(editing);
    }

    /** Picking a member: its id and the name the picker lists for it. */
    method ChangeMembre(id: string)
      modifies this
      ensures form == old(form).(membreId := id, membreNom := FindNom(Membres, id))
      ensures newJalon == old(newJalon)
    {
      form := form.(membreId := id, membreNom := FindNom(Membres, id));
    }

    /** Typing in the milestone input. */
    method SetNewJalon(text: string)
      modifies this
      ensures form == old(form) && newJalon == text
    {
      newJalon := text;
    }

    /** The add button (or Enter): append the trimmed text and clear the input, unless it is blank. */
    method AddJalon()
      modifies this
      ensures form == old(form).(jalons := WithJalon(old(form.jalons), old(newJalon)))
      ensures newJalon == if Trim(old(newJalon)) != "" then "" else old(newJalon)
    {
      if Trim(newJalon) != "" {
        form := form.(jalons := WithJalon(form.jalons, newJalon));
        newJalon := "";
      } else {
        form := form.(jalons := WithJalon(form.jalons, newJalon));
      }
    }

    /** The cross of the milestone at `index`. */
    method RemoveJalon(index: int)
      modifies this
      ensures form == old(form).(jalons := RemoveAt(old(form.jalons), index))
      ensures newJalon == old(newJalon)
      ensures CleanJalons(old(form.jalons)) ==> CleanJalons(form.jalons)
    {
      if CleanJalons(form.jalons) {
        RemoveKeepsClean(form.jalons, index);
      }
      form := form.(jalons := RemoveAt(form.jalons, index));
    }

    /** Moving the progression slider (0 to 100, step 5) to its `position`-th stop. */
    method SetProgression(position: nat)
      requires position <= 20
      modifies this
      ensures form == old(form).(progression := 5 * position)
      ensures 0 <= form.progression <= 100 && form.progression % 5 == 0
      ensures newJalon == old(newJalon)
    {
      var v := RangeValue(position, 5);
      StopWithinRange(position);
      form := form.(progression := v);
    }

    /** The submit handler: the record passed to the save callback (the modal then closes). */
    method Submit(editing: Option<Objectif>, nowIso: string) returns (d: ObjectifData)
      ensures d == Submitted(form, editing, nowIso)
      ensures d.jalons == form.jalons
    {
      d := Submitted(form, editing, nowIso);
    }
  }
}
