/**
 * The global action list: a searchable, status-filtered store of actions with
 * create, edit and delete through a modal form.
 */
module ActionsGlobales {
  import opened Wrappers
  import opened Text
  import opened Records
  import opened Types

  /** A card is shown when the search matches its title or owner and the status select allows it. */
  predicate KeepsAction(a: Action, search: string, filterStatut: string) {
    (MatchesSearch(a.data.titre, search) || MatchesSearch(a.data.responsable, search))
    && (filterStatut == "" || ActionStatutLabel(a.data.statut) == filterStatut)
  }

  /** The displayed actions: exactly the kept ones, in store order. */
  function FilteredActions(actions: seq<Action>, search: string, filterStatut: string): (r: seq<Action>)
    ensures Subseq(r, actions)
    ensures forall i :: 0 <= i < |r| ==> KeepsAction(r[i], search, filterStatut)
    ensures forall i :: 0 <= i < |actions| && KeepsAction(actions[i], search, filterStatut) ==> actions[i] in r
  {
    Filter(actions, a => KeepsAction(a, search, filterStatut))
  }

  /** With an empty search and no status selected every action is shown, in order. */
  lemma UnfilteredShowsAll(actions: seq<Action>)
    ensures FilteredActions(actions, "", "") == actions
  {
    forall a: Action ensures KeepsAction(a, "", "") {
      EmptyQueryMatches(a.data.titre);
    }
    FilterAll(actions, a => KeepsAction(a, "", ""));
  }

  /** Selecting a status label shows exactly the matching actions of that status. */
  lemma StatusFilterSelectsStatus(actions: seq<Action>, search: string, st: ActionStatut)
    ensures forall i :: 0 <= i < |FilteredActions(actions, search, ActionStatutLabel(st))| ==>
      FilteredActions(actions, search, ActionStatutLabel(st))[i].data.statut == st
    ensures forall i :: 0 <= i < |actions| && actions[i].data.statut == st && KeepsAction(actions[i], search, "") ==>
      actions[i] in FilteredActions(actions, search, ActionStatutLabel(st))
  {
    LabelsInjective();
  }

  /** Selecting a status never shows more than the search alone, and keeps the order. */
  lemma StatusFilterNarrows(actions: seq<Action>, search: string, filterStatut: string)
    ensures Subseq(FilteredActions(actions, search, filterStatut), FilteredActions(actions, search, ""))
  {
    FilterNarrows(actions, a => KeepsAction(a, search, filterStatut), a => KeepsAction(a, search, ""));
  }

  /** The screen state: the store, the action being edited and the modal's visibility. */
  class ActionsScreen {
    var actions: seq<Action>
    var editing: Option<Action>
    var showModal: bool

    constructor (initial: seq<Action>)
      ensures actions == initial && editing == None && !showModal
    {
      actions := initial;
      editing := None;
      showModal := false;
    }

    /** "Nouvelle Action": open the modal with no action being edited. */
    method NewAction()
      modifies this
      ensures actions == old(actions) && editing == None && showModal
    {
      editing := None;
      showModal := true;
    }

    /** The edit button of a card: open the modal on that action. */
    method EditAction(a: Action)
      modifies this
      ensures actions == old(actions) && editing == Some(a) && showModal
    {
      editing := Some(a);
      showModal := true;
    }

    /** The modal's close callback. */
    method CloseModal()
      modifies this
      ensures actions == old(actions) && editing == None && !showModal
    {
      showModal := false;
      editing := None;
    }

    /**
     * The modal's save callback: replace the edited action in place, or append
     * a new one under `freshId` (the source's `Date.now()`); then stop editing.
     */
    method SaveAction(data: ActionData, freshId: string)
      modifies this
      ensures old(editing).Some? ==> actions == ReplaceById(old(actions), old(editing).value.id, data)
      ensures old(editing).None? ==> actions == old(actions) + [Rec(freshId, data)]
      ensures editing == None && showModal == old(showModal)
      ensures UniqueIds(old(actions)) && (old(editing).Some? || !HasId(old(actions), freshId)) ==> UniqueIds(actions)
    {
      if editing.Some? {
        actions := ReplaceById(actions, editing.value.id, data);
      } else {
        AppendFresh(actions, freshId, data);
        actions := actions + [Rec(freshId, data)];
      }
      editing := None;
    }

    /** The delete button, after the confirmation dialog answered `confirmed`. */
    method DeleteAction(id: string, confirmed: bool)
      modifies this
      ensures actions == if confirmed then RemoveById(old(actions), id) else old(actions)
      ensures editing == old(editing) && showModal == old(showModal)
      ensures UniqueIds(old(actions)) ==> UniqueIds(actions)
      ensures confirmed && UniqueIds(old(actions)) && HasId(old(actions), id) ==> |actions| == |old(actions)| - 1
    {
      if confirmed {
        if UniqueIds(actions) {
          RemoveKeepsUnique(actions, id);
          RemoveExactlyOne(actions, id);
        }
        actions := RemoveById(actions, id);
      }
    }
  }
}
