/**
 * The manager's meeting topics: a store searched by title or description and
 * filtered by status, with the three status cards and deletion.
 */
module ReunionsManager {
  import opened Wrappers
  import opened Text
  import opened Records
  import opened Types

  /** Search on title or description, then the status select. */
  predicate KeepsSujet(s: SujetReunion, search: string, filterStatut: string) {
    (MatchesSearch(s.data.titre, search) || MatchesSearch(s.data.description, search))
    && (filterStatut == "" || SujetStatutLabel(s.data.statut) == filterStatut)
  }

  /** The displayed topics: exactly the kept ones, in store order. */
  function FilteredSujets(sujets: seq<SujetReunion>, search: string, filterStatut: string): (r: seq<SujetReunion>)
    ensures Subseq(r, sujets)
    ensures forall i :: 0 <= i < |r| ==> KeepsSujet(r[i], search, filterStatut)
    ensures forall i :: 0 <= i < |sujets| && KeepsSujet(sujets[i], search, filterStatut) ==> sujets[i] in r
  {
    Filter(sujets, s => KeepsSujet(s, search, filterStatut))
  }

  /** With an empty search and no status selected every topic is shown. */
  lemma UnfilteredShowsAll(sujets: seq<SujetReunion>)
    ensures FilteredSujets(sujets, "", "") == sujets
  {
    forall s: SujetReunion ensures KeepsSujet(s, "", "") {
      EmptyQueryMatches(s.data.titre);
    }
    FilterAll(sujets, s => KeepsSujet(s, "", ""));
  }

  /** Selecting a status label shows only topics of that status. */
  lemma StatusFilterSelectsStatus(sujets: seq<SujetReunion>, search: string, st: SujetStatut)
    ensures forall i :: 0 <= i < |FilteredSujets(sujets, search, SujetStatutLabel(st))| ==>
      FilteredSujets(sujets, search, SujetStatutLabel(st))[i].data.statut == st
  {
    LabelsInjective();
  }

  predicate IsOuvert(s: SujetReunion) { s.data.statut == Ouvert }
  predicate IsEnCours(s: SujetReunion) { s.data.statut == SujetStatut.EnCours }
  predicate IsFerme(s: SujetReunion) { s.data.statut == Ferme }

  /** Every topic is open, in progress or closed, so the three cards add up to the number of topics. */
  lemma StatusCardsAddUp(sujets: seq<SujetReunion>)
    ensures Count(sujets, IsOuvert) + Count(sujets, IsEnCours) + Count(sujets, IsFerme) == |sujets|
  {
    CountThree(sujets, IsOuvert, IsEnCours, IsFerme);
  }

  /** The screen state: the store and the flag set by "Nouveau Sujet". */
  class SujetsScreen {
    var sujets: seq<SujetReunion>
    var showModal: bool

    constructor (initial: seq<SujetReunion>)
      ensures sujets == initial && !showModal
    {
      sujets := initial;
      showModal := false;
    }

    /** "Nouveau Sujet" sets the flag; this screen renders no modal for it. */
    method NewSujet()
      modifies this
      ensures sujets == old(sujets) && showModal
    {
      showModal := true;
    }

    /** The delete button, after the confirmation dialog answered `confirmed`. */
    method DeleteSujet(id: string, confirmed: bool)
      modifies this
      ensures sujets == if confirmed then RemoveById(old(sujets), id) else old(sujets)
      ensures showModal == old(showModal)
      ensures UniqueIds(old(sujets)) ==> UniqueIds(sujets)
      ensures confirmed && UniqueIds(old(sujets)) && HasId(old(sujets), id) ==> |sujets| == |old(sujets)| - 1
    {
      if confirmed {
        if UniqueIds(sujets) {
          RemoveKeepsUnique(sujets, id);
          RemoveExactlyOne(sujets, id);
        }
        sujets := RemoveById(sujets, id);
      }
    }
  }
}
