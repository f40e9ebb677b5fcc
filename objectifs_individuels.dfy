/**
 * Individual goals: a store of goals filtered by a search, a status and a
 * quarter, with create, edit and delete and four summary figures.
 */
module ObjectifsIndividuels {
  import opened Wrappers
  import opened Text
  import opened Records
  import opened Types
  import opened Rounding

  /** Search on title or member name, then the status and quarter selects. */
  predicate KeepsObjectif(o: Objectif, search: string, filterStatut: string, filterTrimestre: string) {
    (MatchesSearch(o.data.titre, search) || MatchesSearch(o.data.membreNom, search))
    && (filterStatut == "" || ObjectifStatutLabel(o.data.statut) == filterStatut)
    && (filterTrimestre == "" || TrimestreLabel(o.data.trimestre) == filterTrimestre)
  }

  /** The displayed goals: exactly the kept ones, in store order. */
  function FilteredObjectifs(objectifs: seq<Objectif>, search: string, filterStatut: string, filterTrimestre: string)
    : (r: seq<Objectif>)
    ensures Subseq(r, objectifs)
    ensures forall i :: 0 <= i < |r| ==> KeepsObjectif(r[i], search, filterStatut, filterTrimestre)
    ensures forall i :: 0 <= i < |objectifs| && KeepsObjectif(objectifs[i], search, filterStatut, filterTrimestre) ==>
      objectifs[i] in r
  {
    Filter(objectifs, o => KeepsObjectif(o, search, filterStatut, filterTrimestre))
  }

  /** With every filter empty all goals are shown, in order. */
  lemma UnfilteredShowsAll(objectifs: seq<Objectif>)
    ensures FilteredObjectifs(objectifs, "", "", "") == objectifs
  {
    forall o: Objectif ensures KeepsObjectif(o, "", "", "") {
      EmptyQueryMatches(o.data.titre);
    }
    FilterAll(objectifs, o => KeepsObjectif(o, "", "", ""));
  }

  /** Choosing a status or a quarter in addition never shows more, and keeps the order. */
  lemma SelectsNarrow(objectifs: seq<Objectif>, search: string, filterStatut: string, filterTrimestre: string)
    ensures Subseq(FilteredObjectifs(objectifs, search, filterStatut, filterTrimestre),
                   FilteredObjectifs(objectifs, search, "", filterTrimestre))
    ensures Subseq(FilteredObjectifs(objectifs, search, filterStatut, filterTrimestre),
                   FilteredObjectifs(objectifs, search, filterStatut, ""))
  {
    FilterNarrows(objectifs, o => KeepsObjectif(o, search, filterStatut, filterTrimestre),
                  o => KeepsObjectif(o, search, "", filterTrimestre));
    FilterNarrows(objectifs, o => KeepsObjectif(o, search, filterStatut, filterTrimestre),
                  o => KeepsObjectif(o, search, filterStatut, ""));
  }

  /** Selecting a status label and a quarter label shows only goals of that status in that quarter. */
  lemma SelectsAreExact(objectifs: seq<Objectif>, search: string, st: ObjectifStatut, q: Trimestre)
    ensures forall i :: 0 <= i < |FilteredObjectifs(objectifs, search, ObjectifStatutLabel(st), TrimestreLabel(q))| ==>
      FilteredObjectifs(objectifs, search, ObjectifStatutLabel(st), TrimestreLabel(q))[i].data.statut == st &&
      FilteredObjectifs(objectifs, search, ObjectifStatutLabel(st), TrimestreLabel(q))[i].data.trimestre == q
  {
    LabelsInjective();
  }

  // ------------------------------------------------------------ summary cards

  predicate IsEnCours(o: Objectif) { o.data.statut == ObjectifStatut.EnCours }
  predicate IsTermine(o: Objectif) { o.data.statut == ObjectifStatut.Termine }
  predicate IsEnRetard(o: Objectif) { o.data.statut == ObjectifStatut.EnRetard }

  /** The "En Cours" and "Terminés" cards never add up to more than the total. */
  lemma StatusCardsWithinTotal(objectifs: seq<Objectif>)
    ensures Count(objectifs, IsEnCours) + Count(objectifs, IsTermine) <= |objectifs|
  {
    CountThree(objectifs, IsEnCours, IsTermine, IsEnRetard);
  }

  function Progression(o: Objectif): int { o.data.progression }

  /**
   * The "Progression Moy." card: the rounded mean progression, or `None` for
   * the `NaN` an empty store gives; with progressions in [0, 100] it lies in [0, 100].
   */
  function AverageProgression(objectifs: seq<Objectif>): (r: Option<int>)
    ensures r.None? <==> objectifs == []
    ensures r.Some? ==> r.value == RoundReal(Sum(objectifs, Progression) as real / |objectifs| as real)
    ensures (forall i :: 0 <= i < |objectifs| ==> 0 <= objectifs[i].data.progression <= 100) && objectifs != [] ==>
      0 <= r.value <= 100
  {
    if objectifs == [] then None
    else
      var total := Sum(objectifs, Progression);
      RoundDivIsRoundReal(total, |objectifs|);
      if forall i :: 0 <= i < |objectifs| ==> 0 <= objectifs[i].data.progression <= 100 then
        SumBounds(objectifs, Progression, 0, 100);
        RoundDivRange(total, |objectifs|, 100);
        Some(RoundDiv(total, |objectifs|))
      else
        Some(RoundDiv(total, |objectifs|))
  }

  // -------------------------------------------------------------- the screen

  /** The screen state: the store, the goal being edited and the modal's visibility. */
  class ObjectifsScreen {
    var objectifs: seq<Objectif>
    var editing: Option<Objectif>
    var showModal: bool

    constructor (initial: seq<Objectif>)
      ensures objectifs == initial && editing == None && !showModal
    {
      objectifs := initial;
      editing := None;
      showModal := false;
    }

    /** "Nouvel Objectif". */
    method NewObjectif()
      modifies this
      ensures objectifs == old(objectifs) && editing == None && showModal
    {
      editing := None;
      showModal := true;
    }

    /** The edit button of a card. */
    method EditObjectif(o: Objectif)
      modifies this
      ensures objectifs == old(objectifs) && editing == Some(o) && showModal
    {
      editing := Some(o);
      showModal := true;
    }

    /** The modal's close callback. */
    method CloseModal()
      modifies this
      ensures objectifs == old(objectifs) && editing == None && !showModal
    {
      showModal := false;
      editing := None;
    }

    /** The save callback: replace the edited goal, or append one under `freshId`; then stop editing. */
    method SaveObjectif(data: ObjectifData, freshId: string)
      modifies this
      ensures old(editing).Some? ==> objectifs == ReplaceById(old(objectifs), old(editing).value.id, data)
      ensures old(editing).None? ==> objectifs == old(objectifs) + [Rec(freshId, data)]
      ensures editing == None && showModal == old(showModal)
      ensures UniqueIds(old(objectifs)) && (old(editing).Some? || !HasId(old(objectifs), freshId)) ==>
        UniqueIds(objectifs)
    {
      if editing.Some? {
        objectifs := ReplaceById(objectifs, editing.value.id, data);
      } else {
        AppendFresh(objectifs, freshId, data);
        objectifs := objectifs + [Rec(freshId, data)];
      }
      editing := None;
    }

    /** The delete button, after the confirmation dialog answered `confirmed`. */
    method DeleteObjectif(id: string, confirmed: bool)
      modifies this
      ensures objectifs == if confirmed then RemoveById(old(objectifs), id) else old(objectifs)
      ensures editing == old(editing) && showModal == old(showModal)
      ensures UniqueIds(old(objectifs)) ==> UniqueIds(objectifs)
      ensures confirmed && UniqueIds(old(objectifs)) && HasId(old(objectifs), id) ==>
        |objectifs| == |old(objectifs)| - 1
    {
      if confirmed {
        if UniqueIds(objectifs) {
          RemoveKeepsUnique(objectifs, id);
          RemoveExactlyOne(objectifs, id);
        }
        objectifs := RemoveById(objectifs, id);
      }
    }
  }
}
