/**
 * Team management: a searchable store of members, each member's completion
 * performance and its colour band, team totals, and create, edit and delete.
 */
module GestionEquipe {
  import opened Wrappers
  import opened Text
  import opened Records
  import opened Types
  import opened Rounding
  import MembreModal

  /** A member is shown when the search matches "prénom nom" or the position. */
  predicate KeepsMembre(m: Membre, search: string) {
    MatchesSearch(m.data.prenom + " " + m.data.nom, search) || MatchesSearch(m.data.poste, search)
  }

  /** The displayed members: exactly the kept ones, in store order. */
  function FilteredMembres(membres: seq<Membre>, search: string): (r: seq<Membre>)
    ensures Subseq(r, membres)
    ensures forall i :: 0 <= i < |r| ==> KeepsMembre(r[i], search)
    ensures forall i :: 0 <= i < |membres| && KeepsMembre(membres[i], search) ==> membres[i] in r
  {
    Filter(membres, m => KeepsMembre(m, search))
  }

  /** Lower-casing works character by character, so it distributes over concatenation. */
  lemma LowerConcat(a: string, b: string)
    ensures Lower(a + b) == Lower(a) + Lower(b)
  {
  }

  /** A search matching the first name or the last name alone finds the member. */
  lemma NameSearchFinds(m: Membre, search: string)
    requires MatchesSearch(m.data.prenom, search) || MatchesSearch(m.data.nom, search)
    ensures KeepsMembre(m, search)
  {
    var p, n := Lower(m.data.prenom), Lower(m.data.nom);
    LowerConcat(m.data.prenom + " ", m.data.nom);
    LowerConcat(m.data.prenom, " ");
    var full := Lower(m.data.prenom + " " + m.data.nom);
    assert full == p + Lower(" ") + n;
    IncludesParts(p + Lower(" "), n);
    IncludesParts(p, Lower(" "));
    if MatchesSearch(m.data.prenom, search) {
      IncludesTransitive(p + Lower(" "), p, Lower(search));
      IncludesTransitive(full, p + Lower(" "), Lower(search));
    } else {
      IncludesTransitive(full, n, Lower(search));
    }
  }

  /** An empty search shows every member. */
  lemma UnfilteredShowsAll(membres: seq<Membre>)
    ensures FilteredMembres(membres, "") == membres
  {
    forall m: Membre ensures KeepsMembre(m, "") {
      EmptyQueryMatches(m.data.poste);
    }
    FilterAll(membres, m => KeepsMembre(m, ""));
  }

  // ------------------------------------------------------------ performance

  /**
   * `calculatePerformance`: zero when nothing is assigned, otherwise the
   * completed share of the assigned actions as a rounded percentage.
   */
  function CalculatePerformance(m: MembreData): (r: int)
    ensures m.actionsAssignees == 0 ==> r == 0
    ensures m.actionsAssignees != 0 ==>
      r == RoundReal((m.actionsTerminees as real / m.actionsAssignees as real) * 100.0)
    ensures 0 <= m.actionsTerminees <= m.actionsAssignees ==> 0 <= r <= 100
  {
    var t, a := m.actionsTerminees, m.actionsAssignees;
    if a == 0 then 0
    else
      RoundDivIsRoundReal(100 * t, a);
      ScaledQuotient(t, a);
      if 0 <= t <= a then
        RoundDivRange(100 * t, a, 100);
        RoundDiv(100 * t, a)
      else
        RoundDiv(100 * t, a)
  }

  /** `(t / a) * 100` is `(100 t) / a`. */
  lemma ScaledQuotient(t: int, a: int)
    requires a != 0
    ensures (100 * t) as real / a as real == (t as real / a as real) * 100.0
  {
    var q := t as real / a as real;
    assert q * a as real == t as real;
    assert (q * 100.0) * a as real == (100 * t) as real;
  }

  /** The colour band of a performance: green from 80, yellow from 60, red below. */
  datatype Band = Green | Yellow | Red

  function PerformanceBand(performance: int): (b: Band)
    ensures b == Green <==> performance >= 80
    ensures b == Yellow <==> 60 <= performance < 80
    ensures b == Red <==> performance < 60
  {
    if performance >= 80 then Green
    else if performance >= 60 then Yellow
    else Red
  }

  // ------------------------------------------------------------ team cards

  function Assignees(m: Membre): int { m.data.actionsAssignees }
  function Terminees(m: Membre): int { m.data.actionsTerminees }
  function Performance(m: Membre): int { CalculatePerformance(m.data) }

  /** With consistent counters the "Actions Terminées" card never exceeds "Actions Assignées". */
  lemma TotalsOrdered(membres: seq<Membre>)
    requires ConsistentCounters(membres)
    ensures 0 <= Sum(membres, Terminees) <= Sum(membres, Assignees)
  {
    SumMonotone(membres, Terminees, Assignees);
    SumNonNegative(membres, Terminees);
  }

  /**
   * The "Performance Moyenne" card: the rounded mean of the members'
   * performances, `None` for the `NaN` of an empty team; with consistent
   * counters it lies in [0, 100].
   */
  function AveragePerformance(membres: seq<Membre>): (r: Option<int>)
    ensures r.None? <==> membres == []
    ensures r.Some? ==> r.value == RoundReal(Sum(membres, Performance) as real / |membres| as real)
    ensures ConsistentCounters(membres) && membres != [] ==> 0 <= r.value <= 100
  {
    if membres == [] then None
    else
      var total := Sum(membres, Performance);
      RoundDivIsRoundReal(total, |membres|);
      if ConsistentCounters(membres) then
        SumBounds(membres, Performance, 0, 100);
        RoundDivRange(total, |membres|, 100);
        Some(RoundDiv(total, |membres|))
      else
        Some(RoundDiv(total, |membres|))
  }

  // ------------------------------------------------------------ the screen

  /** The screen state: the store, the member being edited and the modal's visibility. */
  class TeamScreen {
    var membres: seq<Membre>
    var editing: Option<Membre>
    var showModal: bool

    constructor (initial: seq<Membre>)
      ensures membres == initial && editing == None && !showModal
    {
      membres := initial;
      editing := None;
      showModal := false;
    }

    /** The mode the member modal receives: editing exactly when a member is being edited. */
    function ModalMode(): (mode: MembreModal.Mode)
      reads this
      ensures mode == MembreModal.Edit <==> editing.Some?
    {
      if editing.Some? then MembreModal.Edit else MembreModal.Add
    }

    /** "Nouveau Membre" only shows the modal; the member being edited, if any, stays. */
    method OpenNew()
      modifies this
      ensures membres == old(membres) && editing == old(editing) && showModal
    {
      showModal := true;
    }

    /** The edit button of a member card. */
    method EditMembre(m: Membre)
      modifies this
      ensures membres == old(membres) && editing == Some(m) && showModal
    {
      editing := Some(m);
      showModal := true;
    }

    /** `handleCloseModal`. */
    method CloseModal()
      modifies this
      ensures membres == old(membres) && editing == None && !showModal
    {
      showModal := false;
      editing := None;
    }

    /** The save callback: replace the edited member or append one under `freshId`, then close the modal. */
    method SaveMembre(data: MembreData, freshId: string)
      modifies this
      ensures old(editing).Some? ==> membres == ReplaceById(old(membres), old(editing).value.id, data)
      ensures old(editing).None? ==> membres == old(membres) + [Rec(freshId, data)]
      ensures editing == None && !showModal
      ensures UniqueIds(old(membres)) && (old(editing).Some? || !HasId(old(membres), freshId)) ==> UniqueIds(membres)
    {
      if editing.Some? {
        membres := ReplaceById(membres, editing.value.id, data);
      } else {
        AppendFresh(membres, freshId, data);
        membres := membres + [Rec(freshId, data)];
      }
      CloseModal();
    }

    /** The delete button, after the confirmation dialog answered `confirmed`. */
    method DeleteMembre(id: string, confirmed: bool)
      modifies this
      ensures membres == if confirmed then RemoveById(old(membres), id) else old(membres)
      ensures editing == old(editing) && showModal == old(showModal)
      ensures UniqueIds(old(membres)) ==> UniqueIds(membres)
      ensures confirmed && UniqueIds(old(membres)) && HasId(old(membres), id) ==> |membres| == |old(membres)| - 1
    {
      if confirmed {
        if UniqueIds(membres) {
          RemoveKeepsUnique(membres, id);
          RemoveExactlyOne(membres, id);
        }
        membres := RemoveById(membres, id);
      }
    }
  }
}
