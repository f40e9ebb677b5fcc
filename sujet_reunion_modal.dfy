/**
 * The meeting-topic form: prefilled from the topic being edited (its date cut
 * to minutes for the date-time input) or set to the defaults of the meeting
 * kind, and emitted with the date converted back to an ISO timestamp.
 */
module SujetReunionModal {
  import opened Wrappers
  import opened Text
  import opened Records
  import opened Types

  /** The first `n` characters, `substring(0, n)`. */
  function Take(s: string, n: nat): (r: string)
    ensures r <= s && |r| == if |s| < n then |s| else n
  {
    if |s| < n then s else s[..n]
  }

  /**
   * The date-time input's value: the part before the first `T`, a `T`, and
   * the first five characters after it. Without a `T` the source reads a
   * missing piece and throws, which is `None` here.
   */
  function TrimMeetingDate(date: string): (r: Option<string>)
    ensures r.None? <==> 'T' !in date
    ensures r.Some? ==> r.value <= date && DatePart(date) + "T" <= r.value
  {
    var parts := Split(date, 'T');
    SplitSecondPieceIff(date, 'T');
    if |parts| < 2 then None
    else
      var cut := parts[0] + "T" + Take(parts[1], 5);
      TrimIsPrefix(date, parts);
      Some(cut)
  }

  /** The first piece of a join is a prefix of it. */
  lemma JoinFirst(parts: seq<string>, sep: string)
    requires |parts| >= 1
    ensures parts[0] <= Join(parts, sep)
  {
  }

  /** The cut timestamp is a prefix of the original. */
  lemma TrimIsPrefix(date: string, parts: seq<string>)
    requires parts == Split(date, 'T') && |parts| >= 2
    ensures parts[0] + "T" + Take(parts[1], 5) <= date
  {
    JoinSplit(date, 'T');
    var rest := Join(parts[1..], "T");
    assert date == parts[0] + "T" + rest;
    JoinFirst(parts[1..], "T");
    assert parts[1] <= rest;
  }

  /** Cutting an already cut timestamp changes nothing. */
  lemma TrimMeetingDateIdempotent(date: string)
    requires TrimMeetingDate(date).Some?
    ensures TrimMeetingDate(TrimMeetingDate(date).value) == TrimMeetingDate(date)
  {
    var parts := Split(date, 'T');
    SplitSecondPieceIff(date, 'T');
    var t := Take(parts[1], 5);
    assert 'T' !in t by {
      assert forall k :: 0 <= k < |t| ==> t[k] == parts[1][k];
    }
    var cut := parts[0] + "T" + t;
    assert TrimMeetingDate(date) == Some(cut);
    assert cut == parts[0] + ['T'] + t;
    SplitAroundSeparator(parts[0], t, 'T');
    SplitWithoutSeparator(t, 'T');
    assert Split(cut, 'T') == [parts[0], t];
    assert Take(t, 5) == t;
  }

  /**
   * A timestamp "date T time" is cut to its date, a `T` and the first five
   * characters of its time, read up to any further `T`.
   */
  lemma TrimMeetingDateOf(date: string, time: string)
    requires 'T' !in date
    ensures TrimMeetingDate(date + "T" + time) == Some(date + "T" + Take(Split(time, 'T')[0], 5))
    ensures 'T' !in time ==> TrimMeetingDate(date + "T" + time) == Some(date + "T" + Take(time, 5))
  {
    SplitAroundSeparator(date, time, 'T');
    if 'T' !in time {
      SplitWithoutSeparator(time, 'T');
    }
    assert date + "T" + time == date + ['T'] + time;
  }

  /** The form of a new topic of the given kind; manager topics default to the manager as owner. */
  function BlankForm(kind: TypeReunion): (f: SujetData)
    ensures f.statut == Ouvert && f.typeReunion == kind && f.actions == []
    ensures f.responsable == (if kind == Manager then "Manager" else "")
    ensures f.titre == "" && f.description == "" && f.dateReunion == "" && f.notes == ""
  {
    SujetData("", "", Ouvert, if kind == Manager then "Manager" else "", "", kind, [], "")
  }

  /**
   * What the opening effect puts in the form: the edited topic with its date
   * cut (`None` when cutting throws), or the defaults of the kind.
   */
  function InitialForm(sujet: Option<SujetReunion>, kind: TypeReunion): (f: Option<SujetData>)
    ensures sujet.None? ==> f == Some(BlankForm(kind))
    ensures sujet.Some? ==> (f.None? <==> 'T' !in sujet.value.data.dateReunion)
    ensures sujet.Some? && f.Some? ==> f.value == sujet.value.data.(dateReunion := f.value.dateReunion)
  {
    match sujet
    case None => Some(BlankForm(kind))
    case Some(s) =>
      match TrimMeetingDate(s.data.dateReunion)
      case None => None
      case Some(d) => Some(s.data.(dateReunion := d))
  }

  /** A topic whose date is already cut to minutes is prefilled unchanged. */
  lemma PrefillOfCutDate(s: SujetReunion, kind: TypeReunion)
    requires TrimMeetingDate(s.data.dateReunion) == Some(s.data.dateReunion)
    ensures InitialForm(Some(s), kind) == Some(s.data)
  {
  }

  /** The modal's form state; its first value is the defaults of the kind, with an empty owner. */
  class SujetModalState {
    var form: SujetData

    constructor (kind: TypeReunion)
      ensures form == BlankForm(kind).(responsable := "")
    {
      form := BlankForm(kind).(responsable := "");
    }

    /** The effect run when the modal opens; `ok` is false where the source throws, leaving the form as it was. */
    method Open(sujet: Option<SujetReunion>, kind: TypeReunion) returns (ok: bool)
      modifies this
      ensures ok == InitialForm(sujet, kind).Some?
      ensures ok ==> form == InitialForm(sujet, kind).value
      ensures !ok ==> form == old(form)
    {
      var f := InitialForm(sujet, kind);
      ok := f.Some?;
      if ok {
        form := f.value;
      }
    }

    /** The submit handler: the form with its date converted by `toIso` (the source's `new Date(..).toISOString()`). */
    method Submit(toIso: string -> string) returns (d: SujetData)
      ensures d == form.(dateReunion := toIso(form.dateReunion))
    {
      d := form.(dateReunion := toIso(form.dateReunion));
    }
  }
}
