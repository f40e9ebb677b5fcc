/**
 * The mailbox: emails searched by subject or sender and filtered by processed
 * state, marked processed one by one or by turning them into actions, and new
 * messages and replies put at the head of the list.
 */
module TraitementMailing {
  import opened Wrappers
  import opened Text
  import opened Records
  import opened Types
  import opened EmailModal

  /** Search on subject or sender; the select is "", "traite" or "non-traite". */
  predicate KeepsEmail(e: Email, search: string, filterTraite: string) {
    (MatchesSearch(e.data.sujet, search) || MatchesSearch(e.data.expediteur, search))
    && (filterTraite == ""
        || (filterTraite == "traite" && e.data.traite)
        || (filterTraite == "non-traite" && !e.data.traite))
  }

  /** The displayed emails: exactly the kept ones, in store order. */
  function FilteredEmails(emails: seq<Email>, search: string, filterTraite: string): (r: seq<Email>)
    ensures Subseq(r, emails)
    ensures forall i :: 0 <= i < |r| ==> KeepsEmail(r[i], search, filterTraite)
    ensures forall i :: 0 <= i < |emails| && KeepsEmail(emails[i], search, filterTraite) ==> emails[i] in r
  {
    Filter(emails, e => KeepsEmail(e, search, filterTraite))
  }

  /** A select value other than the three options shows nothing. */
  lemma UnknownFilterShowsNothing(emails: seq<Email>, search: string, filterTraite: string)
    requires filterTraite != "" && filterTraite != "traite" && filterTraite != "non-traite"
    ensures FilteredEmails(emails, search, filterTraite) == []
  {
  }

  /** For any search, the processed and the unprocessed views split the unfiltered view. */
  lemma {:induction false} ProcessedViewsPartition(emails: seq<Email>, search: string)
    ensures |FilteredEmails(emails, search, "traite")| + |FilteredEmails(emails, search, "non-traite")|
         == |FilteredEmails(emails, search, "")|
  {
    if emails != [] {
      ProcessedViewsPartition(emails[1..], search);
      CountCons(emails, e => KeepsEmail(e, search, "traite"));
      CountCons(emails, e => KeepsEmail(e, search, "non-traite"));
      CountCons(emails, e => KeepsEmail(e, search, ""));
    }
  }

  // ------------------------------------------------------------ the cards

  predicate IsTraite(e: Email) { e.data.traite }
  predicate IsNonTraite(e: Email) { !e.data.traite }

  /** The "Traités" and "Non traités" cards add up to the "Total" card. */
  lemma CardsAddUp(emails: seq<Email>)
    ensures Count(emails, IsTraite) + Count(emails, IsNonTraite) == |emails|
  {
    CountComplement(emails, IsTraite, IsNonTraite);
  }

  // ------------------------------------------------------------ processing

  function Processed(d: EmailData): EmailData {
    d.(traite := true)
  }

  /** `handleMarkAsProcessed`: every email with `id` becomes processed; nothing else changes. */
  function MarkProcessed(emails: seq<Email>, id: string): (r: seq<Email>)
    ensures |r| == |emails|
    ensures forall i :: 0 <= i < |emails| && emails[i].id == id ==>
      r[i].id == id && r[i].data.traite && r[i].data == emails[i].data.(traite := true)
    ensures forall i :: 0 <= i < |emails| && emails[i].id != id ==> r[i] == emails[i]
  {
    UpdateById(emails, id, Processed)
  }

  /** Marking twice is marking once. */
  lemma MarkIdempotent(emails: seq<Email>, id: string)
    ensures MarkProcessed(MarkProcessed(emails, id), id) == MarkProcessed(emails, id)
  {
    var once := MarkProcessed(emails, id);
    assert forall i :: 0 <= i < |emails| ==> MarkProcessed(once, id)[i] == once[i];
  }

  /** Marking an email that is already processed changes nothing. */
  lemma MarkProcessedNoop(emails: seq<Email>, id: string)
    requires forall i :: 0 <= i < |emails| && emails[i].id == id ==> emails[i].data.traite
    ensures MarkProcessed(emails, id) == emails
  {
    var r := MarkProcessed(emails, id);
    assert forall i :: 0 <= i < |emails| ==> r[i] == emails[i];
  }

  /** With unique ids, marking one unprocessed email moves exactly one email between the cards. */
  lemma {:induction false} MarkMovesOne(emails: seq<Email>, id: string, k: int)
    requires UniqueIds(emails)
    requires 0 <= k < |emails| && emails[k].id == id && !emails[k].data.traite
    ensures Count(MarkProcessed(emails, id), IsNonTraite) == Count(emails, IsNonTraite) - 1
    ensures Count(MarkProcessed(emails, id), IsTraite) == Count(emails, IsTraite) + 1
  {
    var r := MarkProcessed(emails, id);
    UniqueCons(emails);
    var tail := emails[1..];
    var rtail := MarkProcessed(tail, id);
    assert r == [r[0]] + rtail by {
      assert forall i :: 0 <= i < |tail| ==> rtail[i] == r[i + 1];
    }
    assert r[1..] == rtail;
    CountCons(emails, IsNonTraite);
    CountCons(r, IsNonTraite);
    if k == 0 {
      assert !HasId(tail, id);
      UpdateAbsent(tail, id, Processed);
    } else {
      assert tail[k - 1] == emails[k];
      MarkMovesOne(tail, id, k - 1);
    }
    CardsAddUp(emails);
    CardsAddUp(r);
  }

  /** The two texts `handleCreateAction` drafts from an email. */
  function ActionTitle(e: Email): string {
    "Action: " + e.data.sujet
  }

  function ActionDescription(e: Email): string {
    "Action créée depuis l'email de " + e.data.expediteur + ":\n\n" + e.data.contenu
  }

  /** The drafted title carries the subject, and the description the sender and ends with the content. */
  lemma ActionDraftCarriesEmail(e: Email)
    ensures Includes(ActionTitle(e), e.data.sujet)
    ensures Includes(ActionDescription(e), e.data.expediteur)
    ensures |e.data.contenu| <= |ActionDescription(e)|
    ensures ActionDescription(e)[|ActionDescription(e)| - |e.data.contenu|..] == e.data.contenu
  {
    IncludesParts("Action: ", e.data.sujet);
    IncludesMiddle("Action créée depuis l'email de ", e.data.expediteur, ":\n\n" + e.data.contenu);
    assert ActionDescription(e) == "Action créée depuis l'email de " + e.data.expediteur + (":\n\n" + e.data.contenu);
  }

  // ------------------------------------------------------------ sending

  /** The sender of every message written from the dashboard. */
  const ManagerAddress := "manager@monequipe.com"

  /** The message `handleSendEmail` stores: from the manager, already processed, dated `nowIso`. */
  function SentEmail(form: EmailForm, freshId: string, nowIso: string): (e: Email)
    ensures e.id == freshId && e.data.expediteur == ManagerAddress && e.data.traite
    ensures e.data.destinataire == form.destinataire && e.data.sujet == form.sujet && e.data.contenu == form.contenu
    ensures e.data.dateReception == nowIso && e.data.actionAssociee.None?
  {
    Rec(freshId, EmailData(ManagerAddress, form.destinataire, form.sujet, form.contenu, nowIso, None, true))
  }

  /**
   * The message `handleReplyEmail` stores: addressed to the original sender
   * with "Re: " and the original subject, whatever the form's recipient and
   * subject; only the form's content is used.
   */
  function ReplyEmail(original: Email, reply: EmailForm, freshId: string, nowIso: string): (e: Email)
    ensures e.id == freshId && e.data.expediteur == ManagerAddress && e.data.traite
    ensures e.data.destinataire == original.data.expediteur
    ensures e.data.sujet == "Re: " + original.data.sujet
    ensures e.data.contenu == reply.contenu
    ensures e.data.dateReception == nowIso && e.data.actionAssociee.None?
  {
    SentEmail(EmailForm(original.data.expediteur, "Re: " + original.data.sujet, reply.contenu), freshId, nowIso)
  }

  /** A reply sent from the untouched reply form quotes the original content at its end. */
  lemma UntouchedReplyQuotesOriginal(original: Email, localeDate: string -> string, freshId: string, nowIso: string)
    ensures var sent := ReplyEmail(original, InitialForm(Reply, Some(original), localeDate), freshId, nowIso);
      |original.data.contenu| <= |sent.data.contenu| &&
      sent.data.contenu[|sent.data.contenu| - |original.data.contenu|..] == original.data.contenu &&
      Includes(sent.data.contenu, "De: " + original.data.expediteur)
  {
    var form := InitialForm(Reply, Some(original), localeDate);
    var body := QuotedBody(original.data, localeDate);
    assert form.contenu == body;
    assert ReplyEmail(original, form, freshId, nowIso).data.contenu == body;
  }

  /** Putting a message with a fresh id at the head keeps ids unique. */
  lemma PrependFresh(e: Email, emails: seq<Email>)
    requires UniqueIds(emails) && !HasId(emails, e.id)
    ensures UniqueIds([e] + emails)
  {
    assert ([e] + emails)[1..] == emails;
    UniqueCons([e] + emails);
  }

  // ------------------------------------------------------------ the screen

  /** The screen state: the mailbox, the email being answered and the two modals' visibility. */
  class MailingScreen {
    var emails: seq<Email>
    var selected: Option<Email>
    var showCompose: bool
    var showReply: bool

    constructor (initial: seq<Email>)
      ensures emails == initial && selected == None && !showCompose && !showReply
    {
      emails := initial;
      selected := None;
      showCompose := false;
      showReply := false;
    }

    /** "Nouveau message". */
    method OpenCompose()
      modifies this
      ensures emails == old(emails) && selected == old(selected) && showCompose && showReply == old(showReply)
    {
      showCompose := true;
    }

    /** The compose modal's close callback. */
    method CloseCompose()
      modifies this
      ensures emails == old(emails) && selected == old(selected) && !showCompose && showReply == old(showReply)
    {
      showCompose := false;
    }

    /** The reply button of an email. */
    method OpenReply(e: Email)
      modifies this
      ensures emails == old(emails) && selected == Some(e) && showReply && showCompose == old(showCompose)
    {
      selected := Some(e);
      showReply := true;
    }

    /** The reply modal's close callback. */
    method CloseReply()
      modifies this
      ensures emails == old(emails) && selected == None && !showReply && showCompose == old(showCompose)
    {
      showReply := false;
      selected := None;
    }

    /** The "mark processed" button. */
    method MarkAsProcessed(id: string)
      modifies this
      ensures emails == MarkProcessed(old(emails), id)
      ensures selected == old(selected) && showCompose == old(showCompose) && showReply == old(showReply)
    {
      emails := MarkProcessed(emails, id);
    }

    /** "Créer une action": draft the action's title and description, then mark the email processed. */
    method CreateAction(e: Email) returns (title: string, description: string)
      modifies this
      ensures title == ActionTitle(e) && description == ActionDescription(e)
      ensures emails == MarkProcessed(old(emails), e.id)
      ensures selected == old(selected) && showCompose == old(showCompose) && showReply == old(showReply)
    {
      title := ActionTitle(e);
      description := ActionDescription(e);
      MarkAsProcessed(e.id);
    }

    /** The compose modal's send callback: the new message goes first. */
    method SendEmail(form: EmailForm, freshId: string, nowIso: string)
      modifies this
      ensures emails == [SentEmail(form, freshId, nowIso)] + old(emails)
      ensures selected == old(selected) && showCompose == old(showCompose) && showReply == old(showReply)
      ensures UniqueIds(old(emails)) && !HasId(old(emails), freshId) ==> UniqueIds(emails)
    {
      var e := SentEmail(form, freshId, nowIso);
      if UniqueIds(emails) && !HasId(emails, freshId) {
        PrependFresh(e, emails);
      }
      emails := [e] + emails;
    }

    /** The reply modal's send callback: a reply to the selected email goes first; without one nothing happens. */
    method SendReply(form: EmailForm, freshId: string, nowIso: string)
      modifies this
      ensures old(selected).Some? ==> emails == [ReplyEmail(old(selected).value, form, freshId, nowIso)] + old(emails)
      ensures old(selected).None? ==> emails == old(emails)
      ensures selected == old(selected) && showCompose == old(showCompose) && showReply == old(showReply)
      ensures UniqueIds(old(emails)) && !HasId(old(emails), freshId) ==> UniqueIds(emails)
    {
      if selected.Some? {
        var e := ReplyEmail(selected.value, form, freshId, nowIso);
        if UniqueIds(emails) && !HasId(emails, freshId) {
          PrependFresh(e, emails);
        }
        emails := [e] + emails;
      }
    }
  }
}
