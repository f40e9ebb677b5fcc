/**
 * The email form, shared by composing and replying: a reply is prefilled with
 * the sender as recipient, a "Re: " subject and the quoted original; on
 * submit the form is handed over and cleared.
 */
module EmailModal {
  import opened Wrappers
  import opened Text
  import opened Records
  import opened Types

  /** The `type` property of the modal. */
  datatype Kind = Compose | Reply

  /** The three fields of the form. */
  datatype EmailForm = EmailForm(destinataire: string, sujet: string, contenu: string)

  function BlankForm(): EmailForm {
    EmailForm("", "", "")
  }

  /** The header line that separates the reply from the quoted message. */
  const QuoteHeader := "\n\n--- Message original ---\n"

  /**
   * The prefilled reply body: two blank lines, the header, the sender, the
   * subject and the reception date (as `localeDate` renders it), then the
   * original content.
   */
  function QuotedBody(original: EmailData, localeDate: string -> string): (body: string)
    ensures |QuoteHeader| <= |body| && body[..|QuoteHeader|] == QuoteHeader
    ensures Includes(body, "De: " + original.expediteur)
    ensures Includes(body, "Sujet: " + original.sujet)
    ensures |original.contenu| <= |body| && body[|body| - |original.contenu|..] == original.contenu
  {
    var from := "De: " + original.expediteur;
    var subject := "Sujet: " + original.sujet;
    var tail := "\nDate: " + localeDate(original.dateReception) + "\n\n" + original.contenu;
    QuotedBodyParts(QuoteHeader, from, "\n" , subject, tail);
    QuoteHeader + from + "\n" + subject + tail
  }

  /** Where the pieces of a five-part concatenation sit. */
  lemma QuotedBodyParts(a: string, b: string, c: string, d: string, e: string)
    ensures (a + b + c + d + e)[..|a|] == a
    ensures Includes(a + b + c + d + e, b)
    ensures Includes(a + b + c + d + e, d)
  {
    var s := a + b + c + d + e;
    assert s == a + b + (c + d + e);
    IncludesMiddle(a, b, c + d + e);
    assert s == (a + b + c) + d + e;
    IncludesMiddle(a + b + c, d, e);
  }

  /** What the opening effect puts in the form: the reply prefill, or blanks. */
  function InitialForm(kind: Kind, original: Option<Email>, localeDate: string -> string): (f: EmailForm)
    ensures kind == Reply && original.Some? ==>
      f.destinataire == original.value.data.expediteur &&
      f.sujet == "Re: " + original.value.data.sujet &&
      f.contenu == QuotedBody(original.value.data, localeDate)
    ensures !(kind == Reply && original.Some?) ==> f == BlankForm()
  {
    if kind == Reply && original.Some? then
      var o := original.value.data;
      EmailForm(o.expediteur, "Re: " + o.sujet, QuotedBody(o, localeDate))
    else BlankForm()
  }

  /** The modal's form state. */
  class EmailModalState {
    var form: EmailForm

    constructor ()
      ensures form == BlankForm()
    {
      form := BlankForm();
    }

    /** The effect run when the modal opens or its kind or original email changes. */
    method Open(kind: Kind, original: Option<Email>, localeDate: string -> string)
      modifies this
      ensures form == InitialForm(kind, original, localeDate)
    {
      form := InitialForm(kind, original, localeDate);
    }

    /** The submit handler: hand the form to the send callback, then clear it (the modal then closes). */
    method Submit() returns (sent: EmailForm)
      modifies this
      ensures sent == old(form)
      ensures form == BlankForm()
    {
      sent := form;
      form := BlankForm();
    }
  }
}
