/**
 * The dialog that edits a partner: the form read from the partner, the same field-by-field
 * updates as the dialog that creates one, and the body, which is the form.
 */
module EditPartnerDialog {
  import opened Wrappers
  import opened Lookup
  import opened Forms
  import opened Web
  import opened AddPartnerDialog
  import Schemas

  /** The form the dialog starts with: a missing city, phone or e-mail is "". */
  function FormOf(p: Partener): (f: Form)
    ensures f.nume == p.nume && f.tip == p.tip
    ensures f.oras == OrElse(p.oras, "") && f.telefon == OrElse(p.telefon, "") && f.email == OrElse(p.email, "")
  {
    Form(p.nume, p.tip, OrElse(p.oras, ""), OrElse(p.telefon, ""), OrElse(p.email, ""))
  }

  /** The values the kind select offers here, one more than when creating a partner. */
  const EditTipOptions: seq<string> :=
    ["scoala_stat", "scoala_privata", "gradinita", "hub_educational", "after_school"]

  /** Every kind the select offers here, "after_school" included, is one the server accepts. */
  lemma EditOfferedKindsAccepted(f: Form)
    requires f.tip in EditTipOptions
    ensures Schemas.DecodePartener(Received(f)).Accepted?
  {
  }

  /** Whatever is typed into the shown inputs, the body carries the partner's e-mail as it was shown. */
  lemma BodyKeepsEmail(p: Partener, edits: seq<Edit>)
    requires forall i :: 0 <= i < |edits| && edits[i].Typed? ==> edits[i].key in InputKeys
    ensures ApplyAll(FormOf(p), edits).email == OrElse(p.email, "")
  {
    EmailNeverEdited(FormOf(p), edits);
  }

  class Dialog {
    var open: bool
    var form: Form

    constructor(p: Partener)
      ensures !open && form == FormOf(p)
    {
      open := false;
      form := FormOf(p);
    }

    /** `handleChange`: the field named by the input's id takes the typed value. */
    method HandleChange(id: Key, value: string)
      modifies this`form
      ensures form == WithField(old(form), id, value)
    {
      form := WithField(form, id, value);
    }

    /** `handleSelectChange`: only the kind changes. */
    method HandleSelectChange(value: string)
      modifies this`form
      ensures form == old(form).(tip := value)
    {
      form := form.(tip := value);
    }

    /**
     * `handleSubmit`: the body is the form as it is. An ok response closes the dialog; another
     * response or a throw alerts; the form is never reset.
     */
    method Submit(reply: Reply) returns (body: Form, outcome: Outcome)
      modifies this`open
      ensures body == form
      ensures reply == Ok ==> outcome == Done && !open
      ensures reply == NotOk ==> outcome == Alerted("Eroare la actualizare.") && open == old(open)
      ensures reply == Thrown ==> outcome == Alerted("Eroare de conexiune.") && open == old(open)
    {
      body := form;
      match reply
      case Ok =>
        open := false;
        outcome := Done;
      case NotOk =>
        outcome := Alerted("Eroare la actualizare.");
      case Thrown =>
        outcome := Alerted("Eroare de conexiune.");
    }
  }
}
