/**
 * The dialog that registers a partner institution: a form whose fields are updated one at
 * a time by the id of the input that changed, the select for the institution kind, the
 * body sent (the form itself), and what an ok or failed save does.
 */
module AddPartnerDialog {
  import opened Wrappers
  import opened Forms
  import opened Web
  import Enums
  import Schemas

  datatype Form = Form(nume: string, tip: string, oras: string, telefon: string, email: string)

  /** The names of the form's fields, which the inputs carry as their ids. */
  datatype Key = Nume | Tip | Oras | Telefon | Email

  /** `form[key]`. */
  function Get(f: Form, k: Key): string {
    match k
    case Nume => f.nume
    case Tip => f.tip
    case Oras => f.oras
    case Telefon => f.telefon
    case Email => f.email
  }

  /** `{ ...form, [key]: value }`: the field named `key` holds `value`; every other field is kept. */
  function WithField(f: Form, k: Key, value: string): (r: Form)
    ensures Get(r, k) == value
    ensures forall k' :: k' != k ==> Get(r, k') == Get(f, k')
  {
    match k
    case Nume => f.(nume := value)
    case Tip => f.(tip := value)
    case Oras => f.(oras := value)
    case Telefon => f.(telefon := value)
    case Email => f.(email := value)
  }

  /** Two forms that agree on every field are the same form. */
  lemma FormsByFields(f: Form, g: Form)
    requires forall k :: Get(f, k) == Get(g, k)
    ensures f == g
  {
    assert Get(f, Nume) == Get(g, Nume) && Get(f, Tip) == Get(g, Tip) && Get(f, Oras) == Get(g, Oras);
    assert Get(f, Telefon) == Get(g, Telefon) && Get(f, Email) == Get(g, Email);
  }

  /** Typing into a field twice is typing the second text once. */
  lemma WithFieldLastWins(f: Form, k: Key, a: string, b: string)
    ensures WithField(WithField(f, k, a), k, b) == WithField(f, k, b)
  {
    FormsByFields(WithField(WithField(f, k, a), k, b), WithField(f, k, b));
  }

  /** Edits to different fields do not interfere: their order does not matter. */
  lemma WithFieldCommutes(f: Form, k1: Key, a: string, k2: Key, b: string)
    requires k1 != k2
    ensures WithField(WithField(f, k1, a), k2, b) == WithField(WithField(f, k2, b), k1, a)
  {
    FormsByFields(WithField(WithField(f, k1, a), k2, b), WithField(WithField(f, k2, b), k1, a));
  }

  const InitialForm := Form("", "scoala_stat", "", "", "")

  /** The ids of the text inputs the dialog shows. */
  const InputKeys: set<Key> := {Nume, Oras, Telefon}

  /** The values the kind select offers. */
  const TipOptions: seq<string> := ["scoala_stat", "scoala_privata", "gradinita", "hub_educational"]

  /** What the user can do to the form: type into a shown input, or pick a kind. */
  datatype Edit = Typed(key: Key, value: string) | Selected(value: string)

  function Apply(f: Form, e: Edit): Form {
    match e
    case Typed(k, v) => WithField(f, k, v)
    case Selected(v) => f.(tip := v)
  }

  function ApplyAll(f: Form, edits: seq<Edit>): Form
    decreases |edits|
  {
    if edits == [] then f else ApplyAll(Apply(f, edits[0]), edits[1..])
  }

  /** No input edits the e-mail: through any edits the shown inputs allow it is still the initial one. */
  lemma {:induction false} EmailNeverEdited(f: Form, edits: seq<Edit>)
    requires forall i :: 0 <= i < |edits| && edits[i].Typed? ==> edits[i].key in InputKeys
    ensures ApplyAll(f, edits).email == f.email
    decreases |edits|
  {
    if edits != [] {
      assert Apply(f, edits[0]).email == f.email;
      EmailNeverEdited(Apply(f, edits[0]), edits[1..]);
    }
  }

  /** How the server reads the form as a partner body: no status, so it defaults. */
  function Received(f: Form): (b: Schemas.PartenerBody)
    ensures b.nume == f.nume && b.tip == f.tip && b.status.Omitted?
    ensures b.oras == Some(f.oras) && b.telefon == Some(f.telefon) && b.email == Some(f.email)
  {
    Schemas.PartenerBody(f.nume, f.tip, Some(f.oras), None, None, None, Some(f.telefon),
                         Some(f.email), Omitted, None)
  }

  /** A kind offered by the select, or the default one, is accepted; the partner starts as a prospect. */
  lemma OfferedKindsAccepted(f: Form)
    requires f.tip in TipOptions
    ensures var r := Schemas.DecodePartener(Received(f));
            r.Accepted? && r.value.status == Enums.StatusPartener.Potential
  {
  }

  class Dialog {
    var open: bool
    var form: Form

    constructor()
      ensures !open && form == InitialForm
    {
      open := false;
      form := InitialForm;
    }

    /** `handleChange`: the field named by the input's id takes the typed value. */
    method HandleChange(id: Key, value: string)
      modifies this`form
      ensures form == WithField(old(form), id, value)
    {
      form := WithField(form, id, value);
    }

    /** `handleSelectChange`: only the kind changes. */
    method HandleSelectChange(value: string)
      modifies this`form
      ensures form == old(form).(tip := value)
    {
      form := form.(tip := value);
    }

    /**
     * `handleSubmit`: the body is the form as it is. An ok response closes the dialog and
     * resets the form; another response or a throw alerts and keeps it.
     */
    method Submit(reply: Reply) returns (body: Form, outcome: Outcome)
      modifies this`open, this`form
      ensures body == old(form)
      ensures reply == Ok ==> outcome == Done && !open && form == InitialForm
      ensures reply == NotOk ==> outcome == Alerted("Ceva nu a mers bine.")
      ensures reply == Thrown ==> outcome == Alerted("Eroare de conexiune.")
      ensures reply != Ok ==> open == old(open) && form == old(form)
    {
      body := form;
      match reply
      case Ok =>
        open := false;
        form := InitialForm;
        outcome := Done;
      case NotOk =>
        outcome := Alerted("Ceva nu a mers bine.");
      case Thrown =>
        outcome := Alerted("Eroare de conexiune.");
    }
  }
}
