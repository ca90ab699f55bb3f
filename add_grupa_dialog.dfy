/**
 * The dialog that creates a group: its form and defaults, the request body it builds from
 * the form, and the partial reset after a successful save.
 */
module AddGrupaDialog {
  import opened Wrappers
  import opened Text
  import opened Forms
  import opened Web

  /** The form; the contract field holds "none" when no contract is chosen. */
  datatype Form = Form(
    nume_grupa: string, curs_id: string, profesor_titular_id: string, contract_id: string,
    max_copii: string, status_grupa: string, tip_plata_grupa: string,
    data_inceput: string, data_sfarsit: string)

  /** The body sent to create or update a group; `note` is left out of a new group's body. */
  datatype GrupaPayload = GrupaPayload(
    nume_grupa: string, curs_id: Option<int>, profesor_titular_id: Option<int>,
    contract_id: Option<int>, max_copii: Option<int>, status_grupa: string,
    tip_plata_grupa: string, data_inceput: Option<string>, data_sfarsit: Option<string>,
    note: Field<Option<string>>)

  const InitialForm := Form("", "", "", "none", "10", "planificata", "plateste_parintii", "", "")

  /** The contract field as sent: "none" is `null`, anything else its `parseInt`. */
  function ContractOf(s: string): (r: Option<int>)
    ensures s == "none" ==> r.None?
    ensures s != "none" ==> r == ParseInt(s)
  {
    if s == "none" then None else ParseInt(s)
  }

  /**
   * The body for a form: the numbers read with `parseInt`, the contract sentinel and the empty
   * dates turned into `null`, the rest sent as typed, and no note.
   */
  function Payload(f: Form): (p: GrupaPayload)
    ensures p.nume_grupa == f.nume_grupa && p.status_grupa == f.status_grupa
    ensures p.tip_plata_grupa == f.tip_plata_grupa
    ensures p.curs_id == ParseInt(f.curs_id) && p.profesor_titular_id == ParseInt(f.profesor_titular_id)
    ensures p.max_copii == ParseInt(f.max_copii)
    ensures p.contract_id == ContractOf(f.contract_id)
    ensures p.data_inceput == EmptyToNull(f.data_inceput) && p.data_sfarsit == EmptyToNull(f.data_sfarsit)
    ensures p.note.Omitted?
  {
    GrupaPayload(f.nume_grupa, ParseInt(f.curs_id), ParseInt(f.profesor_titular_id),
                 ContractOf(f.contract_id), ParseInt(f.max_copii), f.status_grupa,
                 f.tip_plata_grupa, EmptyToNull(f.data_inceput), EmptyToNull(f.data_sfarsit), Omitted)
  }

  /** The untouched defaults ask for no contract, at most ten children, a planned group paid by parents. */
  lemma DefaultPayload()
    ensures var p := Payload(InitialForm);
            p.contract_id.None? && p.max_copii == Some(10) && p.status_grupa == "planificata"
            && p.tip_plata_grupa == "plateste_parintii" && p.data_inceput.None? && p.data_sfarsit.None?
  {
    assert IntToString(10) == "10";
    ParseIntOfIntToString(10);
  }

  class Dialog {
    var open: bool
    var form: Form

    constructor()
      ensures !open && form == InitialForm
    {
      open := false;
      form := InitialForm;
    }

    /**
     * `handleSubmit`: after an ok response the dialog closes and only the name is cleared, so
     * the next group starts from the same choices; otherwise the form stays as it was.
     */
    method Submit(reply: Reply) returns (sent: GrupaPayload, outcome: Outcome)
      modifies this`open, this`form
      ensures sent == Payload(old(form))
      ensures reply == Ok ==> outcome == Done && !open && form == old(form).(nume_grupa := "")
      ensures reply != Ok ==> outcome == Kept && open == old(open) && form == old(form)
    {
      sent := Payload(form);
      if reply == Ok {
        open := false;
        form := form.(nume_grupa := "");
        outcome := Done;
      } else {
        outcome := Kept;
      }
    }
  }
}
