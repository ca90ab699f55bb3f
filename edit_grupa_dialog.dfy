/** The dialog that edits a group: the form read from the group and the body built back from it. */
module EditGrupaDialog {
  import opened Wrappers
  import opened Text
  import opened Lookup
  import opened Forms
  import opened Web
  import opened AddGrupaDialog

  /** `contract_id ? contract_id.toString() : "none"`. */
  function ContractText(x: Option<int>): (s: string)
    ensures x.None? || x == Some(0) ==> s == "none"
    ensures x.Some? && x.value != 0 ==> s == IntToString(x.value)
  {
    if x.None? || x.value == 0 then "none" else IntToString(x.value)
  }

  /** A contract shown in the form and read back is the same contract; 0 comes back as `null`. */
  lemma ContractRoundTrip(x: Option<int>)
    ensures ContractOf(ContractText(x)) == if x == Some(0) then None else x
  {
    if x.Some? && x.value != 0 {
      ParseIntOfIntToString(x.value);
      assert IntToString(x.value) != "none" by {
        assert x.value < 0 <==> IntToString(x.value)[0] == '-';
      }
    }
  }

  /**
   * The form the dialog starts with. `max_copii.toString()` throws on a group without a
   * limit, so the dialog needs one.
   */
  function FormOf(g: Grupa): (f: Form)
    requires g.max_copii.Some?
    ensures f.contract_id == ContractText(g.contract_id)
    ensures f.curs_id == IntToString(g.curs_id) && f.profesor_titular_id == IntToString(g.profesor_titular_id)
    ensures f.max_copii == IntToString(g.max_copii.value)
    ensures f.data_inceput == OrElse(g.data_inceput, "") && f.data_sfarsit == OrElse(g.data_sfarsit, "")
    ensures f.nume_grupa == g.nume_grupa && f.status_grupa == g.status_grupa
    ensures f.tip_plata_grupa == g.tip_plata_grupa
  {
    Form(g.nume_grupa, IntToString(g.curs_id), IntToString(g.profesor_titular_id),
         ContractText(g.contract_id), IntToString(g.max_copii.value), g.status_grupa,
         g.tip_plata_grupa, OrElse(g.data_inceput, ""), OrElse(g.data_sfarsit, ""))
  }

  /** The body of an edit: the body of the form together with the group's own note. */
  function EditPayload(f: Form, g: Grupa): (p: GrupaPayload)
    ensures p.note == Given(g.note) && p.(note := Omitted) == Payload(f)
  {
    Payload(f).(note := Given(g.note))
  }

  /**
   * Saving an unchanged form sends the group back as it was, except that a contract id of 0
   * and an empty date are sent as `null`.
   */
  lemma UnchangedFormRoundTrip(g: Grupa)
    requires g.max_copii.Some?
    ensures EditPayload(FormOf(g), g) == GrupaPayload(
      g.nume_grupa, Some(g.curs_id), Some(g.profesor_titular_id),
      if g.contract_id == Some(0) then None else g.contract_id, g.max_copii,
      g.status_grupa, g.tip_plata_grupa,
      if g.data_inceput == Some("") then None else g.data_inceput,
      if g.data_sfarsit == Some("") then None else g.data_sfarsit,
      Given(g.note))
  {
    ParseIntOfIntToString(g.curs_id);
    ParseIntOfIntToString(g.profesor_titular_id);
    ParseIntOfIntToString(g.max_copii.value);
    ContractRoundTrip(g.contract_id);
    EmptyRoundTrip(g.data_inceput);
    EmptyRoundTrip(g.data_sfarsit);
  }

  /** `handleSubmit`'s reply: ok closes and refreshes; any other response alerts; a throw is silent. */
  function SubmitOutcome(reply: Reply): (o: Outcome)
    ensures reply == Ok ==> o == Done
    ensures reply == NotOk ==> o == Alerted("Eroare la actualizare.")
    ensures reply == Thrown ==> o == Kept
  {
    match reply
    case Ok => Done
    case NotOk => Alerted("Eroare la actualizare.")
    case Thrown => Kept
  }
}
