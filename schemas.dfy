/**
 * Request bodies of the API and their validation into the records the handlers receive.
 *
 * A body field that the schema declares with a default is a `Field`: the client either
 * leaves the key out or sends a value. A nullable field without a default is an `Option`,
 * where leaving the key out and sending `null` are the same. Enumeration fields arrive as
 * strings; a string that is not a value of the enumeration rejects the whole body.
 * Instants (`datetime`) are whole seconds on a naive clock; money and hours are exact reals.
 */
module Schemas {
  import opened Wrappers
  import opened Enums
  import opened Calendar

  /** Outcome of validating a body: the typed record, or a rejection (HTTP 422). */
  datatype Decoded<+T> = Accepted(value: T) | Rejected

  // ------------------------------------------------------------- partner

  datatype PartenerBody = PartenerBody(
    nume: string, tip: string, oras: Option<string>, adresa_completa: Option<string>,
    cui_fiscal: Option<string>, persoana_contact: Option<string>, telefon: Option<string>,
    email: Option<string>, status: Field<string>, note: Option<string>)

  datatype PartenerCreate = PartenerCreate(
    nume: string, tip: TipInstitutie, oras: Option<string>, adresa_completa: Option<string>,
    cui_fiscal: Option<string>, persoana_contact: Option<string>, telefon: Option<string>,
    email: Option<string>, status: StatusPartener, note: Option<string>)

  function DecodePartener(b: PartenerBody): (r: Decoded<PartenerCreate>)
    ensures r.Accepted? <==>
      ParseTipInstitutie(b.tip).Some? && (b.status.Given? ==> ParseStatusPartener(b.status.value).Some?)
    ensures r.Accepted? ==> r.value.tip.Value() == b.tip && r.value.nume == b.nume
    ensures r.Accepted? && b.status.Omitted? ==> r.value.status == StatusPartener.Potential
    ensures r.Accepted? && b.status.Given? ==> r.value.status.Value() == b.status.value
  {
    var status := if b.status.Omitted? then Some(StatusPartener.Potential)
                  else ParseStatusPartener(b.status.value);
    match (ParseTipInstitutie(b.tip), status)
    case (Some(tip), Some(st)) =>
      Accepted(PartenerCreate(b.nume, tip, b.oras, b.adresa_completa, b.cui_fiscal,
                              b.persoana_contact, b.telefon, b.email, st, b.note))
    case _ => Rejected
  }

  // ---------------------------------------------------------------- lead

  datatype LeadBody = LeadBody(
    nume_contact: Option<string>, telefon_contact: Option<string>, email_contact: Option<string>,
    status: Field<string>, sursa_lead: Option<string>, note: Option<string>,
    partener_id: Option<int>, campanie_id: Option<int>)

  datatype LeadCreate = LeadCreate(
    nume_contact: Option<string>, telefon_contact: Option<string>, email_contact: Option<string>,
    status: StatusLead, sursa_lead: Option<string>, note: Option<string>,
    partener_id: Option<int>, campanie_id: Option<int>)

  function DecodeLead(b: LeadBody): (r: Decoded<LeadCreate>)
    ensures r.Accepted? <==> (b.status.Given? ==> ParseStatusLead(b.status.value).Some?)
    ensures r.Accepted? && b.status.Omitted? ==> r.value.status == StatusLead.Nou
    ensures r.Accepted? && b.status.Given? ==> r.value.status.Value() == b.status.value
    ensures r.Accepted? ==> r.value.partener_id == b.partener_id && r.value.campanie_id == b.campanie_id
  {
    var status := if b.status.Omitted? then Some(StatusLead.Nou) else ParseStatusLead(b.status.value);
    match status
    case Some(st) =>
      Accepted(LeadCreate(b.nume_contact, b.telefon_contact, b.email_contact, st, b.sursa_lead,
                          b.note, b.partener_id, b.campanie_id))
    case None => Rejected
  }

  // ------------------------------------------------------------ contract

  datatype ContractBody = ContractBody(
    nume_contract: string, valoare: real, data_semnarii: Date, data_start: Option<Date>,
    data_expirare: Option<Date>, status: string, mod_calcul_pret: Field<string>,
    moneda: Field<string>, partener_id: int, lead_id: Option<int>)

  datatype ContractCreate = ContractCreate(
    nume_contract: string, valoare: real, data_semnarii: Date, data_start: Option<Date>,
    data_expirare: Option<Date>, status: string, mod_calcul_pret: ModCalculPret,
    moneda: string, partener_id: int, lead_id: Option<int>)

  function DecodeContract(b: ContractBody): (r: Decoded<ContractCreate>)
    ensures r.Accepted? <==>
      (b.mod_calcul_pret.Given? ==> ParseModCalculPret(b.mod_calcul_pret.value).Some?)
    ensures r.Accepted? && b.mod_calcul_pret.Omitted? ==> r.value.mod_calcul_pret == ModCalculPret.Pausal
    ensures r.Accepted? && b.moneda.Omitted? ==> r.value.moneda == "RON"
    ensures r.Accepted? && b.mod_calcul_pret.Given? ==>
              r.value.mod_calcul_pret.Value() == b.mod_calcul_pret.value
    ensures r.Accepted? && b.moneda.Given? ==> r.value.moneda == b.moneda.value
    ensures r.Accepted? ==> r.value.status == b.status
    ensures r.Accepted? ==> r.value.nume_contract == b.nume_contract && r.value.valoare == b.valoare
    ensures r.Accepted? ==> r.value.data_semnarii == b.data_semnarii && r.value.data_start == b.data_start
                            && r.value.data_expirare == b.data_expirare
    ensures r.Accepted? ==> r.value.partener_id == b.partener_id && r.value.lead_id == b.lead_id
  {
    var mode := if b.mod_calcul_pret.Omitted? then Some(ModCalculPret.Pausal)
                else ParseModCalculPret(b.mod_calcul_pret.value);
    match mode
    case Some(m) =>
      Accepted(ContractCreate(b.nume_contract, b.valoare, b.data_semnarii, b.data_start,
                              b.data_expirare, b.status, m, b.moneda.Or("RON"), b.partener_id, b.lead_id))
    case None => Rejected
  }

  // ------------------------------------------------------------- teacher

  datatype ProfesorBody = ProfesorBody(
    nume_complet: string, email: Option<string>, telefon: Option<string>,
    tip_contract: Field<string>, tarif_orar_default: Field<Option<real>>, is_active: Field<bool>,
    data_start: Option<Date>, note: Option<string>)

  datatype ProfesorCreate = ProfesorCreate(
    nume_complet: string, email: Option<string>, telefon: Option<string>,
    tip_contract: TipContractHR, tarif_orar_default: Option<real>, is_active: bool,
    data_start: Option<Date>, note: Option<string>)

  function DecodeProfesor(b: ProfesorBody): (r: Decoded<ProfesorCreate>)
    ensures r.Accepted? <==> (b.tip_contract.Given? ==> ParseTipContractHR(b.tip_contract.value).Some?)
    ensures r.Accepted? && b.tip_contract.Omitted? ==> r.value.tip_contract == TipContractHR.Cim
    ensures r.Accepted? && b.tip_contract.Given? ==> r.value.tip_contract.Value() == b.tip_contract.value
    ensures r.Accepted? && b.tarif_orar_default.Omitted? ==> r.value.tarif_orar_default == Some(0.0)
    ensures r.Accepted? && b.tarif_orar_default.Given? ==>
              r.value.tarif_orar_default == b.tarif_orar_default.value
    ensures r.Accepted? && b.is_active.Omitted? ==> r.value.is_active
    ensures r.Accepted? && b.is_active.Given? ==> r.value.is_active == b.is_active.value
    ensures r.Accepted? ==> r.value.nume_complet == b.nume_complet && r.value.email == b.email
                            && r.value.telefon == b.telefon
    ensures r.Accepted? ==> r.value.data_start == b.data_start && r.value.note == b.note
  {
    var kind := if b.tip_contract.Omitted? then Some(TipContractHR.Cim)
                else ParseTipContractHR(b.tip_contract.value);
    match kind
    case Some(k) =>
      Accepted(ProfesorCreate(b.nume_complet, b.email, b.telefon, k,
                              b.tarif_orar_default.Or(Some(0.0)), b.is_active.Or(true),
                              b.data_start, b.note))
    case None => Rejected
  }

  // -------------------------------------------------------------- course

  datatype CursBody = CursBody(
    nume_curs: string, categorie: Field<Option<string>>, nivel_dificultate: Field<Option<string>>,
    varsta_min: Field<Option<int>>, varsta_max: Field<Option<int>>,
    programa_link: Option<string>, descriere: Option<string>)

  datatype CursCreate = CursCreate(
    nume_curs: string, categorie: Option<string>, nivel_dificultate: Option<string>,
    varsta_min: Option<int>, varsta_max: Option<int>,
    programa_link: Option<string>, descriere: Option<string>)

  /** A course body has no enumeration field, so it is always accepted. */
  function DecodeCurs(b: CursBody): (c: CursCreate)
    ensures b.categorie.Omitted? ==> c.categorie == Some("General")
    ensures b.nivel_dificultate.Omitted? ==> c.nivel_dificultate == Some("Incepator")
    ensures b.varsta_min.Omitted? ==> c.varsta_min == Some(6)
    ensures b.varsta_max.Omitted? ==> c.varsta_max == Some(18)
    ensures b.categorie.Given? ==> c.categorie == b.categorie.value
    ensures b.nivel_dificultate.Given? ==> c.nivel_dificultate == b.nivel_dificultate.value
    ensures b.varsta_min.Given? ==> c.varsta_min == b.varsta_min.value
    ensures b.varsta_max.Given? ==> c.varsta_max == b.varsta_max.value
  {
    CursCreate(b.nume_curs, b.categorie.Or(Some("General")), b.nivel_dificultate.Or(Some("Incepator")),
               b.varsta_min.Or(Some(6)), b.varsta_max.Or(Some(18)), b.programa_link, b.descriere)
  }

  // ------------------------------------------------------------- student

  datatype ElevBody = ElevBody(
    nume_complet: string, data_nasterii: Option<Date>, scoala_curenta: Option<string>,
    nume_parinte: Option<string>, telefon_parinte: Option<string>, email_parinte: Option<string>,
    gdpr_accepted: Field<bool>, note: Option<string>)

  datatype ElevCreate = ElevCreate(
    nume_complet: string, data_nasterii: Option<Date>, scoala_curenta: Option<string>,
    nume_parinte: Option<string>, telefon_parinte: Option<string>, email_parinte: Option<string>,
    gdpr_accepted: bool, note: Option<string>)

  function DecodeElev(b: ElevBody): (e: ElevCreate)
    ensures b.gdpr_accepted.Omitted? ==> !e.gdpr_accepted
    ensures b.gdpr_accepted.Given? ==> e.gdpr_accepted == b.gdpr_accepted.value
    ensures e.note == b.note && e.data_nasterii == b.data_nasterii
  {
    ElevCreate(b.nume_complet, b.data_nasterii, b.scoala_curenta, b.nume_parinte,
               b.telefon_parinte, b.email_parinte, b.gdpr_accepted.Or(false), b.note)
  }

  // --------------------------------------------------------------- group

  datatype GrupaBody = GrupaBody(
    nume_grupa: string, contract_id: Option<int>, curs_id: int, profesor_titular_id: int,
    max_copii: Field<Option<int>>, data_inceput: Option<Date>, data_sfarsit: Option<Date>,
    status_grupa: Field<string>, tip_plata_grupa: string, note: Option<string>)

  datatype GrupaCreate = GrupaCreate(
    nume_grupa: string, contract_id: Option<int>, curs_id: int, profesor_titular_id: int,
    max_copii: Option<int>, data_inceput: Option<Date>, data_sfarsit: Option<Date>,
    status_grupa: StatusGrupa, tip_plata_grupa: string, note: Option<string>)

  /** The payer field is a plain string: it is accepted whatever it holds. */
  function DecodeGrupa(b: GrupaBody): (r: Decoded<GrupaCreate>)
    ensures r.Accepted? <==> (b.status_grupa.Given? ==> ParseStatusGrupa(b.status_grupa.value).Some?)
    ensures r.Accepted? && b.max_copii.Omitted? ==> r.value.max_copii == Some(10)
    ensures r.Accepted? && b.max_copii.Given? ==> r.value.max_copii == b.max_copii.value
    ensures r.Accepted? && b.status_grupa.Omitted? ==> r.value.status_grupa == StatusGrupa.Planificata
    ensures r.Accepted? && b.status_grupa.Given? ==> r.value.status_grupa.Value() == b.status_grupa.value
    ensures r.Accepted? ==> r.value.tip_plata_grupa == b.tip_plata_grupa
  {
    var status := if b.status_grupa.Omitted? then Some(StatusGrupa.Planificata)
                  else ParseStatusGrupa(b.status_grupa.value);
    match status
    case Some(st) =>
      Accepted(GrupaCreate(b.nume_grupa, b.contract_id, b.curs_id, b.profesor_titular_id,
                           b.max_copii.Or(Some(10)), b.data_inceput, b.data_sfarsit, st,
                           b.tip_plata_grupa, b.note))
    case None => Rejected
  }

  // ------------------------------------------------------------- session

  datatype SesiuneBody = SesiuneBody(
    grupa_id: int, profesor_id: int, data_ora_start: int, data_ora_end: int,
    sala: Option<string>, tema_lectiei: Option<string>, status_sesiune: Field<string>,
    durata_ore: Option<real>, note: Option<string>)

  datatype SesiuneCreate = SesiuneCreate(
    grupa_id: int, profesor_id: int, data_ora_start: int, data_ora_end: int,
    sala: Option<string>, tema_lectiei: Option<string>, status_sesiune: StatusSesiune,
    durata_ore: Option<real>, note: Option<string>)

  function DecodeSesiune(b: SesiuneBody): (r: Decoded<SesiuneCreate>)
    ensures r.Accepted? <==>
      (b.status_sesiune.Given? ==> ParseStatusSesiune(b.status_sesiune.value).Some?)
    ensures r.Accepted? && b.status_sesiune.Omitted? ==> r.value.status_sesiune == StatusSesiune.Planificata
    ensures r.Accepted? && b.status_sesiune.Given? ==> r.value.status_sesiune.Value() == b.status_sesiune.value
    ensures r.Accepted? ==> r.value.grupa_id == b.grupa_id && r.value.profesor_id == b.profesor_id
    ensures r.Accepted? ==> r.value.data_ora_start == b.data_ora_start && r.value.data_ora_end == b.data_ora_end
    ensures r.Accepted? ==> r.value.sala == b.sala && r.value.tema_lectiei == b.tema_lectiei
    ensures r.Accepted? ==> r.value.durata_ore == b.durata_ore && r.value.note == b.note
  {
    var status := if b.status_sesiune.Omitted? then Some(StatusSesiune.Planificata)
                  else ParseStatusSesiune(b.status_sesiune.value);
    match status
    case Some(st) =>
      Accepted(SesiuneCreate(b.grupa_id, b.profesor_id, b.data_ora_start, b.data_ora_end,
                             b.sala, b.tema_lectiei, st, b.durata_ore, b.note))
    case None => Rejected
  }

  // ------------------------------------------------------------- invoice

  datatype FacturaBody = FacturaBody(
    serie_numar: string, client_nume: string, data_emitere: Date, data_scadenta: Date,
    total_plata: real, moneda: Field<string>, status: Field<string>)

  datatype FacturaCreate = FacturaCreate(
    serie_numar: string, client_nume: string, data_emitere: Date, data_scadenta: Date,
    total_plata: real, moneda: string, status: StatusFactura)

  function DecodeFactura(b: FacturaBody): (r: Decoded<FacturaCreate>)
    ensures r.Accepted? <==> (b.status.Given? ==> ParseStatusFactura(b.status.value).Some?)
    ensures r.Accepted? && b.moneda.Omitted? ==> r.value.moneda == "RON"
    ensures r.Accepted? && b.moneda.Given? ==> r.value.moneda == b.moneda.value
    ensures r.Accepted? ==> r.value.serie_numar == b.serie_numar && r.value.client_nume == b.client_nume
    ensures r.Accepted? ==> r.value.data_emitere == b.data_emitere && r.value.data_scadenta == b.data_scadenta
    ensures r.Accepted? ==> r.value.total_plata == b.total_plata
    ensures r.Accepted? && b.status.Omitted? ==> r.value.status == StatusFactura.Draft
    ensures r.Accepted? && b.status.Given? ==> r.value.status.Value() == b.status.value
  {
    var status := if b.status.Omitted? then Some(StatusFactura.Draft)
                  else ParseStatusFactura(b.status.value);
    match status
    case Some(st) =>
      Accepted(FacturaCreate(b.serie_numar, b.client_nume, b.data_emitere, b.data_scadenta,
                             b.total_plata, b.moneda.Or("RON"), st))
    case None => Rejected
  }

  /** An invoice whose status string is not one of the six values is rejected. */
  lemma FacturaUnknownStatusRejected(b: FacturaBody)
    requires b.status.Given?
    requires forall x: StatusFactura :: x.Value() != b.status.value
    ensures DecodeFactura(b) == Rejected
  {
  }
}
