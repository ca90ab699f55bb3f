/**
 * The records the pages receive from the API, as the front end reads them: a field the
 * server may send as `null` is an `Option`, dates and datetimes are the strings of the JSON
 * body. Only the fields that the pages and dialogs read are kept.
 */
module Web {
  import opened Wrappers

  /** How a request ended: a response with an ok status, any other response, or a throw. */
  datatype Reply = Ok | NotOk | Thrown

  datatype Partener = Partener(
    id: int, nume: string, tip: string, oras: Option<string>, telefon: Option<string>,
    email: Option<string>, status: string)

  datatype Lead = Lead(
    id: int, nume_contact: Option<string>, telefon_contact: Option<string>,
    email_contact: Option<string>, status: string, sursa_lead: Option<string>,
    note: Option<string>, partener_id: Option<int>)

  datatype Contract = Contract(id: int, nume_contract: string, status: string)

  datatype Profesor = Profesor(id: int, nume_complet: string)

  datatype Curs = Curs(
    id: int, nume_curs: string, categorie: Option<string>, nivel_dificultate: Option<string>,
    varsta_min: Option<int>, varsta_max: Option<int>, programa_link: Option<string>,
    descriere: Option<string>)

  datatype Elev = Elev(
    id: int, nume_complet: string, data_nasterii: Option<string>, scoala_curenta: Option<string>,
    nume_parinte: Option<string>, telefon_parinte: Option<string>, email_parinte: Option<string>,
    gdpr_accepted: bool, note: Option<string>)

  datatype Grupa = Grupa(
    id: int, nume_grupa: string, contract_id: Option<int>, curs_id: int, profesor_titular_id: int,
    max_copii: Option<int>, data_inceput: Option<string>, data_sfarsit: Option<string>,
    status_grupa: string, tip_plata_grupa: string, note: Option<string>)

  datatype Sesiune = Sesiune(
    id: int, grupa_id: int, profesor_id: int, data_ora_start: string, data_ora_end: string,
    sala: Option<string>, tema_lectiei: Option<string>, status_sesiune: string,
    note: Option<string>)

  datatype Inscriere = Inscriere(
    id: int, elev_id: int, grupa_id: int, status_inscriere: string,
    reducere_percent: Option<real>)

  datatype Factura = Factura(id: int, client_nume: string, status: string)
}
