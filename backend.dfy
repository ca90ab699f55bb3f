/**
 * The request handlers of the API as operations on the server's tables. Each handler
 * either answers with a record or fails with "not found" (HTTP 404) and a fixed message;
 * a listing fails with HTTP 500 when a stored row no longer fits its response schema, and
 * so does a group's create or update when its payer kind cannot be read back.
 * HTTP routing, sessions and commits are below the level of this model. The clock that
 * stamps `created_at` is a parameter `now` (seconds).
 */
module Backend {
  import opened Wrappers
  import opened Enums
  import opened Calendar
  import opened Schemas
  import opened Tables

  /**
   * A handler's answer: the record, a 404 with its detail message, or a 500 when a stored
   * row does not fit the response schema (a key the schema requires has been set to NULL,
   * or an enum column holds a text that is none of its values).
   */
  datatype Response<+T> = Ok(value: T) | NotFound(detail: string) | ServerError

  // ------------------------------------------------------------ stored rows

  datatype Partener = Partener(
    nume: string, tip: TipInstitutie, oras: Option<string>, adresa_completa: Option<string>,
    cui_fiscal: Option<string>, persoana_contact: Option<string>, telefon: Option<string>,
    email: Option<string>, status: StatusPartener, note: Option<string>, created_at: int)

  datatype Lead = Lead(
    campanie_id: Option<int>, partener_id: Option<int>, nume_contact: Option<string>,
    telefon_contact: Option<string>, email_contact: Option<string>, status: StatusLead,
    sursa_lead: Option<string>, note: Option<string>)

  datatype Contract = Contract(
    partener_id: Option<int>, lead_id: Option<int>, nume_contract: string, data_semnarii: Date,
    data_start: Option<Date>, data_expirare: Option<Date>, mod_calcul_pret: ModCalculPret,
    valoare: real, moneda: string, status: string)

  /** The party an invoice is addressed to. */
  datatype Client = Client(tip: TipClient, nume_afisare: string)

  datatype Factura = Factura(
    serie_numar: string, client_id: Option<int>, luna_id: Option<int>, data_emitere: Date,
    data_scadenta: Date, total_plata: real, moneda: string, status: StatusFactura,
    created_at: int)

  /** An invoice as the API returns it: the client's name instead of its id. */
  datatype FacturaView = FacturaView(
    id: int, serie_numar: string, client_nume: string, data_emitere: Date,
    data_scadenta: Date, total_plata: real, moneda: string, status: StatusFactura,
    created_at: int)

  /** A group as stored: its course and teacher keys are NULL once those rows are deleted. */
  datatype Grupa = Grupa(
    nume_grupa: string, contract_id: Option<int>, curs_id: Option<int>,
    profesor_titular_id: Option<int>, max_copii: Option<int>, data_inceput: Option<Date>,
    data_sfarsit: Option<Date>, status_grupa: StatusGrupa, tip_plata_grupa: string,
    note: Option<string>)

  /** A session as stored: its group and teacher keys are NULL once those rows are deleted. */
  datatype Sesiune = Sesiune(
    grupa_id: Option<int>, profesor_id: Option<int>, data_ora_start: int, data_ora_end: int,
    sala: Option<string>, tema_lectiei: Option<string>, status_sesiune: StatusSesiune,
    durata_ore: Option<real>, note: Option<string>)

  // Teachers, courses and students are stored exactly as validated.

  // --------------------------------------------------------------- partners

  function NewPartener(p: PartenerCreate, now: int): (r: Partener)
    ensures r.nume == p.nume && r.tip == p.tip && r.status == p.status && r.created_at == now
    ensures r.oras == p.oras && r.adresa_completa == p.adresa_completa && r.cui_fiscal == p.cui_fiscal
    ensures r.persoana_contact == p.persoana_contact && r.telefon == p.telefon
    ensures r.email == p.email && r.note == p.note
  {
    Partener.Partener(p.nume, p.tip, p.oras, p.adresa_completa, p.cui_fiscal,
                      p.persoana_contact, p.telefon, p.email, p.status, p.note, now)
  }

  /**
   * The partner after an edit: name, kind, city, phone and e-mail come from the request;
   * address, fiscal code, contact person, status, note and creation time stay.
   */
  function UpdatedPartener(prev: Partener, p: PartenerCreate): (r: Partener)
    ensures r.nume == p.nume && r.tip == p.tip && r.oras == p.oras
    ensures r.telefon == p.telefon && r.email == p.email
    ensures r.adresa_completa == prev.adresa_completa && r.cui_fiscal == prev.cui_fiscal
    ensures r.persoana_contact == prev.persoana_contact && r.status == prev.status
    ensures r.note == prev.note && r.created_at == prev.created_at
  {
    prev.(nume := p.nume, tip := p.tip, oras := p.oras, telefon := p.telefon, email := p.email)
  }

  /** Editing twice with the same request is the same as editing once. */
  lemma UpdatedPartenerIdempotent(prev: Partener, p: PartenerCreate)
    ensures UpdatedPartener(UpdatedPartener(prev, p), p) == UpdatedPartener(prev, p)
  {
  }

  // ------------------------------------------------------------------ leads

  /** A new lead; the campaign in the request is not stored. */
  function NewLead(l: LeadCreate): (r: Lead)
    ensures r.campanie_id.None?
    ensures r.partener_id == l.partener_id && r.status == l.status && r.note == l.note
    ensures r.nume_contact == l.nume_contact && r.telefon_contact == l.telefon_contact
    ensures r.email_contact == l.email_contact && r.sursa_lead == l.sursa_lead
  {
    Lead(None, l.partener_id, l.nume_contact, l.telefon_contact, l.email_contact, l.status,
         l.sursa_lead, l.note)
  }

  /** The lead after an edit: every field but the campaign comes from the request. */
  function UpdatedLead(prev: Lead, l: LeadCreate): (r: Lead)
    ensures r.campanie_id == prev.campanie_id
    ensures r == NewLead(l).(campanie_id := prev.campanie_id)
  {
    prev.(nume_contact := l.nume_contact, telefon_contact := l.telefon_contact,
          email_contact := l.email_contact, status := l.status, sursa_lead := l.sursa_lead,
          note := l.note, partener_id := l.partener_id)
  }

  /**
   * Whether a lead may be created: a partner id that is present and non-zero must name a
   * stored partner; an absent or zero id is not checked.
   */
  predicate LeadPartnerOk(parteneri: seq<Entry<Partener>>, partener_id: Option<int>)
    ensures partener_id.Some? && Find(parteneri, partener_id.value).Some? ==> LeadPartnerOk(parteneri, partener_id)
    ensures Valid(parteneri) && partener_id.Some? && partener_id.value < 0 ==> !LeadPartnerOk(parteneri, partener_id)
    ensures partener_id.Some? && partener_id.value > 0 && !LeadPartnerOk(parteneri, partener_id) ==>
              forall i :: 0 <= i < |parteneri| ==> parteneri[i].id != partener_id.value
  {
    partener_id.None? || partener_id.value == 0 || Find(parteneri, partener_id.value).Some?
  }

  // -------------------------------------------------------------- contracts

  /**
   * A new contract: only name, value, signing date, status and partner are taken from the
   * request; the other columns get their defaults (no lead, no start or expiry date,
   * lump-sum pricing, currency RON).
   */
  function NewContract(c: ContractCreate): (r: Contract)
    ensures r.nume_contract == c.nume_contract && r.valoare == c.valoare
    ensures r.data_semnarii == c.data_semnarii && r.status == c.status
    ensures r.partener_id == Some(c.partener_id)
    ensures r.lead_id.None? && r.data_start.None? && r.data_expirare.None?
    ensures r.mod_calcul_pret == ModCalculPret.Pausal && r.moneda == "RON"
  {
    Contract(Some(c.partener_id), None, c.nume_contract, c.data_semnarii, None, None,
             ModCalculPret.Pausal, c.valoare, "RON", c.status)
  }

  /** The contract after an edit: the same five fields as on creation; the rest stay. */
  function UpdatedContract(prev: Contract, c: ContractCreate): (r: Contract)
    ensures r == NewContract(c).(lead_id := prev.lead_id, data_start := prev.data_start,
                                 data_expirare := prev.data_expirare,
                                 mod_calcul_pret := prev.mod_calcul_pret, moneda := prev.moneda)
  {
    prev.(nume_contract := c.nume_contract, valoare := c.valoare,
          data_semnarii := c.data_semnarii, status := c.status, partener_id := Some(c.partener_id))
  }

  /**
   * A stored contract in the response schema, whose partner id is a required integer:
   * nothing when the partner key is NULL.
   */
  function ContractOut(c: Contract): (r: Option<ContractCreate>)
    ensures r.Some? <==> c.partener_id.Some?
    ensures r.Some? ==> r.value.partener_id == c.partener_id.value && r.value.lead_id == c.lead_id
    ensures r.Some? ==> r.value.nume_contract == c.nume_contract && r.value.valoare == c.valoare
    ensures r.Some? ==> r.value.data_semnarii == c.data_semnarii && r.value.status == c.status
    ensures r.Some? ==> r.value.data_start == c.data_start && r.value.data_expirare == c.data_expirare
    ensures r.Some? ==> r.value.mod_calcul_pret == c.mod_calcul_pret && r.value.moneda == c.moneda
  {
    match c.partener_id
    case None => None
    case Some(pid) =>
      Some(ContractCreate(c.nume_contract, c.valoare, c.data_semnarii, c.data_start,
                          c.data_expirare, c.status, c.mod_calcul_pret, c.moneda, pid, c.lead_id))
  }

  /** A contract just created or edited always fits the response schema. */
  lemma ContractOutOfStored(prev: Contract, c: ContractCreate)
    ensures ContractOut(NewContract(c)).Some? && ContractOut(UpdatedContract(prev, c)).Some?
    ensures ContractOut(NewContract(c)).value.partener_id == c.partener_id
  {
  }

  // ----------------------------------------------------------------- groups

  /** A group as stored from a validated request. */
  function GrupaRow(g: GrupaCreate): (r: Grupa)
    ensures r.curs_id == Some(g.curs_id) && r.profesor_titular_id == Some(g.profesor_titular_id)
    ensures ParseTipPlataGrupa(g.tip_plata_grupa).Some? ==> GrupaOut(r) == Some(g)
    ensures ParseTipPlataGrupa(g.tip_plata_grupa).None? ==> GrupaOut(r).None?
  {
    Grupa(g.nume_grupa, g.contract_id, Some(g.curs_id), Some(g.profesor_titular_id), g.max_copii,
          g.data_inceput, g.data_sfarsit, g.status_grupa, g.tip_plata_grupa, g.note)
  }

  /**
   * A stored group in the response schema, whose course and teacher ids are required
   * integers: nothing when either key is NULL. Nothing either when the stored payer kind is
   * none of TipPlataGrupa's values: the column is an SQLAlchemy enum, which refuses to read
   * such a text back, while the request schema takes any text.
   */
  function GrupaOut(g: Grupa): (r: Option<GrupaCreate>)
    ensures r.Some? <==> g.curs_id.Some? && g.profesor_titular_id.Some?
                         && ParseTipPlataGrupa(g.tip_plata_grupa).Some?
    ensures r.Some? ==> r.value.curs_id == g.curs_id.value
                        && r.value.profesor_titular_id == g.profesor_titular_id.value
    ensures r.Some? ==> r.value.nume_grupa == g.nume_grupa && r.value.contract_id == g.contract_id
    ensures r.Some? ==> r.value.max_copii == g.max_copii && r.value.note == g.note
    ensures r.Some? ==> r.value.data_inceput == g.data_inceput && r.value.data_sfarsit == g.data_sfarsit
    ensures r.Some? ==> r.value.status_grupa == g.status_grupa
                        && r.value.tip_plata_grupa == g.tip_plata_grupa
  {
    if g.curs_id.None? || g.profesor_titular_id.None? || ParseTipPlataGrupa(g.tip_plata_grupa).None?
    then None
    else
      Some(GrupaCreate(g.nume_grupa, g.contract_id, g.curs_id.value, g.profesor_titular_id.value,
                       g.max_copii, g.data_inceput, g.data_sfarsit, g.status_grupa,
                       g.tip_plata_grupa, g.note))
  }

  /** A stored group that fits the schema is what storing its response would store. */
  lemma GrupaRowOfOut(g: Grupa)
    requires GrupaOut(g).Some?
    ensures GrupaRow(GrupaOut(g).value) == g
  {
  }

  /**
   * A group stored with an unknown payer kind stays in the table, so the default listing
   * (skip 0, limit 100) fails while it is among the first hundred groups.
   */
  lemma GrupaListingFailsAfterUnknownPayer(t: seq<Entry<Grupa>>, p: GrupaCreate)
    requires |t| < 100 && ParseTipPlataGrupa(p.tip_plata_grupa).None?
    ensures ConvertAll(Page(Insert(t, GrupaRow(p)), 0, 100), GrupaOut).None?
  {
    var page := Page(Insert(t, GrupaRow(p)), 0, 100);
    assert page[|t|] == Entry(NextId(t), GrupaRow(p));
  }

  // --------------------------------------------------------------- sessions

  /**
   * The stored duration in hours: a given non-zero duration is kept; otherwise it is the
   * time from start to end.
   */
  function SessionDuration(durata: Option<real>, start: int, end: int): (r: Option<real>)
    ensures durata.Some? && durata.value != 0.0 ==> r == durata
    ensures durata.None? || durata.value == 0.0 ==> r.Some? && r.value * 3600.0 == (end - start) as real
  {
    if durata.None? || durata.value == 0.0 then Some((end - start) as real / 3600.0) else durata
  }

  /** A session as stored: the request with its duration filled in. */
  function SessionRow(s: SesiuneCreate): (r: Sesiune)
    ensures r.grupa_id == Some(s.grupa_id) && r.profesor_id == Some(s.profesor_id)
    ensures SesiuneOut(r) ==
              Some(s.(durata_ore := SessionDuration(s.durata_ore, s.data_ora_start, s.data_ora_end)))
  {
    Sesiune(Some(s.grupa_id), Some(s.profesor_id), s.data_ora_start, s.data_ora_end, s.sala,
            s.tema_lectiei, s.status_sesiune,
            SessionDuration(s.durata_ore, s.data_ora_start, s.data_ora_end), s.note)
  }

  /**
   * A stored session in the response schema, whose group and teacher ids are required
   * integers: nothing when either key is NULL.
   */
  function SesiuneOut(s: Sesiune): (r: Option<SesiuneCreate>)
    ensures r.Some? <==> s.grupa_id.Some? && s.profesor_id.Some?
    ensures r.Some? ==> r.value.grupa_id == s.grupa_id.value && r.value.profesor_id == s.profesor_id.value
    ensures r.Some? ==> r.value.data_ora_start == s.data_ora_start && r.value.data_ora_end == s.data_ora_end
    ensures r.Some? ==> r.value.sala == s.sala && r.value.tema_lectiei == s.tema_lectiei
    ensures r.Some? ==> r.value.status_sesiune == s.status_sesiune
    ensures r.Some? ==> r.value.durata_ore == s.durata_ore && r.value.note == s.note
  {
    if s.grupa_id.None? || s.profesor_id.None? then None
    else
      Some(SesiuneCreate(s.grupa_id.value, s.profesor_id.value, s.data_ora_start, s.data_ora_end,
                         s.sala, s.tema_lectiei, s.status_sesiune, s.durata_ore, s.note))
  }

  /** A stored duration is never missing, and a computed one is zero only for an empty slot. */
  lemma SessionDurationPresent(durata: Option<real>, start: int, end: int)
    ensures SessionDuration(durata, start, end).Some?
    ensures SessionDuration(durata, start, end) == Some(0.0) ==> start == end
  {
  }

  /**
   * A stored session sent back unchanged is stored unchanged: filling in the duration
   * twice changes nothing more.
   */
  lemma SessionRowIdempotent(s: SesiuneCreate)
    ensures SesiuneOut(SessionRow(s)).Some?
    ensures SessionRow(SesiuneOut(SessionRow(s)).value) == SessionRow(s)
  {
    var d := SessionDuration(s.durata_ore, s.data_ora_start, s.data_ora_end);
    if d.value == 0.0 {
      assert s.data_ora_end - s.data_ora_start == 0;
    }
  }

  // --------------------------------------------------------------- invoices

  /** The first client whose display name is `name`, scanning in table order. */
  function FindClientByName(clienti: seq<Entry<Client>>, name: string): (r: Option<Entry<Client>>)
    ensures r.None? <==> forall i :: 0 <= i < |clienti| ==> clienti[i].row.nume_afisare != name
    ensures r.Some? ==> (exists i :: 0 <= i < |clienti| && clienti[i] == r.value
                           && (forall j :: 0 <= j < i ==> clienti[j].row.nume_afisare != name))
    ensures r.Some? ==> r.value.row.nume_afisare == name
  {
    if clienti == [] then None
    else if clienti[0].row.nume_afisare == name then Some(clienti[0])
    else
      var r := FindClientByName(clienti[1..], name);
      assert r.Some? ==> (exists i :: 1 <= i < |clienti| && clienti[i] == r.value
                            && (forall j :: 0 <= j < i ==> clienti[j].row.nume_afisare != name)) by {
        if r.Some? {
          var k :| 0 <= k < |clienti[1..]| && clienti[1..][k] == r.value
                   && (forall j :: 0 <= j < k ==> clienti[1..][j].row.nume_afisare != name);
          assert clienti[k + 1] == r.value;
          forall j | 0 <= j < k + 1 ensures clienti[j].row.nume_afisare != name {
            if j > 0 {
              assert clienti[j] == clienti[1..][j - 1];
            }
          }
        }
      }
      assert r.None? ==> forall i :: 0 <= i < |clienti| ==> clienti[i].row.nume_afisare != name by {
        if r.None? {
          forall i | 0 <= i < |clienti| ensures clienti[i].row.nume_afisare != name {
            if i > 0 {
              assert clienti[i] == clienti[1..][i - 1];
            }
          }
        }
      }
      r
  }

  /**
   * The client an invoice is addressed to, by display name: an existing client with that
   * name is reused, otherwise a partner-type client with that name is added.
   * Returns the client table afterwards and the client's id.
   */
  function FindOrCreateClient(clienti: seq<Entry<Client>>, name: string): (r: (seq<Entry<Client>>, int))
    ensures FindClientByName(clienti, name).Some? ==>
              r == (clienti, FindClientByName(clienti, name).value.id)
    ensures FindClientByName(clienti, name).None? ==>
              r == (Insert(clienti, Client(TipClient.Partener, name)), NextId(clienti))
  {
    match FindClientByName(clienti, name)
    case Some(c) => (clienti, c.id)
    case None => (Insert(clienti, Client(TipClient.Partener, name)), NextId(clienti))
  }

  /** Looking a name up again after it was found or created changes nothing. */
  lemma FindOrCreateIdempotent(clienti: seq<Entry<Client>>, name: string)
    requires Valid(clienti)
    ensures var (c1, id1) := FindOrCreateClient(clienti, name);
            FindOrCreateClient(c1, name) == (c1, id1)
  {
    if FindClientByName(clienti, name).None? {
      var c1 := Insert(clienti, Client(TipClient.Partener, name));
      var found := FindClientByName(c1, name);
      assert c1[|clienti|].row.nume_afisare == name;
      assert found.Some?;
      var i :| 0 <= i < |c1| && c1[i] == found.value
               && (forall j :: 0 <= j < i ==> c1[j].row.nume_afisare != name);
      assert i == |clienti|;
    }
  }

  /** At most one client is added, exactly when no client has the name yet. */
  lemma FindOrCreateAddsAtMostOne(clienti: seq<Entry<Client>>, name: string)
    requires Valid(clienti)
    ensures var (c1, _) := FindOrCreateClient(clienti, name);
            Valid(c1) && c1[..|clienti|] == clienti
            && (|c1| == |clienti| + 1 <==> forall i :: 0 <= i < |clienti| ==> clienti[i].row.nume_afisare != name)
            && (|c1| == |clienti| || |c1| == |clienti| + 1)
  {
  }

  /** The client table stays valid whichever way the lookup goes. */
  lemma FindOrCreateValid(clienti: seq<Entry<Client>>, name: string)
    requires Valid(clienti)
    ensures Valid(FindOrCreateClient(clienti, name).0)
  {
    FindOrCreateAddsAtMostOne(clienti, name);
  }

  /** The id handed out names a client with exactly the requested name. */
  lemma FindOrCreateNamesClient(clienti: seq<Entry<Client>>, name: string)
    requires Valid(clienti)
    ensures var (c1, id1) := FindOrCreateClient(clienti, name);
            Find(c1, id1).Some? && Find(c1, id1).value.nume_afisare == name
  {
    match FindClientByName(clienti, name)
    case Some(c) =>
      var i :| 0 <= i < |clienti| && clienti[i] == c;
      FindAt(clienti, i);
    case None =>
      InsertFind(clienti, Client(TipClient.Partener, name), NextId(clienti));
  }

  /**
   * The name under which an invoice is listed: its client's display name, or
   * "Client Necunoscut" when the client id is missing, zero or unknown.
   */
  function ClientName(client_id: Option<int>, clienti: seq<Entry<Client>>): (name: string)
    ensures client_id.None? || client_id.value == 0 || Find(clienti, client_id.value).None?
            ==> name == "Client Necunoscut"
    ensures client_id.Some? && client_id.value != 0 && Find(clienti, client_id.value).Some?
            ==> name == Find(clienti, client_id.value).value.nume_afisare
  {
    if client_id.Some? && client_id.value != 0 then
      match Find(clienti, client_id.value)
      case Some(c) => c.nume_afisare
      case None => "Client Necunoscut"
    else "Client Necunoscut"
  }

  /** The invoice with the given client name, in the shape the API returns. */
  function ViewWith(e: Entry<Factura>, name: string): (v: FacturaView)
    ensures v.id == e.id && v.client_nume == name && v.serie_numar == e.row.serie_numar
    ensures v.data_emitere == e.row.data_emitere && v.data_scadenta == e.row.data_scadenta
    ensures v.total_plata == e.row.total_plata && v.moneda == e.row.moneda
    ensures v.status == e.row.status && v.created_at == e.row.created_at
  {
    FacturaView(e.id, e.row.serie_numar, name, e.row.data_emitere, e.row.data_scadenta,
                e.row.total_plata, e.row.moneda, e.row.status, e.row.created_at)
  }

  /** One entry of the invoice listing. */
  function InvoiceView(e: Entry<Factura>, clienti: seq<Entry<Client>>): (v: FacturaView)
    ensures v.id == e.id && v.client_nume == ClientName(e.row.client_id, clienti)
    ensures v.status == e.row.status && v.total_plata == e.row.total_plata
    ensures v.serie_numar == e.row.serie_numar && v.moneda == e.row.moneda
    ensures v.data_emitere == e.row.data_emitere && v.data_scadenta == e.row.data_scadenta
    ensures v.created_at == e.row.created_at
  {
    ViewWith(e, ClientName(e.row.client_id, clienti))
  }

  /** A new invoice: it is linked to the given client and to month 1. */
  function NewFactura(f: FacturaCreate, client_id: int, now: int): (r: Factura)
    ensures r.client_id == Some(client_id) && r.luna_id == Some(1) && r.created_at == now
    ensures r.moneda == f.moneda && r.status == f.status && r.serie_numar == f.serie_numar
    ensures r.data_emitere == f.data_emitere && r.data_scadenta == f.data_scadenta
    ensures r.total_plata == f.total_plata
  {
    Factura(f.serie_numar, Some(client_id), Some(1), f.data_emitere, f.data_scadenta,
            f.total_plata, f.moneda, f.status, now)
  }

  /** The invoice after an edit: currency, month and creation time stay. */
  function UpdatedFactura(prev: Factura, f: FacturaCreate, client_id: int): (r: Factura)
    ensures r.moneda == prev.moneda && r.luna_id == prev.luna_id && r.created_at == prev.created_at
    ensures r == NewFactura(f, client_id, prev.created_at).(moneda := prev.moneda, luna_id := prev.luna_id)
  {
    prev.(client_id := Some(client_id), serie_numar := f.serie_numar,
          data_emitere := f.data_emitere, data_scadenta := f.data_scadenta,
          total_plata := f.total_plata, status := f.status)
  }

  /** An invoice created for a name is listed under that name. */
  lemma CreatedInvoiceListedUnderName(clienti: seq<Entry<Client>>, f: FacturaCreate, now: int, id: int)
    requires Valid(clienti)
    ensures var (c1, cid) := FindOrCreateClient(clienti, f.client_nume);
            InvoiceView(Entry(id, NewFactura(f, cid, now)), c1).client_nume == f.client_nume
  {
    FindOrCreateNamesClient(clienti, f.client_nume);
    var (c1, cid) := FindOrCreateClient(clienti, f.client_nume);
    var i :| 0 <= i < |c1| && c1[i] == Entry(cid, Find(c1, cid).value);
    assert cid != 0 by {
      FindOrCreateValid(clienti, f.client_nume);
    }
  }


  // ------------------------------------------------- deleting a referenced row
  // A relationship without a delete cascade makes the ORM set the key of every child row
  // to NULL when the parent row is deleted.

  /**
   * The leads once partner `id` is deleted: the key of each one that named it is set to
   * NULL; every other field, and every lead that did not name it, stays.
   */
  function LeadsOffPartener(t: seq<Entry<Lead>>, id: int): (r: seq<Entry<Lead>>)
    ensures |r| == |t| && (Valid(t) ==> Valid(r))
    ensures forall i :: 0 <= i < |t| ==> r[i].id == t[i].id && r[i].row.partener_id != Some(id)
    ensures forall i :: 0 <= i < |t| ==> r[i].row.(partener_id := t[i].row.partener_id) == t[i].row
    ensures forall i :: 0 <= i < |t| && t[i].row.partener_id != Some(id) ==> r[i] == t[i]
  {
    seq(|t|, i requires 0 <= i < |t| =>
      if t[i].row.partener_id == Some(id) then Entry(t[i].id, t[i].row.(partener_id := None)) else t[i])
  }

  /**
   * The contracts once partner `id` is deleted: the key of each one that named it is set to
   * NULL; every other field, and every contract that did not name it, stays.
   */
  function ContractsOffPartener(t: seq<Entry<Contract>>, id: int): (r: seq<Entry<Contract>>)
    ensures |r| == |t| && (Valid(t) ==> Valid(r))
    ensures forall i :: 0 <= i < |t| ==> r[i].id == t[i].id && r[i].row.partener_id != Some(id)
    ensures forall i :: 0 <= i < |t| ==> r[i].row.(partener_id := t[i].row.partener_id) == t[i].row
    ensures forall i :: 0 <= i < |t| && t[i].row.partener_id != Some(id) ==> r[i] == t[i]
  {
    seq(|t|, i requires 0 <= i < |t| =>
      if t[i].row.partener_id == Some(id) then Entry(t[i].id, t[i].row.(partener_id := None)) else t[i])
  }

  /**
   * The groups once contract `id` is deleted: the key of each one that named it is set to
   * NULL; every other field, and every group that did not name it, stays.
   */
  function GrupeOffContract(t: seq<Entry<Grupa>>, id: int): (r: seq<Entry<Grupa>>)
    ensures |r| == |t| && (Valid(t) ==> Valid(r))
    ensures forall i :: 0 <= i < |t| ==> r[i].id == t[i].id && r[i].row.contract_id != Some(id)
    ensures forall i :: 0 <= i < |t| ==> r[i].row.(contract_id := t[i].row.contract_id) == t[i].row
    ensures forall i :: 0 <= i < |t| && t[i].row.contract_id != Some(id) ==> r[i] == t[i]
  {
    seq(|t|, i requires 0 <= i < |t| =>
      if t[i].row.contract_id == Some(id) then Entry(t[i].id, t[i].row.(contract_id := None)) else t[i])
  }

  /**
   * The groups once course `id` is deleted: the key of each one that named it is set to
   * NULL; every other field, and every group that did not name it, stays.
   */
  function GrupeOffCurs(t: seq<Entry<Grupa>>, id: int): (r: seq<Entry<Grupa>>)
    ensures |r| == |t| && (Valid(t) ==> Valid(r))
    ensures forall i :: 0 <= i < |t| ==> r[i].id == t[i].id && r[i].row.curs_id != Some(id)
    ensures forall i :: 0 <= i < |t| ==> r[i].row.(curs_id := t[i].row.curs_id) == t[i].row
    ensures forall i :: 0 <= i < |t| && t[i].row.curs_id != Some(id) ==> r[i] == t[i]
  {
    seq(|t|, i requires 0 <= i < |t| =>
      if t[i].row.curs_id == Some(id) then Entry(t[i].id, t[i].row.(curs_id := None)) else t[i])
  }

  /**
   * The groups once teacher `id` is deleted: the key of each one that named it is set to
   * NULL; every other field, and every group that did not name it, stays.
   */
  function GrupeOffProfesor(t: seq<Entry<Grupa>>, id: int): (r: seq<Entry<Grupa>>)
    ensures |r| == |t| && (Valid(t) ==> Valid(r))
    ensures forall i :: 0 <= i < |t| ==> r[i].id == t[i].id && r[i].row.profesor_titular_id != Some(id)
    ensures forall i :: 0 <= i < |t| ==> r[i].row.(profesor_titular_id := t[i].row.profesor_titular_id) == t[i].row
    ensures forall i :: 0 <= i < |t| && t[i].row.profesor_titular_id != Some(id) ==> r[i] == t[i]
  {
    seq(|t|, i requires 0 <= i < |t| =>
      if t[i].row.profesor_titular_id == Some(id) then Entry(t[i].id, t[i].row.(profesor_titular_id := None)) else t[i])
  }

  /**
   * The sessions once group `id` is deleted: the key of each one that named it is set to
   * NULL; every other field, and every session that did not name it, stays.
   */
  function SesiuniOffGrupa(t: seq<Entry<Sesiune>>, id: int): (r: seq<Entry<Sesiune>>)
    ensures |r| == |t| && (Valid(t) ==> Valid(r))
    ensures forall i :: 0 <= i < |t| ==> r[i].id == t[i].id && r[i].row.grupa_id != Some(id)
    ensures forall i :: 0 <= i < |t| ==> r[i].row.(grupa_id := t[i].row.grupa_id) == t[i].row
    ensures forall i :: 0 <= i < |t| && t[i].row.grupa_id != Some(id) ==> r[i] == t[i]
  {
    seq(|t|, i requires 0 <= i < |t| =>
      if t[i].row.grupa_id == Some(id) then Entry(t[i].id, t[i].row.(grupa_id := None)) else t[i])
  }

  /**
   * The sessions once teacher `id` is deleted: the key of each one that named it is set to
   * NULL; every other field, and every session that did not name it, stays.
   */
  function SesiuniOffProfesor(t: seq<Entry<Sesiune>>, id: int): (r: seq<Entry<Sesiune>>)
    ensures |r| == |t| && (Valid(t) ==> Valid(r))
    ensures forall i :: 0 <= i < |t| ==> r[i].id == t[i].id && r[i].row.profesor_id != Some(id)
    ensures forall i :: 0 <= i < |t| ==> r[i].row.(profesor_id := t[i].row.profesor_id) == t[i].row
    ensures forall i :: 0 <= i < |t| && t[i].row.profesor_id != Some(id) ==> r[i] == t[i]
  {
    seq(|t|, i requires 0 <= i < |t| =>
      if t[i].row.profesor_id == Some(id) then Entry(t[i].id, t[i].row.(profesor_id := None)) else t[i])
  }

  /** Setting the partner key to NULL leaves every contract's lead as it was. */
  lemma ContractsOffPartenerKeepLead(t: seq<Entry<Contract>>, id: int)
    requires forall i :: 0 <= i < |t| ==> t[i].row.lead_id.None?
    ensures forall i :: 0 <= i < |ContractsOffPartener(t, id)| ==>
              ContractsOffPartener(t, id)[i].row.lead_id.None?
  {
  }

  /**
   * Once a partner with a contract on the first page is deleted, the default contract
   * listing fails: that contract's partner id is NULL and no longer fits the schema.
   */
  lemma ContractListingFailsAfterPartnerDelete(t: seq<Entry<Contract>>, id: int, i: int)
    requires 0 <= i < |t| && i < 100 && t[i].row.partener_id == Some(id)
    ensures ConvertAll(Page(ContractsOffPartener(t, id), 0, 100), ContractOut).None?
  {
    var page := Page(ContractsOffPartener(t, id), 0, 100);
    assert page[i] == ContractsOffPartener(t, id)[i];
    assert ContractOut(page[i].row).None?;
  }
  /** The server's database: one table per entity. */
  class Server {
    var parteneri: seq<Entry<Partener>>
    var leaduri: seq<Entry<Lead>>
    var contracte: seq<Entry<Contract>>
    var profesori: seq<Entry<ProfesorCreate>>
    var cursuri: seq<Entry<CursCreate>>
    var elevi: seq<Entry<ElevCreate>>
    var grupe: seq<Entry<Grupa>>
    var sesiuni: seq<Entry<Sesiune>>
    var clienti: seq<Entry<Client>>
    var facturi: seq<Entry<Factura>>

    /**
     * Every table has positive, strictly increasing ids, and no contract names a lead: no
     * handler sets a contract's lead, so deleting a lead leaves the contracts as they are.
     */
    ghost predicate Valid()
      reads this
    {
      Tables.Valid(parteneri) && Tables.Valid(leaduri) && Tables.Valid(contracte)
      && Tables.Valid(profesori) && Tables.Valid(cursuri) && Tables.Valid(elevi)
      && Tables.Valid(grupe) && Tables.Valid(sesiuni) && Tables.Valid(clienti)
      && Tables.Valid(facturi)
      && (forall i :: 0 <= i < |contracte| ==> contracte[i].row.lead_id.None?)
    }

    /** An empty database. */
    constructor ()
      ensures Valid()
      ensures parteneri == [] && leaduri == [] && contracte == [] && profesori == []
      ensures cursuri == [] && elevi == [] && grupe == [] && sesiuni == []
      ensures clienti == [] && facturi == []
    {
      parteneri, leaduri, contracte, profesori, cursuri := [], [], [], [], [];
      elevi, grupe, sesiuni, clienti, facturi := [], [], [], [], [];
    }

    // ------------------------------------------------------------ partners

    method CreatePartener(p: PartenerCreate, now: int) returns (r: Entry<Partener>)
      requires Valid()
      modifies this`parteneri
      ensures Valid()
      ensures r == Entry(NextId(old(parteneri)), NewPartener(p, now))
      ensures parteneri == Insert(old(parteneri), r.row)
    {
      r := Entry(NextId(parteneri), NewPartener(p, now));
      parteneri := Insert(parteneri, r.row);
    }

    method ReadParteneri(skip: int, limit: int) returns (r: seq<Entry<Partener>>)
      ensures r == Page(parteneri, skip, limit)
      ensures limit >= 0 ==> |r| <= limit
    {
      r := Page(parteneri, skip, limit);
    }

    method ReadPartener(id: int) returns (r: Response<Entry<Partener>>)
      ensures Find(parteneri, id).None? ==> r == NotFound("Partenerul nu a fost gasit")
      ensures Find(parteneri, id).Some? ==> r == Ok(Entry(id, Find(parteneri, id).value))
    {
      var found := Find(parteneri, id);
      if found.None? {
        return NotFound("Partenerul nu a fost gasit");
      }
      r := Ok(Entry(id, found.value));
    }

    method UpdatePartener(id: int, p: PartenerCreate) returns (r: Response<Entry<Partener>>)
      requires Valid()
      modifies this`parteneri
      ensures Valid()
      ensures old(Find(parteneri, id)).None? ==> r == NotFound("Partenerul nu a fost gasit") && parteneri == old(parteneri)
      ensures old(Find(parteneri, id)).Some? ==>
                r == Ok(Entry(id, UpdatedPartener(old(Find(parteneri, id)).value, p)))
                && parteneri == Replace(old(parteneri), id, r.value.row)
    {
      var found := Find(parteneri, id);
      if found.None? {
        return NotFound("Partenerul nu a fost gasit");
      }
      var prev := found.value;
      var row := UpdatedPartener(prev, p);
      ReplaceFind(parteneri, id, row, id);
      parteneri := Replace(parteneri, id, row);
      r := Ok(Entry(id, row));
    }

    /** Deleting the row also sets to NULL the key by which its leads and contracts name it. */
    method DeletePartener(id: int) returns (r: Response<string>)
      requires Valid()
      modifies this`parteneri, this`leaduri, this`contracte
      ensures Valid()
      ensures old(Find(parteneri, id)).None? ==>
                r == NotFound("Partenerul nu a fost gasit") && parteneri == old(parteneri)
                && leaduri == old(leaduri)
                && contracte == old(contracte)
      ensures old(Find(parteneri, id)).Some? ==>
                r == Ok("Partener sters cu succes") && parteneri == Remove(old(parteneri), id)
                && leaduri == LeadsOffPartener(old(leaduri), id)
                && contracte == ContractsOffPartener(old(contracte), id)
    {
      if Find(parteneri, id).None? {
        return NotFound("Partenerul nu a fost gasit");
      }
      RemoveFind(parteneri, id, id);
      parteneri := Remove(parteneri, id);
      ContractsOffPartenerKeepLead(contracte, id);
      leaduri := LeadsOffPartener(leaduri, id);
      contracte := ContractsOffPartener(contracte, id);
      r := Ok("Partener sters cu succes");
    }

    // --------------------------------------------------------------- leads

    /** Creating a lead first checks the partner it names, if it names one. */
    method CreateLead(l: LeadCreate) returns (r: Response<Entry<Lead>>)
      requires Valid()
      modifies this`leaduri
      ensures Valid()
      ensures !LeadPartnerOk(parteneri, l.partener_id) ==>
                r == NotFound("Partenerul specificat nu exista") && leaduri == old(leaduri)
      ensures LeadPartnerOk(parteneri, l.partener_id) ==>
                r == Ok(Entry(NextId(old(leaduri)), NewLead(l)))
                && leaduri == Insert(old(leaduri), NewLead(l))
    {
      if l.partener_id.Some? && l.partener_id.value != 0 {
        var partener := Find(parteneri, l.partener_id.value);
        if partener.None? {
          return NotFound("Partenerul specificat nu exista");
        }
      }
      var e := Entry(NextId(leaduri), NewLead(l));
      leaduri := Insert(leaduri, e.row);
      r := Ok(e);
    }

    method ReadLeaduri(skip: int, limit: int) returns (r: seq<Entry<Lead>>)
      ensures r == Page(leaduri, skip, limit)
      ensures limit >= 0 ==> |r| <= limit
    {
      r := Page(leaduri, skip, limit);
    }

    /** Editing a lead does not check the partner it names. */
    method UpdateLead(id: int, p: LeadCreate) returns (r: Response<Entry<Lead>>)
      requires Valid()
      modifies this`leaduri
      ensures Valid()
      ensures old(Find(leaduri, id)).None? ==> r == NotFound("Lead-ul nu a fost gasit") && leaduri == old(leaduri)
      ensures old(Find(leaduri, id)).Some? ==>
                r == Ok(Entry(id, UpdatedLead(old(Find(leaduri, id)).value, p)))
                && leaduri == Replace(old(leaduri), id, r.value.row)
    {
      var found := Find(leaduri, id);
      if found.None? {
        return NotFound("Lead-ul nu a fost gasit");
      }
      var prev := found.value;
      var row := UpdatedLead(prev, p);
      ReplaceFind(leaduri, id, row, id);
      leaduri := Replace(leaduri, id, row);
      r := Ok(Entry(id, row));
    }

    method DeleteLead(id: int) returns (r: Response<string>)
      requires Valid()
      modifies this`leaduri
      ensures Valid()
      ensures old(Find(leaduri, id)).None? ==> r == NotFound("Lead-ul nu a fost gasit") && leaduri == old(leaduri)
      ensures old(Find(leaduri, id)).Some? ==> r == Ok("Lead sters cu succes") && leaduri == Remove(old(leaduri), id)
    {
      if Find(leaduri, id).None? {
        return NotFound("Lead-ul nu a fost gasit");
      }
      RemoveFind(leaduri, id, id);
      leaduri := Remove(leaduri, id);
      r := Ok("Lead sters cu succes");
    }

    // --------------------------------------------------- profesori

    method CreateProfesor(p: ProfesorCreate) returns (r: Entry<ProfesorCreate>)
      requires Valid()
      modifies this`profesori
      ensures Valid()
      ensures r == Entry(NextId(old(profesori)), p)
      ensures profesori == Insert(old(profesori), r.row)
    {
      r := Entry(NextId(profesori), p);
      profesori := Insert(profesori, r.row);
    }

    method ReadProfesori(skip: int, limit: int) returns (r: seq<Entry<ProfesorCreate>>)
      ensures r == Page(profesori, skip, limit)
      ensures limit >= 0 ==> |r| <= limit
    {
      r := Page(profesori, skip, limit);
    }

    method UpdateProfesor(id: int, p: ProfesorCreate) returns (r: Response<Entry<ProfesorCreate>>)
      requires Valid()
      modifies this`profesori
      ensures Valid()
      ensures old(Find(profesori, id)).None? ==> r == NotFound("Profesorul nu a fost gasit") && profesori == old(profesori)
      ensures old(Find(profesori, id)).Some? ==>
                r == Ok(Entry(id, p))
                && profesori == Replace(old(profesori), id, r.value.row)
    {
      var found := Find(profesori, id);
      if found.None? {
        return NotFound("Profesorul nu a fost gasit");
      }
      var row := p;
      ReplaceFind(profesori, id, row, id);
      profesori := Replace(profesori, id, row);
      r := Ok(Entry(id, row));
    }

    /** Deleting the row also sets to NULL the key by which its groups and sessions name it. */
    method DeleteProfesor(id: int) returns (r: Response<string>)
      requires Valid()
      modifies this`profesori, this`grupe, this`sesiuni
      ensures Valid()
      ensures old(Find(profesori, id)).None? ==>
                r == NotFound("Profesorul nu a fost gasit") && profesori == old(profesori)
                && grupe == old(grupe)
                && sesiuni == old(sesiuni)
      ensures old(Find(profesori, id)).Some? ==>
                r == Ok("Profesor sters cu succes") && profesori == Remove(old(profesori), id)
                && grupe == GrupeOffProfesor(old(grupe), id)
                && sesiuni == SesiuniOffProfesor(old(sesiuni), id)
    {
      if Find(profesori, id).None? {
        return NotFound("Profesorul nu a fost gasit");
      }
      RemoveFind(profesori, id, id);
      profesori := Remove(profesori, id);
      grupe := GrupeOffProfesor(grupe, id);
      sesiuni := SesiuniOffProfesor(sesiuni, id);
      r := Ok("Profesor sters cu succes");
    }

    // ----------------------------------------------------- cursuri

    method CreateCurs(p: CursCreate) returns (r: Entry<CursCreate>)
      requires Valid()
      modifies this`cursuri
      ensures Valid()
      ensures r == Entry(NextId(old(cursuri)), p)
      ensures cursuri == Insert(old(cursuri), r.row)
    {
      r := Entry(NextId(cursuri), p);
      cursuri := Insert(cursuri, r.row);
    }

    method ReadCursuri(skip: int, limit: int) returns (r: seq<Entry<CursCreate>>)
      ensures r == Page(cursuri, skip, limit)
      ensures limit >= 0 ==> |r| <= limit
    {
      r := Page(cursuri, skip, limit);
    }

    method UpdateCurs(id: int, p: CursCreate) returns (r: Response<Entry<CursCreate>>)
      requires Valid()
      modifies this`cursuri
      ensures Valid()
      ensures old(Find(cursuri, id)).None? ==> r == NotFound("Cursul nu a fost gasit") && cursuri == old(cursuri)
      ensures old(Find(cursuri, id)).Some? ==>
                r == Ok(Entry(id, p))
                && cursuri == Replace(old(cursuri), id, r.value.row)
    {
      var found := Find(cursuri, id);
      if found.None? {
        return NotFound("Cursul nu a fost gasit");
      }
      var row := p;
      ReplaceFind(cursuri, id, row, id);
      cursuri := Replace(cursuri, id, row);
      r := Ok(Entry(id, row));
    }

    /** Deleting the row also sets to NULL the key by which its groups name it. */
    method DeleteCurs(id: int) returns (r: Response<string>)
      requires Valid()
      modifies this`cursuri, this`grupe
      ensures Valid()
      ensures old(Find(cursuri, id)).None? ==>
                r == NotFound("Cursul nu a fost gasit") && cursuri == old(cursuri)
                && grupe == old(grupe)
      ensures old(Find(cursuri, id)).Some? ==>
                r == Ok("Curs sters cu succes") && cursuri == Remove(old(cursuri), id)
                && grupe == GrupeOffCurs(old(grupe), id)
    {
      if Find(cursuri, id).None? {
        return NotFound("Cursul nu a fost gasit");
      }
      RemoveFind(cursuri, id, id);
      cursuri := Remove(cursuri, id);
      grupe := GrupeOffCurs(grupe, id);
      r := Ok("Curs sters cu succes");
    }

    // ------------------------------------------------------- elevi

    method CreateElev(p: ElevCreate) returns (r: Entry<ElevCreate>)
      requires Valid()
      modifies this`elevi
      ensures Valid()
      ensures r == Entry(NextId(old(elevi)), p)
      ensures elevi == Insert(old(elevi), r.row)
    {
      r := Entry(NextId(elevi), p);
      elevi := Insert(elevi, r.row);
    }

    method ReadElevi(skip: int, limit: int) returns (r: seq<Entry<ElevCreate>>)
      ensures r == Page(elevi, skip, limit)
      ensures limit >= 0 ==> |r| <= limit
    {
      r := Page(elevi, skip, limit);
    }

    method UpdateElev(id: int, p: ElevCreate) returns (r: Response<Entry<ElevCreate>>)
      requires Valid()
      modifies this`elevi
      ensures Valid()
      ensures old(Find(elevi, id)).None? ==> r == NotFound("Elevul nu a fost gasit") && elevi == old(elevi)
      ensures old(Find(elevi, id)).Some? ==>
                r == Ok(Entry(id, p))
                && elevi == Replace(old(elevi), id, r.value.row)
    {
      var found := Find(elevi, id);
      if found.None? {
        return NotFound("Elevul nu a fost gasit");
      }
      var row := p;
      ReplaceFind(elevi, id, row, id);
      elevi := Replace(elevi, id, row);
      r := Ok(Entry(id, row));
    }

    method DeleteElev(id: int) returns (r: Response<string>)
      requires Valid()
      modifies this`elevi
      ensures Valid()
      ensures old(Find(elevi, id)).None? ==> r == NotFound("Elevul nu a fost gasit") && elevi == old(elevi)
      ensures old(Find(elevi, id)).Some? ==> r == Ok("Elev sters cu succes") && elevi == Remove(old(elevi), id)
    {
      if Find(elevi, id).None? {
        return NotFound("Elevul nu a fost gasit");
      }
      RemoveFind(elevi, id, id);
      elevi := Remove(elevi, id);
      r := Ok("Elev sters cu succes");
    }

    // ------------------------------------------------------- grupe

    /**
     * The row is committed whatever its payer kind; reading back a kind outside
     * TipPlataGrupa raises, so the reply is then a 500 and the row stays stored.
     */
    method CreateGrupa(p: GrupaCreate) returns (r: Response<Entry<Grupa>>)
      requires Valid()
      modifies this`grupe
      ensures Valid()
      ensures grupe == Insert(old(grupe), GrupaRow(p))
      ensures ParseTipPlataGrupa(p.tip_plata_grupa).None? ==> r == ServerError
      ensures ParseTipPlataGrupa(p.tip_plata_grupa).Some? ==>
                r == Ok(Entry(NextId(old(grupe)), GrupaRow(p)))
    {
      var e := Entry(NextId(grupe), GrupaRow(p));
      grupe := Insert(grupe, e.row);
      if ParseTipPlataGrupa(p.tip_plata_grupa).None? {
        return ServerError;
      }
      r := Ok(e);
    }

    /** The page as the response schema renders it; a 500 when one of its rows does not fit. */
    method ReadGrupe(skip: int, limit: int) returns (r: Response<seq<Entry<GrupaCreate>>>)
      ensures ConvertAll(Page(grupe, skip, limit), GrupaOut).None? ==> r == ServerError
      ensures ConvertAll(Page(grupe, skip, limit), GrupaOut).Some? ==>
                r == Ok(ConvertAll(Page(grupe, skip, limit), GrupaOut).value)
      ensures r.Ok? && limit >= 0 ==> |r.value| <= limit
    {
      var page := Page(grupe, skip, limit);
      var out := ConvertAll(page, GrupaOut);
      if out.None? {
        return ServerError;
      }
      r := Ok(out.value);
    }

    /**
     * An edit is committed whatever its payer kind; reading back a kind outside
     * TipPlataGrupa raises, so the reply is then a 500 and the edit stays stored.
     */
    method UpdateGrupa(id: int, p: GrupaCreate) returns (r: Response<Entry<Grupa>>)
      requires Valid()
      modifies this`grupe
      ensures Valid()
      ensures old(Find(grupe, id)).None? ==> r == NotFound("Grupa nu a fost gasita") && grupe == old(grupe)
      ensures old(Find(grupe, id)).Some? ==> grupe == Replace(old(grupe), id, GrupaRow(p))
      ensures old(Find(grupe, id)).Some? && ParseTipPlataGrupa(p.tip_plata_grupa).None? ==>
                r == ServerError
      ensures old(Find(grupe, id)).Some? && ParseTipPlataGrupa(p.tip_plata_grupa).Some? ==>
                r == Ok(Entry(id, GrupaRow(p)))
    {
      var found := Find(grupe, id);
      if found.None? {
        return NotFound("Grupa nu a fost gasita");
      }
      var row := GrupaRow(p);
      ReplaceFind(grupe, id, row, id);
      grupe := Replace(grupe, id, row);
      if ParseTipPlataGrupa(p.tip_plata_grupa).None? {
        return ServerError;
      }
      r := Ok(Entry(id, row));
    }

    /** Deleting the row also sets to NULL the key by which its sessions name it. */
    method DeleteGrupa(id: int) returns (r: Response<string>)
      requires Valid()
      modifies this`grupe, this`sesiuni
      ensures Valid()
      ensures old(Find(grupe, id)).None? ==>
                r == NotFound("Grupa nu a fost gasita") && grupe == old(grupe)
                && sesiuni == old(sesiuni)
      ensures old(Find(grupe, id)).Some? ==>
                r == Ok("Grupa stearsa cu succes") && grupe == Remove(old(grupe), id)
                && sesiuni == SesiuniOffGrupa(old(sesiuni), id)
    {
      if Find(grupe, id).None? {
        return NotFound("Grupa nu a fost gasita");
      }
      RemoveFind(grupe, id, id);
      grupe := Remove(grupe, id);
      sesiuni := SesiuniOffGrupa(sesiuni, id);
      r := Ok("Grupa stearsa cu succes");
    }

    // ----------------------------------------------------- sesiuni

    method CreateSesiune(p: SesiuneCreate) returns (r: Entry<Sesiune>)
      requires Valid()
      modifies this`sesiuni
      ensures Valid()
      ensures r == Entry(NextId(old(sesiuni)), SessionRow(p))
      ensures sesiuni == Insert(old(sesiuni), r.row)
    {
      r := Entry(NextId(sesiuni), SessionRow(p));
      sesiuni := Insert(sesiuni, r.row);
    }

    /** The page as the response schema renders it; a 500 when one of its rows does not fit. */
    method ReadSesiuni(skip: int, limit: int) returns (r: Response<seq<Entry<SesiuneCreate>>>)
      ensures ConvertAll(Page(sesiuni, skip, limit), SesiuneOut).None? ==> r == ServerError
      ensures ConvertAll(Page(sesiuni, skip, limit), SesiuneOut).Some? ==>
                r == Ok(ConvertAll(Page(sesiuni, skip, limit), SesiuneOut).value)
      ensures r.Ok? && limit >= 0 ==> |r.value| <= limit
    {
      var page := Page(sesiuni, skip, limit);
      var out := ConvertAll(page, SesiuneOut);
      if out.None? {
        return ServerError;
      }
      r := Ok(out.value);
    }

    method UpdateSesiune(id: int, p: SesiuneCreate) returns (r: Response<Entry<Sesiune>>)
      requires Valid()
      modifies this`sesiuni
      ensures Valid()
      ensures old(Find(sesiuni, id)).None? ==> r == NotFound("Sesiunea nu a fost gasita") && sesiuni == old(sesiuni)
      ensures old(Find(sesiuni, id)).Some? ==>
                r == Ok(Entry(id, SessionRow(p)))
                && sesiuni == Replace(old(sesiuni), id, r.value.row)
    {
      var found := Find(sesiuni, id);
      if found.None? {
        return NotFound("Sesiunea nu a fost gasita");
      }
      var row := SessionRow(p);
      ReplaceFind(sesiuni, id, row, id);
      sesiuni := Replace(sesiuni, id, row);
      r := Ok(Entry(id, row));
    }

    method DeleteSesiune(id: int) returns (r: Response<string>)
      requires Valid()
      modifies this`sesiuni
      ensures Valid()
      ensures old(Find(sesiuni, id)).None? ==> r == NotFound("Sesiunea nu a fost gasita") && sesiuni == old(sesiuni)
      ensures old(Find(sesiuni, id)).Some? ==> r == Ok("Sesiune stersa cu succes") && sesiuni == Remove(old(sesiuni), id)
    {
      if Find(sesiuni, id).None? {
        return NotFound("Sesiunea nu a fost gasita");
      }
      RemoveFind(sesiuni, id, id);
      sesiuni := Remove(sesiuni, id);
      r := Ok("Sesiune stersa cu succes");
    }

    // --------------------------------------------------- contracte

    method CreateContract(p: ContractCreate) returns (r: Entry<Contract>)
      requires Valid()
      modifies this`contracte
      ensures Valid()
      ensures r == Entry(NextId(old(contracte)), NewContract(p))
      ensures contracte == Insert(old(contracte), r.row)
    {
      r := Entry(NextId(contracte), NewContract(p));
      contracte := Insert(contracte, r.row);
    }

    /** The page as the response schema renders it; a 500 when one of its rows does not fit. */
    method ReadContracte(skip: int, limit: int) returns (r: Response<seq<Entry<ContractCreate>>>)
      ensures ConvertAll(Page(contracte, skip, limit), ContractOut).None? ==> r == ServerError
      ensures ConvertAll(Page(contracte, skip, limit), ContractOut).Some? ==>
                r == Ok(ConvertAll(Page(contracte, skip, limit), ContractOut).value)
      ensures r.Ok? && limit >= 0 ==> |r.value| <= limit
    {
      var page := Page(contracte, skip, limit);
      var out := ConvertAll(page, ContractOut);
      if out.None? {
        return ServerError;
      }
      r := Ok(out.value);
    }

    method UpdateContract(id: int, p: ContractCreate) returns (r: Response<Entry<Contract>>)
      requires Valid()
      modifies this`contracte
      ensures Valid()
      ensures old(Find(contracte, id)).None? ==> r == NotFound("Contractul nu a fost gasit") && contracte == old(contracte)
      ensures old(Find(contracte, id)).Some? ==>
                r == Ok(Entry(id, UpdatedContract(old(Find(contracte, id)).value, p)))
                && contracte == Replace(old(contracte), id, r.value.row)
    {
      var found := Find(contracte, id);
      if found.None? {
        return NotFound("Contractul nu a fost gasit");
      }
      var prev := found.value;
      var row := UpdatedContract(prev, p);
      ReplaceFind(contracte, id, row, id);
      contracte := Replace(contracte, id, row);
      r := Ok(Entry(id, row));
    }

    /** Deleting the row also sets to NULL the key by which its groups name it. */
    method DeleteContract(id: int) returns (r: Response<string>)
      requires Valid()
      modifies this`contracte, this`grupe
      ensures Valid()
      ensures old(Find(contracte, id)).None? ==>
                r == NotFound("Contractul nu a fost gasit") && contracte == old(contracte)
                && grupe == old(grupe)
      ensures old(Find(contracte, id)).Some? ==>
                r == Ok("Contract sters cu succes") && contracte == Remove(old(contracte), id)
                && grupe == GrupeOffContract(old(grupe), id)
    {
      if Find(contracte, id).None? {
        return NotFound("Contractul nu a fost gasit");
      }
      RemoveFind(contracte, id, id);
      contracte := Remove(contracte, id);
      grupe := GrupeOffContract(grupe, id);
      r := Ok("Contract sters cu succes");
    }

    // ------------------------------------------------------------ invoices

    /**
     * Creating an invoice finds or creates its client by name, links the invoice to that
     * client and to month 1, and answers with the client's name.
     */
    method CreateFactura(f: FacturaCreate, now: int) returns (r: FacturaView)
      requires Valid()
      modifies this`clienti, this`facturi
      ensures Valid()
      ensures (clienti, r.id) == (FindOrCreateClient(old(clienti), f.client_nume).0, NextId(old(facturi)))
      ensures var cid := FindOrCreateClient(old(clienti), f.client_nume).1;
              facturi == Insert(old(facturi), NewFactura(f, cid, now))
              && r == ViewWith(Entry(NextId(old(facturi)), NewFactura(f, cid, now)), f.client_nume)
    {
      FindOrCreateValid(clienti, f.client_nume);
      var (c1, cid) := FindOrCreateClient(clienti, f.client_nume);
      clienti := c1;
      var e := Entry(NextId(facturi), NewFactura(f, cid, now));
      facturi := Insert(facturi, e.row);
      r := ViewWith(e, f.client_nume);
    }

    /** The invoice listing: one entry per invoice of the page, each with its client's name. */
    method ReadFacturi(skip: int, limit: int) returns (r: seq<FacturaView>)
      ensures var page := Page(facturi, skip, limit);
              |r| == |page| && forall i :: 0 <= i < |r| ==> r[i] == InvoiceView(page[i], clienti)
    {
      var page := Page(facturi, skip, limit);
      r := [];
      var i := 0;
      while i < |page|
        invariant 0 <= i <= |page|
        invariant |r| == i
        invariant forall k :: 0 <= k < i ==> r[k] == InvoiceView(page[k], clienti)
      {
        var f := page[i];
        var nume := "Client Necunoscut";
        if f.row.client_id.Some? && f.row.client_id.value != 0 {
          var c := Find(clienti, f.row.client_id.value);
          if c.Some? {
            nume := c.value.nume_afisare;
          }
        }
        r := r + [ViewWith(f, nume)];
        i := i + 1;
      }
    }

    /**
     * Editing an invoice: a missing invoice fails before any client is looked up; otherwise
     * the client is found or created by name and the invoice is relinked to it.
     */
    method UpdateFactura(id: int, f: FacturaCreate) returns (r: Response<FacturaView>)
      requires Valid()
      modifies this`clienti, this`facturi
      ensures Valid()
      ensures old(Find(facturi, id)).None? ==>
                r == NotFound("Factura nu a fost gasita") && facturi == old(facturi) && clienti == old(clienti)
      ensures old(Find(facturi, id)).Some? ==>
                var (c1, cid) := FindOrCreateClient(old(clienti), f.client_nume);
                var row := UpdatedFactura(old(Find(facturi, id)).value, f, cid);
                clienti == c1 && facturi == Replace(old(facturi), id, row)
                && r == Ok(ViewWith(Entry(id, row), f.client_nume))
    {
      var found := Find(facturi, id);
      if found.None? {
        return NotFound("Factura nu a fost gasita");
      }
      FindOrCreateValid(clienti, f.client_nume);
      var (c1, cid) := FindOrCreateClient(clienti, f.client_nume);
      clienti := c1;
      var row := UpdatedFactura(found.value, f, cid);
      facturi := Replace(facturi, id, row);
      r := Ok(ViewWith(Entry(id, row), f.client_nume));
    }

    method DeleteFactura(id: int) returns (r: Response<string>)
      requires Valid()
      modifies this`facturi
      ensures Valid()
      ensures old(Find(facturi, id)).None? ==> r == NotFound("Factura nu a fost gasita") && facturi == old(facturi)
      ensures old(Find(facturi, id)).Some? ==> r == Ok("Factura stearsa cu succes") && facturi == Remove(old(facturi), id)
    {
      if Find(facturi, id).None? {
        return NotFound("Factura nu a fost gasita");
      }
      RemoveFind(facturi, id, id);
      facturi := Remove(facturi, id);
      r := Ok("Factura stearsa cu succes");
    }
  }
}
