/**
 * The fixed value lists of the data model. Each enumeration is a string enumeration on the
 * server: it is sent and received as its value string, and a request carrying any other
 * string for such a field is rejected.
 */
module Enums {
  import opened Wrappers

  /** A value string: a non-empty word of lower-case ASCII letters and underscores. */
  predicate IsValueWord(s: string) {
    |s| > 0 && forall i :: 0 <= i < |s| ==> 'a' <= s[i] <= 'z' || s[i] == '_'
  }

  /** Stage of a sales lead. */
  datatype StatusLead = Nou | Contactat | Calificat | Ofertat | Convertit | Pierdut
  {
    /** The value string of the member. */
    function Value(): (s: string)
      ensures IsValueWord(s)
    {
      match this
      case Nou => "nou"
      case Contactat => "contactat"
      case Calificat => "calificat"
      case Ofertat => "ofertat"
      case Convertit => "convertit"
      case Pierdut => "pierdut"
    }
  }

  /** The member whose value string is `s`, if there is one. */
  function ParseStatusLead(s: string): (r: Option<StatusLead>)
    ensures forall x: StatusLead :: x.Value() == s <==> r == Some(x)
  {
    if s == "nou" then Some(StatusLead.Nou)
    else if s == "contactat" then Some(StatusLead.Contactat)
    else if s == "calificat" then Some(StatusLead.Calificat)
    else if s == "ofertat" then Some(StatusLead.Ofertat)
    else if s == "convertit" then Some(StatusLead.Convertit)
    else if s == "pierdut" then Some(StatusLead.Pierdut)
    else None
  }

  /** Kind of partner institution. */
  datatype TipInstitutie = ScoalaStat | ScoalaPrivata | Gradinita | HubEducational | AfterSchool
  {
    /** The value string of the member. */
    function Value(): (s: string)
      ensures IsValueWord(s)
    {
      match this
      case ScoalaStat => "scoala_stat"
      case ScoalaPrivata => "scoala_privata"
      case Gradinita => "gradinita"
      case HubEducational => "hub_educational"
      case AfterSchool => "after_school"
    }
  }

  /** The member whose value string is `s`, if there is one. */
  function ParseTipInstitutie(s: string): (r: Option<TipInstitutie>)
    ensures forall x: TipInstitutie :: x.Value() == s <==> r == Some(x)
  {
    if s == "scoala_stat" then Some(TipInstitutie.ScoalaStat)
    else if s == "scoala_privata" then Some(TipInstitutie.ScoalaPrivata)
    else if s == "gradinita" then Some(TipInstitutie.Gradinita)
    else if s == "hub_educational" then Some(TipInstitutie.HubEducational)
    else if s == "after_school" then Some(TipInstitutie.AfterSchool)
    else None
  }

  /** Relationship status of a partner. */
  datatype StatusPartener = Potential | Activ | Inactiv | Blacklist
  {
    /** The value string of the member. */
    function Value(): (s: string)
      ensures IsValueWord(s)
    {
      match this
      case Potential => "potential"
      case Activ => "activ"
      case Inactiv => "inactiv"
      case Blacklist => "blacklist"
    }
  }

  /** The member whose value string is `s`, if there is one. */
  function ParseStatusPartener(s: string): (r: Option<StatusPartener>)
    ensures forall x: StatusPartener :: x.Value() == s <==> r == Some(x)
  {
    if s == "potential" then Some(StatusPartener.Potential)
    else if s == "activ" then Some(StatusPartener.Activ)
    else if s == "inactiv" then Some(StatusPartener.Inactiv)
    else if s == "blacklist" then Some(StatusPartener.Blacklist)
    else None
  }

  /** Employment form of a teacher. */
  datatype TipContractHR = Cim | Pfa | Srl | Voluntariat
  {
    /** The value string of the member. */
    function Value(): (s: string)
      ensures IsValueWord(s)
    {
      match this
      case Cim => "cim"
      case Pfa => "pfa"
      case Srl => "srl"
      case Voluntariat => "voluntariat"
    }
  }

  /** The member whose value string is `s`, if there is one. */
  function ParseTipContractHR(s: string): (r: Option<TipContractHR>)
    ensures forall x: TipContractHR :: x.Value() == s <==> r == Some(x)
  {
    if s == "cim" then Some(TipContractHR.Cim)
    else if s == "pfa" then Some(TipContractHR.Pfa)
    else if s == "srl" then Some(TipContractHR.Srl)
    else if s == "voluntariat" then Some(TipContractHR.Voluntariat)
    else None
  }

  /** Life cycle of an invoice. */
  datatype StatusFactura = Draft | Emisa | ScadentaDepasita | PlatitaPartial | PlatitaIntegral | Anulata
  {
    /** The value string of the member. */
    function Value(): (s: string)
      ensures IsValueWord(s)
    {
      match this
      case Draft => "draft"
      case Emisa => "emisa"
      case ScadentaDepasita => "scadenta_depasita"
      case PlatitaPartial => "platita_partial"
      case PlatitaIntegral => "platita_integral"
      case Anulata => "anulata"
    }
  }

  /** The member whose value string is `s`, if there is one. */
  function ParseStatusFactura(s: string): (r: Option<StatusFactura>)
    ensures forall x: StatusFactura :: x.Value() == s <==> r == Some(x)
  {
    if s == "draft" then Some(StatusFactura.Draft)
    else if s == "emisa" then Some(StatusFactura.Emisa)
    else if s == "scadenta_depasita" then Some(StatusFactura.ScadentaDepasita)
    else if s == "platita_partial" then Some(StatusFactura.PlatitaPartial)
    else if s == "platita_integral" then Some(StatusFactura.PlatitaIntegral)
    else if s == "anulata" then Some(StatusFactura.Anulata)
    else None
  }

  /** Kind of stock movement. */
  datatype TipMiscareStoc = AchizitieIn | ConsumOut | ReturDefect | TransferProfesor
  {
    /** The value string of the member. */
    function Value(): (s: string)
      ensures IsValueWord(s)
    {
      match this
      case AchizitieIn => "achizitie_in"
      case ConsumOut => "consum_out"
      case ReturDefect => "retur_defect"
      case TransferProfesor => "transfer_profesor"
    }
  }

  /** The member whose value string is `s`, if there is one. */
  function ParseTipMiscareStoc(s: string): (r: Option<TipMiscareStoc>)
    ensures forall x: TipMiscareStoc :: x.Value() == s <==> r == Some(x)
  {
    if s == "achizitie_in" then Some(TipMiscareStoc.AchizitieIn)
    else if s == "consum_out" then Some(TipMiscareStoc.ConsumOut)
    else if s == "retur_defect" then Some(TipMiscareStoc.ReturDefect)
    else if s == "transfer_profesor" then Some(TipMiscareStoc.TransferProfesor)
    else None
  }

  /** State of a teaching session. */
  datatype StatusSesiune = Planificata | Realizata | Anulata
  {
    /** The value string of the member. */
    function Value(): (s: string)
      ensures IsValueWord(s)
    {
      match this
      case Planificata => "planificata"
      case Realizata => "realizata"
      case Anulata => "anulata"
    }
  }

  /** The member whose value string is `s`, if there is one. */
  function ParseStatusSesiune(s: string): (r: Option<StatusSesiune>)
    ensures forall x: StatusSesiune :: x.Value() == s <==> r == Some(x)
  {
    if s == "planificata" then Some(StatusSesiune.Planificata)
    else if s == "realizata" then Some(StatusSesiune.Realizata)
    else if s == "anulata" then Some(StatusSesiune.Anulata)
    else None
  }

  /** State of an enrolment. */
  datatype StatusInscriere = Activ | Retras | InAsteptare
  {
    /** The value string of the member. */
    function Value(): (s: string)
      ensures IsValueWord(s)
    {
      match this
      case Activ => "activ"
      case Retras => "retras"
      case InAsteptare => "in_asteptare"
    }
  }

  /** The member whose value string is `s`, if there is one. */
  function ParseStatusInscriere(s: string): (r: Option<StatusInscriere>)
    ensures forall x: StatusInscriere :: x.Value() == s <==> r == Some(x)
  {
    if s == "activ" then Some(StatusInscriere.Activ)
    else if s == "retras" then Some(StatusInscriere.Retras)
    else if s == "in_asteptare" then Some(StatusInscriere.InAsteptare)
    else None
  }

  /** State of a group. */
  datatype StatusGrupa = Planificata | Activa | Incheiata | Anulata
  {
    /** The value string of the member. */
    function Value(): (s: string)
      ensures IsValueWord(s)
    {
      match this
      case Planificata => "planificata"
      case Activa => "activa"
      case Incheiata => "incheiata"
      case Anulata => "anulata"
    }
  }

  /** The member whose value string is `s`, if there is one. */
  function ParseStatusGrupa(s: string): (r: Option<StatusGrupa>)
    ensures forall x: StatusGrupa :: x.Value() == s <==> r == Some(x)
  {
    if s == "planificata" then Some(StatusGrupa.Planificata)
    else if s == "activa" then Some(StatusGrupa.Activa)
    else if s == "incheiata" then Some(StatusGrupa.Incheiata)
    else if s == "anulata" then Some(StatusGrupa.Anulata)
    else None
  }

  /** Who an invoice client is. */
  datatype TipClient = Partener | Parinte
  {
    /** The value string of the member. */
    function Value(): (s: string)
      ensures IsValueWord(s)
    {
      match this
      case Partener => "partener"
      case Parinte => "parinte"
    }
  }

  /** The member whose value string is `s`, if there is one. */
  function ParseTipClient(s: string): (r: Option<TipClient>)
    ensures forall x: TipClient :: x.Value() == s <==> r == Some(x)
  {
    if s == "partener" then Some(TipClient.Partener)
    else if s == "parinte" then Some(TipClient.Parinte)
    else None
  }

  /** How a contract price is computed. */
  datatype ModCalculPret = PerGrupa | PerCopil | PerPrezenta | Pausal
  {
    /** The value string of the member. */
    function Value(): (s: string)
      ensures IsValueWord(s)
    {
      match this
      case PerGrupa => "per_grupa"
      case PerCopil => "per_copil"
      case PerPrezenta => "per_prezenta"
      case Pausal => "pausal"
    }
  }

  /** The member whose value string is `s`, if there is one. */
  function ParseModCalculPret(s: string): (r: Option<ModCalculPret>)
    ensures forall x: ModCalculPret :: x.Value() == s <==> r == Some(x)
  {
    if s == "per_grupa" then Some(ModCalculPret.PerGrupa)
    else if s == "per_copil" then Some(ModCalculPret.PerCopil)
    else if s == "per_prezenta" then Some(ModCalculPret.PerPrezenta)
    else if s == "pausal" then Some(ModCalculPret.Pausal)
    else None
  }

  /** Who pays for a group. */
  datatype TipPlataGrupa = PlatesteScoala | PlatesteParintii | Mixt
  {
    /** The value string of the member. */
    function Value(): (s: string)
      ensures IsValueWord(s)
    {
      match this
      case PlatesteScoala => "plateste_scoala"
      case PlatesteParintii => "plateste_parintii"
      case Mixt => "mixt"
    }
  }

  /** The member whose value string is `s`, if there is one. */
  function ParseTipPlataGrupa(s: string): (r: Option<TipPlataGrupa>)
    ensures forall x: TipPlataGrupa :: x.Value() == s <==> r == Some(x)
  {
    if s == "plateste_scoala" then Some(TipPlataGrupa.PlatesteScoala)
    else if s == "plateste_parintii" then Some(TipPlataGrupa.PlatesteParintii)
    else if s == "mixt" then Some(TipPlataGrupa.Mixt)
    else None
  }
}
