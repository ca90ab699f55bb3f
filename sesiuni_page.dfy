/** The sessions page: group and teacher names, the empty-field fallbacks and the status colour. */
module SesiuniPage {
  import opened Wrappers
  import opened Lookup
  import opened Web
  import Enums

  /** `getGrupaName`: the first group with the id, or "Grupă Ștearsă" for a deleted group. */
  function GrupaName(grupe: seq<Grupa>, id: int): (r: string)
    ensures forall i :: 0 <= i < |grupe| && grupe[i].id == id
              && (forall j :: 0 <= j < i ==> grupe[j].id != id)
              ==> r == OrElse(Some(grupe[i].nume_grupa), "Grupă Ștearsă")
    ensures (forall i :: 0 <= i < |grupe| ==> grupe[i].id != id) ==> r == "Grupă Ștearsă"
  {
    NameById(grupe, (g: Grupa) => g.id, (g: Grupa) => g.nume_grupa, id, "Grupă Ștearsă")
  }

  /** `getProfName`: the first teacher with the id, or "-". */
  function ProfName(profesori: seq<Profesor>, id: int): (r: string)
    ensures forall i :: 0 <= i < |profesori| && profesori[i].id == id
              && (forall j :: 0 <= j < i ==> profesori[j].id != id)
              ==> r == OrElse(Some(profesori[i].nume_complet), "-")
    ensures (forall i :: 0 <= i < |profesori| ==> profesori[i].id != id) ==> r == "-"
  {
    NameById(profesori, (p: Profesor) => p.id, (p: Profesor) => p.nume_complet, id, "-")
  }

  /** The room cell: "N/A" when the session has no room. */
  function SalaCell(s: Sesiune): (r: string)
    ensures s.sala.None? || s.sala == Some("") ==> r == "N/A"
    ensures s.sala.Some? && s.sala.value != "" ==> r == s.sala.value
  {
    OrElse(s.sala, "N/A")
  }

  /** The topic cell: "-" when the session has no topic. */
  function TemaCell(s: Sesiune): (r: string)
    ensures s.tema_lectiei.None? || s.tema_lectiei == Some("") ==> r == "-"
    ensures s.tema_lectiei.Some? && s.tema_lectiei.value != "" ==> r == s.tema_lectiei.value
  {
    OrElse(s.tema_lectiei, "-")
  }

  /**
   * `formatDate`: "-" for an empty string; otherwise the date and time written out in the
   * Romanian locale, which `localized` stands for.
   */
  function FormatDate(iso: string, localized: string): (r: string)
    ensures iso == "" ==> r == "-"
    ensures iso != "" ==> r == localized
  {
    if iso == "" then "-" else localized
  }

  /** The status colour: blue for "planificata", emerald for "realizata", red otherwise. */
  function StatusColor(status: string): (c: string)
    ensures c == "bg-blue-400" <==> status == "planificata"
    ensures c == "bg-emerald-500" <==> status == "realizata"
    ensures c == "bg-red-400" <==> status != "planificata" && status != "realizata"
  {
    if status == "planificata" then "bg-blue-400"
    else if status == "realizata" then "bg-emerald-500"
    else "bg-red-400"
  }

  /** Over the session states of the back end, red is exactly the cancelled session. */
  lemma StatusColorOfStates(s: Enums.StatusSesiune)
    ensures StatusColor(s.Value()) == "bg-red-400" <==> s == Enums.StatusSesiune.Anulata
  {
  }
}
