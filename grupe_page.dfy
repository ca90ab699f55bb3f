/** The groups page: names of the linked course, teacher and contract, and the badges. */
module GrupePage {
  import opened Wrappers
  import opened Lookup
  import opened Web
  import Enums

  /** `getCursName`: the first course with the id, or "Necunoscut". */
  function CursName(cursuri: seq<Curs>, id: int): (r: string)
    ensures forall i :: 0 <= i < |cursuri| && cursuri[i].id == id
              && (forall j :: 0 <= j < i ==> cursuri[j].id != id)
              ==> r == OrElse(Some(cursuri[i].nume_curs), "Necunoscut")
    ensures (forall i :: 0 <= i < |cursuri| ==> cursuri[i].id != id) ==> r == "Necunoscut"
  {
    NameById(cursuri, (c: Curs) => c.id, (c: Curs) => c.nume_curs, id, "Necunoscut")
  }

  /** `getProfName`: the first teacher with the id, or "Fără Profesor". */
  function ProfName(profesori: seq<Profesor>, id: int): (r: string)
    ensures forall i :: 0 <= i < |profesori| && profesori[i].id == id
              && (forall j :: 0 <= j < i ==> profesori[j].id != id)
              ==> r == OrElse(Some(profesori[i].nume_complet), "Fără Profesor")
    ensures (forall i :: 0 <= i < |profesori| ==> profesori[i].id != id) ==> r == "Fără Profesor"
  {
    NameById(profesori, (p: Profesor) => p.id, (p: Profesor) => p.nume_complet, id, "Fără Profesor")
  }

  /** `getContractName`: "-" for a missing or zero id, else the contract's name or "ID Inexistent". */
  function ContractName(contracte: seq<Contract>, id: Option<int>): (r: string)
    ensures id.None? || id == Some(0) ==> r == "-"
    ensures id.Some? && id.value != 0 ==>
      (forall i :: 0 <= i < |contracte| && contracte[i].id == id.value
         && (forall j :: 0 <= j < i ==> contracte[j].id != id.value)
         ==> r == OrElse(Some(contracte[i].nume_contract), "ID Inexistent"))
      && ((forall i :: 0 <= i < |contracte| ==> contracte[i].id != id.value) ==> r == "ID Inexistent")
  {
    if id.None? || id.value == 0 then "-"
    else NameById(contracte, (c: Contract) => c.id, (c: Contract) => c.nume_contract, id.value, "ID Inexistent")
  }

  /** What the contract cell shows: "Direct" for a group without a contract. */
  function ContractCell(contracte: seq<Contract>, g: Grupa): (r: string)
    ensures g.contract_id.None? || g.contract_id == Some(0) ==> r == "Direct"
    ensures g.contract_id.Some? && g.contract_id.value != 0 ==> r == ContractName(contracte, g.contract_id)
  {
    if g.contract_id.None? || g.contract_id.value == 0 then "Direct" else ContractName(contracte, g.contract_id)
  }

  /**
   * The cell never shows the "-" that `getContractName` gives for a missing id, since it
   * only asks for a name when the id is present (barring a contract actually named "-").
   */
  lemma ContractCellNeverDash(contracte: seq<Contract>, g: Grupa)
    requires forall i :: 0 <= i < |contracte| ==> contracte[i].nume_contract != "-"
    ensures ContractCell(contracte, g) != "-"
  {
    if g.contract_id.Some? && g.contract_id.value != 0 {
      var id := g.contract_id.value;
      if i :| 0 <= i < |contracte| && contracte[i].id == id {
        var k := FirstIndexOf(contracte, id, i);
      }
    }
  }

  /** The first position holding `id`, at or before a known one. */
  lemma FirstIndexOf(contracte: seq<Contract>, id: int, i: int) returns (k: int)
    requires 0 <= i < |contracte| && contracte[i].id == id
    ensures 0 <= k <= i && contracte[k].id == id && forall j :: 0 <= j < k ==> contracte[j].id != id
  {
    if j :| 0 <= j < i && contracte[j].id == id {
      k := FirstIndexOf(contracte, id, j);
    } else {
      k := i;
    }
  }

  datatype PayerBadge = B2B | B2C

  /** The payer badge: the school pays exactly for "plateste_scoala"; anything else is B2C. */
  function Payer(g: Grupa): (b: PayerBadge)
    ensures b == B2B <==> g.tip_plata_grupa == "plateste_scoala"
  {
    if g.tip_plata_grupa == "plateste_scoala" then B2B else B2C
  }

  /** The badge text; the two badges read differently. */
  function PayerLabel(b: PayerBadge): (l: string)
    ensures l == "B2B (Școală)" <==> b == B2B
    ensures l == "B2C (Părinți)" <==> b == B2C
  {
    match b
    case B2B => "B2B (Școală)"
    case B2C => "B2C (Părinți)"
  }

  /** The status colour: emerald for "activa", slate for "incheiata", blue otherwise. */
  function StatusColor(status: string): (c: string)
    ensures c == "bg-emerald-500" <==> status == "activa"
    ensures c == "bg-slate-500" <==> status == "incheiata"
    ensures c == "bg-blue-400" <==> status != "activa" && status != "incheiata"
  {
    if status == "activa" then "bg-emerald-500"
    else if status == "incheiata" then "bg-slate-500"
    else "bg-blue-400"
  }

  /** Over the group states of the back end, blue is the colour of the planned and the cancelled. */
  lemma StatusColorOfStates(s: Enums.StatusGrupa)
    ensures StatusColor(s.Value()) == "bg-blue-400"
            <==> s == Enums.StatusGrupa.Planificata || s == Enums.StatusGrupa.Anulata
  {
  }

  /** Of the payer kinds, only the school shows B2B; "mixt" is shown as B2C. */
  lemma PayerOfKinds(g: Grupa, t: Enums.TipPlataGrupa)
    requires g.tip_plata_grupa == t.Value()
    ensures Payer(g) == B2B <==> t == Enums.TipPlataGrupa.PlatesteScoala
  {
  }
}
