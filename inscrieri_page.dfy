/** The enrolments page: student and group names, the status badge and the discount cell. */
module InscrieriPage {
  import opened Wrappers
  import opened Lookup
  import opened Web
  import Enums

  /** `getElevName`: the first student with the id, or "Necunoscut". */
  function ElevName(elevi: seq<Elev>, id: int): (r: string)
    ensures forall i :: 0 <= i < |elevi| && elevi[i].id == id
              && (forall j :: 0 <= j < i ==> elevi[j].id != id)
              ==> r == OrElse(Some(elevi[i].nume_complet), "Necunoscut")
    ensures (forall i :: 0 <= i < |elevi| ==> elevi[i].id != id) ==> r == "Necunoscut"
  {
    NameById(elevi, (e: Elev) => e.id, (e: Elev) => e.nume_complet, id, "Necunoscut")
  }

  /** `getGrupaName`: the first group with the id, or "Necunoscută". */
  function GrupaName(grupe: seq<Grupa>, id: int): (r: string)
    ensures forall i :: 0 <= i < |grupe| && grupe[i].id == id
              && (forall j :: 0 <= j < i ==> grupe[j].id != id)
              ==> r == OrElse(Some(grupe[i].nume_grupa), "Necunoscută")
    ensures (forall i :: 0 <= i < |grupe| ==> grupe[i].id != id) ==> r == "Necunoscută"
  {
    NameById(grupe, (g: Grupa) => g.id, (g: Grupa) => g.nume_grupa, id, "Necunoscută")
  }

  datatype StatusBadge = Activ | Retras | Asteptare

  /** `getStatusBadge`: "activ" and "retras" have their own badge; any other status waits. */
  function Badge(status: string): (b: StatusBadge)
    ensures b == Activ <==> status == "activ"
    ensures b == Retras <==> status == "retras"
    ensures b == Asteptare <==> status != "activ" && status != "retras"
  {
    if status == "activ" then Activ
    else if status == "retras" then Retras
    else Asteptare
  }

  /** The badge text; the three badges read differently. */
  function BadgeLabel(b: StatusBadge): (l: string)
    ensures l == "Activ" <==> b == Activ
    ensures l == "Retras" <==> b == Retras
    ensures l == "Așteptare" <==> b == Asteptare
  {
    match b
    case Activ => "Activ"
    case Retras => "Retras"
    case Asteptare => "Așteptare"
  }

  /** The discount cell: the percentage, shown as "-p%", or a plain dash. */
  datatype DiscountCell = Percent(p: real) | Dash

  /** A discount is shown exactly when it is positive; a missing one compares as not positive. */
  function Discount(i: Inscriere): (c: DiscountCell)
    ensures c.Percent? <==> i.reducere_percent.Some? && i.reducere_percent.value > 0.0
    ensures c.Percent? ==> c.p == i.reducere_percent.value
  {
    match i.reducere_percent
    case Some(p) => if p > 0.0 then Percent(p) else Dash
    case None => Dash
  }

  /** Over the enrolment states of the back end, the waiting badge is exactly "in_asteptare". */
  lemma BadgeOfStates(s: Enums.StatusInscriere)
    ensures Badge(s.Value()) == Asteptare <==> s == Enums.StatusInscriere.InAsteptare
  {
  }
}
