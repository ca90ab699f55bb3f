/** The invoices page: the label of an invoice status and the highlight of an overdue due date. */
module FinanciarPage {
  import Enums

  /** `getStatusBadge`: three statuses have a label of their own; the rest read "Draft". */
  function StatusLabel(status: string): (l: string)
    ensures l == "Plătită" <==> status == "platita_integral"
    ensures l == "Restantă" <==> status == "scadenta_depasita"
    ensures l == "Emisă" <==> status == "emisa"
    ensures l == "Draft" <==> status !in {"platita_integral", "scadenta_depasita", "emisa"}
  {
    if status == "platita_integral" then "Plătită"
    else if status == "scadenta_depasita" then "Restantă"
    else if status == "emisa" then "Emisă"
    else "Draft"
  }

  /** Over the invoice states of the back end, "Draft" also covers cancelled and partly paid ones. */
  lemma DraftLabelOfStates(s: Enums.StatusFactura)
    ensures StatusLabel(s.Value()) == "Draft"
            <==> s in {Enums.StatusFactura.Draft, Enums.StatusFactura.Anulata, Enums.StatusFactura.PlatitaPartial}
  {
  }

  /** The due-date cell is red and bold exactly for an overdue invoice. */
  function DueDateClass(status: string): (c: string)
    ensures c == "text-red-600 font-bold" <==> status == "scadenta_depasita"
    ensures c == "text-slate-600" <==> status != "scadenta_depasita"
  {
    if status == "scadenta_depasita" then "text-red-600 font-bold" else "text-slate-600"
  }

  /** An invoice is highlighted exactly when its label is "Restantă". */
  lemma HighlightMatchesLabel(status: string)
    ensures DueDateClass(status) == "text-red-600 font-bold" <==> StatusLabel(status) == "Restantă"
  {
  }
}
