/** The contracts page: the badge colour of a contract status, matched without regard to case. */
module ContractePage {
  import opened Text

  /** `getStatusBadgeColor`: the colour for the lower-cased status. */
  function StatusBadgeColor(status: string): (c: string)
    ensures c == "bg-emerald-500" <==> Lower(status) == "activ"
    ensures c == "bg-red-500" <==> Lower(status) == "expirat"
    ensures c == "bg-slate-500" <==> Lower(status) == "anulat"
    ensures c == "bg-gray-400" <==> Lower(status) !in {"activ", "expirat", "anulat"}
  {
    var s := Lower(status);
    if s == "activ" then "bg-emerald-500"
    else if s == "expirat" then "bg-red-500"
    else if s == "anulat" then "bg-slate-500"
    else "bg-gray-400"
  }

  /** The colour depends only on the lower-cased status. */
  lemma CaseInsensitive(status: string)
    ensures StatusBadgeColor(status) == StatusBadgeColor(Lower(status))
  {
    LowerIdempotent(status);
  }

  /** A status written in capitals gets the colour of its lower-case form. */
  lemma CapitalisedActive()
    ensures StatusBadgeColor("ACTIV") == "bg-emerald-500"
  {
    assert Lower("ACTIV") == "activ";
  }
}
