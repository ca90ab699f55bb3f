/**
 * The leads page: the list of leads it holds, how a listing response replaces it, the
 * re-fetch after a delete, and the badge colour of a lead status.
 */
module LeaduriPage {
  import opened Web
  import Enums

  /** What reading a listing gave: a JSON array, some other JSON value, or a throw. */
  datatype Listing = Array(items: seq<Lead>) | NotArray | Failed

  /** The list the page shows after a listing: the array itself, or empty for anything else. */
  function Listed(l: Listing): (r: seq<Lead>)
    ensures l.Array? ==> r == l.items
    ensures !l.Array? ==> r == []
  {
    if l.Array? then l.items else []
  }

  class Page {
    var leaduri: seq<Lead>
    var loading: bool

    constructor()
      ensures leaduri == [] && loading
    {
      leaduri := [];
      loading := true;
    }

    /** `fetchLeaduri`: the list becomes what the listing gave, and loading ends. */
    method FetchLeaduri(l: Listing)
      modifies this`leaduri, this`loading
      ensures leaduri == Listed(l) && !loading
    {
      if l.Array? {
        leaduri := l.items;
      } else {
        leaduri := [];
      }
      loading := false;
    }

    /**
     * `handleDelete`: nothing happens unless the user confirms; after the delete request the
     * list is fetched again only when the response is ok.
     */
    method HandleDelete(confirmed: bool, reply: Reply, refetch: Listing) returns (refetched: bool)
      modifies this`leaduri, this`loading
      ensures refetched <==> confirmed && reply == Ok
      ensures refetched ==> leaduri == Listed(refetch) && !loading
      ensures !refetched ==> leaduri == old(leaduri) && loading == old(loading)
    {
      refetched := false;
      if !confirmed {
        return;
      }
      if reply == Ok {
        FetchLeaduri(refetch);
        refetched := true;
      }
    }
  }

  /** `getStatusColor`: five statuses have their own colour, matched exactly; others are slate. */
  function StatusColor(status: string): (c: string)
    ensures c == "bg-blue-500" <==> status == "nou"
    ensures c == "bg-yellow-500" <==> status == "contactat"
    ensures c == "bg-purple-500" <==> status == "calificat"
    ensures c == "bg-green-500" <==> status == "convertit"
    ensures c == "bg-red-500" <==> status == "pierdut"
    ensures c == "bg-slate-500" <==> status !in {"nou", "contactat", "calificat", "convertit", "pierdut"}
  {
    if status == "nou" then "bg-blue-500"
    else if status == "contactat" then "bg-yellow-500"
    else if status == "calificat" then "bg-purple-500"
    else if status == "convertit" then "bg-green-500"
    else if status == "pierdut" then "bg-red-500"
    else "bg-slate-500"
  }

  /** Of the lead stages of the back end, only "ofertat" falls through to the default colour. */
  lemma DefaultColorOfStages(s: Enums.StatusLead)
    ensures StatusColor(s.Value()) == "bg-slate-500" <==> s == Enums.StatusLead.Ofertat
  {
  }

  /** Matching is case-sensitive: a capitalised stage gets the default colour. */
  lemma CapitalisedStageIsDefault()
    ensures StatusColor("Nou") == "bg-slate-500"
  {
  }
}
