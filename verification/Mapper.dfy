/** The event alphabet of the update machine (MapAlpacaEventToStatus). */
module Mapper {
  import opened Model

  // None for transient lifecycle events, which change nothing.
  function StatusOf(event: string): Option<Status> {
    if event == "new" || event == "accepted_for_bidding" then Some(Pending)
    else if event == "partial_fill" then Some(Open)
    else if event == "fill" then Some(Filled)
    else if event == "rejected" || event == "order_canceled_rejected" then Some(Rejected)
    else if event == "canceled" || event == "expired" || event == "done_for_day" then Some(Cancelled)
    else None
  }

  // The alphabet, status by status: which events map to it, and that no other event maps at all.
  lemma EventTable(event: string)
    ensures StatusOf(event) == Some(Pending) <==> event in {"new", "accepted_for_bidding"}
    ensures StatusOf(event) == Some(Open) <==> event in {"partial_fill"}
    ensures StatusOf(event) == Some(Filled) <==> event in {"fill"}
    ensures StatusOf(event) == Some(Rejected) <==> event in {"rejected", "order_canceled_rejected"}
    ensures StatusOf(event) == Some(Cancelled) <==> event in {"canceled", "expired", "done_for_day"}
    ensures StatusOf(event) == None <==>
      event !in {"new", "accepted_for_bidding", "partial_fill", "fill", "rejected", "order_canceled_rejected",
                 "canceled", "expired", "done_for_day"}
  {}
}
