/** The four states of an application, shared by the server's records (as strings) and
    the two dashboards. */
module ApplicationStatus {
  import opened Wrappers

  datatype Status = Pending | Approved | Rejected | Expired

  /** The string a record's `status` field holds. */
  function Name(s: Status): string {
    match s
    case Pending => "pending"
    case Approved => "approved"
    case Rejected => "rejected"
    case Expired => "expired"
  }

  /** Reading a record's `status` string: one of the four names, or nothing. */
  function Parse(text: string): (r: Option<Status>)
    ensures r.Some? ==> Name(r.value) == text
  {
    if text == "pending" then Some(Pending)
    else if text == "approved" then Some(Approved)
    else if text == "rejected" then Some(Rejected)
    else if text == "expired" then Some(Expired)
    else None
  }

  /** Every status survives being written and read back, so the names are distinct. */
  lemma ParseName(s: Status)
    ensures Parse(Name(s)) == Some(s)
  {
  }
}
