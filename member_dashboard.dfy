/** The member's page: the status banner and its message, the membership card with its
    optional member number, expiry date and QR code, and the download button. Dates are
    millisecond timestamps; the QR image and the card download are not modelled. */
module MemberDashboard {
  import opened Wrappers
  import opened ApplicationStatus

  /** The fields of the member's application this page reads. */
  datatype Member = Member(id: string, fullName: string, status: Status,
                           expiryDate: Option<int>, membershipNumber: Option<string>)

  /** The banner for a status: its label and its colour classes. */
  datatype StatusConfig = StatusConfig(text: string, color: string, bg: string, borderColor: string)

  /** `getStatusConfig`, defined for every status. */
  function GetStatusConfig(status: Status): (c: StatusConfig)
    ensures c.text != ""
  {
    match status
    case Approved => StatusConfig("Approved", "text-green-600", "bg-green-100", "border-green-300")
    case Pending => StatusConfig("Pending Review", "text-yellow-600", "bg-yellow-100", "border-yellow-300")
    case Rejected => StatusConfig("Rejected", "text-red-600", "bg-red-100", "border-red-300")
    case Expired => StatusConfig("Expired", "text-gray-600", "bg-gray-100", "border-gray-300")
  }

  /** The banner tells the four statuses apart: no two share a label. */
  lemma StatusLabelsDistinct(a: Status, b: Status)
    ensures GetStatusConfig(a).text == GetStatusConfig(b).text ==> a == b
  {
  }

  /** `isExpired`: only a membership with an expiry date can have expired, and it has once
      that date lies strictly before now. */
  function IsExpired(expiry: Option<int>, now: int): (r: bool)
    ensures expiry.None? ==> !r
    ensures expiry.Some? ==> (r <==> expiry.value < now)
  {
    expiry.Some? && expiry.value < now
  }

  /** A membership that has expired stays expired as time goes on, and one that has not
      yet expired was not expired earlier either. */
  lemma ExpiryMonotone(expiry: Option<int>, now: int, later: int)
    requires now <= later
    ensures IsExpired(expiry, now) ==> IsExpired(expiry, later)
    ensures !IsExpired(expiry, later) ==> !IsExpired(expiry, now)
  {
  }

  /** The five texts under the banner. */
  datatype Message = UnderReview | Active | Lapsed | NotApproved | RenewalNeeded

  /** The messages the five conditions under the banner select. */
  function Messages(status: Status, expired: bool): set<Message> {
    (if status == Pending then {UnderReview} else {}) +
    (if status == Approved && !expired then {Active} else {}) +
    (if status == Approved && expired then {Lapsed} else {}) +
    (if status == Rejected then {NotApproved} else {}) +
    (if status == Expired then {RenewalNeeded} else {})
  }

  /** Exactly one message is shown: for an approved membership the active or the lapsed
      one, depending on the expiry date; for every other status its own. */
  lemma ExactlyOneMessage(status: Status, expired: bool)
    ensures exists m :: Messages(status, expired) == {m}
    ensures status == Approved ==> Messages(status, expired) == if expired then {Lapsed} else {Active}
    ensures status == Pending ==> Messages(status, expired) == {UnderReview}
    ensures status == Rejected ==> Messages(status, expired) == {NotApproved}
    ensures status == Expired ==> Messages(status, expired) == {RenewalNeeded}
  {
    var ms := Messages(status, expired);
    match status
    case Pending => assert ms == {UnderReview};
    case Approved => assert ms == if expired then {Lapsed} else {Active};
    case Rejected => assert ms == {NotApproved};
    case Expired => assert ms == {RenewalNeeded};
  }

  /** The QR effect: a code is generated once an approved application is loaded. */
  predicate GeneratesQr(app: Option<Member>) {
    app.Some? && app.value.status == Approved
  }

  /** What the page shows. */
  datatype Screen =
    | Loading
    | ErrorView(message: string)
    | Dashboard(config: StatusConfig, messages: set<Message>, memberNumber: Option<string>,
                showsExpiry: bool, showsQr: bool, showsDownload: bool)

  /** The page for the fetch state (`loading`, `error`, the application), the generated QR
      code's URL (empty until generated) and the current time. */
  function Render(loading: bool, error: string, app: Option<Member>, qrUrl: string, now: int): (s: Screen)
    ensures loading ==> s == Loading
    ensures !loading && (error != "" || app.None?) ==>
              s == ErrorView(if error != "" then error else "Application not found")
    ensures s.Dashboard? ==>
              !loading && error == "" && app.Some? &&
              var a := app.value;
              && s.config == GetStatusConfig(a.status)
              && s.messages == Messages(a.status, IsExpired(a.expiryDate, now))
              && (s.memberNumber.Some? <==> a.membershipNumber.Some? && a.membershipNumber.value != "")
              && (s.showsQr <==> a.status == Approved && qrUrl != "")
              && (s.showsDownload <==> a.status == Approved)
              && (s.showsExpiry <==> a.expiryDate.Some?)
  {
    if loading then Loading
    else if error != "" || app.None? then ErrorView(if error != "" then error else "Application not found")
    else
      var a := app.value;
      Dashboard(GetStatusConfig(a.status),
                Messages(a.status, IsExpired(a.expiryDate, now)),
                if a.membershipNumber.Some? && a.membershipNumber.value != "" then a.membershipNumber else None,
                a.expiryDate.Some?,
                a.status == Approved && qrUrl != "",
                a.status == Approved)
  }

  /** The QR code is only ever shown to an approved member, and only after the effect that
      generates it has run for that application. */
  lemma QrOnlyForApproved(error: string, app: Option<Member>, qrUrl: string, now: int)
    requires Render(false, error, app, qrUrl, now).Dashboard?
    requires Render(false, error, app, qrUrl, now).showsQr
    ensures GeneratesQr(app) && qrUrl != ""
    ensures Render(false, error, app, qrUrl, now).showsDownload
  {
  }

  /** `fetchApplication`: an ok answer loads the application; any failure keeps none and
      records the error text. Loading always ends. */
  function Fetched(answer: Option<Member>): (r: (Option<Member>, string))
    ensures r.0 == answer
    ensures r.1 != "" <==> answer.None?
  {
    if answer.Some? then (answer, "") else (None, "Failed to fetch application")
  }

  /** After the fetch the page is never stuck loading: it shows the dashboard exactly when
      the application arrived. */
  lemma FetchedRenders(answer: Option<Member>, qrUrl: string, now: int)
    ensures var (app, error) := Fetched(answer);
      Render(false, error, app, qrUrl, now).Dashboard? <==> answer.Some?
  {
  }
}
