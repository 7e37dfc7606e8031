/** The administrator's dashboard: the list fetched from the admin endpoint, narrowed by
    a status filter and a search term, the four counters above it, and the small state
    machine around approving (select, enter an expiry date, confirm or cancel) and
    rejecting an application. Network answers are inputs of the handlers. */
module AdminDashboard {
  import opened Wrappers
  import opened Seqs
  import opened ApplicationStatus

  /** The fields of an application the dashboard's logic reads. */
  datatype Application = Application(id: string, fullName: string, email: string,
                                     organization: string, status: Status)

  /** The status drop-down: all, or one of the three reviewable states. */
  datatype StatusFilter = AllStatuses | PendingOnly | ApprovedOnly | RejectedOnly

  /** The status a filter other than "all" selects. */
  function Selected(f: StatusFilter): (r: Option<Status>)
    ensures r.None? <==> f == AllStatuses
    ensures r != Some(Expired)
  {
    match f
    case AllStatuses => None
    case PendingOnly => Some(Pending)
    case ApprovedOnly => Some(Approved)
    case RejectedOnly => Some(Rejected)
  }

  // ---------------------------------------------------------------------------
  // ASCII case folding and substring search

  function LowerChar(c: char): (r: char)
    ensures 'A' <= c <= 'Z' ==> r as int == c as int + 32
    ensures !('A' <= c <= 'Z') ==> r == c
  {
    if 'A' <= c <= 'Z' then (c as int + 32) as char else c
  }

  /** `s.toLowerCase()`, restricted to ASCII letters. */
  function Lower(s: string): (r: string)
    ensures |r| == |s| && forall i :: 0 <= i < |s| ==> r[i] == LowerChar(s[i])
  {
    seq(|s|, i requires 0 <= i < |s| => LowerChar(s[i]))
  }

  /** `s.includes(t)`: `t` occurs in `s` at some position. */
  predicate Includes(s: string, t: string) {
    exists i :: 0 <= i <= |s| - |t| && OccursAt(s, t, i)
  }

  predicate OccursAt(s: string, t: string, i: int) {
    0 <= i && i + |t| <= |s| && s[i..i + |t|] == t
  }

  /** Folding is idempotent and leaves no upper-case ASCII letter, so folding the term and
      the fields once is enough for a case-blind comparison. */
  lemma LowerIdempotent(s: string)
    ensures Lower(Lower(s)) == Lower(s)
    ensures forall i :: 0 <= i < |s| ==> !('A' <= Lower(s)[i] <= 'Z')
  {
  }

  /** Folding keeps occurrences: wherever `t` occurs in `s`, its folded copy occurs in the
      folded `s` at the same position. */
  lemma {:induction false} LowerKeepsOccurrence(s: string, t: string, i: int)
    requires OccursAt(s, t, i)
    ensures OccursAt(Lower(s), Lower(t), i)
  {
    assert Lower(s)[i..i + |t|] == Lower(t) by {
      forall k | 0 <= k < |t|
        ensures Lower(s)[i..i + |t|][k] == Lower(t)[k]
      {
        assert s[i..i + |t|][k] == t[k];
      }
    }
  }

  /** The search test: the lowercased term occurs in the lowercased name, email or
      organization. */
  predicate Matches(app: Application, term: string) {
    var t := Lower(term);
    Includes(Lower(app.fullName), t) || Includes(Lower(app.email), t) ||
    Includes(Lower(app.organization), t)
  }

  /** An application whose name, email or organization contains the term as typed is
      found by the search, whatever the case of either. */
  lemma {:induction false} MatchesLiteral(app: Application, term: string)
    requires Includes(app.fullName, term) || Includes(app.email, term) || Includes(app.organization, term)
    ensures Matches(app, term)
  {
    if Includes(app.fullName, term) {
      var i :| 0 <= i <= |app.fullName| - |term| && OccursAt(app.fullName, term, i);
      LowerKeepsOccurrence(app.fullName, term, i);
    } else if Includes(app.email, term) {
      var i :| 0 <= i <= |app.email| - |term| && OccursAt(app.email, term, i);
      LowerKeepsOccurrence(app.email, term, i);
    } else {
      var i :| 0 <= i <= |app.organization| - |term| && OccursAt(app.organization, term, i);
      LowerKeepsOccurrence(app.organization, term, i);
    }
  }

  /** The empty term matches every application, so the `if (searchTerm)` guard in front of
      the search step changes no result: searching for "" would keep the whole list too. */
  lemma {:induction false} EmptySearchKeepsAll(apps: seq<Application>)
    ensures forall a :: a in apps ==> Matches(a, "")
    ensures Filter(apps, (app: Application) => Matches(app, "")) == apps
  {
    forall a | a in apps
      ensures Matches(a, "")
    {
      assert OccursAt(Lower(a.fullName), Lower(""), 0);
    }
    FilterKeepsAll(apps, (app: Application) => Matches(app, ""));
  }

  // ---------------------------------------------------------------------------
  // Filtering and statistics

  predicate PassesStatus(app: Application, f: StatusFilter) {
    Selected(f).None? || app.status == Selected(f).value
  }

  /** The status step: nothing for "all", else the applications with that status. */
  function StatusStep(apps: seq<Application>, f: StatusFilter): seq<Application> {
    if f == AllStatuses then apps else Filter(apps, (app: Application) => app.status == Selected(f).value)
  }

  /** The search step, skipped for an empty term. */
  function SearchStep(apps: seq<Application>, term: string): seq<Application> {
    if term == "" then apps else Filter(apps, (app: Application) => Matches(app, term))
  }

  /** `filterApplications`: the status step, then the search step. The result keeps the
      original order. */
  function FilterApplications(apps: seq<Application>, f: StatusFilter, term: string): (r: seq<Application>)
    ensures IsSubseq(r, apps)
  {
    var byStatus := StatusStep(apps, f);
    var r := SearchStep(byStatus, term);
    assert IsSubseq(byStatus, apps) by {
      if f == AllStatuses { IsSubseqRefl(apps); }
    }
    if term == "" then r
    else
      IsSubseqTrans(r, byStatus, apps);
      r
  }

  /** An application is shown exactly when it passes the status test and the search test. */
  lemma FilterMembership(apps: seq<Application>, f: StatusFilter, term: string)
    ensures forall a :: a in FilterApplications(apps, f, term) <==>
                        a in apps && PassesStatus(a, f) && (term == "" || Matches(a, term))
  {
  }

  /** With "all" and an empty term the list is shown as it is. */
  lemma NoFilterShowsAll(apps: seq<Application>)
    ensures FilterApplications(apps, AllStatuses, "") == apps
  {
  }

  /** An empty term leaves whatever the status step kept; a term that occurs in every
      application's name likewise removes nothing. */
  lemma {:induction false} SearchKeepsMatching(apps: seq<Application>, f: StatusFilter, term: string)
    requires forall a :: a in apps ==> Matches(a, term)
    ensures FilterApplications(apps, f, term) == StatusStep(apps, f)
  {
    var byStatus := StatusStep(apps, f);
    if term != "" {
      assert forall a :: a in byStatus ==> a in apps;
      FilterKeepsAll(byStatus, (app: Application) => Matches(app, term));
    }
  }

  /** The counters above the list. */
  datatype Stats = Stats(total: nat, pending: nat, approved: nat, rejected: nat)

  /** `calculateStats`, over the whole list (not the filtered one). */
  function CalculateStats(apps: seq<Application>): (st: Stats)
    ensures st.total == |apps|
  {
    Stats(|apps|,
          Count(apps, (app: Application) => app.status == Pending),
          Count(apps, (app: Application) => app.status == Approved),
          Count(apps, (app: Application) => app.status == Rejected))
  }

  /** Each counter is the length of the list the matching status filter shows. */
  lemma StatsMatchFilters(apps: seq<Application>)
    ensures var st := CalculateStats(apps);
      && st.pending == |FilterApplications(apps, PendingOnly, "")|
      && st.approved == |FilterApplications(apps, ApprovedOnly, "")|
      && st.rejected == |FilterApplications(apps, RejectedOnly, "")|
  {
    assert FilterApplications(apps, PendingOnly, "") == StatusStep(apps, PendingOnly);
    assert FilterApplications(apps, ApprovedOnly, "") == StatusStep(apps, ApprovedOnly);
    assert FilterApplications(apps, RejectedOnly, "") == StatusStep(apps, RejectedOnly);
  }

  function CountStatus(apps: seq<Application>, st: Status): nat {
    if apps == [] then 0 else (if apps[0].status == st then 1 else 0) + CountStatus(apps[1..], st)
  }

  /** The three counters plus the expired applications, which have no counter, make up
      the total; so the counters never exceed it. */
  lemma StatsPartition(apps: seq<Application>)
    ensures var st := CalculateStats(apps);
      && st.pending + st.approved + st.rejected + CountStatus(apps, Expired) == st.total
      && st.pending + st.approved + st.rejected <= st.total
  {
    CountsAgree(apps, Pending);
    CountsAgree(apps, Approved);
    CountsAgree(apps, Rejected);
    StatusesPartition(apps);
  }

  lemma {:induction false} CountsAgree(apps: seq<Application>, st: Status)
    ensures Count(apps, (app: Application) => app.status == st) == CountStatus(apps, st)
  {
    if apps != [] {
      CountsAgree(apps[1..], st);
    }
  }

  lemma {:induction false} StatusesPartition(apps: seq<Application>)
    ensures CountStatus(apps, Pending) + CountStatus(apps, Approved) + CountStatus(apps, Rejected)
          + CountStatus(apps, Expired) == |apps|
  {
    if apps != [] {
      StatusesPartition(apps[1..]);
    }
  }

  // ---------------------------------------------------------------------------
  // Row and detail actions

  datatype Action = View | Approve | Reject

  /** The buttons of a table row (and, without View, of the detail view): approve and
      reject only for a pending application. */
  function RowActions(app: Application): (r: set<Action>)
    ensures View in r
    ensures Approve in r <==> app.status == Pending
    ensures Reject in r <==> app.status == Pending
  {
    if app.status == Pending then {View, Approve, Reject} else {View}
  }

  /** Every review button on screen belongs to an application the pending counter
      counts: the rows offering approval are exactly the pending-filtered rows. */
  lemma {:induction false} ReviewableRowsArePending(apps: seq<Application>, term: string)
    ensures forall a :: a in FilterApplications(apps, AllStatuses, term) && Approve in RowActions(a)
                     <==> a in FilterApplications(apps, PendingOnly, term)
  {
    FilterMembership(apps, AllStatuses, term);
    FilterMembership(apps, PendingOnly, term);
  }

  /** `applications.find(app => app.id === id) || null`: the first application with the id. */
  function FindApp(apps: seq<Application>, id: string): (r: Option<Application>)
    ensures r.None? <==> forall a :: a in apps ==> a.id != id
    ensures r.Some? ==> exists i :: 0 <= i < |apps| && apps[i] == r.value && r.value.id == id &&
                                    forall k :: 0 <= k < i ==> apps[k].id != id
  {
    if apps == [] then None
    else if apps[0].id == id then
      assert apps[0] == apps[0];
      Some(apps[0])
    else
      var r := FindApp(apps[1..], id);
      assert forall a :: a in apps ==> a == apps[0] || a in apps[1..];
      if r.Some? then
        var i :| 0 <= i < |apps[1..]| && apps[1..][i] == r.value && r.value.id == id &&
                 forall k :: 0 <= k < i ==> apps[1..][k].id != id;
        assert apps[i + 1] == r.value;
        r
      else r
  }

  // ---------------------------------------------------------------------------
  // The component state

  /** The component state. The shown list and the counters are recomputed by an effect
      after every change of the list, the term or the filter; the model computes them
      from the state (`Shown`, `Counters`). */
  class Dashboard {
    var applications: seq<Application>
    var searchTerm: string
    var statusFilter: StatusFilter
    var selected: Option<Application>
    var showExpiryModal: bool
    var expiryDate: string

    /** `filteredApplications` */
    function Shown(): seq<Application>
      reads this
    {
      FilterApplications(applications, statusFilter, searchTerm)
    }

    /** `stats` */
    function Counters(): Stats
      reads this
    {
      CalculateStats(applications)
    }

    constructor ()
      ensures applications == [] && searchTerm == "" && statusFilter == AllStatuses
      ensures selected == None && !showExpiryModal && expiryDate == ""
    {
      applications := [];
      searchTerm := "";
      statusFilter := AllStatuses;
      selected := None;
      showExpiryModal := false;
      expiryDate := "";
    }

    /** `fetchApplications`: a successful answer replaces the list; a failed one keeps it. */
    method Fetched(answer: Option<seq<Application>>)
      modifies this
      ensures applications == if answer.Some? then answer.value else old(applications)
      ensures searchTerm == old(searchTerm) && statusFilter == old(statusFilter)
      ensures selected == old(selected)
      ensures showExpiryModal == old(showExpiryModal) && expiryDate == old(expiryDate)
    {
      if answer.Some? {
        applications := answer.value;
      }
    }

    method SetSearchTerm(term: string)
      modifies this
      ensures searchTerm == term
      ensures applications == old(applications) && statusFilter == old(statusFilter)
      ensures selected == old(selected)
      ensures showExpiryModal == old(showExpiryModal) && expiryDate == old(expiryDate)
    {
      searchTerm := term;
    }

    method SetStatusFilter(f: StatusFilter)
      modifies this
      ensures statusFilter == f
      ensures applications == old(applications) && searchTerm == old(searchTerm)
      ensures selected == old(selected)
      ensures showExpiryModal == old(showExpiryModal) && expiryDate == old(expiryDate)
    {
      statusFilter := f;
    }

    /** `handleApprove`: select the application with the id (or nothing) and open the
        expiry modal. */
    method HandleApprove(id: string)
      modifies this
      ensures selected == FindApp(applications, id) && showExpiryModal
      ensures applications == old(applications) && expiryDate == old(expiryDate)
      ensures searchTerm == old(searchTerm) && statusFilter == old(statusFilter)
    {
      selected := FindApp(applications, id);
      showExpiryModal := true;
    }

    method SetExpiryDate(d: string)
      modifies this
      ensures expiryDate == d
      ensures applications == old(applications) && selected == old(selected)
      ensures searchTerm == old(searchTerm) && statusFilter == old(statusFilter)
      ensures showExpiryModal == old(showExpiryModal)
    {
      expiryDate := d;
    }

    /** `confirmApproval`: without a selection or an expiry date nothing happens and no
        request is sent. Otherwise the approval request for the selected id and the date is
        the result; `approved` says whether the server accepted it and `refetched` is the
        answer of the reload that follows. On success the list is reloaded and the modal
        closed and cleared; on failure the state stays as it was. */
    method ConfirmApproval(approved: bool, refetched: Option<seq<Application>>)
      returns (request: Option<(string, string)>)
      modifies this
      ensures request.None? <==> old(selected).None? || old(expiryDate) == ""
      ensures request.Some? ==> request.value == (old(selected).value.id, old(expiryDate))
      ensures request.None? || !approved ==>
                applications == old(applications) && selected == old(selected) &&
                showExpiryModal == old(showExpiryModal) && expiryDate == old(expiryDate)
      ensures request.Some? && approved ==>
                applications == (if refetched.Some? then refetched.value else old(applications)) &&
                selected == None && !showExpiryModal && expiryDate == ""
      ensures searchTerm == old(searchTerm) && statusFilter == old(statusFilter)
    {
      if selected.None? || expiryDate == "" {
        return None;
      }
      request := Some((selected.value.id, expiryDate));
      if approved {
        Fetched(refetched);
        showExpiryModal := false;
        expiryDate := "";
        selected := None;
      }
    }

    /** The modal's Cancel button. */
    method CancelApproval()
      modifies this
      ensures !showExpiryModal && expiryDate == "" && selected == None
      ensures applications == old(applications)
      ensures searchTerm == old(searchTerm) && statusFilter == old(statusFilter)
    {
      showExpiryModal := false;
      expiryDate := "";
      selected := None;
    }

    /** `viewApplication` and the detail view's close button. */
    method Select(app: Option<Application>)
      modifies this
      ensures selected == app
      ensures applications == old(applications)
      ensures searchTerm == old(searchTerm) && statusFilter == old(statusFilter)
      ensures showExpiryModal == old(showExpiryModal) && expiryDate == old(expiryDate)
    {
      selected := app;
    }

    /** `handleReject`: the request to reject application `id` is sent only when the
        administrator confirms; a rejection the server accepts reloads the list. Selection
        and modal are untouched. */
    method HandleReject(id: string, confirmed: bool, rejected: bool, refetched: Option<seq<Application>>)
      returns (request: Option<string>)
      modifies this
      ensures request == if confirmed then Some(id) else None
      ensures applications == if confirmed && rejected && refetched.Some? then refetched.value else old(applications)
      ensures searchTerm == old(searchTerm) && statusFilter == old(statusFilter)
      ensures selected == old(selected)
      ensures showExpiryModal == old(showExpiryModal) && expiryDate == old(expiryDate)
    {
      if !confirmed {
        return None;
      }
      request := Some(id);
      if rejected {
        Fetched(refetched);
      }
    }
  }
}
