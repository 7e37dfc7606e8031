/** The application endpoints of the two server variants, over one key-value store.
    `Primary` is `make-server-71a69640/index.tsx`, `Legacy` is `server/index.tsx`.
    Each handler is a method of `Api` that reads and writes `store` step by step, and
    is specified by a function giving its response and the store it leaves behind. */
module Server {
  import opened Wrappers
  import opened Json
  import opened Kv
  import opened Gate
  import opened Seqs
  import opened Records

  datatype Variant = Primary | Legacy

  /** A handler's answer: the HTTP status and the JSON payload. */
  datatype Response = Response(status: int, body: Json)

  /** A handler's answer together with the store after the request. */
  datatype Outcome = Outcome(response: Response, store: Store)

  function ErrorResponse(status: int, message: string): Response {
    Response(status, Obj(map["error" := Str(message)]))
  }

  /** `["a", "b"]` as a JSON array of strings. */
  function StrArr(xs: seq<string>): (j: Json)
    ensures j.Arr? && |j.items| == |xs|
    ensures forall i :: 0 <= i < |xs| ==> j.items[i] == Str(xs[i])
  {
    Arr(seq(|xs|, i requires 0 <= i < |xs| => Str(xs[i])))
  }

  /** `(await kv.get(key)) || []` */
  function ListOrEmpty(s: Store, key: string): Json {
    Or(Get(s, key), Arr([]))
  }

  /** `list = (await kv.get(key)) || []; list.push(id); await kv.set(key, list)`.
      The flag is false when `push` throws because the stored list is truthy but not
      an array; the store is then left as it was. */
  function AppendTo(s: Store, key: string, id: Json): (r: (Store, bool))
    ensures r.1 <==> ListOrEmpty(s, key).Arr?
    ensures r.1 ==> key in r.0 && r.0[key] == Arr(ListOrEmpty(s, key).items + [id])
    ensures r.0.Keys <= s.Keys + {key}
    ensures forall k :: k != key ==> Get(r.0, k) == Get(s, k)
    ensures !r.1 ==> r.0 == s
  {
    var list := ListOrEmpty(s, key);
    if list.Arr? then (s[key := Arr(list.items + [id])], true) else (s, false)
  }

  // ---------------------------------------------------------------------------
  // The gate

  /** The 401 and 403 answers the admin endpoints give before touching the store; None
      lets the request through. Both variants answer alike. */
  function AdminDenied(v: Verdict): (r: Option<Response>)
    ensures r.None? <==> v.Authenticated? && v.isAdmin
    ensures r.Some? && !v.Authenticated? ==> r.value == ErrorResponse(401, "Unauthorized")
    ensures r.Some? && v.Authenticated? ==>
              r.value == ErrorResponse(403, "Forbidden: Admin access required")
  {
    match v
    case NoToken => Some(ErrorResponse(401, "Unauthorized"))
    case InvalidToken => Some(ErrorResponse(401, "Unauthorized"))
    case Authenticated(_, isAdmin) =>
      if isAdmin then None else Some(ErrorResponse(403, "Forbidden: Admin access required"))
  }

  /** The submit endpoint's 401 answers, whose wording differs between the variants. */
  function SubmitDenied(variant: Variant, v: Verdict): (r: Response)
    requires !v.Authenticated?
    ensures r.status == 401
  {
    if variant == Legacy then ErrorResponse(401, "Unauthorized")
    else if v.NoToken? then ErrorResponse(401, "Unauthorized - No token provided")
    else ErrorResponse(401, "Unauthorized - Invalid token")
  }

  // ---------------------------------------------------------------------------
  // Submit

  /** The duplicate answer: the primary variant names the stored record's id, which is
      left out of the payload when the record has none. */
  function DuplicateResponse(variant: Variant, existing: Json): (r: Response)
    ensures r.status == 400 && r.body.Obj? && "error" in r.body.fields
    ensures r.body.fields["error"] == Str("You have already submitted an application")
    ensures "existingApplicationId" in r.body.fields <==>
              variant == Primary && Prop(existing, "id").Some?
    ensures "existingApplicationId" in r.body.fields ==>
              r.body.fields["existingApplicationId"] == Prop(existing, "id").value
  {
    var error := map["error" := Str("You have already submitted an application")];
    var id := Prop(existing, "id");
    if variant == Primary && id.Some? then
      Response(400, Obj(error["existingApplicationId" := id.value]))
    else
      Response(400, Obj(error))
  }

  /** What the submit endpoint answers and leaves in the store, given the gate's verdict. */
  function SubmitOutcome(variant: Variant, s: Store, v: Verdict,
                         body: map<string, Json>, freshId: string, now: int): (o: Outcome)
    // No token, or one the provider does not accept: 401 and nothing written.
    ensures !v.Authenticated? ==> o.response.status == 401 && o.store == s
    // A caller who already has a record: 400 and nothing written.
    ensures v.Authenticated? && Truthy(Get(s, AppKey(v.userId))) ==>
              o.response == DuplicateResponse(variant, s[AppKey(v.userId)]) && o.store == s
    // Only the caller's record and the pending list can change.
    ensures v.Authenticated? ==>
              forall k :: k != AppKey(v.userId) && k != PendingKey ==> Get(o.store, k) == Get(s, k)
  {
    if !v.Authenticated? then Outcome(SubmitDenied(variant, v), s)
    else if Truthy(Get(s, AppKey(v.userId))) then
      Outcome(DuplicateResponse(variant, s[AppKey(v.userId)]), s)
    else if variant == Legacy then LegacyInsert(s, v.userId, body, freshId, now)
    else if MissingFields(body) != [] then Outcome(MissingResponse(MissingFields(body)), s)
    else PrimaryInsert(s, v.userId, body, freshId, now)
  }

  function MissingResponse(missing: seq<string>): Response {
    Response(400, Obj(map["error" := Str("Missing required fields"), "missingFields" := StrArr(missing)]))
  }

  /** The primary variant's write once the body is complete: the record, then the
      pending-list append, whose failure is ignored. */
  function PrimaryInsert(s: Store, userId: string, body: map<string, Json>, freshId: string, now: int): (o: Outcome)
    ensures forall k :: k != AppKey(userId) && k != PendingKey ==> Get(o.store, k) == Get(s, k)
  {
    var record := Obj(NewRecord(freshId, userId, body, now));
    Outcome(Response(200, Obj(map["success" := Bool(true),
                                  "applicationId" := Str(freshId),
                                  "message" := Str("Application submitted successfully"),
                                  "application" := record])),
            AppendTo(s[AppKey(userId) := record], PendingKey, Str(freshId)).0)
  }

  /** The legacy variant's write: the spread record (with the server's ids kept, see
      `LegacySpreadMovesOwner`), then the pending-list append, whose failure turns the answer
      into a 500 after the record is saved. */
  function LegacyInsert(s: Store, userId: string, body: map<string, Json>, freshId: string, now: int): (o: Outcome)
    ensures forall k :: k != AppKey(userId) && k != PendingKey ==> Get(o.store, k) == Get(s, k)
  {
    var record := SpreadRecordIntended(freshId, userId, body, now);
    var appended := AppendTo(s[AppKey(userId) := Obj(record)], PendingKey, Str(freshId));
    if appended.1 then
      Outcome(Response(200, Obj(map["success" := Bool(true), "applicationId" := Str(freshId)])), appended.0)
    else
      Outcome(ErrorResponse(500, "Failed to submit application"), appended.0)
  }

  /** The primary variant reports the missing required fields, in their fixed order, and
      writes nothing. */
  lemma SubmitMissingFields(s: Store, v: Verdict, body: map<string, Json>, freshId: string, now: int)
    requires v.Authenticated? && !Truthy(Get(s, AppKey(v.userId)))
    requires exists f :: f in Required && !Truthy(Field(body, f))
    ensures var o := SubmitOutcome(Primary, s, v, body, freshId, now);
      && o.store == s && o.response.status == 400
      && o.response == MissingResponse(MissingFields(body))
      && MissingFields(body) != []
  {
    var f :| f in Required && !Truthy(Field(body, f));
    MissingFieldsSpec(body);
    assert f in MissingFields(body);
  }

  /** A successful primary submit stores the new pending record under the caller's key,
      answers 200 with that record, and appends the fresh id at the end of the pending
      list; a corrupt pending list is left alone and the answer is still 200. */
  lemma {:induction false} PrimarySubmitStores(s: Store, v: Verdict, body: map<string, Json>,
                                               freshId: string, now: int)
    requires v.Authenticated? && !Truthy(Get(s, AppKey(v.userId)))
    requires forall f :: f in Required ==> Truthy(Field(body, f))
    ensures forall f :: f in Required ==> f in body
    ensures var o := SubmitOutcome(Primary, s, v, body, freshId, now);
      var record := NewRecord(freshId, v.userId, body, now);
      && o.response == Response(200, Obj(map["success" := Bool(true),
                                              "applicationId" := Str(freshId),
                                              "message" := Str("Application submitted successfully"),
                                              "application" := Obj(record)]))
      && Get(o.store, AppKey(v.userId)) == Some(Obj(record))
      && record["userId"] == Str(v.userId) && record["status"] == Str("pending")
      && (ListOrEmpty(s, PendingKey).Arr? ==>
            Get(o.store, PendingKey) == Some(Arr(ListOrEmpty(s, PendingKey).items + [Str(freshId)])))
      && (!ListOrEmpty(s, PendingKey).Arr? ==> Get(o.store, PendingKey) == Get(s, PendingKey))
  {
    MissingFieldsEmpty(body);
    var key := AppKey(v.userId);
    var record := Obj(NewRecord(freshId, v.userId, body, now));
    var s1 := s[key := record];
    assert SubmitOutcome(Primary, s, v, body, freshId, now) == PrimaryInsert(s, v.userId, body, freshId, now);
    ListKeysOutsideScan(key);
    assert ListOrEmpty(s1, PendingKey) == ListOrEmpty(s, PendingKey);
    NewRecordOwnerAndStatus(freshId, v.userId, body, now);
  }

  /** The legacy variant stores whatever body it is given, under the server's ids, and
      saves the record before the pending-list append: a corrupt list makes the
      answer 500 while the record stays. */
  lemma {:induction false} LegacySubmitStores(s: Store, v: Verdict, body: map<string, Json>,
                                              freshId: string, now: int)
    requires v.Authenticated? && !Truthy(Get(s, AppKey(v.userId)))
    ensures var o := SubmitOutcome(Legacy, s, v, body, freshId, now);
      var record := SpreadRecordIntended(freshId, v.userId, body, now);
      && Get(o.store, AppKey(v.userId)) == Some(Obj(record))
      && (o.response.status == 200 <==> ListOrEmpty(s, PendingKey).Arr?)
      && (o.response.status != 200 ==>
            o.response == ErrorResponse(500, "Failed to submit application") &&
            Get(o.store, PendingKey) == Get(s, PendingKey))
      && (o.response.status == 200 ==>
            Get(o.store, PendingKey) == Some(Arr(ListOrEmpty(s, PendingKey).items + [Str(freshId)])))
  {
    ListKeysOutsideScan(AppKey(v.userId));
    var record := SpreadRecordIntended(freshId, v.userId, body, now);
    var s1 := s[AppKey(v.userId) := Obj(record)];
    assert SubmitOutcome(Legacy, s, v, body, freshId, now) == LegacyInsert(s, v.userId, body, freshId, now);
    assert ListOrEmpty(s1, PendingKey) == ListOrEmpty(s, PendingKey);
  }

  // ---------------------------------------------------------------------------
  // Get by user

  /** The get-by-user endpoint: the stored value verbatim, or 404; the primary variant
      first refuses an empty user id. */
  function UserLookup(variant: Variant, s: Store, userId: string): (r: Response)
    ensures variant == Primary && userId == "" ==> r == ErrorResponse(400, "User ID is required")
    ensures (variant == Legacy || userId != "") ==>
              (r.status == 200 <==> Truthy(Get(s, AppKey(userId)))) &&
              (r.status == 200 ==> r.body == s[AppKey(userId)]) &&
              (r.status != 200 ==> r == ErrorResponse(404, "Application not found"))
  {
    if variant == Primary && userId == "" then ErrorResponse(400, "User ID is required")
    else
      var app := Get(s, AppKey(userId));
      if !Truthy(app) then ErrorResponse(404, "Application not found") else Response(200, app.value)
  }

  /** Submitting and then fetching the caller's record gives back the stored record, and
      a second submit from the same caller is refused as a duplicate without a write. */
  lemma {:induction false} SubmitThenGet(variant: Variant, s: Store, v: Verdict, body: map<string, Json>,
                                         freshId: string, now: int, freshId': string, now': int)
    requires v.Authenticated? && v.userId != "" && !Truthy(Get(s, AppKey(v.userId)))
    requires variant == Primary ==> forall f :: f in Required ==> Truthy(Field(body, f))
    ensures var o := SubmitOutcome(variant, s, v, body, freshId, now);
      var o' := SubmitOutcome(variant, o.store, v, body, freshId', now');
      && AppKey(v.userId) in o.store
      && UserLookup(variant, o.store, v.userId) == Response(200, o.store[AppKey(v.userId)])
      && o'.store == o.store && o'.response.status == 400
  {
    var o := SubmitOutcome(variant, s, v, body, freshId, now);
    var key := AppKey(v.userId);
    if variant == Primary {
      PrimarySubmitStores(s, v, body, freshId, now);
    } else {
      LegacySubmitStores(s, v, body, freshId, now);
    }
    assert Get(o.store, key).Some? && Get(o.store, key).value.Obj?;
    assert Truthy(Get(o.store, key));
  }

  // ---------------------------------------------------------------------------
  // Admin list

  /** The admin list endpoint over one scan of the records. Sorting compares the
      `submittedAt` of two records, which throws (500) on a null record once there are
      two records to compare; when a record has no numeric timestamp the comparator
      gives NaN and the order is left to the engine, modelled as the scan order. */
  function ListOutcome(v: Verdict, scan: seq<Json>): (r: Response)
    ensures AdminDenied(v).Some? ==> r == AdminDenied(v).value
    ensures AdminDenied(v).None? ==> (r.status == 500 <==> |scan| >= 2 && Null in scan)
    ensures r.status == 500 ==> r == ErrorResponse(500, "Failed to fetch applications")
    ensures r.status == 200 ==>
              r.body.Arr? && multiset(r.body.items) == multiset(scan) &&
              (Dated(scan) ==> Dated(r.body.items) && NewestFirst(r.body.items))
  {
    var denied := AdminDenied(v);
    if denied.Some? then denied.value
    else if |scan| >= 2 && Null in scan then ErrorResponse(500, "Failed to fetch applications")
    else if Dated(scan) then Response(200, Arr(SortNewestFirst(scan)))
    else Response(200, Arr(scan))
  }

  /** The admin list holds exactly the records stored under `application:`, each as
      often as it is stored, and never an advisory list. */
  lemma {:induction false} ListCoversStore(v: Verdict, s: Store, keys: seq<string>, scan: seq<Json>)
    requires IsScan(s, AppPrefix, keys, scan)
    requires ListOutcome(v, scan).status == 200
    ensures var items := ListOutcome(v, scan).body.items;
      && (forall x :: x in items <==> exists k :: k in s && HasPrefix(k, AppPrefix) && s[k] == x)
      && |items| == |keys|
      && PendingKey !in keys && ApprovedKey !in keys && RejectedKey !in keys
  {
    var items := ListOutcome(v, scan).body.items;
    forall x ensures x in items <==> exists k :: k in s && HasPrefix(k, AppPrefix) && s[k] == x {
      ScanValues(s, AppPrefix, keys, scan, x);
      assert x in items <==> x in multiset(items);
      assert x in scan <==> x in multiset(scan);
    }
    assert |items| == |multiset(items)| == |multiset(scan)| == |scan|;
    ListKeysOutsideScan(AppPrefix);
  }

  // ---------------------------------------------------------------------------
  // Approve and reject

  /** The writes of a review once the record is found: the updated record under `key`,
      then the pending list without the id, then `target` with the id appended. A list
      that is truthy but not an array makes `filter`/`push` throw; the writes made so
      far stay and the flag is false. */
  function ReviewWrites(s: Store, key: string, updated: Json, id: string, target: string): (r: (Store, bool))
    requires HasPrefix(key, AppPrefix) && (target == ApprovedKey || target == RejectedKey)
    ensures Get(r.0, key) == Some(updated)
    ensures forall k :: k != key && k != PendingKey && k != target ==> Get(r.0, k) == Get(s, k)
    ensures r.0.Keys <= s.Keys + {key, PendingKey, target}
    ensures r.1 <==> ListOrEmpty(s, PendingKey).Arr? && ListOrEmpty(s, target).Arr?
    ensures ListOrEmpty(s, PendingKey).Arr? ==>
              Get(r.0, PendingKey) == Some(Arr(RemoveId(ListOrEmpty(s, PendingKey).items, id)))
    ensures !ListOrEmpty(s, PendingKey).Arr? ==> Get(r.0, PendingKey) == Get(s, PendingKey)
    ensures r.1 ==> Get(r.0, target) == Some(Arr(ListOrEmpty(s, target).items + [Str(id)]))
    ensures !r.1 ==> Get(r.0, target) == Get(s, target)
  {
    ListKeysOutsideScan(key);
    var s1 := s[key := updated];
    var pending := ListOrEmpty(s1, PendingKey);
    if !pending.Arr? then (s1, false)
    else
      var s2 := s1[PendingKey := Arr(RemoveId(pending.items, id))];
      AppendTo(s2, target, Str(id))
  }

  /** The approve endpoint over one scan of the records. */
  function ApproveOutcome(s: Store, scan: seq<Json>, v: Verdict, id: string,
                          body: map<string, Json>, now: nat): (o: Outcome)
    ensures AdminDenied(v).Some? ==> o == Outcome(AdminDenied(v).value, s)
    // The expiry date is checked before any lookup.
    ensures AdminDenied(v).None? && !Truthy(Field(body, "expiryDate")) ==>
              o == Outcome(ErrorResponse(400, "Expiry date is required"), s)
    ensures o.response.status == 404 ==>
              o == Outcome(ErrorResponse(404, "Application not found"), s) &&
              forall j :: 0 <= j < |scan| ==> scan[j] != Null && !HasId(scan[j], id)
    ensures o.response.status == 200 ==>
              Truthy(Field(body, "expiryDate")) &&
              exists j :: 0 <= j < |scan| && HasId(scan[j], id) &&
                          Approves(s, scan[j], id, Field(body, "expiryDate").value, now, o)
    // Past the gates, the lookup decides: a null record met first is a 500 with nothing
    // written, no match is a 404, and a match is approved.
    ensures AdminDenied(v).None? && Truthy(Field(body, "expiryDate")) ==>
              && (FindById(scan, id).Throws? ==>
                    o == Outcome(ErrorResponse(500, "Failed to approve application"), s))
              && (FindById(scan, id).NotFound? ==>
                    o == Outcome(ErrorResponse(404, "Application not found"), s))
              && (FindById(scan, id).Found? ==>
                    o == ApproveFound(s, scan[FindById(scan, id).index], id, Field(body, "expiryDate").value, now))
  {
    var denied := AdminDenied(v);
    if denied.Some? then Outcome(denied.value, s)
    else
      var expiry := Field(body, "expiryDate");
      if !Truthy(expiry) then Outcome(ErrorResponse(400, "Expiry date is required"), s)
      else
        match FindById(scan, id)
        case Throws => Outcome(ErrorResponse(500, "Failed to approve application"), s)
        case NotFound => Outcome(ErrorResponse(404, "Application not found"), s)
        case Found(j) => ApproveFound(s, scan[j], id, expiry.value, now)
  }

  /** Approve once the record `app` is found. */
  function ApproveFound(s: Store, app: Json, id: string, expiry: Json, now: nat): (o: Outcome)
    requires app.Obj?
    ensures o.response.status == 200 || o.response == ErrorResponse(500, "Failed to approve application")
    // It succeeds exactly when both lists it edits are arrays or absent.
    ensures o.response.status == 200 <==> ListOrEmpty(s, PendingKey).Arr? && ListOrEmpty(s, ApprovedKey).Arr?
    ensures o.response.status == 200 ==> Approves(s, app, id, expiry, now, o)
    // The approved copy is written first, so it is in place even when a list write throws.
    ensures Get(o.store, OwnerKey(app)) == Some(Obj(ApprovedRecord(app.fields, expiry, now, MembershipNumber(now))))
    ensures forall k :: k != OwnerKey(app) && k != PendingKey && k != ApprovedKey ==> Get(o.store, k) == Get(s, k)
  {
    var updated := Obj(ApprovedRecord(app.fields, expiry, now, MembershipNumber(now)));
    ReviewAnswer(s, OwnerKey(app), updated, id, ApprovedKey, "Failed to approve application")
  }

  /** The writes of a review and its answer: the updated record on success, else a 500
      with `failure`. */
  function ReviewAnswer(s: Store, key: string, updated: Json, id: string, target: string,
                        failure: string): Outcome
    requires HasPrefix(key, AppPrefix) && (target == ApprovedKey || target == RejectedKey)
  {
    var (s', ok) := ReviewWrites(s, key, updated, id, target);
    if ok then Outcome(Response(200, Obj(map["success" := Bool(true), "application" := updated])), s')
    else Outcome(ErrorResponse(500, failure), s')
  }

  /** A successful approval of `app`: its owner's key now holds the approved copy, which
      the answer carries; the id has left the pending list and ends the approved list;
      no other key changed. */
  ghost predicate Approves(s: Store, app: Json, id: string, expiry: Json, now: nat, o: Outcome)
    requires app.Obj?
  {
    var updated := Obj(ApprovedRecord(app.fields, expiry, now, MembershipNumber(now)));
    && o.response == Response(200, Obj(map["success" := Bool(true), "application" := updated]))
    && Reviewed(s, OwnerKey(app), updated, id, ApprovedKey, o.store)
  }

  /** The store after a complete review: `updated` under `key`, the id gone from the pending
      list and appended to `target`, every other key as before. */
  ghost predicate Reviewed(s: Store, key: string, updated: Json, id: string, target: string, s': Store) {
    && Get(s', key) == Some(updated)
    && ListOrEmpty(s, PendingKey).Arr? && ListOrEmpty(s, target).Arr?
    && Get(s', PendingKey) == Some(Arr(RemoveId(ListOrEmpty(s, PendingKey).items, id)))
    && Get(s', target) == Some(Arr(ListOrEmpty(s, target).items + [Str(id)]))
    && forall k :: k != key && k != PendingKey && k != target ==> Get(s', k) == Get(s, k)
  }

  /** The reject endpoint over one scan of the records. */
  function RejectOutcome(s: Store, scan: seq<Json>, v: Verdict, id: string, now: int): (o: Outcome)
    ensures AdminDenied(v).Some? ==> o == Outcome(AdminDenied(v).value, s)
    ensures o.response.status == 404 ==>
              o == Outcome(ErrorResponse(404, "Application not found"), s) &&
              forall j :: 0 <= j < |scan| ==> scan[j] != Null && !HasId(scan[j], id)
    ensures o.response.status == 200 ==>
              exists j :: 0 <= j < |scan| && HasId(scan[j], id) && Rejects(s, scan[j], id, now, o)
    ensures AdminDenied(v).None? ==>
              && (FindById(scan, id).Throws? ==>
                    o == Outcome(ErrorResponse(500, "Failed to reject application"), s))
              && (FindById(scan, id).NotFound? ==>
                    o == Outcome(ErrorResponse(404, "Application not found"), s))
              && (FindById(scan, id).Found? ==>
                    o == RejectFound(s, scan[FindById(scan, id).index], id, now))
  {
    var denied := AdminDenied(v);
    if denied.Some? then Outcome(denied.value, s)
    else
      match FindById(scan, id)
      case Throws => Outcome(ErrorResponse(500, "Failed to reject application"), s)
      case NotFound => Outcome(ErrorResponse(404, "Application not found"), s)
      case Found(j) => RejectFound(s, scan[j], id, now)
  }

  /** Reject once the record `app` is found. */
  function RejectFound(s: Store, app: Json, id: string, now: int): (o: Outcome)
    requires app.Obj?
    ensures o.response.status == 200 || o.response == ErrorResponse(500, "Failed to reject application")
    ensures o.response.status == 200 <==> ListOrEmpty(s, PendingKey).Arr? && ListOrEmpty(s, RejectedKey).Arr?
    ensures o.response.status == 200 ==> Rejects(s, app, id, now, o)
    ensures Get(o.store, OwnerKey(app)) == Some(Obj(RejectedRecord(app.fields, now)))
    ensures forall k :: k != OwnerKey(app) && k != PendingKey && k != RejectedKey ==> Get(o.store, k) == Get(s, k)
  {
    var updated := Obj(RejectedRecord(app.fields, now));
    ReviewAnswer(s, OwnerKey(app), updated, id, RejectedKey, "Failed to reject application")
  }

  /** A successful rejection of `app`, the counterpart of `Approves`. */
  ghost predicate Rejects(s: Store, app: Json, id: string, now: int, o: Outcome)
    requires app.Obj?
  {
    var updated := Obj(RejectedRecord(app.fields, now));
    && o.response == Response(200, Obj(map["success" := Bool(true), "application" := updated]))
    && Reviewed(s, OwnerKey(app), updated, id, RejectedKey, o.store)
  }

  /** Whether a review answers 404 does not depend on the scan order: it does exactly
      when no stored record is null and none carries the id. */
  lemma {:induction false} ReviewNotFound(s: Store, keys: seq<string>, scan: seq<Json>, v: Verdict,
                                          id: string, body: map<string, Json>, now: nat)
    requires IsScan(s, AppPrefix, keys, scan)
    requires AdminDenied(v).None? && Truthy(Field(body, "expiryDate"))
    ensures var none := forall k :: k in s && HasPrefix(k, AppPrefix) ==> s[k] != Null && !HasId(s[k], id);
      && (ApproveOutcome(s, scan, v, id, body, now).response.status == 404 <==> none)
      && (RejectOutcome(s, scan, v, id, now).response.status == 404 <==> none)
  {
    var none := forall k :: k in s && HasPrefix(k, AppPrefix) ==> s[k] != Null && !HasId(s[k], id);
    var r := FindById(scan, id);
    if r.NotFound? {
      forall k | k in s && HasPrefix(k, AppPrefix) ensures s[k] != Null && !HasId(s[k], id) {
        var j :| 0 <= j < |keys| && keys[j] == k;
      }
    }
    if none {
      forall j | 0 <= j < |scan| ensures scan[j] != Null && !HasId(scan[j], id) {
        assert keys[j] in s && HasPrefix(keys[j], AppPrefix);
      }
    }
  }

  /** Approval does not check the current status: with the found record's status set to
      anything else, approval finds the same record and answers the same. */
  lemma {:induction false} ApproveIgnoresStatus(s: Store, scan: seq<Json>, v: Verdict, id: string,
                                                body: map<string, Json>, now: nat, status: Json)
    requires FindById(scan, id).Found?
    ensures var j := FindById(scan, id).index;
      var scan' := scan[j := Obj(scan[j].fields["status" := status])];
      && FindById(scan', id) == FindById(scan, id)
      && ApproveOutcome(s, scan', v, id, body, now) == ApproveOutcome(s, scan, v, id, body, now)
  {
    var j := FindById(scan, id).index;
    var scan' := scan[j := Obj(scan[j].fields["status" := status])];
    assert HasId(scan'[j], id);
    FindUpTo(scan, scan', id, j);
    var expiry := Field(body, "expiryDate");
    if AdminDenied(v).None? && Truthy(expiry) {
      assert ApproveOutcome(s, scan', v, id, body, now) == ApproveFound(s, scan'[j], id, expiry.value, now);
      assert ApproveOutcome(s, scan, v, id, body, now) == ApproveFound(s, scan[j], id, expiry.value, now);
      ApproveFoundIgnoresStatus(s, scan[j], id, expiry.value, now, status);
    }
  }

  lemma ApproveFoundIgnoresStatus(s: Store, app: Json, id: string, expiry: Json, now: nat, status: Json)
    requires app.Obj?
    ensures ApproveFound(s, Obj(app.fields["status" := status]), id, expiry, now) == ApproveFound(s, app, id, expiry, now)
  {
    var app' := Obj(app.fields["status" := status]);
    StatusIsOverwritten(app.fields, status, expiry, now, MembershipNumber(now));
    OwnerKeyIgnoresStatus(app, status);
    ApproveFoundAnswers(s, app', id, expiry, now);
    ApproveFoundAnswers(s, app, id, expiry, now);
  }

  lemma ApproveFoundAnswers(s: Store, app: Json, id: string, expiry: Json, now: nat)
    requires app.Obj?
    ensures ApproveFound(s, app, id, expiry, now)
         == ReviewAnswer(s, OwnerKey(app), Obj(ApprovedRecord(app.fields, expiry, now, MembershipNumber(now))),
                         id, ApprovedKey, "Failed to approve application")
  {
  }

  lemma OwnerKeyIgnoresStatus(app: Json, status: Json)
    requires app.Obj?
    ensures OwnerKey(Obj(app.fields["status" := status])) == OwnerKey(app)
  {
    assert Prop(Obj(app.fields["status" := status]), "userId") == Prop(app, "userId");
  }

  /** Rejection does not check the current status either. */
  lemma {:induction false} RejectIgnoresStatus(s: Store, scan: seq<Json>, v: Verdict, id: string,
                                               now: nat, status: Json)
    requires FindById(scan, id).Found?
    ensures var j := FindById(scan, id).index;
      var scan' := scan[j := Obj(scan[j].fields["status" := status])];
      && FindById(scan', id) == FindById(scan, id)
      && RejectOutcome(s, scan', v, id, now) == RejectOutcome(s, scan, v, id, now)
  {
    var j := FindById(scan, id).index;
    var scan' := scan[j := Obj(scan[j].fields["status" := status])];
    assert HasId(scan'[j], id);
    FindUpTo(scan, scan', id, j);
    if AdminDenied(v).None? {
      assert RejectOutcome(s, scan', v, id, now) == RejectFound(s, scan'[j], id, now);
      assert RejectOutcome(s, scan, v, id, now) == RejectFound(s, scan[j], id, now);
      RejectFoundIgnoresStatus(s, scan[j], id, now, status);
    }
  }

  lemma RejectFoundIgnoresStatus(s: Store, app: Json, id: string, now: nat, status: Json)
    requires app.Obj?
    ensures RejectFound(s, Obj(app.fields["status" := status]), id, now) == RejectFound(s, app, id, now)
  {
    UpdateTwice(app.fields, "status", status, Str("rejected"));
    assert RejectedRecord(app.fields["status" := status], now) == RejectedRecord(app.fields, now);
    assert OwnerKey(Obj(app.fields["status" := status])) == OwnerKey(app);
  }

  /** The approved copy does not depend on the status the record had. */
  lemma StatusIsOverwritten(app: map<string, Json>, status: Json, expiry: Json, now: int, number: string)
    ensures ApprovedRecord(app["status" := status], expiry, now, number) == ApprovedRecord(app, expiry, now, number)
  {
    UpdateTwice(app, "status", status, Str("approved"));
  }

  /** A second write to a key hides the first. */
  lemma UpdateTwice<K, V>(m: map<K, V>, k: K, a: V, b: V)
    ensures m[k := a][k := b] == m[k := b]
  {
    var l, r := m[k := a][k := b], m[k := b];
    assert l.Keys == r.Keys;
    forall x | x in l ensures l[x] == r[x] {
      if x != k { assert l[x] == m[x] == r[x]; }
    }
  }

  /** Two scans that agree before position j, and both hold a match at j, find it there. */
  lemma {:induction false} FindUpTo(scan: seq<Json>, scan': seq<Json>, id: string, j: nat)
    requires FindById(scan, id) == Found(j) && |scan'| == |scan|
    requires forall i :: 0 <= i < j ==> scan'[i] == scan[i]
    requires HasId(scan'[j], id)
    ensures FindById(scan', id) == Found(j)
  {
    FindFromUpTo(scan, scan', id, j, 0);
  }

  lemma {:induction false} FindFromUpTo(scan: seq<Json>, scan': seq<Json>, id: string, j: nat, k: nat)
    requires k <= j < |scan| == |scan'|
    requires forall i :: 0 <= i < k ==> scan[i] != Null && !HasId(scan[i], id)
    requires FindFrom(scan, id, k) == Found(j)
    requires forall i :: 0 <= i < j ==> scan'[i] == scan[i]
    requires HasId(scan'[j], id)
    ensures forall i :: 0 <= i < k ==> scan'[i] != Null && !HasId(scan'[i], id)
    ensures FindFrom(scan', id, k) == Found(j)
    decreases j - k
  {
    if k < j {
      FindFromUpTo(scan, scan', id, j, k + 1);
    }
  }

  // ---------------------------------------------------------------------------
  // Ownership

  /** Every record sits under `application:` followed by its own `userId`. */
  ghost predicate OwnerKeyed(s: Store) {
    forall k :: k in s && HasPrefix(k, AppPrefix) ==> Prop(s[k], "userId") == Some(Str(k[|AppPrefix|..]))
  }

  /** In an owner-keyed store, reviewing a record rewrites the very key it was read from. */
  lemma OwnerKeyOfScanned(s: Store, keys: seq<string>, scan: seq<Json>, j: nat)
    requires OwnerKeyed(s) && IsScan(s, AppPrefix, keys, scan) && j < |scan|
    ensures OwnerKey(scan[j]) == keys[j]
  {
    assert HasPrefix(keys[j], AppPrefix);
    assert keys[j] == AppPrefix + keys[j][|AppPrefix|..];
  }

  /** A submit, of either variant, keeps every record under its owner's key: the new
      record names the caller, and no other record is touched. */
  lemma {:induction false} SubmitKeepsOwners(variant: Variant, s: Store, v: Verdict, body: map<string, Json>,
                                             freshId: string, now: int)
    requires OwnerKeyed(s)
    ensures OwnerKeyed(SubmitOutcome(variant, s, v, body, freshId, now).store)
  {
    var o := SubmitOutcome(variant, s, v, body, freshId, now);
    if v.Authenticated? && !Truthy(Get(s, AppKey(v.userId))) && (variant == Legacy || MissingFields(body) == []) {
      var key := AppKey(v.userId);
      if variant == Primary {
        MissingFieldsEmpty(body);
        PrimarySubmitStores(s, v, body, freshId, now);
      } else {
        LegacySubmitStores(s, v, body, freshId, now);
      }
      assert Prop(o.store[key], "userId") == Some(Str(v.userId));
      forall k | k in o.store && HasPrefix(k, AppPrefix)
        ensures Prop(o.store[k], "userId") == Some(Str(k[|AppPrefix|..]))
      {
        ListKeysOutsideScan(k);
        if k != key {
          assert Get(o.store, k) == Get(s, k);
        }
      }
    }
  }

  /** An approval in an owner-keyed store rewrites a record in place, with its owner
      unchanged, and so keeps the store owner-keyed. */
  lemma {:induction false} ApproveKeepsOwners(s: Store, keys: seq<string>, scan: seq<Json>, v: Verdict,
                                              id: string, body: map<string, Json>, now: nat)
    requires OwnerKeyed(s) && IsScan(s, AppPrefix, keys, scan)
    ensures OwnerKeyed(ApproveOutcome(s, scan, v, id, body, now).store)
  {
    var r := FindById(scan, id);
    var expiry := Field(body, "expiryDate");
    if AdminDenied(v).None? && r.Found? && Truthy(expiry) {
      var j := r.index;
      OwnerKeyOfScanned(s, keys, scan, j);
      assert ApproveOutcome(s, scan, v, id, body, now) == ApproveFound(s, scan[j], id, expiry.value, now);
      ApproveFoundKeepsOwners(s, keys[j], id, expiry.value, now);
    }
  }

  lemma ApproveFoundKeepsOwners(s: Store, key: string, id: string, expiry: Json, now: nat)
    requires OwnerKeyed(s) && key in s && HasPrefix(key, AppPrefix) && s[key].Obj? && OwnerKey(s[key]) == key
    ensures OwnerKeyed(ApproveFound(s, s[key], id, expiry, now).store)
  {
    var app, number := s[key], MembershipNumber(now);
    var updated := Obj(ApprovedRecord(app.fields, expiry, now, number));
    ApprovedKeepsOwner(app.fields, expiry, now, number);
    ReviewAnswerKeepsOwners(s, key, updated, id, ApprovedKey, "Failed to approve application");
    assert ApproveFound(s, app, id, expiry, now)
        == ReviewAnswer(s, key, updated, id, ApprovedKey, "Failed to approve application");
  }

  lemma ReviewAnswerKeepsOwners(s: Store, key: string, updated: Json, id: string, target: string, failure: string)
    requires OwnerKeyed(s) && key in s && HasPrefix(key, AppPrefix)
    requires target == ApprovedKey || target == RejectedKey
    requires Prop(updated, "userId") == Prop(s[key], "userId")
    ensures OwnerKeyed(ReviewAnswer(s, key, updated, id, target, failure).store)
  {
    ReviewWritesKeepOwners(s, key, updated, id, target);
  }

  /** The same for a rejection. */
  lemma {:induction false} RejectKeepsOwners(s: Store, keys: seq<string>, scan: seq<Json>, v: Verdict,
                                             id: string, now: nat)
    requires OwnerKeyed(s) && IsScan(s, AppPrefix, keys, scan)
    ensures OwnerKeyed(RejectOutcome(s, scan, v, id, now).store)
  {
    var r := FindById(scan, id);
    if AdminDenied(v).None? && r.Found? {
      var j := r.index;
      OwnerKeyOfScanned(s, keys, scan, j);
      assert RejectOutcome(s, scan, v, id, now) == RejectFound(s, scan[j], id, now);
      var rejected := Obj(RejectedRecord(scan[j].fields, now));
      RejectedKeepsOwner(scan[j].fields, now);
      ReviewAnswerKeepsOwners(s, keys[j], rejected, id, RejectedKey, "Failed to reject application");
      assert RejectFound(s, scan[j], id, now)
          == ReviewAnswer(s, keys[j], rejected, id, RejectedKey, "Failed to reject application");
    }
  }

  lemma {:induction false} ReviewWritesKeepOwners(s: Store, key: string, updated: Json, id: string, target: string)
    requires OwnerKeyed(s) && key in s && HasPrefix(key, AppPrefix)
    requires target == ApprovedKey || target == RejectedKey
    requires Prop(updated, "userId") == Prop(s[key], "userId")
    ensures OwnerKeyed(ReviewWrites(s, key, updated, id, target).0)
  {
    var s' := ReviewWrites(s, key, updated, id, target).0;
    forall k | k in s' && HasPrefix(k, AppPrefix)
      ensures Prop(s'[k], "userId") == Some(Str(k[|AppPrefix|..]))
    {
      ListKeysOutsideScan(k);
      assert Get(s', k) == Get(s, k) || k == key;
    }
  }

  /** The `server/` handler's record as written spreads the body after the server's ids,
      so a body field `userId` replaces the caller's: the record would be saved under the
      caller's key yet name another owner, leaving the store no longer owner-keyed, and
      approving it would write a record under the other user's key. */
  lemma LegacySpreadMovesOwner()
    ensures var r := Obj(SpreadRecord("id1", "mallory", map["userId" := Str("victim")], 0));
      var s := map[AppKey("mallory") := r];
      && OwnerKey(r) == AppKey("victim") != AppKey("mallory")
      && OwnerKeyed(map[]) && !OwnerKeyed(s)
      && AppKey("victim") in ApproveFound(s, r, "id1", Str("2027-01-01"), 0).store
  {
    var r := Obj(SpreadRecord("id1", "mallory", map["userId" := Str("victim")], 0));
    var s := map[AppKey("mallory") := r];
    var k := AppKey("mallory");
    assert k[|AppPrefix|..] == "mallory";
    assert AppKey("victim")[|AppPrefix|..] == "victim";
    assert Prop(s[k], "userId") == Some(Str("victim"));
    ApproveFoundAnswers(s, r, "id1", Str("2027-01-01"), 0);
  }

  // ---------------------------------------------------------------------------
  // The handlers

  class Api {
    const variant: Variant
    var store: Store

    constructor (variant: Variant, store: Store)
      ensures this.variant == variant && this.store == store
    {
      this.variant := variant;
      this.store := store;
    }

    /** POST /application. */
    method Submit(header: Option<string>, identity: Identity, body: map<string, Json>,
                  freshId: string, now: int) returns (r: Response)
      modifies this
      ensures Outcome(r, store) == SubmitOutcome(variant, old(store), Verify(header, identity), body, freshId, now)
    {
      var v := Verify(header, identity);
      if !v.Authenticated? {
        r := SubmitDenied(variant, v);
        return;
      }
      var key := AppKey(v.userId);
      var existing := Get(store, key);
      if Truthy(existing) {
        r := DuplicateResponse(variant, existing.value);
        return;
      }
      var record: Json;
      if variant == Primary {
        var missing := MissingFields(body);
        if missing != [] {
          r := MissingResponse(missing);
          return;
        }
        record := Obj(NewRecord(freshId, v.userId, body, now));
      } else {
        record := Obj(SpreadRecordIntended(freshId, v.userId, body, now));
      }
      store := store[key := record];
      var saved := Get(store, key);
      assert Truthy(saved);  // the primary variant's read-back always finds the record
      var id := Str(freshId);
      var pending := ListOrEmpty(store, PendingKey);
      if pending.Arr? {
        store := store[PendingKey := Arr(pending.items + [id])];
      } else if variant == Legacy {
        r := ErrorResponse(500, "Failed to submit application");
        return;
      }
      if variant == Primary {
        r := Response(200, Obj(map["success" := Bool(true),
                                   "applicationId" := Str(freshId),
                                   "message" := Str("Application submitted successfully"),
                                   "application" := saved.value]));
      } else {
        r := Response(200, Obj(map["success" := Bool(true), "applicationId" := id]));
      }
    }

    /** GET /application/:userId. */
    method GetByUser(userId: string) returns (r: Response)
      ensures r == UserLookup(variant, store, userId)
    {
      if variant == Primary && userId == "" {
        return ErrorResponse(400, "User ID is required");
      }
      var app := Get(store, AppKey(userId));
      if !Truthy(app) {
        return ErrorResponse(404, "Application not found");
      }
      r := Response(200, app.value);
    }

    /** GET /admin/applications. `keys` and `scan` record the order the store chose. */
    method ListApplications(header: Option<string>, identity: Identity)
      returns (r: Response, ghost keys: seq<string>, ghost scan: seq<Json>)
      ensures IsScan(store, AppPrefix, keys, scan)
      ensures r == ListOutcome(Verify(header, identity), scan)
    {
      var v := Verify(header, identity);
      var denied := AdminDenied(v);
      if denied.Some? {
        keys, scan := SomeScan(store, AppPrefix);
        return denied.value, keys, scan;
      }
      var ks, apps := GetByPrefix(store, AppPrefix);
      keys, scan := ks, apps;
      if |apps| >= 2 && Null in apps {
        r := ErrorResponse(500, "Failed to fetch applications");
      } else if Dated(apps) {
        r := Response(200, Arr(SortNewestFirst(apps)));
      } else {
        r := Response(200, Arr(apps));
      }
    }

    /** POST /admin/application/:id/approve. */
    method Approve(header: Option<string>, identity: Identity, id: string, body: map<string, Json>, now: nat)
      returns (r: Response, ghost keys: seq<string>, ghost scan: seq<Json>)
      modifies this
      ensures IsScan(old(store), AppPrefix, keys, scan)
      ensures Outcome(r, store) == ApproveOutcome(old(store), scan, Verify(header, identity), id, body, now)
    {
      var v := Verify(header, identity);
      var denied := AdminDenied(v);
      if denied.Some? {
        keys, scan := SomeScan(store, AppPrefix);
        return denied.value, keys, scan;
      }
      var expiry := Field(body, "expiryDate");
      if !Truthy(expiry) {
        keys, scan := SomeScan(store, AppPrefix);
        return ErrorResponse(400, "Expiry date is required"), keys, scan;
      }
      var ks, apps := GetByPrefix(store, AppPrefix);
      keys, scan := ks, apps;
      var found := FindById(apps, id);
      if found.Throws? {
        return ErrorResponse(500, "Failed to approve application"), keys, scan;
      }
      if found.NotFound? {
        return ErrorResponse(404, "Application not found"), keys, scan;
      }
      var app := apps[found.index];
      var updated := Obj(ApprovedRecord(app.fields, expiry.value, now, MembershipNumber(now)));
      var ok := WriteReview(OwnerKey(app), updated, id, ApprovedKey);
      if ok {
        r := Response(200, Obj(map["success" := Bool(true), "application" := updated]));
      } else {
        r := ErrorResponse(500, "Failed to approve application");
      }
    }

    /** POST /admin/application/:id/reject. */
    method Reject(header: Option<string>, identity: Identity, id: string, now: int)
      returns (r: Response, ghost keys: seq<string>, ghost scan: seq<Json>)
      modifies this
      ensures IsScan(old(store), AppPrefix, keys, scan)
      ensures Outcome(r, store) == RejectOutcome(old(store), scan, Verify(header, identity), id, now)
    {
      var v := Verify(header, identity);
      var denied := AdminDenied(v);
      if denied.Some? {
        keys, scan := SomeScan(store, AppPrefix);
        return denied.value, keys, scan;
      }
      var ks, apps := GetByPrefix(store, AppPrefix);
      keys, scan := ks, apps;
      var found := FindById(apps, id);
      if found.Throws? {
        return ErrorResponse(500, "Failed to reject application"), keys, scan;
      }
      if found.NotFound? {
        return ErrorResponse(404, "Application not found"), keys, scan;
      }
      var app := apps[found.index];
      var updated := Obj(RejectedRecord(app.fields, now));
      var ok := WriteReview(OwnerKey(app), updated, id, RejectedKey);
      if ok {
        r := Response(200, Obj(map["success" := Bool(true), "application" := updated]));
      } else {
        r := ErrorResponse(500, "Failed to reject application");
      }
    }

    /** The record write and list updates shared by approve and reject. */
    method WriteReview(key: string, updated: Json, id: string, target: string) returns (ok: bool)
      requires HasPrefix(key, AppPrefix) && (target == ApprovedKey || target == RejectedKey)
      modifies this
      ensures (store, ok) == ReviewWrites(old(store), key, updated, id, target)
    {
      ListKeysOutsideScan(key);
      store := store[key := updated];
      var pending := ListOrEmpty(store, PendingKey);
      if !pending.Arr? {
        return false;
      }
      store := store[PendingKey := Arr(RemoveId(pending.items, id))];
      var list := ListOrEmpty(store, target);
      if !list.Arr? {
        return false;
      }
      store := store[target := Arr(list.items + [Str(id)])];
      ok := true;
    }
  }
}
