/** Application records as the handlers build, find, sort and update them, and the
    advisory id lists. Records are JSON objects; the helpers here are the pure parts
    of the handlers (`requiredFields.filter`, the record literals and spreads,
    `applications.find`, the sort comparator, the pending-list filter). */
module Records {
  import opened Wrappers
  import opened Json
  import opened Kv
  import opened Seqs

  const AppPrefix := "application:"
  const PendingKey := "applications:pending"
  const ApprovedKey := "applications:approved"
  const RejectedKey := "applications:rejected"

  /** `application:${userId}`: the one key an applicant's record lives under. */
  function AppKey(userId: string): (k: string)
    ensures HasPrefix(k, AppPrefix) && k[|AppPrefix|..] == userId
  {
    AppPrefix + userId
  }

  /** `application:${app.userId}`: the key approve and reject write a found record to. */
  function OwnerKey(app: Json): (k: string)
    ensures HasPrefix(k, AppPrefix)
  {
    AppPrefix + Text(Prop(app, "userId"))
  }

  /** The advisory lists never share a key with a record, and the record scan never
      visits them: `applications:` differs from `application:` at its twelfth character. */
  lemma ListKeysOutsideScan(k: string)
    requires HasPrefix(k, AppPrefix)
    ensures !HasPrefix(PendingKey, AppPrefix) && !HasPrefix(ApprovedKey, AppPrefix)
    ensures !HasPrefix(RejectedKey, AppPrefix)
    ensures k != PendingKey && k != ApprovedKey && k != RejectedKey
  {
    assert k[11] == AppPrefix[11] == ':';
    assert PendingKey[11] == 's' && ApprovedKey[11] == 's' && RejectedKey[11] == 's';
  }

  // ---------------------------------------------------------------------------
  // Submission

  /** The nine fields the primary handler requires, in the order it reports them. */
  const Required: seq<string> := ["fullName", "email", "phone", "position", "organization",
                                  "yearsExperience", "education", "specialization", "motivation"]

  /** `requiredFields.filter(field => !applicationData[field])`. */
  function MissingFields(body: map<string, Json>): seq<string> {
    MissingFrom(Required, body)
  }

  /** The falsy fields among `fields`, in order. */
  function MissingFrom(fields: seq<string>, body: map<string, Json>): seq<string> {
    if fields == [] then []
    else (if Truthy(Field(body, fields[0])) then [] else [fields[0]]) + MissingFrom(fields[1..], body)
  }

  /** The missing fields are the falsy required ones, in the fixed order of `Required`. */
  lemma MissingFieldsSpec(body: map<string, Json>)
    ensures IsSubseq(MissingFields(body), Required)
    ensures forall f :: f in MissingFields(body) <==> f in Required && !Truthy(Field(body, f))
  {
    MissingFromSpec(Required, body);
  }

  lemma {:induction false} MissingFromSpec(fields: seq<string>, body: map<string, Json>)
    ensures IsSubseq(MissingFrom(fields, body), fields)
    ensures forall f :: f in MissingFrom(fields, body) <==> f in fields && !Truthy(Field(body, f))
  {
    if fields != [] {
      var rest := MissingFrom(fields[1..], body);
      MissingFromSpec(fields[1..], body);
      assert fields == [fields[0]] + fields[1..];
      IsSubseqCons(rest, fields[0], fields[1..]);
      if !Truthy(Field(body, fields[0])) {
        assert MissingFrom(fields, body) == [fields[0]] + rest;
      } else {
        assert MissingFrom(fields, body) == rest;
      }
    }
  }

  /** No reported field is missing exactly when every required field is truthy, and then
      every required field is present in the body. */
  lemma MissingFieldsEmpty(body: map<string, Json>)
    ensures MissingFields(body) == [] <==> forall f :: f in Required ==> Truthy(Field(body, f))
    ensures MissingFields(body) == [] ==> forall f :: f in Required ==> f in body
  {
    MissingFieldsSpec(body);
    if MissingFields(body) != [] {
      assert MissingFields(body)[0] in MissingFields(body);
    }
  }

  /** The fields of a record created by the primary handler. */
  const RecordFields: set<string> :=
    {"id", "userId", "fullName", "email", "phone", "position", "organization",
     "yearsExperience", "education", "specialization", "linkedin", "motivation", "files",
     "status", "submittedAt", "reviewedAt", "expiryDate", "membershipNumber"}

  /** The record literal of the primary handler: the caller's ids, the required fields
      copied from the body, optional `linkedin` and `files` defaulting to null, status
      `pending`, and no review data yet. */
  function NewRecord(id: string, userId: string, body: map<string, Json>, now: int): map<string, Json> {
    map f | f in RecordFields :: NewField(id, userId, body, now, f)
  }

  /** The new record has exactly the eighteen fields, and the nine required ones are the
      body's values, unchanged. */
  lemma NewRecordShape(id: string, userId: string, body: map<string, Json>, now: int)
    requires forall f :: f in Required ==> f in body
    ensures var r := NewRecord(id, userId, body, now);
      && r.Keys == RecordFields
      && forall f :: f in Required ==> f in r && r[f] == body[f]
  {
    var r := NewRecord(id, userId, body, now);
    forall f | f in Required ensures f in r && r[f] == body[f] {
      RequiredIsCopied(f);
      assert NewField(id, userId, body, now, f) == body[f];
    }
  }

  /** Each required name is a record field that the record literal copies from the body. */
  lemma RequiredIsCopied(f: string)
    requires f in Required
    ensures f in RecordFields
    ensures f != "id" && f != "userId" && f != "linkedin" && f != "files" && f != "status"
    ensures f != "submittedAt" && f != "reviewedAt" && f != "expiryDate" && f != "membershipNumber"
  {
  }

  /** The value the primary handler's record literal gives field `f`. */
  function NewField(id: string, userId: string, body: map<string, Json>, now: int, f: string): Json {
    if f == "id" then Str(id)
    else if f == "userId" then Str(userId)
    else if f == "linkedin" then Or(Field(body, "linkedin"), Null)
    else if f == "files" then Or(Field(body, "files"), Null)
    else if f == "status" then Str("pending")
    else if f == "submittedAt" then Num(now)
    else if f == "reviewedAt" || f == "expiryDate" || f == "membershipNumber" then Null
    else Field(body, f).GetOr(Null)  // one of the nine required fields, present after validation
  }

  /** The new record belongs to the caller and is pending, stamped with the server's
      clock. */
  lemma NewRecordOwnerAndStatus(id: string, userId: string, body: map<string, Json>, now: int)
    ensures var r := NewRecord(id, userId, body, now);
      && r["id"] == Str(id) && r["userId"] == Str(userId)
      && r["status"] == Str("pending") && r["submittedAt"] == Num(now)
  {
    assert "id" in RecordFields && "userId" in RecordFields;
    assert "status" in RecordFields && "submittedAt" in RecordFields;
    assert NewField(id, userId, body, now, "id") == Str(id);
    assert NewField(id, userId, body, now, "userId") == Str(userId);
    assert NewField(id, userId, body, now, "status") == Str("pending");
    assert NewField(id, userId, body, now, "submittedAt") == Num(now);
  }

  /** The new record carries no review data, and defaults the optional `linkedin` and
      `files` to null when the body leaves them falsy. */
  lemma NewRecordDefaults(id: string, userId: string, body: map<string, Json>, now: int)
    ensures var r := NewRecord(id, userId, body, now);
      && r["linkedin"] == Or(Field(body, "linkedin"), Null)
      && r["files"] == Or(Field(body, "files"), Null)
      && r["reviewedAt"] == Null && r["expiryDate"] == Null && r["membershipNumber"] == Null
  {
    assert "linkedin" in RecordFields && "files" in RecordFields;
    assert "reviewedAt" in RecordFields && "expiryDate" in RecordFields;
    assert "membershipNumber" in RecordFields;
    assert NewField(id, userId, body, now, "linkedin") == Or(Field(body, "linkedin"), Null);
    assert NewField(id, userId, body, now, "files") == Or(Field(body, "files"), Null);
    assert NewField(id, userId, body, now, "reviewedAt") == Null;
    assert NewField(id, userId, body, now, "expiryDate") == Null;
    assert NewField(id, userId, body, now, "membershipNumber") == Null;
  }

  /** The record of the `server/` handler: `{ id, userId, ...body, status, submittedAt }`.
      The body's own `id` or `userId` replace the server's; `status` and `submittedAt`
      are always the server's. */
  function SpreadRecord(id: string, userId: string, body: map<string, Json>, now: int): (r: map<string, Json>)
    ensures r.Keys == body.Keys + {"id", "userId", "status", "submittedAt"}
    ensures r["status"] == Str("pending") && r["submittedAt"] == Num(now)
    ensures r["id"] == (if "id" in body then body["id"] else Str(id))
    ensures r["userId"] == (if "userId" in body then body["userId"] else Str(userId))
    ensures forall f :: f in body && f != "status" && f != "submittedAt" ==> r[f] == body[f]
  {
    map["id" := Str(id), "userId" := Str(userId)] + body
      + map["status" := Str("pending"), "submittedAt" := Num(now)]
  }

  /** The record the `server/` handler evidently intends: the body's fields under the
      server's own `id`, `userId`, `status` and `submittedAt`, as in the primary handler. */
  function SpreadRecordIntended(id: string, userId: string, body: map<string, Json>, now: int): (r: map<string, Json>)
    ensures r.Keys == body.Keys + {"id", "userId", "status", "submittedAt"}
    ensures r["id"] == Str(id) && r["userId"] == Str(userId)
    ensures r["status"] == Str("pending") && r["submittedAt"] == Num(now)
    ensures forall f :: f in body && f !in {"id", "userId", "status", "submittedAt"} ==> r[f] == body[f]
  {
    body + map["id" := Str(id), "userId" := Str(userId), "status" := Str("pending"), "submittedAt" := Num(now)]
  }

  /** The two records differ only where the body names its own `id` or `userId`. */
  lemma SpreadRecordsAgree(id: string, userId: string, body: map<string, Json>, now: int)
    ensures "id" !in body && "userId" !in body ==>
              SpreadRecordIntended(id, userId, body, now) == SpreadRecord(id, userId, body, now)
    ensures forall f :: f != "id" && f != "userId" && f in SpreadRecord(id, userId, body, now) ==>
              SpreadRecordIntended(id, userId, body, now)[f] == SpreadRecord(id, userId, body, now)[f]
  {
    var a, b := SpreadRecordIntended(id, userId, body, now), SpreadRecord(id, userId, body, now);
    forall f | f != "id" && f != "userId" && f in b ensures a[f] == b[f] {
      if f != "status" && f != "submittedAt" {
        assert f in body;
      }
    }
    if "id" !in body && "userId" !in body {
      assert a.Keys == b.Keys;
    }
  }

  // ---------------------------------------------------------------------------
  // Review

  /** `applications.find(app => app.id === applicationId)`: the first match, or
      undefined; reading `.id` of a null entry throws before any later entry is seen. */
  datatype Lookup = Found(index: nat) | NotFound | Throws

  predicate HasId(app: Json, id: string) {
    app != Null && Prop(app, "id") == Some(Str(id))
  }

  function FindById(apps: seq<Json>, id: string): (r: Lookup)
    ensures r.Found? ==> r.index < |apps| && HasId(apps[r.index], id)
    ensures r.Found? || r.NotFound? ==>
              forall j :: 0 <= j < (if r.Found? then r.index else |apps|) ==>
                apps[j] != Null && !HasId(apps[j], id)
    ensures r.Throws? ==>
              exists j :: 0 <= j < |apps| && apps[j] == Null &&
                          forall j' :: 0 <= j' < j ==> !HasId(apps[j'], id)
  {
    FindFrom(apps, id, 0)
  }

  function FindFrom(apps: seq<Json>, id: string, k: nat): (r: Lookup)
    requires k <= |apps|
    requires forall j :: 0 <= j < k ==> apps[j] != Null && !HasId(apps[j], id)
    ensures r.Found? ==> k <= r.index < |apps| && HasId(apps[r.index], id)
    ensures r.Found? || r.NotFound? ==>
              forall j :: 0 <= j < (if r.Found? then r.index else |apps|) ==>
                apps[j] != Null && !HasId(apps[j], id)
    ensures r.Throws? ==>
              exists j :: k <= j < |apps| && apps[j] == Null &&
                          forall j' :: 0 <= j' < j ==> !HasId(apps[j'], id)
    decreases |apps| - k
  {
    if k == |apps| then NotFound
    else if apps[k] == Null then Throws
    else if HasId(apps[k], id) then Found(k)
    else FindFrom(apps, id, k + 1)
  }

  /** `EDU${Date.now().toString().slice(-8)}`: "EDU" and the last (at most) eight
      decimal digits of the clock, which denote the clock modulo 10^(their count). */
  function MembershipNumber(millis: nat): (r: string)
    ensures |r| >= 4 && r[..3] == "EDU" && AllDigits(r[3..])
    ensures |r| - 3 <= 8 && (|r| - 3 == 8 || r[3..] == NatText(millis))
    ensures DigitsValue(r[3..]) == millis % Pow10(|r| - 3)
  {
    var digits := NatText(millis);
    var k := if |digits| <= 8 then |digits| else 8;
    var tail := digits[|digits| - k..];
    SuffixMod(digits, k);
    var r := "EDU" + tail;
    assert r[3..] == tail;
    r
  }

  /** `{ ...application, status: 'approved', reviewedAt, expiryDate, membershipNumber }`. */
  function ApprovedRecord(app: map<string, Json>, expiry: Json, now: int, number: string): (r: map<string, Json>)
    ensures r.Keys == app.Keys + {"status", "reviewedAt", "expiryDate", "membershipNumber"}
    ensures r["status"] == Str("approved") && r["reviewedAt"] == Num(now)
    ensures r["expiryDate"] == expiry && r["membershipNumber"] == Str(number)
    ensures forall f :: f in app && f !in {"status", "reviewedAt", "expiryDate", "membershipNumber"} ==> r[f] == app[f]
  {
    app["status" := Str("approved")]["reviewedAt" := Num(now)]["expiryDate" := expiry]
       ["membershipNumber" := Str(number)]
  }

  /** `{ ...application, status: 'rejected', reviewedAt }`: every other field, a previous
      expiry date and membership number included, is kept. */
  function RejectedRecord(app: map<string, Json>, now: int): (r: map<string, Json>)
    ensures r.Keys == app.Keys + {"status", "reviewedAt"}
    ensures r["status"] == Str("rejected") && r["reviewedAt"] == Num(now)
    ensures forall f :: f in app && f != "status" && f != "reviewedAt" ==> r[f] == app[f]
  {
    app["status" := Str("rejected")]["reviewedAt" := Num(now)]
  }

  /** Neither review touches the owner field. */
  lemma ApprovedKeepsOwner(app: map<string, Json>, expiry: Json, now: int, number: string)
    ensures Prop(Obj(ApprovedRecord(app, expiry, now, number)), "userId") == Prop(Obj(app), "userId")
  {
  }

  lemma RejectedKeepsOwner(app: map<string, Json>, now: int)
    ensures Prop(Obj(RejectedRecord(app, now)), "userId") == Prop(Obj(app), "userId")
  {
  }

  /** `list.filter(id => id !== applicationId)`: every occurrence of the id goes, all
      other entries stay in order with their multiplicity. */
  function RemoveId(items: seq<Json>, id: string): (r: seq<Json>)
    ensures Str(id) !in r && IsSubseq(r, items)
    ensures forall x :: x != Str(id) ==> multiset(r)[x] == multiset(items)[x]
  {
    Filter(items, (x: Json) => x != Str(id))
  }

  // ---------------------------------------------------------------------------
  // Admin list order

  /** `new Date(app.submittedAt).getTime()` for a record whose timestamp is a number. */
  function SubmittedAt(app: Json): Option<int> {
    match Prop(app, "submittedAt")
    case Some(Num(t)) => Some(t)
    case _ => None
  }

  predicate Dated(apps: seq<Json>) {
    forall i :: 0 <= i < |apps| ==> SubmittedAt(apps[i]).Some?
  }

  /** Descending by submission time: what the comparator `b - a` asks of the sort. */
  predicate NewestFirst(apps: seq<Json>)
    requires Dated(apps)
  {
    forall i, j :: 0 <= i < j < |apps| ==> SubmittedAt(apps[i]).value >= SubmittedAt(apps[j]).value
  }

  function Key(app: Json): int
    requires SubmittedAt(app).Some?
  {
    SubmittedAt(app).value
  }

  /** Insert `x` before the first entry that is not newer than it (ties keep their
      original order). */
  function InsertNewestFirst(x: Json, s: seq<Json>): (r: seq<Json>)
    requires SubmittedAt(x).Some? && Dated(s) && NewestFirst(s)
    ensures Dated(r) && NewestFirst(r)
    ensures multiset(r) == multiset(s) + multiset{x}
  {
    if s == [] then [x]
    else if Key(s[0]) <= Key(x) then [x] + s
    else
      var rest := InsertNewestFirst(x, s[1..]);
      assert s == [s[0]] + s[1..];
      HeadStaysFirst(x, s, rest);
      [s[0]] + rest
  }

  lemma HeadStaysFirst(x: Json, s: seq<Json>, rest: seq<Json>)
    requires s != [] && SubmittedAt(x).Some? && Dated(s) && NewestFirst(s)
    requires Key(x) < Key(s[0])
    requires Dated(rest) && NewestFirst(rest) && multiset(rest) == multiset(s[1..]) + multiset{x}
    ensures Dated([s[0]] + rest) && NewestFirst([s[0]] + rest)
  {
    var r := [s[0]] + rest;
    forall i | 0 <= i < |rest| ensures Key(rest[i]) <= Key(s[0]) {
      assert rest[i] in multiset(rest);
      if rest[i] != x {
        assert rest[i] in multiset(s[1..]);
        var j :| 0 <= j < |s[1..]| && s[1..][j] == rest[i];
        assert s[j + 1] == rest[i];
      }
    }
    assert forall i :: 1 <= i < |r| ==> r[i] == rest[i - 1];
  }

  /** The admin list's sort: a permutation of the scan, newest submission first. */
  function SortNewestFirst(apps: seq<Json>): (r: seq<Json>)
    requires Dated(apps)
    ensures Dated(r) && NewestFirst(r)
    ensures multiset(r) == multiset(apps)
  {
    if apps == [] then []
    else
      assert apps == [apps[0]] + apps[1..];
      InsertNewestFirst(apps[0], SortNewestFirst(apps[1..]))
  }
}
