/**
 * The identity-provisioning webhook: it authenticates the caller by a shared
 * secret, parses the event, decides whether the event confirms an e-mail
 * address, and then provisions the user with an ordered list of writes to
 * four tables (three idempotent upserts and one audit append). Each write is
 * awaited in turn; a write that reports an error does not stop the later
 * ones, and a write whose call rejects ends the handler with status 500.
 */
module AuthWebhook {
  import opened Wrappers
  import opened Json
  import JsText

  // ---------------------------------------------------------------------
  // Confirmation heuristic
  // ---------------------------------------------------------------------

  /** The user record inside a payload: `payload.record ?? payload.user ?? payload`. */
  function RecordOf(payload: Value): Value {
    Coalesce(Member(payload, "record"), Coalesce(Member(payload, "user"), payload))
  }

  /** An entry of the heuristic list confirms when it is `true` or a string
      with non-white-space content. (A `Date` would too, but no value that
      `JSON.parse` returns is a `Date`.) */
  predicate Accepts(v: Value) {
    v == Some(JBool(true)) || (v.Some? && v.value.JStr? && JsText.Trim(v.value.s) != "")
  }

  /** The five values the heuristic inspects, in order. */
  function Candidates(payload: Value): seq<Value> {
    var record := RecordOf(payload);
    [ Member(record, "email_confirmed_at"),
      Member(record, "confirmed_at"),
      Member(record, "email_confirmed"),
      Some(JBool(Member(payload, "event") == Some(JStr("USER_VERIFIED")))),
      And(Some(JBool(Member(payload, "type") == Some(JStr("user.updated")))),
          Member(record, "email_confirmed_at")) ]
  }

  /** The loop over the candidates that returns at the first accepted one. */
  function AnyAccepted(vals: seq<Value>): (r: bool)
    ensures r <==> exists i :: 0 <= i < |vals| && Accepts(vals[i])
  {
    if vals == [] then false
    else if Accepts(vals[0]) then true
    else AnyAccepted(vals[1..])
  }

  /** `isEmailConfirmed`. Nothing in its body can throw, so its `catch` is not modelled. */
  function IsEmailConfirmed(payload: Json): bool {
    Truthy(Some(payload)) && AnyAccepted(Candidates(Some(payload)))
  }

  /** A payload confirms exactly when it is truthy and one of the record's
      three confirmation fields is accepted or the event is `USER_VERIFIED`;
      the fifth candidate (`type === "user.updated" && email_confirmed_at`)
      never adds a case. */
  lemma IsEmailConfirmedIff(payload: Json)
    ensures var record := RecordOf(Some(payload));
      IsEmailConfirmed(payload) <==>
        Truthy(Some(payload)) &&
        (Accepts(Member(record, "email_confirmed_at")) || Accepts(Member(record, "confirmed_at"))
         || Accepts(Member(record, "email_confirmed"))
         || Member(Some(payload), "event") == Some(JStr("USER_VERIFIED")))
  {
    var c := Candidates(Some(payload));
    assert AnyAccepted(c) <==> Accepts(c[0]) || Accepts(c[1]) || Accepts(c[2]) || Accepts(c[3]) || Accepts(c[4]);
    var gate := Some(JBool(Member(Some(payload), "type") == Some(JStr("user.updated"))));
    assert c[4] == And(gate, c[0]);
    assert Accepts(c[4]) ==> Accepts(c[0]);
    assert Accepts(c[3]) <==> Member(Some(payload), "event") == Some(JStr("USER_VERIFIED"));
  }

  // ---------------------------------------------------------------------
  // User extraction
  // ---------------------------------------------------------------------

  /** The canonical user record. `id` and `email` may be `undefined`. */
  datatype User = User(id: Value, email: Value, firstName: Json, lastName: Json, metadata: Json)

  /** `meta?.[snake] ?? meta?.[camel] ?? null`. */
  function NameFrom(meta: Value, snake: string, camel: string): Json {
    Coalesce(Member(meta, snake), Coalesce(Member(meta, camel), Some(JNull))).value
  }

  /** `extractUser`: `null` when the record is falsy. */
  function ExtractUser(payload: Json): Option<User> {
    var record := RecordOf(Some(payload));
    if !Truthy(record) then None
    else
      var meta := Member(record, "raw_user_meta_data");
      Some(User(
        Member(record, "id"),
        Member(record, "email"),
        NameFrom(meta, "first_name", "firstName"),
        NameFrom(meta, "last_name", "lastName"),
        Coalesce(meta, Some(JObj(map[]))).value))
  }

  /** A non-null name under the snake_case key wins, then a non-null name
      under the camelCase key, else `null`; metadata defaults to `{}`. */
  lemma ExtractUserFields(payload: Json, m: map<string, Json>)
    requires Truthy(RecordOf(Some(payload)))
    requires Member(RecordOf(Some(payload)), "raw_user_meta_data") == Some(JObj(m))
    ensures ExtractUser(payload).Some?
    ensures var u := ExtractUser(payload).value;
      && u.id == Member(RecordOf(Some(payload)), "id")
      && u.metadata == JObj(m)
      && ("first_name" in m && m["first_name"] != JNull ==> u.firstName == m["first_name"])
      && (("first_name" !in m || m["first_name"] == JNull) && "firstName" in m ==> u.firstName == m["firstName"])
      && (("first_name" !in m || m["first_name"] == JNull) && "firstName" !in m ==> u.firstName == JNull)
      && ("last_name" in m && m["last_name"] != JNull ==> u.lastName == m["last_name"])
      && (("last_name" !in m || m["last_name"] == JNull) && "lastName" in m ==> u.lastName == m["lastName"])
      && (("last_name" !in m || m["last_name"] == JNull) && "lastName" !in m ==> u.lastName == JNull)
  {
  }

  /** Without metadata both names are `null` and metadata is `{}`. */
  lemma ExtractUserNoMetadata(payload: Json)
    requires Truthy(RecordOf(Some(payload)))
    requires Member(RecordOf(Some(payload)), "raw_user_meta_data") == None
    ensures ExtractUser(payload).Some?
    ensures var u := ExtractUser(payload).value;
      u.firstName == JNull && u.lastName == JNull && u.metadata == JObj(map[])
  {
  }

  // ---------------------------------------------------------------------
  // Requests, responses and the decision before any write
  // ---------------------------------------------------------------------

  /** Header names are stored lower-case, as `Headers.get` matches them case-insensitively. */
  datatype Request = Request(headers: map<string, string>, body: string)

  /** `WEBHOOK_SECRET` (absent when the variable is unset) and `DEFAULT_TENANT_ID`. */
  datatype Env = Env(webhookSecret: Option<string>, defaultTenantId: Option<string>)

  datatype Response = Response(status: int, body: Json)

  function ErrorBody(message: string): Json {
    JObj(map["error" := JStr(message)])
  }

  const NotConfirmedBody: Json := JObj(map["ok" := JBool(false), "reason" := JStr("email_not_confirmed")])
  const OkBody: Json := JObj(map["ok" := JBool(true)])
  /** The 500 body; its `details` text (the exception rendered as a string) is not modelled. */
  const InternalErrorBody: Json := ErrorBody("internal_error")

  function HeaderGet(h: map<string, string>, name: string): Option<string> {
    if name in h then Some(h[name]) else None
  }

  /** `a || b` on a header value: an absent or empty value falls through. */
  function OrElse(a: Option<string>, b: string): string {
    if a.Some? && a.value != "" then a.value else b
  }

  /** `headers.get("x-signature") || headers.get("x-supabase-webhook-source") || ""`. */
  function HeaderSignature(h: map<string, string>): (r: string)
    ensures "x-signature" in h && h["x-signature"] != "" ==> r == h["x-signature"]
    ensures ("x-signature" !in h || h["x-signature"] == "") ==>
              r == (if "x-supabase-webhook-source" in h then h["x-supabase-webhook-source"] else "")
  {
    OrElse(HeaderGet(h, "x-signature"), OrElse(HeaderGet(h, "x-supabase-webhook-source"), ""))
  }

  /** What the handler does before touching the database: answer at once, or provision a user. */
  datatype Decision = Respond(response: Response) | Provision(user: User)

  /** The checks in their fixed order: secret, JSON, confirmation, user id. */
  function Screen(req: Request, env: Env, parse: string -> Option<Json>): (d: Decision)
    ensures d.Provision? ==> Truthy(d.user.id)
  {
    if Some(HeaderSignature(req.headers)) != env.webhookSecret then
      Respond(Response(401, ErrorBody("invalid signature")))
    else
      match parse(req.body)
      case None => Respond(Response(400, ErrorBody("invalid JSON")))
      case Some(payload) =>
        if !IsEmailConfirmed(payload) then Respond(Response(200, NotConfirmedBody))
        else
          match ExtractUser(payload)
          case None => Respond(Response(400, ErrorBody("no user id")))
          case Some(u) =>
            if !Truthy(u.id) then Respond(Response(400, ErrorBody("no user id"))) else Provision(u)
  }

  // ---------------------------------------------------------------------
  // Tables and writes
  // ---------------------------------------------------------------------

  /** A row: column name to value. */
  type Row = map<string, Json>

  /** A table with a conflict key: key values to the one row holding them. */
  type Table = map<seq<Json>, Row>

  datatype Keyed = Profiles | UserTenants | Memberships

  datatype Tables = Tables(profiles: Table, userTenants: Table, memberships: Table, auditLog: seq<Row>)

  datatype Write = Upsert(table: Keyed, onConflict: seq<string>, row: Row) | AppendAudit(row: Row)

  /** What the hosted database does with one awaited call: it applies the
      write, reports an error (nothing written), or the call rejects. */
  datatype Outcome = Done | Failed | Threw

  /** The outcome of each of the four calls of one delivery. */
  datatype Outcomes = Outcomes(profiles: Outcome, userTenants: Outcome, memberships: Outcome, auditLog: Outcome)

  const AllDone: Outcomes := Outcomes(Done, Done, Done, Done)

  function OutcomeOf(o: Outcomes, w: Write): Outcome {
    match w
    case Upsert(Profiles, _, _) => o.profiles
    case Upsert(UserTenants, _, _) => o.userTenants
    case Upsert(Memberships, _, _) => o.memberships
    case AppendAudit(_) => o.auditLog
  }

  /** The values of the conflict columns of a row (a missing column reads as `null`). */
  function KeyOf(row: Row, cols: seq<string>): (k: seq<Json>)
    ensures |k| == |cols|
  {
    seq(|cols|, i requires 0 <= i < |cols| => if cols[i] in row then row[cols[i]] else JNull)
  }

  /** `INSERT ... ON CONFLICT (cols) DO UPDATE`: a new key gets the row; an
      existing key keeps its row with the written columns overwritten. */
  function UpsertRow(t: Table, cols: seq<string>, row: Row): Table {
    var key := KeyOf(row, cols);
    t[key := if key in t then t[key] + row else row]
  }

  /** An upsert leaves one row under the written key, holding every written
      column, and leaves every other key as it was. */
  lemma UpsertRowEffect(t: Table, cols: seq<string>, row: Row)
    ensures var r := UpsertRow(t, cols, row);
      && r.Keys == t.Keys + {KeyOf(row, cols)}
      && (forall c :: c in row ==> c in r[KeyOf(row, cols)] && r[KeyOf(row, cols)][c] == row[c])
      && (forall k :: k in t && k != KeyOf(row, cols) ==> r[k] == t[k])
  {
  }

  /** The later of two upserts with the same key and the same columns
      decides the row alone: redelivering overwrites, it never duplicates. */
  lemma UpsertAbsorbs(t: Table, cols: seq<string>, r1: Row, r2: Row)
    requires KeyOf(r1, cols) == KeyOf(r2, cols)
    requires r1.Keys <= r2.Keys
    ensures UpsertRow(UpsertRow(t, cols, r1), cols, r2) == UpsertRow(t, cols, r2)
  {
    var key := KeyOf(r1, cols);
    var t1 := UpsertRow(t, cols, r1);
    if key in t {
      assert (t[key] + r1) + r2 == t[key] + r2;
    } else {
      assert r1 + r2 == r2;
    }
  }

  function Apply(db: Tables, w: Write): Tables {
    match w
    case Upsert(Profiles, cols, row) => db.(profiles := UpsertRow(db.profiles, cols, row))
    case Upsert(UserTenants, cols, row) => db.(userTenants := UpsertRow(db.userTenants, cols, row))
    case Upsert(Memberships, cols, row) => db.(memberships := UpsertRow(db.memberships, cols, row))
    case AppendAudit(row) => db.(auditLog := db.auditLog + [row])
  }

  /** The writes awaited in order: an error skips to the next write, a
      rejection stops the run. The flag says whether a call rejected. */
  function Run(db: Tables, plan: seq<Write>, o: Outcomes): (Tables, bool)
    decreases |plan|
  {
    if plan == [] then (db, false)
    else
      match OutcomeOf(o, plan[0])
      case Threw => (db, true)
      case Failed => Run(db, plan[1..], o)
      case Done => Run(Apply(db, plan[0]), plan[1..], o)
  }

  // ---------------------------------------------------------------------
  // The write plan
  // ---------------------------------------------------------------------

  /** The four `new Date().toISOString()` stamps of one delivery, in order. */
  datatype Clock = Clock(profile: string, userTenant: string, membership: string, audit: string)

  /** The tenant configured for provisioning: a non-empty `DEFAULT_TENANT_ID`. */
  predicate HasTenant(env: Env) {
    env.defaultTenantId.Some? && env.defaultTenantId.value != ""
  }

  /** `profilePayload`: id and stamp, plus each name only when it is truthy. */
  function ProfileRow(u: User, now: string): Row
    requires u.id.Some?
  {
    var base := map["id" := u.id.value, "created_at" := JStr(now)];
    var withFirst := if Truthy(Some(u.firstName)) then base["first_name" := u.firstName] else base;
    if Truthy(Some(u.lastName)) then withFirst["last_name" := u.lastName] else withFirst
  }

  function UserTenantRow(u: User, tenant: string, now: string): Row
    requires u.id.Some?
  {
    map["user_id" := u.id.value, "tenant_id" := JStr(tenant), "role" := JStr("student"), "created_at" := JStr(now)]
  }

  function MembershipRow(u: User, tenant: string, now: string): Row
    requires u.id.Some?
  {
    map["user_id" := u.id.value, "tenant_id" := JStr(tenant), "status" := JStr("trialing"), "created_at" := JStr(now)]
  }

  /** The audit entry. `JSON.stringify` drops an `undefined` e-mail; the
      tenant is `null` when `DEFAULT_TENANT_ID` is unset. */
  function AuditRow(u: User, env: Env, now: string): Row
    requires u.id.Some?
  {
    var data := if u.email.Some? then map["email" := u.email.value, "metadata" := u.metadata]
                else map["metadata" := u.metadata];
    map["tenant_id" := (if env.defaultTenantId.Some? then JStr(env.defaultTenantId.value) else JNull),
        "actor_user_id" := u.id.value,
        "event_type" := JStr("user_confirmed"),
        "entity_type" := JStr("user"),
        "entity_id" := u.id.value,
        "data" := JObj(data),
        "created_at" := JStr(now)]
  }

  const ProfileKey: seq<string> := ["id"]
  const MembershipKey: seq<string> := ["user_id", "tenant_id"]

  /** The tenant id the mapping and membership rows carry. */
  function TenantOf(env: Env): string {
    env.defaultTenantId.GetOr("")
  }

  /** The four rows one provisioning writes. */
  datatype Rows = Rows(profile: Row, userTenant: Row, membership: Row, audit: Row)

  function RowsFor(u: User, env: Env, clock: Clock): Rows
    requires u.id.Some?
  {
    Rows(ProfileRow(u, clock.profile),
         UserTenantRow(u, TenantOf(env), clock.userTenant),
         MembershipRow(u, TenantOf(env), clock.membership),
         AuditRow(u, env, clock.audit))
  }

  /** The shape of every plan: the profile upsert, then (with a tenant) the
      mapping and membership upserts, then the audit append. */
  function Writes(tenant: bool, rows: Rows): (p: seq<Write>)
    ensures |p| == if tenant then 4 else 2
  {
    if tenant then
      [Upsert(Profiles, ProfileKey, rows.profile),
       Upsert(UserTenants, MembershipKey, rows.userTenant),
       Upsert(Memberships, MembershipKey, rows.membership),
       AppendAudit(rows.audit)]
    else [Upsert(Profiles, ProfileKey, rows.profile), AppendAudit(rows.audit)]
  }

  /** The writes of one provisioning, in the order they are awaited. */
  function Plan(u: User, env: Env, clock: Clock): seq<Write>
    requires u.id.Some?
  {
    Writes(HasTenant(env), RowsFor(u, env, clock))
  }

  /** The whole handler on values: the response and the database afterwards. */
  function Handle(db: Tables, req: Request, env: Env, parse: string -> Option<Json>, clock: Clock, o: Outcomes)
    : (Response, Tables)
  {
    match Screen(req, env, parse)
    case Respond(r) => (r, db)
    case Provision(u) =>
      var (after, threw) := Run(db, Plan(u, env, clock), o);
      (if threw then Response(500, InternalErrorBody) else Response(200, OkBody), after)
  }

  // ---------------------------------------------------------------------
  // Properties of the decision
  // ---------------------------------------------------------------------

  /** A signature that is not exactly the secret gets 401 and no write,
      whatever the body is and however it would parse. */
  lemma BadSecretRejected(db: Tables, req: Request, env: Env, parse1: string -> Option<Json>,
                          parse2: string -> Option<Json>, clock: Clock, o: Outcomes)
    requires Some(HeaderSignature(req.headers)) != env.webhookSecret
    ensures Handle(db, req, env, parse1, clock, o) == (Response(401, ErrorBody("invalid signature")), db)
    ensures Handle(db, req, env, parse1, clock, o) == Handle(db, req, env, parse2, clock, o)
  {
  }

  /** 401 is the answer exactly when the signature is not the secret. */
  lemma UnauthorizedIffBadSecret(db: Tables, req: Request, env: Env, parse: string -> Option<Json>,
                                 clock: Clock, o: Outcomes)
    ensures Handle(db, req, env, parse, clock, o).0.status == 401
            <==> Some(HeaderSignature(req.headers)) != env.webhookSecret
  {
    match Screen(req, env, parse)
    case Respond(r) =>
    case Provision(u) =>
      var (after, threw) := Run(db, Plan(u, env, clock), o);
  }

  /** With the right secret, a body that does not parse gets 400 and no write. */
  lemma InvalidJsonRejected(db: Tables, req: Request, env: Env, parse: string -> Option<Json>,
                            clock: Clock, o: Outcomes)
    requires Some(HeaderSignature(req.headers)) == env.webhookSecret
    requires parse(req.body).None?
    ensures Handle(db, req, env, parse, clock, o) == (Response(400, ErrorBody("invalid JSON")), db)
  {
  }

  /** An event that does not confirm gets 200 with `email_not_confirmed` and no write. */
  lemma UnconfirmedIsNoOp(db: Tables, req: Request, env: Env, parse: string -> Option<Json>,
                          clock: Clock, o: Outcomes)
    requires Some(HeaderSignature(req.headers)) == env.webhookSecret
    requires parse(req.body).Some? && !IsEmailConfirmed(parse(req.body).value)
    ensures Handle(db, req, env, parse, clock, o) == (Response(200, NotConfirmedBody), db)
  {
  }

  /** A confirming event without a truthy user id gets 400 and no write. */
  lemma MissingIdRejected(db: Tables, req: Request, env: Env, parse: string -> Option<Json>,
                          clock: Clock, o: Outcomes)
    requires Some(HeaderSignature(req.headers)) == env.webhookSecret
    requires parse(req.body).Some? && IsEmailConfirmed(parse(req.body).value)
    requires var u := ExtractUser(parse(req.body).value); u.None? || !Truthy(u.value.id)
    ensures Handle(db, req, env, parse, clock, o) == (Response(400, ErrorBody("no user id")), db)
  {
  }

  // ---------------------------------------------------------------------
  // Properties of the writes
  // ---------------------------------------------------------------------

  /** The profile row carries a name column exactly when that name is truthy. */
  lemma ProfileRowNames(u: User, now: string)
    requires u.id.Some?
    ensures var row := ProfileRow(u, now);
      && row["id"] == u.id.value && row["created_at"] == JStr(now)
      && ("first_name" in row <==> Truthy(Some(u.firstName)))
      && ("first_name" in row ==> row["first_name"] == u.firstName)
      && ("last_name" in row <==> Truthy(Some(u.lastName)))
      && ("last_name" in row ==> row["last_name"] == u.lastName)
      && row.Keys <= {"id", "created_at", "first_name", "last_name"}
  {
  }

  /** The plan: a profile upsert on `id`; with a tenant, a `student` mapping
      and a `trialing` membership, both keyed on (user_id, tenant_id); and
      always, last, one `user_confirmed` audit entry. */
  lemma PlanOrder(u: User, env: Env, clock: Clock)
    requires u.id.Some?
    ensures var p := Plan(u, env, clock);
      && |p| == (if HasTenant(env) then 4 else 2)
      && p[0].Upsert? && p[0].table == Profiles && p[0].onConflict == ["id"]
      && p[|p| - 1].AppendAudit? && p[|p| - 1].row["event_type"] == JStr("user_confirmed")
      && p[|p| - 1].row["actor_user_id"] == u.id.value
      && (forall i :: 0 < i < |p| - 1 ==>
            (p[i].Upsert? && p[i].onConflict == ["user_id", "tenant_id"]
             && p[i].row["user_id"] == u.id.value && p[i].row["tenant_id"] == JStr(TenantOf(env))))
      && (HasTenant(env) ==>
            (p[1].table == UserTenants && p[1].row["role"] == JStr("student")
             && p[2].table == Memberships && p[2].row["status"] == JStr("trialing")))
  {
  }

  /** `Run` on a non-empty plan: the first call rejects, or its write is
      applied (when it succeeds) and the rest of the plan runs. */
  lemma RunHead(db: Tables, plan: seq<Write>, o: Outcomes)
    requires plan != []
    ensures Run(db, plan, o) ==
      if OutcomeOf(o, plan[0]) == Threw then (db, true)
      else Run(After(db, plan[0], OutcomeOf(o, plan[0])), plan[1..], o)
  {
  }

  /** The state after a call whose outcome is `oc`, when it does not reject. */
  function After(db: Tables, w: Write, oc: Outcome): Tables {
    if oc == Done then Apply(db, w) else db
  }

  /** The run of a two-write plan, call by call. */
  lemma RunTwo(db: Tables, w0: Write, w1: Write, o: Outcomes)
    ensures Run(db, [w0, w1], o) ==
      if OutcomeOf(o, w0) == Threw then (db, true)
      else if OutcomeOf(o, w1) == Threw then (After(db, w0, OutcomeOf(o, w0)), true)
      else (After(After(db, w0, OutcomeOf(o, w0)), w1, OutcomeOf(o, w1)), false)
  {
    RunHead(db, [w0, w1], o);
    assert [w0, w1][1..] == [w1];
    RunHead(After(db, w0, OutcomeOf(o, w0)), [w1], o);
    assert [w1][1..] == [];
  }

  /** The run of a four-write plan, call by call. */
  lemma RunFour(db: Tables, w0: Write, w1: Write, w2: Write, w3: Write, o: Outcomes)
    ensures Run(db, [w0, w1, w2, w3], o) ==
      if OutcomeOf(o, w0) == Threw then (db, true)
      else if OutcomeOf(o, w1) == Threw then (After(db, w0, OutcomeOf(o, w0)), true)
      else Run(After(After(db, w0, OutcomeOf(o, w0)), w1, OutcomeOf(o, w1)), [w2, w3], o)
  {
    RunHead(db, [w0, w1, w2, w3], o);
    assert [w0, w1, w2, w3][1..] == [w1, w2, w3];
    RunHead(After(db, w0, OutcomeOf(o, w0)), [w1, w2, w3], o);
    assert [w1, w2, w3][1..] == [w2, w3];
  }

  /** The run rejects exactly when one of its calls rejects. */
  lemma RunRejects(db: Tables, tenant: bool, rows: Rows, o: Outcomes)
    ensures Run(db, Writes(tenant, rows), o).1 <==>
      o.profiles == Threw || (tenant && (o.userTenants == Threw || o.memberships == Threw)) || o.auditLog == Threw
  {
    var w0 := Upsert(Profiles, ProfileKey, rows.profile);
    var w3 := AppendAudit(rows.audit);
    if tenant {
      var w1 := Upsert(UserTenants, MembershipKey, rows.userTenant);
      var w2 := Upsert(Memberships, MembershipKey, rows.membership);
      assert Writes(tenant, rows) == [w0, w1, w2, w3];
      RunFour(db, w0, w1, w2, w3, o);
      RunTwo(After(After(db, w0, o.profiles), w1, o.userTenants), w2, w3, o);
    } else {
      assert Writes(tenant, rows) == [w0, w3];
      RunTwo(db, w0, w3, o);
    }
  }

  /** The profile upsert takes effect exactly when its own call succeeds. */
  lemma RunProfiles(db: Tables, tenant: bool, rows: Rows, o: Outcomes)
    ensures Run(db, Writes(tenant, rows), o).0.profiles ==
      if o.profiles == Done then UpsertRow(db.profiles, ProfileKey, rows.profile) else db.profiles
  {
    var w0 := Upsert(Profiles, ProfileKey, rows.profile);
    var w3 := AppendAudit(rows.audit);
    var s1 := After(db, w0, o.profiles);
    assert s1.profiles == if o.profiles == Done then UpsertRow(db.profiles, ProfileKey, rows.profile) else db.profiles;
    if tenant {
      var w1 := Upsert(UserTenants, MembershipKey, rows.userTenant);
      var w2 := Upsert(Memberships, MembershipKey, rows.membership);
      assert Writes(tenant, rows) == [w0, w1, w2, w3];
      var s2 := After(s1, w1, o.userTenants);
      assert s2.profiles == s1.profiles;
      var s3 := After(s2, w2, o.memberships);
      assert s3.profiles == s1.profiles;
      assert After(s3, w3, o.auditLog).profiles == s1.profiles;
      RunFour(db, w0, w1, w2, w3, o);
      RunTwo(s2, w2, w3, o);
    } else {
      assert Writes(tenant, rows) == [w0, w3];
      assert After(s1, w3, o.auditLog).profiles == s1.profiles;
      RunTwo(db, w0, w3, o);
    }
  }

  /** The mapping upsert takes effect exactly when there is a tenant, the
      profile call did not reject and its own call succeeds. */
  lemma RunUserTenants(db: Tables, tenant: bool, rows: Rows, o: Outcomes)
    ensures Run(db, Writes(tenant, rows), o).0.userTenants ==
      if tenant && o.profiles != Threw && o.userTenants == Done
      then UpsertRow(db.userTenants, MembershipKey, rows.userTenant) else db.userTenants
  {
    if tenant {
      RunUserTenantsWithTenant(db, rows, o);
    } else {
      var w0 := Upsert(Profiles, ProfileKey, rows.profile);
      var w3 := AppendAudit(rows.audit);
      assert Writes(tenant, rows) == [w0, w3];
      assert After(After(db, w0, o.profiles), w3, o.auditLog).userTenants == db.userTenants;
      RunTwo(db, w0, w3, o);
    }
  }

  /** With a tenant, the mapping upsert is the second call of four. */
  lemma RunUserTenantsWithTenant(db: Tables, rows: Rows, o: Outcomes)
    ensures Run(db, Writes(true, rows), o).0.userTenants ==
      if o.profiles != Threw && o.userTenants == Done
      then UpsertRow(db.userTenants, MembershipKey, rows.userTenant) else db.userTenants
  {
    var w0 := Upsert(Profiles, ProfileKey, rows.profile);
    var w1 := Upsert(UserTenants, MembershipKey, rows.userTenant);
    var w2 := Upsert(Memberships, MembershipKey, rows.membership);
    var w3 := AppendAudit(rows.audit);
    assert Writes(true, rows) == [w0, w1, w2, w3];
    var s1 := After(db, w0, o.profiles);
    assert s1.userTenants == db.userTenants;
    var s2 := After(s1, w1, o.userTenants);
    assert s2.userTenants ==
      if o.userTenants == Done then UpsertRow(db.userTenants, MembershipKey, rows.userTenant) else db.userTenants;
    var s3 := After(s2, w2, o.memberships);
    assert s3.userTenants == s2.userTenants;
    assert After(s3, w3, o.auditLog).userTenants == s2.userTenants;
    RunFour(db, w0, w1, w2, w3, o);
    RunTwo(s2, w2, w3, o);
  }

  /** The membership upsert takes effect exactly when there is a tenant,
      neither earlier call rejected and its own call succeeds. */
  lemma RunMemberships(db: Tables, tenant: bool, rows: Rows, o: Outcomes)
    ensures Run(db, Writes(tenant, rows), o).0.memberships ==
      if tenant && o.profiles != Threw && o.userTenants != Threw && o.memberships == Done
      then UpsertRow(db.memberships, MembershipKey, rows.membership) else db.memberships
  {
    var w0 := Upsert(Profiles, ProfileKey, rows.profile);
    var w3 := AppendAudit(rows.audit);
    var s1 := After(db, w0, o.profiles);
    assert s1.memberships == db.memberships;
    if tenant {
      var w1 := Upsert(UserTenants, MembershipKey, rows.userTenant);
      var w2 := Upsert(Memberships, MembershipKey, rows.membership);
      assert Writes(tenant, rows) == [w0, w1, w2, w3];
      var s2 := After(s1, w1, o.userTenants);
      assert s2.memberships == db.memberships;
      var s3 := After(s2, w2, o.memberships);
      assert s3.memberships ==
        if o.memberships == Done then UpsertRow(db.memberships, MembershipKey, rows.membership) else db.memberships;
      assert After(s3, w3, o.auditLog).memberships == s3.memberships;
      RunFour(db, w0, w1, w2, w3, o);
      RunTwo(s2, w2, w3, o);
    } else {
      assert Writes(tenant, rows) == [w0, w3];
      assert After(s1, w3, o.auditLog).memberships == db.memberships;
      RunTwo(db, w0, w3, o);
    }
  }

  /** The audit entry is appended exactly when no earlier call rejected and
      its own call succeeds. */
  lemma RunAuditLog(db: Tables, tenant: bool, rows: Rows, o: Outcomes)
    ensures Run(db, Writes(tenant, rows), o).0.auditLog ==
      db.auditLog + if o.profiles != Threw && (tenant ==> o.userTenants != Threw && o.memberships != Threw)
                       && o.auditLog == Done then [rows.audit] else []
  {
    var w0 := Upsert(Profiles, ProfileKey, rows.profile);
    var w3 := AppendAudit(rows.audit);
    var s1 := After(db, w0, o.profiles);
    assert s1.auditLog == db.auditLog;
    if tenant {
      var w1 := Upsert(UserTenants, MembershipKey, rows.userTenant);
      var w2 := Upsert(Memberships, MembershipKey, rows.membership);
      assert Writes(tenant, rows) == [w0, w1, w2, w3];
      var s2 := After(s1, w1, o.userTenants);
      assert s2.auditLog == db.auditLog;
      var s3 := After(s2, w2, o.memberships);
      assert s3.auditLog == db.auditLog;
      assert After(s3, w3, o.auditLog).auditLog == db.auditLog + if o.auditLog == Done then [rows.audit] else [];
      RunFour(db, w0, w1, w2, w3, o);
      RunTwo(s2, w2, w3, o);
    } else {
      assert Writes(tenant, rows) == [w0, w3];
      assert After(s1, w3, o.auditLog).auditLog == db.auditLog + if o.auditLog == Done then [rows.audit] else [];
      RunTwo(db, w0, w3, o);
    }
  }

  /** With no rejected call, every write is tried: each reported error loses
      only its own write, and the answer is 200 `{ok: true}`. */
  lemma ErrorsDoNotStopLaterWrites(db: Tables, u: User, env: Env, clock: Clock, o: Outcomes)
    requires u.id.Some?
    requires o.profiles != Threw && o.userTenants != Threw && o.memberships != Threw && o.auditLog != Threw
    ensures var (after, threw) := Run(db, Plan(u, env, clock), o);
      var rows := RowsFor(u, env, clock);
      && !threw
      && after.profiles == (if o.profiles == Done then UpsertRow(db.profiles, ProfileKey, rows.profile)
                            else db.profiles)
      && after.userTenants ==
           (if HasTenant(env) && o.userTenants == Done
            then UpsertRow(db.userTenants, MembershipKey, rows.userTenant) else db.userTenants)
      && after.memberships ==
           (if HasTenant(env) && o.memberships == Done
            then UpsertRow(db.memberships, MembershipKey, rows.membership) else db.memberships)
      && after.auditLog == db.auditLog + (if o.auditLog == Done then [rows.audit] else [])
  {
    var rows := RowsFor(u, env, clock);
    RunRejects(db, HasTenant(env), rows, o);
    RunProfiles(db, HasTenant(env), rows, o);
    RunUserTenants(db, HasTenant(env), rows, o);
    RunMemberships(db, HasTenant(env), rows, o);
    RunAuditLog(db, HasTenant(env), rows, o);
  }

  /** The answer is 500 exactly when one of the planned calls rejects. */
  lemma InternalErrorIffRejection(db: Tables, u: User, env: Env, clock: Clock, o: Outcomes)
    requires u.id.Some?
    ensures Run(db, Plan(u, env, clock), o).1 <==>
      (o.profiles == Threw || (HasTenant(env) && (o.userTenants == Threw || o.memberships == Threw))
       || o.auditLog == Threw)
  {
    RunRejects(db, HasTenant(env), RowsFor(u, env, clock), o);
  }

  /** Each second row has the key and at least the columns of the first,
      so writing it absorbs the first. */
  predicate Absorbs(first: Rows, second: Rows) {
    && KeyOf(first.profile, ProfileKey) == KeyOf(second.profile, ProfileKey)
    && first.profile.Keys <= second.profile.Keys
    && KeyOf(first.userTenant, MembershipKey) == KeyOf(second.userTenant, MembershipKey)
    && first.userTenant.Keys <= second.userTenant.Keys
    && KeyOf(first.membership, MembershipKey) == KeyOf(second.membership, MembershipKey)
    && first.membership.Keys <= second.membership.Keys
  }

  /** After two runs of plans of the same shape, the second with every call
      succeeding, each keyed table is what the second plan alone would have
      made of the original, and the audit log has one more entry. */
  lemma SecondRunAbsorbsFirst(db: Tables, tenant: bool, o1: Outcomes, rows1: Rows, rows2: Rows)
    requires Absorbs(rows1, rows2)
    ensures var db1 := Run(db, Writes(tenant, rows1), o1).0;
      var db2 := Run(db1, Writes(tenant, rows2), AllDone).0;
      var db3 := Run(db, Writes(tenant, rows2), AllDone).0;
      && db2.profiles == db3.profiles && db2.userTenants == db3.userTenants && db2.memberships == db3.memberships
      && db2.auditLog == db1.auditLog + [rows2.audit]
  {
    var db1 := Run(db, Writes(tenant, rows1), o1).0;
    RunProfiles(db, tenant, rows1, o1);
    RunProfiles(db1, tenant, rows2, AllDone);
    RunProfiles(db, tenant, rows2, AllDone);
    UpsertAbsorbs(db.profiles, ProfileKey, rows1.profile, rows2.profile);
    RunUserTenants(db, tenant, rows1, o1);
    RunUserTenants(db1, tenant, rows2, AllDone);
    RunUserTenants(db, tenant, rows2, AllDone);
    UpsertAbsorbs(db.userTenants, MembershipKey, rows1.userTenant, rows2.userTenant);
    RunMemberships(db, tenant, rows1, o1);
    RunMemberships(db1, tenant, rows2, AllDone);
    RunMemberships(db, tenant, rows2, AllDone);
    UpsertAbsorbs(db.memberships, MembershipKey, rows1.membership, rows2.membership);
    RunAuditLog(db1, tenant, rows2, AllDone);
  }

  /** Two rows of one kind written for the same user at different times
      share their key and their columns, and differ only in `created_at`. */
  lemma RowsDifferOnlyInStamp(u: User, env: Env, c1: Clock, c2: Clock)
    requires u.id.Some?
    ensures var (a, b) := (RowsFor(u, env, c1), RowsFor(u, env, c2));
      && Absorbs(a, b) && Absorbs(b, a)
      && a.profile - {"created_at"} == b.profile - {"created_at"}
      && a.userTenant - {"created_at"} == b.userTenant - {"created_at"}
      && a.membership - {"created_at"} == b.membership - {"created_at"}
  {
    var (a, b) := (RowsFor(u, env, c1), RowsFor(u, env, c2));
    assert a.profile - {"created_at"} == b.profile - {"created_at"} by {
      ProfileRowNames(u, c1.profile);
      ProfileRowNames(u, c2.profile);
    }
    assert a.userTenant - {"created_at"} == b.userTenant - {"created_at"};
    assert a.membership - {"created_at"} == b.membership - {"created_at"};
  }

  /** Redelivery: after any first delivery (even one cut short by errors or
      a rejection), a second delivery of the same request whose writes all
      succeed gives the same answer as a single successful delivery, leaves
      profiles, user_tenants and memberships exactly as that single delivery
      would, and appends exactly one more audit entry. */
  lemma RedeliveryIsIdempotent(db: Tables, req: Request, env: Env, parse: string -> Option<Json>,
                               clock1: Clock, clock2: Clock, o1: Outcomes)
    ensures var (r1, db1) := Handle(db, req, env, parse, clock1, o1);
      var (r2, db2) := Handle(db1, req, env, parse, clock2, AllDone);
      var (r3, db3) := Handle(db, req, env, parse, clock2, AllDone);
      && r2 == r3
      && db2.profiles == db3.profiles && db2.userTenants == db3.userTenants && db2.memberships == db3.memberships
      && |db2.auditLog| == |db1.auditLog| + (if Screen(req, env, parse).Provision? then 1 else 0)
  {
    match Screen(req, env, parse)
    case Respond(r) =>
    case Provision(u) =>
      RowsDifferOnlyInStamp(u, env, clock1, clock2);
      SecondRunAbsorbsFirst(db, HasTenant(env), o1, RowsFor(u, env, clock1), RowsFor(u, env, clock2));
      var db1 := Run(db, Plan(u, env, clock1), o1).0;
      RunRejects(db1, HasTenant(env), RowsFor(u, env, clock2), AllDone);
      RunRejects(db, HasTenant(env), RowsFor(u, env, clock2), AllDone);
  }

  /** Two upserts with the same key and the same columns, whose rows agree
      on column `c`, leave the same keys and the same value of `c`. */
  lemma UpsertAgainKeepsColumn(t: Table, cols: seq<string>, r1: Row, r2: Row, c: string)
    requires KeyOf(r1, cols) == KeyOf(r2, cols) && r1.Keys == r2.Keys
    requires c in r1 ==> r1[c] == r2[c]
    ensures var once := UpsertRow(t, cols, r1);
      var twice := UpsertRow(once, cols, r2);
      once.Keys == twice.Keys && forall k :: k in once ==> SameColumn(once[k], twice[k], c)
  {
    UpsertAbsorbs(t, cols, r1, r2);
  }

  /** Two successful runs of plans of the same shape, whose rows have the
      same keys and columns and agree on column `c`, leave the same keys in
      every keyed table and the value of `c` as the first run wrote it. */
  lemma SecondRunKeepsColumn(db: Tables, tenant: bool, rows1: Rows, rows2: Rows, c: string)
    requires Absorbs(rows1, rows2) && Absorbs(rows2, rows1)
    requires c in rows1.profile ==> rows1.profile[c] == rows2.profile[c]
    requires c in rows1.userTenant ==> rows1.userTenant[c] == rows2.userTenant[c]
    requires c in rows1.membership ==> rows1.membership[c] == rows2.membership[c]
    ensures var db1 := Run(db, Writes(tenant, rows1), AllDone).0;
      var db2 := Run(db1, Writes(tenant, rows2), AllDone).0;
      && db1.profiles.Keys == db2.profiles.Keys
      && db1.userTenants.Keys == db2.userTenants.Keys
      && db1.memberships.Keys == db2.memberships.Keys
      && (forall k :: k in db1.profiles ==> SameColumn(db1.profiles[k], db2.profiles[k], c))
      && (forall k :: k in db1.userTenants ==> SameColumn(db1.userTenants[k], db2.userTenants[k], c))
      && (forall k :: k in db1.memberships ==> SameColumn(db1.memberships[k], db2.memberships[k], c))
  {
    var db1 := Run(db, Writes(tenant, rows1), AllDone).0;
    RunProfiles(db, tenant, rows1, AllDone);
    RunProfiles(db1, tenant, rows2, AllDone);
    UpsertAgainKeepsColumn(db.profiles, ProfileKey, rows1.profile, rows2.profile, c);
    RunUserTenants(db, tenant, rows1, AllDone);
    RunUserTenants(db1, tenant, rows2, AllDone);
    UpsertAgainKeepsColumn(db.userTenants, MembershipKey, rows1.userTenant, rows2.userTenant, c);
    RunMemberships(db, tenant, rows1, AllDone);
    RunMemberships(db1, tenant, rows2, AllDone);
    UpsertAgainKeepsColumn(db.memberships, MembershipKey, rows1.membership, rows2.membership, c);
  }

  /** Two successful deliveries of the same event leave the same keys in
      profiles, user_tenants and memberships as one, and every column other
      than `created_at` as the first delivery wrote it. */
  lemma RedeliveryChangesOnlyCreatedAt(db: Tables, req: Request, env: Env, parse: string -> Option<Json>,
                                       clock1: Clock, clock2: Clock, c: string)
    requires c != "created_at"
    ensures var db1 := Handle(db, req, env, parse, clock1, AllDone).1;
      var db2 := Handle(db1, req, env, parse, clock2, AllDone).1;
      && db1.profiles.Keys == db2.profiles.Keys
      && db1.userTenants.Keys == db2.userTenants.Keys
      && db1.memberships.Keys == db2.memberships.Keys
      && (forall k :: k in db1.profiles ==> SameColumn(db1.profiles[k], db2.profiles[k], c))
      && (forall k :: k in db1.userTenants ==> SameColumn(db1.userTenants[k], db2.userTenants[k], c))
      && (forall k :: k in db1.memberships ==> SameColumn(db1.memberships[k], db2.memberships[k], c))
  {
    match Screen(req, env, parse)
    case Respond(r) =>
    case Provision(u) =>
      var (a, b) := (RowsFor(u, env, clock1), RowsFor(u, env, clock2));
      RowsDifferOnlyInStamp(u, env, clock1, clock2);
      assert c in a.profile ==> a.profile[c] == (a.profile - {"created_at"})[c] == b.profile[c];
      assert c in a.userTenant ==> a.userTenant[c] == (a.userTenant - {"created_at"})[c] == b.userTenant[c];
      assert c in a.membership ==> a.membership[c] == (a.membership - {"created_at"})[c] == b.membership[c];
      SecondRunKeepsColumn(db, HasTenant(env), a, b, c);
  }

  /** Column `c` is absent from both rows or equal in both. */
  predicate SameColumn(a: Row, b: Row, c: string) {
    (c in a <==> c in b) && (c in a ==> a[c] == b[c])
  }

  // ---------------------------------------------------------------------
  // The database and the handler as the source runs them
  // ---------------------------------------------------------------------

  /** The hosted database, as the four tables the handler writes. */
  class Database {
    var profiles: Table
    var userTenants: Table
    var memberships: Table
    var auditLog: seq<Row>

    function Snapshot(): Tables
      reads this
    {
      Tables(profiles, userTenants, memberships, auditLog)
    }

    constructor (initial: Tables)
      ensures Snapshot() == initial
    {
      profiles, userTenants, memberships, auditLog :=
        initial.profiles, initial.userTenants, initial.memberships, initial.auditLog;
    }

    /** `from(table).upsert(row, {onConflict})`, which reports an error instead of writing when `fails`. */
    method Upsert(table: Keyed, onConflict: seq<string>, row: Row, fails: bool) returns (error: bool)
      modifies this
      ensures error == fails
      ensures Snapshot() == if fails then old(Snapshot()) else Apply(old(Snapshot()), Write.Upsert(table, onConflict, row))
    {
      error := fails;
      if !fails {
        match table
        case Profiles => profiles := UpsertRow(profiles, onConflict, row);
        case UserTenants => userTenants := UpsertRow(userTenants, onConflict, row);
        case Memberships => memberships := UpsertRow(memberships, onConflict, row);
      }
    }

    /** `from("audit_log").insert(row)`, which reports an error instead of writing when `fails`. */
    method InsertAudit(row: Row, fails: bool) returns (error: bool)
      modifies this
      ensures error == fails
      ensures Snapshot() == if fails then old(Snapshot()) else Apply(old(Snapshot()), AppendAudit(row))
    {
      error := fails;
      if !fails {
        auditLog := auditLog + [row];
      }
    }
  }

  /** `profilePayload`, built by adding each truthy name to the id and stamp. */
  method ProfilePayload(user: User, now: string) returns (row: Row)
    requires user.id.Some?
    ensures row == ProfileRow(user, now)
  {
    row := map["id" := user.id.value, "created_at" := JStr(now)];
    if Truthy(Some(user.firstName)) { row := row["first_name" := user.firstName]; }
    if Truthy(Some(user.lastName)) { row := row["last_name" := user.lastName]; }
  }

  /** The writes of the handler, awaited one after the other; `threw` says
      whether a call rejected (the handler then answers 500). */
  method ProvisionUser(db: Database, user: User, env: Env, clock: Clock, o: Outcomes) returns (threw: bool)
    requires user.id.Some?
    modifies db
    ensures (db.Snapshot(), threw) == Run(old(db.Snapshot()), Plan(user, env, clock), o)
  {
    ghost var rows := RowsFor(user, env, clock);
    ghost var rest := Writes(HasTenant(env), rows);
    assert Plan(user, env, clock) == rest;

    // 1) profiles
    var profilePayload := ProfilePayload(user, clock.profile);
    RunHead(db.Snapshot(), rest, o);
    if o.profiles == Threw {
      return true;
    }
    var err := db.Upsert(Profiles, ProfileKey, profilePayload, o.profiles == Failed);
    rest := rest[1..];

    if HasTenant(env) {
      var tenantId := env.defaultTenantId.value;
      // 2) user_tenants
      RunHead(db.Snapshot(), rest, o);
      if o.userTenants == Threw {
        return true;
      }
      err := db.Upsert(UserTenants, MembershipKey, UserTenantRow(user, tenantId, clock.userTenant),
                       o.userTenants == Failed);
      assert rest[0] == Upsert(UserTenants, MembershipKey, rows.userTenant);
      rest := rest[1..];
      // 3) memberships
      RunHead(db.Snapshot(), rest, o);
      if o.memberships == Threw {
        return true;
      }
      err := db.Upsert(Memberships, MembershipKey, MembershipRow(user, tenantId, clock.membership),
                       o.memberships == Failed);
      assert rest[0] == Upsert(Memberships, MembershipKey, rows.membership);
      rest := rest[1..];
    }

    // 4) audit_log
    RunHead(db.Snapshot(), rest, o);
    if o.auditLog == Threw {
      return true;
    }
    err := db.InsertAudit(AuditRow(user, env, clock.audit), o.auditLog == Failed);
    assert rest == [AppendAudit(rows.audit)];
    assert rest[1..] == [];
    return false;
  }

  /** `authWebhookHandler`: the checks, then the awaited writes one after the
      other. `parse` stands for `JSON.parse`, `clock` for the four stamps and
      `o` for what the database does with each call. */
  method AuthWebhookHandler(db: Database, req: Request, env: Env, parse: string -> Option<Json>,
                            clock: Clock, o: Outcomes) returns (resp: Response)
    modifies db
    ensures (resp, db.Snapshot()) == Handle(old(db.Snapshot()), req, env, parse, clock, o)
  {
    var headerSig := HeaderSignature(req.headers);
    if Some(headerSig) != env.webhookSecret {
      return Response(401, ErrorBody("invalid signature"));
    }
    var parsed := parse(req.body);
    if parsed.None? {
      return Response(400, ErrorBody("invalid JSON"));
    }
    var payload := parsed.value;
    if !IsEmailConfirmed(payload) {
      return Response(200, NotConfirmedBody);
    }
    var extracted := ExtractUser(payload);
    if extracted.None? || !Truthy(extracted.value.id) {
      return Response(400, ErrorBody("no user id"));
    }
    var user := extracted.value;
    assert Screen(req, env, parse) == Provision(user);
    var threw := ProvisionUser(db, user, env, clock, o);
    if threw {
      return Response(500, InternalErrorBody);
    }
    return Response(200, OkBody);
  }
}
