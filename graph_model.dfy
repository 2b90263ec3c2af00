/**
 * The records and edges that the user and transaction services keep in the
 * graph database, the meaning of each Cypher statement they issue, and the
 * detection plans that decide which scans run after a write.
 *
 * A MATCH over all nodes visits them in node-creation order (`order`).
 * MERGE on an edge pattern adds the edge unless an identical one (same type,
 * same endpoints, same properties) is already there; for the undirected
 * patterns `(a)-[r]-(b)` either direction matches. The `createdAt: datetime()`
 * inside the shared-edge patterns is the statement's clock, `now`.
 */
module GraphModel {
  import opened Wrappers
  import opened DriverValues
  import Text

  // Relationship types, as the Cypher statements spell them
  const SHARED_EMAIL := "SHARED_EMAIL"
  const SHARED_PHONE := "SHARED_PHONE"
  const SHARED_ADDRESS := "SHARED_ADDRESS"
  const SHARED_PAYMENT_METHOD := "SHARED_PAYMENT_METHOD"
  const SENT_TO := "SENT_TO"
  const RECEIVED_FROM := "RECEIVED_FROM"
  const SHARED_IP := "SHARED_IP"
  const SHARED_DEVICE := "SHARED_DEVICE"

  /** A User node. `None` is a property that was set to null/undefined and so is absent. */
  datatype User = User(
    id: string,
    name: Option<string>,
    email: Option<string>,
    phone: Option<string>,
    address: Option<string>,
    paymentMethods: seq<string>,
    metadata: string,          // the serialized metadata object
    createdAt: string,
    updatedAt: Option<string>)

  /** The body handed to `createOrUpdateUser`; `None` is an undefined field. */
  datatype UserInput = UserInput(
    id: string,
    name: Option<string>,
    email: Option<string>,
    phone: Option<string>,
    address: Option<string>,
    paymentMethods: Option<seq<string>>,
    metadata: Option<Value>)

  /** A Transaction node. `kind` is the `type` property. */
  datatype Transaction = Transaction(
    id: string,
    amount: int,
    currency: string,
    kind: string,
    status: string,
    description: string,
    ipAddress: Option<string>,
    deviceId: Option<string>,
    metadata: string,
    createdAt: string,
    timestamp: string,
    updatedAt: Option<string>)

  /** The body handed to `createOrUpdateTransaction`, with the amount already parsed. */
  datatype TransactionInput = TransactionInput(
    id: string,
    fromUserId: string,
    toUserId: string,
    amount: int,
    currency: Option<string>,
    kind: Option<string>,
    status: Option<string>,
    description: Option<string>,
    ipAddress: Option<string>,
    deviceId: Option<string>,
    metadata: Option<Value>)

  /** `JSON.stringify` and `JSON.parse`, which the model does not define. */
  datatype Json = Json(stringify: Value -> string, parse: Parser)

  /** Which kinds of node an edge joins, from first to second endpoint. */
  datatype Ends = UserToUser | UserToTransaction | TransactionToUser | TransactionToTransaction

  datatype EdgeProps =
    | AttributeProps(attribute: string, value: string, createdAt: string)
    | PaymentProps(paymentMethod: string, createdAt: string)
    | FlowProps(amount: int, currency: string, timestamp: string)

  datatype Edge = Edge(rel: string, ends: Ends, from: string, to: string, props: EdgeProps)

  function Find<K, V>(m: map<K, V>, k: K): (r: Option<V>)
    ensures r.Some? <==> k in m
    ensures r.Some? ==> r.value == m[k]
  {
    if k in m then Some(m[k]) else None
  }

  // ---------------------------------------------------------------------------
  // Node upserts (MERGE on id, ON CREATE / ON MATCH, then SET)

  /** The node that the user upsert leaves under `input.id`, given what was there. */
  function UpsertedUser(prev: Option<User>, input: UserInput, now: string, json: Json): User {
    User(input.id, input.name, input.email, input.phone, input.address,
         input.paymentMethods.GetOr([]),
         json.stringify(input.metadata.GetOr(Obj([]))),
         if prev.Some? then prev.value.createdAt else now,
         if prev.Some? then Some(now) else None)
  }

  /** The node that the transaction upsert leaves under `input.id`, given what was there. */
  function UpsertedTransaction(prev: Option<Transaction>, input: TransactionInput, now: string, json: Json): Transaction {
    Transaction(input.id, input.amount,
                input.currency.GetOr("USD"), input.kind.GetOr("TRANSFER"),
                input.status.GetOr("COMPLETED"), input.description.GetOr(""),
                input.ipAddress, input.deviceId,
                json.stringify(input.metadata.GetOr(Obj([]))),
                if prev.Some? then prev.value.createdAt else now,
                if prev.Some? then prev.value.timestamp else now,
                if prev.Some? then Some(now) else None)
  }

  /** Writing a user twice: the second write keeps the first write's creation time and
      records its own time as the update time; the fields are those of the second write. */
  lemma UpsertTwiceKeepsCreation(a: UserInput, b: UserInput, t1: string, t2: string, json: Json)
    requires a.id == b.id
    ensures var first := UpsertedUser(None, a, t1, json);
            var second := UpsertedUser(Some(first), b, t2, json);
            first.updatedAt == None && first.createdAt == t1 &&
            second.createdAt == t1 && second.updatedAt == Some(t2) &&
            second == UpsertedUser(None, b, t1, json).(updatedAt := Some(t2))
  {
  }

  // ---------------------------------------------------------------------------
  // Edge MERGE

  /** `x` is matched by the undirected MERGE pattern that would create `e`. */
  predicate SameUndirected(x: Edge, e: Edge) {
    x.rel == e.rel && x.ends == e.ends && x.props == e.props &&
    ((x.from == e.from && x.to == e.to) || (x.from == e.to && x.to == e.from))
  }

  function MergeUndirected(edges: seq<Edge>, e: Edge): (r: seq<Edge>)
    ensures exists x :: x in r && SameUndirected(x, e)
  {
    if exists x :: x in edges && SameUndirected(x, e) then edges
    else
      assert SameUndirected(e, e);
      edges + [e]
  }

  function MergeDirected(edges: seq<Edge>, e: Edge): (r: seq<Edge>)
    ensures e in r
  {
    if e in edges then edges else edges + [e]
  }

  /** One scan statement: `MATCH (a {id}) MATCH (b) WHERE <b is a partner> MERGE (a)-[r]-(b)`,
      visiting the candidates `b` in node order. */
  function LinkAll(edges: seq<Edge>, order: seq<string>, isPartner: string -> bool, link: string -> Edge): seq<Edge> {
    if order == [] then edges
    else
      var prev := LinkAll(edges, order[..|order| - 1], isPartner, link);
      var p := order[|order| - 1];
      if isPartner(p) then MergeUndirected(prev, link(p)) else prev
  }

  /** One more candidate in node order: it is merged when it is a partner. */
  lemma LinkAllStep(edges: seq<Edge>, order: seq<string>, i: nat, isPartner: string -> bool, link: string -> Edge)
    requires i < |order|
    ensures LinkAll(edges, order[..i + 1], isPartner, link) ==
            if isPartner(order[i]) then MergeUndirected(LinkAll(edges, order[..i], isPartner, link), link(order[i]))
            else LinkAll(edges, order[..i], isPartner, link)
  {
    assert order[..i + 1][..i] == order[..i];
  }

  /** The edges a scan would create, one per partner in node order. */
  function PartnerLinks(order: seq<string>, isPartner: string -> bool, link: string -> Edge): seq<Edge> {
    if order == [] then []
    else
      var p := order[|order| - 1];
      PartnerLinks(order[..|order| - 1], isPartner, link) + (if isPartner(p) then [link(p)] else [])
  }

  /** Whatever holds of the link to every partner holds of every edge in the list. */
  lemma {:induction false} PartnerLinksSatisfy(order: seq<string>, isPartner: string -> bool, link: string -> Edge, P: Edge -> bool)
    requires forall p :: p in order && isPartner(p) ==> P(link(p))
    ensures forall e :: e in PartnerLinks(order, isPartner, link) ==> P(e)
  {
    if order != [] {
      var init := order[..|order| - 1];
      assert forall q :: q in init ==> q in order;
      PartnerLinksSatisfy(init, isPartner, link, P);
    }
  }

  /** A scan only appends, every appended edge is the link to a partner, and every partner
      ends up linked (by a new edge or by an identical one that was there before). */
  lemma {:induction false} LinkAllSpec(edges: seq<Edge>, order: seq<string>, isPartner: string -> bool, link: string -> Edge)
    ensures var r := LinkAll(edges, order, isPartner, link);
            |edges| <= |r| && r[..|edges|] == edges &&
            (forall k :: |edges| <= k < |r| ==> r[k] in PartnerLinks(order, isPartner, link)) &&
            (forall p :: p in order && isPartner(p) ==> exists x :: x in r && SameUndirected(x, link(p)))
  {
    if order != [] {
      var init := order[..|order| - 1];
      var p := order[|order| - 1];
      LinkAllSpec(edges, init, isPartner, link);
      var prev := LinkAll(edges, init, isPartner, link);
      var r := LinkAll(edges, order, isPartner, link);
      var links := PartnerLinks(order, isPartner, link);
      assert forall e :: e in PartnerLinks(init, isPartner, link) ==> e in links;
      assert forall q :: q in init ==> q in order;
      if isPartner(p) {
        assert link(p) in links;
        forall k | |edges| <= k < |r|
          ensures r[k] in links
        {
          if k < |prev| {
            assert r[k] == prev[k];
          }
        }
        forall q | q in order && isPartner(q)
          ensures exists x :: x in r && SameUndirected(x, link(q))
        {
          if q != p {
            assert q in init;
            var x :| x in prev && SameUndirected(x, link(q));
            assert x in r;
          }
        }
      } else {
        assert r == prev;
        forall q | q in order && isPartner(q)
          ensures exists x :: x in r && SameUndirected(x, link(q))
        {
          assert q in init;
        }
      }
    }
  }

  // ---------------------------------------------------------------------------
  // User scans (createSharedAttributeRelationship, createSharedPaymentMethodRelationship)

  datatype Scan =
    | AttributeScan(attribute: string, value: string, rel: string)
    | PaymentMethodScan(paymentMethod: string)

  /** `u.<name>` for the user properties that a scan can compare with a string. */
  function UserProperty(u: User, name: string): Option<string> {
    if name == "id" then Some(u.id)
    else if name == "name" then u.name
    else if name == "email" then u.email
    else if name == "phone" then u.phone
    else if name == "address" then u.address
    else if name == "metadata" then Some(u.metadata)
    else None
  }

  /** The WHERE clause of a user scan: an equal value and a different id. */
  predicate UserMatches(users: map<string, User>, uid: string, scan: Scan, p: string) {
    p in users && p != uid &&
    match scan
    case AttributeScan(a, v, _) => UserProperty(users[p], a) == Some(v)
    case PaymentMethodScan(m) => m in users[p].paymentMethods
  }

  /** The edge a user scan merges between the scanned user and a partner. */
  function UserScanEdge(scan: Scan, uid: string, p: string, now: string): Edge {
    match scan
    case AttributeScan(a, v, rel) => Edge(rel, UserToUser, uid, p, AttributeProps(a, v, now))
    case PaymentMethodScan(m) => Edge(SHARED_PAYMENT_METHOD, UserToUser, uid, p, PaymentProps(m, now))
  }

  function UserPartner(users: map<string, User>, uid: string, scan: Scan): string -> bool {
    (p: string) => UserMatches(users, uid, scan, p)
  }

  function UserLink(uid: string, scan: Scan, now: string): string -> Edge {
    (p: string) => UserScanEdge(scan, uid, p, now)
  }

  /** The edge list after one user scan. Nothing happens when the user is not there. */
  function UserScan(edges: seq<Edge>, order: seq<string>, users: map<string, User>, uid: string, scan: Scan, now: string): seq<Edge> {
    if uid !in users then edges
    else LinkAll(edges, order, UserPartner(users, uid, scan), UserLink(uid, scan, now))
  }

  /** A user scan links the user to exactly the other users with an equal value: every new
      edge starts at the user, ends at a matching user that is not the user itself, and carries
      the scanned attribute (or payment method); every matching user is linked afterwards. */
  lemma UserScanLinksExactlyPartners(edges: seq<Edge>, order: seq<string>, users: map<string, User>,
                                      uid: string, scan: Scan, now: string)
    requires uid in users
    ensures var r := UserScan(edges, order, users, uid, scan, now);
            |edges| <= |r| && r[..|edges|] == edges &&
            (forall k :: |edges| <= k < |r| ==>
               r[k].from == uid && r[k].to != uid && UserMatches(users, uid, scan, r[k].to) &&
               r[k] == UserScanEdge(scan, uid, r[k].to, now)) &&
            (forall p :: p in order && UserMatches(users, uid, scan, p) ==>
               exists x :: x in r && SameUndirected(x, UserScanEdge(scan, uid, p, now)))
  {
    var isPartner := UserPartner(users, uid, scan);
    var link := UserLink(uid, scan, now);
    LinkAllSpec(edges, order, isPartner, link);
    var r := UserScan(edges, order, users, uid, scan, now);
    assert r == LinkAll(edges, order, isPartner, link);
    var P := (e: Edge) => e.from == uid && e.to != uid && UserMatches(users, uid, scan, e.to) &&
                          e == UserScanEdge(scan, uid, e.to, now);
    PartnerLinksSatisfy(order, isPartner, link, P);
    forall k | |edges| <= k < |r|
      ensures r[k].from == uid && r[k].to != uid && UserMatches(users, uid, scan, r[k].to)
      ensures r[k] == UserScanEdge(scan, uid, r[k].to, now)
    {
      assert P(r[k]);
    }
    forall p | p in order && UserMatches(users, uid, scan, p)
      ensures exists x :: x in r && SameUndirected(x, UserScanEdge(scan, uid, p, now))
    {
      assert isPartner(p);
      assert link(p) == UserScanEdge(scan, uid, p, now);
    }
  }

  /** The edge list after running a detection plan's scans in order. */
  function RunUserPlan(edges: seq<Edge>, order: seq<string>, users: map<string, User>, uid: string,
                       plan: seq<Scan>, now: string): seq<Edge> {
    if plan == [] then edges
    else UserScan(RunUserPlan(edges, order, users, uid, plan[..|plan| - 1], now), order, users, uid, plan[|plan| - 1], now)
  }

  lemma {:induction false} RunUserPlanAppend(edges: seq<Edge>, order: seq<string>, users: map<string, User>, uid: string,
                                             a: seq<Scan>, b: seq<Scan>, now: string)
    ensures RunUserPlan(edges, order, users, uid, a + b, now) ==
            RunUserPlan(RunUserPlan(edges, order, users, uid, a, now), order, users, uid, b, now)
  {
    if b == [] {
      assert a + b == a;
    } else {
      assert (a + b)[..|a + b| - 1] == a + b[..|b| - 1];
      assert (a + b)[|a + b| - 1] == b[|b| - 1];
      RunUserPlanAppend(edges, order, users, uid, a, b[..|b| - 1], now);
    }
  }

  /** A scalar scan of detection, run only for a truthy value. */
  function ScanWhen(edges: seq<Edge>, order: seq<string>, users: map<string, User>, uid: string,
                    key: string, v: Option<string>, rel: string, now: string): seq<Edge> {
    if v.Some? then UserScan(edges, order, users, uid, AttributeScan(key, v.value, rel), now) else edges
  }

  /** The payment-method loop of detection. */
  function PaymentMethodRuns(edges: seq<Edge>, order: seq<string>, users: map<string, User>, uid: string,
                             ms: seq<string>, now: string): seq<Edge> {
    if ms == [] then edges
    else UserScan(PaymentMethodRuns(edges, order, users, uid, ms[..|ms| - 1], now), order, users, uid,
                  PaymentMethodScan(ms[|ms| - 1]), now)
  }

  /** The edge list after detection for the stored user `u`, step by step. */
  function UserDetection(edges: seq<Edge>, order: seq<string>, users: map<string, User>, u: User, now: string): seq<Edge> {
    var afterEmail := ScanWhen(edges, order, users, u.id, "email", TruthyOption(u.email), SHARED_EMAIL, now);
    var afterPhone := ScanWhen(afterEmail, order, users, u.id, "phone", TruthyOption(u.phone), SHARED_PHONE, now);
    var afterAddress := ScanWhen(afterPhone, order, users, u.id, "address", TruthyOption(u.address), SHARED_ADDRESS, now);
    PaymentMethodRuns(afterAddress, order, users, u.id, u.paymentMethods, now)
  }

  lemma {:induction false} PaymentMethodRunsArePlan(edges: seq<Edge>, order: seq<string>, users: map<string, User>, uid: string,
                                                    ms: seq<string>, now: string)
    ensures PaymentMethodRuns(edges, order, users, uid, ms, now) == RunUserPlan(edges, order, users, uid, PaymentScans(ms), now)
  {
    if ms != [] {
      PaymentMethodRunsArePlan(edges, order, users, uid, ms[..|ms| - 1], now);
      var ps := PaymentScans(ms);
      assert ps[..|ps| - 1] == PaymentScans(ms[..|ms| - 1]);
    }
  }

  lemma ScanWhenIsPlan(edges: seq<Edge>, order: seq<string>, users: map<string, User>, uid: string,
                       key: string, v: Option<string>, rel: string, now: string)
    ensures ScanWhen(edges, order, users, uid, key, TruthyOption(v), rel, now) ==
            RunUserPlan(edges, order, users, uid, StringScan(key, v, rel), now)
  {
    var plan := StringScan(key, v, rel);
    if plan != [] {
      assert plan[..0] == [];
    }
  }

  /** Detection step by step is the record's plan run in order. */
  lemma UserDetectionRunsPlan(edges: seq<Edge>, order: seq<string>, users: map<string, User>, u: User, now: string)
    ensures UserDetection(edges, order, users, u, now) == RunUserPlan(edges, order, users, u.id, RecordPlan(u), now)
  {
    var em := StringScan("email", u.email, SHARED_EMAIL);
    var ph := StringScan("phone", u.phone, SHARED_PHONE);
    var ad := StringScan("address", u.address, SHARED_ADDRESS);
    var pm := PaymentScans(u.paymentMethods);
    var e1 := ScanWhen(edges, order, users, u.id, "email", TruthyOption(u.email), SHARED_EMAIL, now);
    var e2 := ScanWhen(e1, order, users, u.id, "phone", TruthyOption(u.phone), SHARED_PHONE, now);
    var e3 := ScanWhen(e2, order, users, u.id, "address", TruthyOption(u.address), SHARED_ADDRESS, now);
    ScanWhenIsPlan(edges, order, users, u.id, "email", u.email, SHARED_EMAIL, now);
    ScanWhenIsPlan(e1, order, users, u.id, "phone", u.phone, SHARED_PHONE, now);
    ScanWhenIsPlan(e2, order, users, u.id, "address", u.address, SHARED_ADDRESS, now);
    PaymentMethodRunsArePlan(e3, order, users, u.id, u.paymentMethods, now);
    RunUserPlanAppend(edges, order, users, u.id, em, ph, now);
    RunUserPlanAppend(edges, order, users, u.id, em + ph, ad, now);
    RunUserPlanAppend(edges, order, users, u.id, em + ph + ad, pm, now);
    assert RecordPlan(u) == em + ph + ad + pm;
  }

  // ---------------------------------------------------------------------------
  // Reading a user back (getUserById) and the detection plan

  /** The node's properties as the driver returns them (absent properties are left out). */
  function UserProperties(u: User): Value {
    var stamps := [("metadata", Str(u.metadata)), ("createdAt", Temporal(DateTime, u.createdAt))] +
                  OptionalTemporal("updatedAt", u.updatedAt);
    var methods := [("paymentMethods", Arr(Strings(u.paymentMethods)))] + stamps;
    var address := OptionalString("address", u.address) + methods;
    var phone := OptionalString("phone", u.phone) + address;
    var email := OptionalString("email", u.email) + phone;
    var name := OptionalString("name", u.name) + email;
    Obj([("id", Str(u.id))] + name)
  }

  function OptionalString(key: string, v: Option<string>): seq<(string, Value)> {
    if v.Some? then [(key, Str(v.value))] else []
  }

  function OptionalTemporal(key: string, v: Option<string>): seq<(string, Value)> {
    if v.Some? then [(key, Temporal(DateTime, v.value))] else []
  }

  function Strings(ss: seq<string>): (vs: seq<Value>)
    ensures |vs| == |ss|
    ensures forall i :: 0 <= i < |ss| ==> vs[i] == Str(ss[i])
  {
    if ss == [] then [] else Strings(ss[..|ss| - 1]) + [Str(ss[|ss| - 1])]
  }

  /** What `getUserById` returns: the converted properties. */
  function UserView(u: User, parse: Parser): Value {
    Converted(UserProperties(u), parse)
  }

  /** A scan for `key` when the read-back user has a truthy string there. */
  function ScanIfTruthy(view: Value, key: string, rel: string): seq<Scan> {
    match TruthyString(view, key)
    case Some(s) => [AttributeScan(key, s, rel)]
    case None => []
  }

  function ScalarScans(view: Value): seq<Scan> {
    ScanIfTruthy(view, "email", SHARED_EMAIL) +
    ScanIfTruthy(view, "phone", SHARED_PHONE) +
    ScanIfTruthy(view, "address", SHARED_ADDRESS)
  }

  function StringItems(vs: seq<Value>): seq<string> {
    if vs == [] then []
    else StringItems(vs[..|vs| - 1]) + (if vs[|vs| - 1].Str? then [vs[|vs| - 1].s] else [])
  }

  /** `Object.values(user.paymentMethods)`, the strings among them. */
  function PaymentMethodValues(view: Value): seq<string> {
    match Field(view, "paymentMethods")
    case Some(Obj(fs)) => StringItems(FieldValues(fs))
    case Some(Arr(xs)) => StringItems(xs)
    case _ => []
  }

  function PaymentScans(ms: seq<string>): (r: seq<Scan>)
    ensures |r| == |ms|
    ensures forall i :: 0 <= i < |ms| ==> r[i] == PaymentMethodScan(ms[i])
  {
    if ms == [] then [] else PaymentScans(ms[..|ms| - 1]) + [PaymentMethodScan(ms[|ms| - 1])]
  }

  /** The scans detection runs for a read-back user: email, phone, address when truthy, then one
      per payment method. This reads the payment methods with `Object.values`, because the
      read-back list is an index-keyed object (see DetectionPlanAsWritten). */
  function DetectionPlan(view: Value): seq<Scan> {
    ScalarScans(view) + PaymentScans(PaymentMethodValues(view))
  }

  /** The plan as `detectAndCreateSharedAttributeRelationships` is written: the payment-method
      loop runs only if `user.paymentMethods.length > 0`. */
  function DetectionPlanAsWritten(view: Value): seq<Scan> {
    ScalarScans(view) +
    match Field(view, "paymentMethods")
    case Some(Arr(xs)) => if |xs| > 0 then PaymentScans(StringItems(xs)) else []
    case Some(Str(s)) => if |s| > 0 then PaymentScans(Chars(s)) else []
    case _ => []
  }

  /** `for (const c of s)` on a string visits its characters. */
  function Chars(s: string): (r: seq<string>)
    ensures |r| == |s|
  {
    if s == [] then [] else [[s[0]]] + Chars(s[1..])
  }

  /** The plan stated on the stored record. */
  function RecordPlan(u: User): seq<Scan> {
    ScalarPlan(u) + PaymentScans(u.paymentMethods)
  }

  function StringScan(key: string, v: Option<string>, rel: string): seq<Scan> {
    if v.Some? && v.value != "" then [AttributeScan(key, v.value, rel)] else []
  }

  lemma LookupCons(x: (string, Value), rest: seq<(string, Value)>, key: string)
    ensures Lookup([x] + rest, key) == if x.0 == key then Some(x.1) else Lookup(rest, key)
  {
    assert ([x] + rest)[0] == x;
    assert ([x] + rest)[1..] == rest;
  }

  lemma LookupOptional(k: string, v: Option<string>, rest: seq<(string, Value)>, key: string)
    ensures Lookup(OptionalString(k, v) + rest, key) ==
            if v.Some? && k == key then Some(Str(v.value)) else Lookup(rest, key)
  {
    if v.Some? {
      LookupCons((k, Str(v.value)), rest, key);
    } else {
      assert OptionalString(k, v) + rest == rest;
    }
  }

  /** Looking a key up past the optional name, email, phone and address entries. */
  lemma LookupPastOptionals(u: User, tail: seq<(string, Value)>, key: string)
    requires key != "id" && key != "name"
    ensures var address := OptionalString("address", u.address) + tail;
            var phone := OptionalString("phone", u.phone) + address;
            var email := OptionalString("email", u.email) + phone;
            var name := OptionalString("name", u.name) + email;
            Lookup([("id", Str(u.id))] + name, key) ==
              if key == "email" && u.email.Some? then Some(Str(u.email.value))
              else if key == "phone" && u.phone.Some? then Some(Str(u.phone.value))
              else if key == "address" && u.address.Some? then Some(Str(u.address.value))
              else Lookup(tail, key)
  {
    var address := OptionalString("address", u.address) + tail;
    var phone := OptionalString("phone", u.phone) + address;
    var email := OptionalString("email", u.email) + phone;
    var name := OptionalString("name", u.name) + email;
    LookupCons(("id", Str(u.id)), name, key);
    LookupOptional("name", u.name, email, key);
    LookupOptional("email", u.email, phone, key);
    LookupOptional("phone", u.phone, address, key);
    LookupOptional("address", u.address, tail, key);
  }

  /** The entries after the address: the payment methods, then metadata and timestamps. */
  lemma LookupInUserTail(u: User, key: string)
    requires key in {"email", "phone", "address", "paymentMethods"}
    ensures var stamps := [("metadata", Str(u.metadata)), ("createdAt", Temporal(DateTime, u.createdAt))] +
                          OptionalTemporal("updatedAt", u.updatedAt);
            Lookup([("paymentMethods", Arr(Strings(u.paymentMethods)))] + stamps, key) ==
              if key == "paymentMethods" then Some(Arr(Strings(u.paymentMethods))) else None
  {
    var stamps := [("metadata", Str(u.metadata)), ("createdAt", Temporal(DateTime, u.createdAt))] +
                  OptionalTemporal("updatedAt", u.updatedAt);
    LookupCons(("paymentMethods", Arr(Strings(u.paymentMethods))), stamps, key);
    LookupAbsent(stamps, key);
  }

  /** The user properties that are read back, by key. */
  lemma UserPropertiesLookup(u: User)
    ensures var fs := UserProperties(u).fields;
            Lookup(fs, "email") == (if u.email.Some? then Some(Str(u.email.value)) else None) &&
            Lookup(fs, "phone") == (if u.phone.Some? then Some(Str(u.phone.value)) else None) &&
            Lookup(fs, "address") == (if u.address.Some? then Some(Str(u.address.value)) else None) &&
            Lookup(fs, "paymentMethods") == Some(Arr(Strings(u.paymentMethods)))
  {
    var stamps := [("metadata", Str(u.metadata)), ("createdAt", Temporal(DateTime, u.createdAt))] +
                  OptionalTemporal("updatedAt", u.updatedAt);
    var methods := [("paymentMethods", Arr(Strings(u.paymentMethods)))] + stamps;
    LookupPastOptionals(u, methods, "email");
    LookupPastOptionals(u, methods, "phone");
    LookupPastOptionals(u, methods, "address");
    LookupPastOptionals(u, methods, "paymentMethods");
    LookupInUserTail(u, "email");
    LookupInUserTail(u, "phone");
    LookupInUserTail(u, "address");
    LookupInUserTail(u, "paymentMethods");
  }

  /** A key that no entry carries is not found. */
  lemma LookupAbsent(fs: seq<(string, Value)>, key: string)
    requires forall x :: x in fs ==> x.0 != key
    ensures Lookup(fs, key) == None
  {
  }

  lemma {:induction false} LookupSkip(a: seq<(string, Value)>, b: seq<(string, Value)>, key: string)
    requires forall i :: 0 <= i < |a| ==> a[i].0 != key
    ensures Lookup(a + b, key) == Lookup(b, key)
  {
    if a == [] {
      assert a + b == b;
    } else {
      var rest := a[1..] + b;
      assert a + b == [a[0]] + rest;
      assert a[0].0 != key;
      LookupCons(a[0], rest, key);
      assert Lookup(a + b, key) == Lookup(rest, key);
      assert forall i :: 0 <= i < |a[1..]| ==> a[1..][i].0 != key by {
        forall i | 0 <= i < |a[1..]| ensures a[1..][i].0 != key { assert a[1..][i] == a[i + 1]; }
      }
      LookupSkip(a[1..], b, key);
    }
  }

  lemma {:induction false} StringItemsOfStrings(ss: seq<string>)
    ensures StringItems(Strings(ss)) == ss
  {
    if ss != [] {
      StringItemsOfStrings(ss[..|ss| - 1]);
      assert Strings(ss)[..|ss| - 1] == Strings(ss[..|ss| - 1]);
    }
  }

  /** The values of a converted list of strings are the strings, in order. */
  lemma {:induction false} ConvertedStringsValues(ss: seq<string>, parse: Parser)
    ensures FieldValues(ConvertItems(Strings(ss), parse)) == Strings(ss)
  {
    if ss != [] {
      var xs := Strings(ss);
      assert xs[..|xs| - 1] == Strings(ss[..|ss| - 1]);
      ConvertedStringsValues(ss[..|ss| - 1], parse);
      var key := Text.NatToString(|xs| - 1);
      assert key != "metadata" by { assert Text.IsDigit(key[0]); }
      assert FieldValues(ConvertItems(xs, parse))[..|xs| - 1] == FieldValues(ConvertItems(xs[..|xs| - 1], parse));
    }
  }

  /** A field of a converted object is the converted entry. */
  lemma FieldOfConverted(fs: seq<(string, Value)>, key: string, parse: Parser)
    ensures Field(Converted(Obj(fs), parse), key) ==
            match Lookup(fs, key)
            case None => None
            case Some(v) => Some(ConvertEntry(key, v, parse))
  {
    LookupConverted(fs, key, parse);
  }

  /** A string field of a stored user reads back unchanged. */
  lemma StringFieldReadBack(u: User, parse: Parser, key: string, v: Option<string>)
    requires key != "metadata"
    requires Lookup(UserProperties(u).fields, key) == (if v.Some? then Some(Str(v.value)) else None)
    ensures Field(UserView(u, parse), key) == (if v.Some? then Some(Str(v.value)) else None)
  {
    FieldOfConverted(UserProperties(u).fields, key, parse);
  }

  /** Reading a stored user back gives its fields, and `Object.values` of the read-back
      payment methods is the stored list. */
  lemma UserViewFields(u: User, parse: Parser)
    ensures var view := UserView(u, parse);
            Field(view, "email") == (if u.email.Some? then Some(Str(u.email.value)) else None) &&
            Field(view, "phone") == (if u.phone.Some? then Some(Str(u.phone.value)) else None) &&
            Field(view, "address") == (if u.address.Some? then Some(Str(u.address.value)) else None) &&
            Field(view, "paymentMethods") == Some(Obj(ConvertItems(Strings(u.paymentMethods), parse))) &&
            PaymentMethodValues(view) == u.paymentMethods
  {
    UserPropertiesLookup(u);
    StringFieldReadBack(u, parse, "email", u.email);
    StringFieldReadBack(u, parse, "phone", u.phone);
    StringFieldReadBack(u, parse, "address", u.address);
    PaymentMethodsReadBack(u, parse);
  }

  /** What detection reads from a read-back user is the stored record's data. */
  lemma UserViewTruthy(u: User, parse: Parser)
    ensures TruthyString(UserView(u, parse), "email") == TruthyOption(u.email)
    ensures TruthyString(UserView(u, parse), "phone") == TruthyOption(u.phone)
    ensures TruthyString(UserView(u, parse), "address") == TruthyOption(u.address)
    ensures PaymentMethodValues(UserView(u, parse)) == u.paymentMethods
  {
    UserViewFields(u, parse);
  }

  lemma PaymentMethodsReadBack(u: User, parse: Parser)
    ensures Field(UserView(u, parse), "paymentMethods") == Some(Obj(ConvertItems(Strings(u.paymentMethods), parse)))
    ensures PaymentMethodValues(UserView(u, parse)) == u.paymentMethods
  {
    var fs := UserProperties(u).fields;
    UserPropertiesLookup(u);
    assert UserProperties(u) == Obj(fs);
    ArrayFieldReadBack(fs, "paymentMethods", Strings(u.paymentMethods), parse);
    ConvertedStringsValues(u.paymentMethods, parse);
    StringItemsOfStrings(u.paymentMethods);
  }

  /** An array under `key` reads back as the converted, index-keyed object. */
  lemma ArrayFieldReadBack(fs: seq<(string, Value)>, key: string, xs: seq<Value>, parse: Parser)
    requires Lookup(fs, key) == Some(Arr(xs))
    ensures Field(Converted(Obj(fs), parse), key) == Some(Obj(ConvertItems(xs, parse)))
  {
    FieldOfConverted(fs, key, parse);
  }

  /** Detection on a read-back user runs the record's plan. */
  lemma DetectionPlanOfStoredUser(u: User, parse: Parser)
    ensures DetectionPlan(UserView(u, parse)) == RecordPlan(u)
  {
    UserViewFields(u, parse);
  }

  /** The plan runs email, phone and address scans in that order, each only for a truthy value,
      then one scan per payment method in list order: at most 3 + |paymentMethods| scans. */
  lemma RecordPlanShape(u: User)
    ensures var plan := RecordPlan(u);
            var n := |plan| - |u.paymentMethods|;
            0 <= n <= 3 && |plan| <= 3 + |u.paymentMethods| &&
            plan[n..] == PaymentScans(u.paymentMethods) &&
            (forall i :: 0 <= i < n ==> plan[i].AttributeScan? && plan[i].value != "") &&
            (forall i, j :: 0 <= i < j < n ==> AttributeRank(plan[i].attribute) < AttributeRank(plan[j].attribute)) &&
            (AttributeScan("email", u.email.GetOr(""), SHARED_EMAIL) in plan[..n] <==> u.email.Some? && u.email.value != "") &&
            (AttributeScan("phone", u.phone.GetOr(""), SHARED_PHONE) in plan[..n] <==> u.phone.Some? && u.phone.value != "") &&
            (AttributeScan("address", u.address.GetOr(""), SHARED_ADDRESS) in plan[..n] <==> u.address.Some? && u.address.value != "")
  {
    var plan := RecordPlan(u);
    var scalars := ScalarPlan(u);
    ScalarPlanShape(u);
    assert plan == scalars + PaymentScans(u.paymentMethods);
    assert plan[..|scalars|] == scalars;
    assert plan[|scalars|..] == PaymentScans(u.paymentMethods);
  }

  function ScalarPlan(u: User): seq<Scan> {
    StringScan("email", u.email, SHARED_EMAIL) +
    StringScan("phone", u.phone, SHARED_PHONE) +
    StringScan("address", u.address, SHARED_ADDRESS)
  }

  lemma ScalarPlanShape(u: User)
    ensures var s := ScalarPlan(u);
            |s| <= 3 &&
            (forall i :: 0 <= i < |s| ==> s[i].AttributeScan? && s[i].value != "") &&
            (forall i, j :: 0 <= i < j < |s| ==> AttributeRank(s[i].attribute) < AttributeRank(s[j].attribute)) &&
            (AttributeScan("email", u.email.GetOr(""), SHARED_EMAIL) in s <==> u.email.Some? && u.email.value != "") &&
            (AttributeScan("phone", u.phone.GetOr(""), SHARED_PHONE) in s <==> u.phone.Some? && u.phone.value != "") &&
            (AttributeScan("address", u.address.GetOr(""), SHARED_ADDRESS) in s <==> u.address.Some? && u.address.value != "")
  {
  }

  function AttributeRank(a: string): nat {
    if a == "email" then 0 else if a == "phone" then 1 else if a == "address" then 2 else 3
  }

  /** As written, detection never scans payment methods for a stored user: the read-back
      `paymentMethods` is an object without `length`. */
  lemma AsWrittenNeverScansPaymentMethods(u: User, parse: Parser)
    ensures DetectionPlanAsWritten(UserView(u, parse)) == ScalarScans(UserView(u, parse))
    ensures forall s :: s in DetectionPlanAsWritten(UserView(u, parse)) ==> s.AttributeScan?
  {
    UserViewFields(u, parse);
  }

  /** A concrete user with a payment method: the written plan misses the scan the intended
      plan runs. */
  lemma AsWrittenMissesPaymentScan(parse: Parser)
    ensures var u := User("user-001", Some("Ann"), Some("ann@example.com"), None, None,
                          ["card-1"], "{}", "2024-01-01T00:00:00Z", None);
            PaymentMethodScan("card-1") in DetectionPlan(UserView(u, parse)) &&
            PaymentMethodScan("card-1") !in DetectionPlanAsWritten(UserView(u, parse))
  {
    var u := User("user-001", Some("Ann"), Some("ann@example.com"), None, None,
                  ["card-1"], "{}", "2024-01-01T00:00:00Z", None);
    AsWrittenNeverScansPaymentMethods(u, parse);
    DetectionPlanOfStoredUser(u, parse);
    assert RecordPlan(u)[|RecordPlan(u)| - 1] == PaymentMethodScan("card-1");
  }

  // ---------------------------------------------------------------------------
  // Transaction scans (createSharedAttributeTransactionRelationship)

  /** `t.<name>` for the transaction properties that a scan can compare with a string. */
  function TransactionProperty(t: Transaction, name: string): Option<string> {
    if name == "ipAddress" then t.ipAddress
    else if name == "deviceId" then t.deviceId
    else None
  }

  /** The only attribute types the switch knows; any other issues no query. */
  predicate KnownTransactionAttribute(a: string) {
    a == "ipAddress" || a == "deviceId"
  }

  predicate TransactionMatches(txns: map<string, Transaction>, tid: string, attr: string, value: string, p: string) {
    p in txns && p != tid && TransactionProperty(txns[p], attr) == Some(value)
  }

  function TransactionScanEdge(tid: string, attr: string, value: string, rel: string, p: string, now: string): Edge {
    Edge(rel, TransactionToTransaction, tid, p, AttributeProps(attr, value, now))
  }

  function TransactionPartner(txns: map<string, Transaction>, tid: string, attr: string, value: string): string -> bool {
    (p: string) => TransactionMatches(txns, tid, attr, value, p)
  }

  function TransactionLink(tid: string, attr: string, value: string, rel: string, now: string): string -> Edge {
    (p: string) => TransactionScanEdge(tid, attr, value, rel, p, now)
  }

  /** The edge list after one transaction scan. */
  function TransactionScan(edges: seq<Edge>, order: seq<string>, txns: map<string, Transaction>, tid: string,
                           attr: string, value: string, rel: string, now: string): seq<Edge> {
    if !KnownTransactionAttribute(attr) || tid !in txns then edges
    else LinkAll(edges, order, TransactionPartner(txns, tid, attr, value), TransactionLink(tid, attr, value, rel, now))
  }

  /** A transaction scan links only to other transactions with an equal value, and to all of
      them; an unknown attribute type changes nothing. */
  lemma TransactionScanLinksExactlyPartners(edges: seq<Edge>, order: seq<string>, txns: map<string, Transaction>,
                                            tid: string, attr: string, value: string, rel: string, now: string)
    ensures !KnownTransactionAttribute(attr) ==> TransactionScan(edges, order, txns, tid, attr, value, rel, now) == edges
    ensures var r := TransactionScan(edges, order, txns, tid, attr, value, rel, now);
            |edges| <= |r| && r[..|edges|] == edges &&
            (forall k :: |edges| <= k < |r| ==>
               r[k].from == tid && r[k].to != tid && TransactionMatches(txns, tid, attr, value, r[k].to) &&
               r[k] == TransactionScanEdge(tid, attr, value, rel, r[k].to, now)) &&
            (KnownTransactionAttribute(attr) && tid in txns ==>
               forall p :: p in order && TransactionMatches(txns, tid, attr, value, p) ==>
                 exists x :: x in r && SameUndirected(x, TransactionScanEdge(tid, attr, value, rel, p, now)))
  {
    if KnownTransactionAttribute(attr) && tid in txns {
      var isPartner := TransactionPartner(txns, tid, attr, value);
      var link := TransactionLink(tid, attr, value, rel, now);
      LinkAllSpec(edges, order, isPartner, link);
      var r := TransactionScan(edges, order, txns, tid, attr, value, rel, now);
      assert r == LinkAll(edges, order, isPartner, link);
      var P := (e: Edge) => e.from == tid && e.to != tid && TransactionMatches(txns, tid, attr, value, e.to) &&
                            e == TransactionScanEdge(tid, attr, value, rel, e.to, now);
      PartnerLinksSatisfy(order, isPartner, link, P);
      forall k | |edges| <= k < |r|
        ensures r[k].from == tid && r[k].to != tid && TransactionMatches(txns, tid, attr, value, r[k].to)
        ensures r[k] == TransactionScanEdge(tid, attr, value, rel, r[k].to, now)
      {
        assert P(r[k]);
      }
      forall p | p in order && TransactionMatches(txns, tid, attr, value, p)
        ensures exists x :: x in r && SameUndirected(x, TransactionScanEdge(tid, attr, value, rel, p, now))
      {
        assert isPartner(p);
        assert link(p) == TransactionScanEdge(tid, attr, value, rel, p, now);
      }
    }
  }

  // ---------------------------------------------------------------------------
  // Reading a transaction back (getTransactionById) and its detection

  function TransactionProperties(t: Transaction): Value {
    var rest := TransactionFixedProperties(t) + OptionalTemporal("updatedAt", t.updatedAt);
    var device := OptionalString("deviceId", t.deviceId) + rest;
    var ip := OptionalString("ipAddress", t.ipAddress) + device;
    Obj([("id", Str(t.id))] + ip)
  }

  /** The properties every transaction node has besides its id. */
  function TransactionFixedProperties(t: Transaction): seq<(string, Value)> {
    [("amount", Num(t.amount)), ("currency", Str(t.currency)), ("type", Str(t.kind)),
     ("status", Str(t.status)), ("description", Str(t.description)),
     ("metadata", Str(t.metadata)),
     ("createdAt", Temporal(DateTime, t.createdAt)),
     ("timestamp", Temporal(DateTime, t.timestamp))]
  }

  lemma NoAttributeAmongFixed(t: Transaction, key: string)
    requires key == "ipAddress" || key == "deviceId"
    ensures forall x :: x in TransactionFixedProperties(t) + OptionalTemporal("updatedAt", t.updatedAt) ==> x.0 != key
  {
  }

  /** The first SENT_TO edge into the transaction and the first RECEIVED_FROM edge out of it. */
  function FlowParties(edges: seq<Edge>, tid: string): (Value, Value) {
    var sent := FirstFlow(edges, SENT_TO, tid, true);
    var received := FirstFlow(edges, RECEIVED_FROM, tid, false);
    if sent.Some? && received.Some? then (Str(sent.value), Str(received.value)) else (Null, Null)
  }

  /** The far endpoint of the first flow edge with that rel touching the transaction
      (as target when `incoming`, as source otherwise). */
  function FirstFlow(edges: seq<Edge>, rel: string, tid: string, incoming: bool): Option<string> {
    if edges == [] then None
    else
      var e := edges[0];
      if e.rel == rel && incoming && e.ends == UserToTransaction && e.to == tid then Some(e.from)
      else if e.rel == rel && !incoming && e.ends == TransactionToUser && e.from == tid then Some(e.to)
      else FirstFlow(edges[1..], rel, tid, incoming)
  }

  /** What `getTransactionById` returns: `{...converted properties, fromUserId, toUserId}`. */
  function TransactionView(t: Transaction, edges: seq<Edge>, parse: Parser): Value {
    var parties := FlowParties(edges, t.id);
    Obj(Put(Put(Converted(TransactionProperties(t), parse).fields, "fromUserId", parties.0), "toUserId", parties.1))
  }

  /** A string field of the read-back transaction, when truthy. */
  function TruthyString(view: Value, key: string): Option<string> {
    match Field(view, key)
    case Some(Str(s)) => if s != "" then Some(s) else None
    case _ => None
  }

  function TruthyOption(v: Option<string>): Option<string> {
    if v.Some? && v.value != "" then v else None
  }

  lemma {:induction false} LookupPut(fs: seq<(string, Value)>, k: string, v: Value, key: string)
    requires key != k
    ensures Lookup(Put(fs, k, v), key) == Lookup(fs, key)
  {
    if fs == [] {
      LookupCons((k, v), [], key);
    } else {
      assert fs == [fs[0]] + fs[1..];
      LookupCons(fs[0], fs[1..], key);
      if fs[0].0 == k {
        LookupCons((k, v), fs[1..], key);
      } else {
        LookupPut(fs[1..], k, v, key);
        LookupCons(fs[0], Put(fs[1..], k, v), key);
      }
    }
  }

  /** The stored IP address and device id, by key. */
  lemma TransactionPropertiesLookup(t: Transaction)
    ensures Lookup(TransactionProperties(t).fields, "ipAddress") == (if t.ipAddress.Some? then Some(Str(t.ipAddress.value)) else None)
    ensures Lookup(TransactionProperties(t).fields, "deviceId") == (if t.deviceId.Some? then Some(Str(t.deviceId.value)) else None)
  {
    var rest := TransactionFixedProperties(t) + OptionalTemporal("updatedAt", t.updatedAt);
    var device := OptionalString("deviceId", t.deviceId) + rest;
    var ip := OptionalString("ipAddress", t.ipAddress) + device;
    LookupCons(("id", Str(t.id)), ip, "ipAddress");
    LookupCons(("id", Str(t.id)), ip, "deviceId");
    LookupOptional("ipAddress", t.ipAddress, device, "ipAddress");
    LookupOptional("ipAddress", t.ipAddress, device, "deviceId");
    LookupOptional("deviceId", t.deviceId, rest, "deviceId");
    LookupOptional("deviceId", t.deviceId, rest, "ipAddress");
    NoAttributeAmongFixed(t, "deviceId");
    NoAttributeAmongFixed(t, "ipAddress");
    LookupAbsent(rest, "deviceId");
    LookupAbsent(rest, "ipAddress");
  }

  /** The fields a transaction view adds do not hide the stored ones. */
  lemma TransactionViewLookup(t: Transaction, edges: seq<Edge>, parse: Parser, key: string)
    requires key != "fromUserId" && key != "toUserId"
    ensures Lookup(TransactionView(t, edges, parse).fields, key) ==
            Lookup(Converted(TransactionProperties(t), parse).fields, key)
  {
    var cf := Converted(TransactionProperties(t), parse).fields;
    var parties := FlowParties(edges, t.id);
    var once := Put(cf, "fromUserId", parties.0);
    LookupPut(cf, "fromUserId", parties.0, key);
    LookupPut(once, "toUserId", parties.1, key);
  }

  /** A string field of a stored transaction reads back unchanged. */
  lemma TransactionStringReadBack(t: Transaction, edges: seq<Edge>, parse: Parser, key: string, v: Option<string>)
    requires key != "fromUserId" && key != "toUserId" && key != "metadata"
    requires Lookup(TransactionProperties(t).fields, key) == (if v.Some? then Some(Str(v.value)) else None)
    ensures TruthyString(TransactionView(t, edges, parse), key) == TruthyOption(v)
  {
    TransactionViewLookup(t, edges, parse, key);
    FieldOfConverted(TransactionProperties(t).fields, key, parse);
  }

  /** The read-back transaction carries the stored IP address and device id. */
  lemma TransactionViewFields(t: Transaction, edges: seq<Edge>, parse: Parser)
    ensures TruthyString(TransactionView(t, edges, parse), "ipAddress") == TruthyOption(t.ipAddress)
    ensures TruthyString(TransactionView(t, edges, parse), "deviceId") == TruthyOption(t.deviceId)
  {
    TransactionPropertiesLookup(t);
    TransactionStringReadBack(t, edges, parse, "ipAddress", t.ipAddress);
    TransactionStringReadBack(t, edges, parse, "deviceId", t.deviceId);
  }

  /** The edge list after transaction detection: an IP scan when the IP is truthy, then a
      device scan when the device id is truthy. */
  function TransactionDetection(edges: seq<Edge>, order: seq<string>, txns: map<string, Transaction>,
                                tid: string, now: string): seq<Edge>
    requires tid in txns
  {
    var t := txns[tid];
    var afterIp := if TruthyOption(t.ipAddress).Some?
                   then TransactionScan(edges, order, txns, tid, "ipAddress", t.ipAddress.value, SHARED_IP, now)
                   else edges;
    if TruthyOption(t.deviceId).Some?
    then TransactionScan(afterIp, order, txns, tid, "deviceId", t.deviceId.value, SHARED_DEVICE, now)
    else afterIp
  }

  /** The flow edges a transaction write merges: fromUser -> t and t -> toUser, both carrying the
      amount, the currency and the transaction's creation timestamp. */
  function SentEdge(t: Transaction, fromUserId: string): Edge {
    Edge(SENT_TO, UserToTransaction, fromUserId, t.id, FlowProps(t.amount, t.currency, t.timestamp))
  }

  function ReceivedEdge(t: Transaction, toUserId: string): Edge {
    Edge(RECEIVED_FROM, TransactionToUser, t.id, toUserId, FlowProps(t.amount, t.currency, t.timestamp))
  }

  function WithFlowEdges(edges: seq<Edge>, t: Transaction, fromUserId: string, toUserId: string): (r: seq<Edge>)
    ensures SentEdge(t, fromUserId) in r && ReceivedEdge(t, toUserId) in r
    ensures |edges| <= |r| <= |edges| + 2 && r[..|edges|] == edges
  {
    var once := MergeDirected(edges, SentEdge(t, fromUserId));
    MergeDirected(once, ReceivedEdge(t, toUserId))
  }

  /** Messages of the existence checks. */
  function FromUserMissing(id: string): string {
    "From user with ID " + id + " does not exist"
  }

  function ToUserMissing(id: string): string {
    "To user with ID " + id + " does not exist"
  }

  /** Both existence errors carry the phrase that the HTTP layer maps to 404. */
  lemma MissingUserMessagesSayDoesNotExist(id: string)
    ensures Text.Contains(FromUserMissing(id), " does not exist")
    ensures Text.Contains(ToUserMissing(id), " does not exist")
  {
    var tail := " does not exist";
    var m1 := FromUserMissing(id);
    var m2 := ToUserMissing(id);
    Text.ContainsIff(m1, tail);
    Text.ContainsIff(m2, tail);
    assert m1[|m1| - |tail|..] == tail;
    assert m2[|m2| - |tail|..] == tail;
    assert Text.OccursAt(m1, tail, |m1| - |tail|);
    assert Text.OccursAt(m2, tail, |m2| - |tail|);
  }

  // ---------------------------------------------------------------------------
  // Neighbourhood reads (getUserRelationships, getTransactionRelationships): the edges they
  // collect. The statement's row shaping is the database's and is not modelled.

  predicate IsSharedUserRel(l: string) {
    l == SHARED_EMAIL || l == SHARED_PHONE || l == SHARED_ADDRESS || l == SHARED_PAYMENT_METHOD
  }

  predicate IsFlowRel(l: string) {
    l == SENT_TO || l == RECEIVED_FROM
  }

  predicate IsSharedTransactionRel(l: string) {
    l == SHARED_IP || l == SHARED_DEVICE
  }

  datatype UserNeighbourhood = UserNeighbourhood(user: User, direct: seq<Edge>, flows: seq<Edge>)

  datatype TransactionNeighbourhood = TransactionNeighbourhood(transaction: Transaction, related: seq<Edge>)

  function SharedWith(uid: string): Edge -> bool {
    (e: Edge) => IsSharedUserRel(e.rel) && e.ends == UserToUser && (e.from == uid || e.to == uid)
  }

  function FlowsOf(uid: string): Edge -> bool {
    (e: Edge) => (e.rel == SENT_TO && e.ends == UserToTransaction && e.from == uid) ||
         (e.rel == RECEIVED_FROM && e.ends == TransactionToUser && e.to == uid)
  }

  function RelatedTo(tid: string): Edge -> bool {
    (e: Edge) => IsSharedTransactionRel(e.rel) && e.ends == TransactionToTransaction && (e.from == tid || e.to == tid)
  }
}
