/**
 * The database as the user and transaction services see it: User and
 * Transaction nodes by id, in creation order, and the relationship list.
 * Each method does what its Cypher statement means (GraphModel gives that
 * meaning as functions); the clock `now` and `JSON.stringify`/`JSON.parse`
 * are parameters.
 */
module GraphStore {
  import opened Wrappers
  import opened DriverValues
  import opened GraphModel
  import opened Seqs

  /** An edge joins nodes that exist, and a shared-attribute edge never links a node to itself. */
  predicate Joins(e: Edge, users: map<string, User>, txns: map<string, Transaction>) {
    match e.ends
    case UserToUser => e.from in users && e.to in users && e.from != e.to
    case UserToTransaction => e.from in users && e.to in txns
    case TransactionToUser => e.from in txns && e.to in users
    case TransactionToTransaction => e.from in txns && e.to in txns && e.from != e.to
  }

  /** Merging an edge that joins existing nodes keeps every edge joining existing nodes. */
  lemma MergeKeepsJoins(edges: seq<Edge>, e: Edge, users: map<string, User>, txns: map<string, Transaction>)
    requires forall x :: x in edges ==> Joins(x, users, txns)
    requires Joins(e, users, txns)
    ensures forall x :: x in MergeUndirected(edges, e) ==> Joins(x, users, txns)
    ensures forall x :: x in MergeDirected(edges, e) ==> Joins(x, users, txns)
  {
  }

  /** Keys are listed once in creation order and each record sits under its own id. */
  ghost predicate Indexed<R>(m: map<string, R>, order: seq<string>, idOf: R -> string) {
    Distinct(order) && (forall k :: k in m <==> k in order) && (forall k :: k in m ==> idOf(m[k]) == k)
  }

  /** An upsert keyed by id keeps the index: a new id is appended to the order. */
  lemma UpsertKeepsIndex<R>(m: map<string, R>, order: seq<string>, idOf: R -> string, r: R)
    requires Indexed(m, order, idOf)
    ensures Indexed(m[idOf(r) := r], if idOf(r) in m then order else order + [idOf(r)], idOf)
  {
    if idOf(r) !in m {
      DistinctSnoc(order, idOf(r));
    }
  }

  /** Edges keep joining existing nodes when nodes are only added. */
  lemma JoinsGrow(edges: seq<Edge>, users: map<string, User>, txns: map<string, Transaction>,
                  users': map<string, User>, txns': map<string, Transaction>)
    requires forall x :: x in edges ==> Joins(x, users, txns)
    requires users.Keys <= users'.Keys && txns.Keys <= txns'.Keys
    ensures forall x :: x in edges ==> Joins(x, users', txns')
  {
  }

  function UserId(u: User): string { u.id }

  function TransactionId(t: Transaction): string { t.id }

  /** `convertNeo4jIntegers(record.get('u').properties)` for a user node. */
  method ConvertUserNode(u: User, parse: Parser) returns (v: Value)
    ensures v == UserView(u, parse)
  {
    v := ConvertNeo4jIntegers(UserProperties(u), parse);
  }

  /** `convertNeo4jIntegers(record.get('t').properties)` for a transaction node. */
  method ConvertTransactionNode(t: Transaction, parse: Parser) returns (v: Value)
    ensures v == Converted(TransactionProperties(t), parse)
  {
    v := ConvertNeo4jIntegers(TransactionProperties(t), parse);
  }

  class Store {
    var users: map<string, User>
    var userOrder: seq<string>
    var transactions: map<string, Transaction>
    var transactionOrder: seq<string>
    var edges: seq<Edge>

    /** Node ids are unique keys listed once in creation order, and every relationship joins
        existing nodes without a self-link. */
    ghost predicate Valid()
      reads this
    {
      NodesValid() && EdgesJoin()
    }

    ghost predicate NodesValid()
      reads this`users, this`userOrder, this`transactions, this`transactionOrder
    {
      Indexed(users, userOrder, UserId) && Indexed(transactions, transactionOrder, TransactionId)
    }

    ghost predicate EdgesJoin()
      reads this
    {
      forall e :: e in edges ==> Joins(e, users, transactions)
    }

    constructor ()
      ensures Valid()
      ensures users == map[] && userOrder == [] && transactions == map[] && transactionOrder == [] && edges == []
    {
      users := map[];
      userOrder := [];
      transactions := map[];
      transactionOrder := [];
      edges := [];
    }

    // -------------------------------------------------------------------------
    // Reads

    /** `getUserById`: null when no user has the id, else the converted properties. */
    function GetUserById(id: string, parse: Parser): (r: Option<Value>)
      reads this
      ensures r.None? <==> id !in users
      ensures r.Some? ==> r.value == UserView(users[id], parse)
    {
      if id in users then Some(UserView(users[id], parse)) else None
    }

    /** `userExists`: `count(u) > 0` over the users with that id. */
    function UserExists(id: string): (r: bool)
      reads this
      requires Valid()
      ensures r <==> id in users
    {
      OccurrencesPositive(userOrder, id);
      Occurrences(userOrder, id) > 0
    }

    /** `getTransactionById`: null for an unknown id, else the converted properties plus the
        ids of the users on its flow edges. */
    function GetTransactionById(id: string, parse: Parser): (r: Option<Value>)
      reads this
      ensures r.None? <==> id !in transactions
      ensures r.Some? ==> r.value == TransactionView(transactions[id], edges, parse)
    {
      if id in transactions then Some(TransactionView(transactions[id], edges, parse)) else None
    }

    /** `getUserRelationships`: null for an unknown id, else the user's shared-attribute
        edges and the flow edges at the user. */
    function GetUserRelationships(id: string): (r: Option<UserNeighbourhood>)
      reads this
      ensures r.None? <==> id !in users
      ensures r.Some? ==> r.value.user == users[id]
      ensures r.Some? ==> forall e :: e in r.value.direct <==>
                e in edges && IsSharedUserRel(e.rel) && e.ends == UserToUser && (e.from == id || e.to == id)
      ensures r.Some? ==> forall e :: e in r.value.flows <==>
                e in edges && ((e.rel == SENT_TO && e.ends == UserToTransaction && e.from == id) ||
                               (e.rel == RECEIVED_FROM && e.ends == TransactionToUser && e.to == id))
    {
      if id in users then Some(UserNeighbourhood(users[id], Filter(edges, SharedWith(id)), Filter(edges, FlowsOf(id))))
      else None
    }

    /** `getTransactionRelationships`: null for an unknown id, else the transaction and its
        SHARED_IP / SHARED_DEVICE edges. */
    function GetTransactionRelationships(id: string): (r: Option<TransactionNeighbourhood>)
      reads this
      ensures r.None? <==> id !in transactions
      ensures r.Some? ==> r.value.transaction == transactions[id]
      ensures r.Some? ==> forall e :: e in r.value.related <==>
                e in edges && IsSharedTransactionRel(e.rel) && e.ends == TransactionToTransaction && (e.from == id || e.to == id)
    {
      if id in transactions then Some(TransactionNeighbourhood(transactions[id], Filter(edges, RelatedTo(id))))
      else None
    }

    // -------------------------------------------------------------------------
    // User writes

    /** `createOrUpdateUser`: upsert the node by id, then run detection for it. Returns the
        converted node as written, before detection. */
    method CreateOrUpdateUser(input: UserInput, now: string, json: Json) returns (user: Value)
      requires Valid()
      modifies this`users, this`userOrder, this`edges
      ensures Valid()
      ensures users == old(users)[input.id := UpsertedUser(Find(old(users), input.id), input, now, json)]
      ensures userOrder == if input.id in old(users) then old(userOrder) else old(userOrder) + [input.id]
      ensures Occurrences(userOrder, input.id) == 1
      ensures transactions == old(transactions) && transactionOrder == old(transactionOrder)
      ensures user == UserView(users[input.id], json.parse)
      ensures edges == UserDetection(old(edges), userOrder, users, users[input.id], now)
    {
      var prev := Find(users, input.id);
      var u := UpsertedUser(prev, input, now, json);
      UpsertKeepsIndex(users, userOrder, UserId, u);
      JoinsGrow(edges, users, transactions, users[input.id := u], transactions);
      if prev.None? {
        userOrder := userOrder + [input.id];
      }
      users := users[input.id := u];
      OccurrencesDistinct(userOrder, input.id);
      user := ConvertUserNode(u, json.parse);
      DetectAndCreateSharedAttributeRelationships(input.id, now, json);
    }

    /** `detectAndCreateSharedAttributeRelationships`: read the user back; if it is there, scan
        email, phone and address when truthy, then each payment method. */
    method DetectAndCreateSharedAttributeRelationships(userId: string, now: string, json: Json)
      requires Valid()
      modifies this`edges
      ensures Valid()
      ensures userId !in users ==> edges == old(edges)
      ensures userId in users ==> edges == UserDetection(old(edges), userOrder, users, users[userId], now)
    {
      var user := GetUserById(userId, json.parse);
      if user.None? {
        return;
      }
      UserViewTruthy(users[userId], json.parse);
      ScanSharedAttributes(userId, TruthyString(user.value, "email"), TruthyString(user.value, "phone"),
                           TruthyString(user.value, "address"), PaymentMethodValues(user.value), now);
    }

    /** The body of detection once the user is read back: the three scalar scans, each only
        for a truthy value, then the payment-method loop. */
    method ScanSharedAttributes(userId: string, email: Option<string>, phone: Option<string>,
                                address: Option<string>, methods: seq<string>, now: string)
      requires Valid()
      modifies this`edges
      ensures Valid()
      ensures var afterEmail := ScanWhen(old(edges), userOrder, users, userId, "email", email, SHARED_EMAIL, now);
              var afterPhone := ScanWhen(afterEmail, userOrder, users, userId, "phone", phone, SHARED_PHONE, now);
              var afterAddress := ScanWhen(afterPhone, userOrder, users, userId, "address", address, SHARED_ADDRESS, now);
              edges == PaymentMethodRuns(afterAddress, userOrder, users, userId, methods, now)
    {
      if email.Some? {
        CreateSharedAttributeRelationship(userId, "email", email.value, SHARED_EMAIL, now);
      }
      if phone.Some? {
        CreateSharedAttributeRelationship(userId, "phone", phone.value, SHARED_PHONE, now);
      }
      if address.Some? {
        CreateSharedAttributeRelationship(userId, "address", address.value, SHARED_ADDRESS, now);
      }
      ghost var afterAddress := edges;
      var i := 0;
      while i < |methods|
        invariant 0 <= i <= |methods|
        invariant Valid()
        invariant edges == PaymentMethodRuns(afterAddress, userOrder, users, userId, methods[..i], now)
      {
        CreateSharedPaymentMethodRelationship(userId, methods[i], now);
        assert methods[..i + 1][..i] == methods[..i];
        i := i + 1;
      }
      assert methods[..i] == methods;
    }

    /** `createSharedAttributeRelationship`: link the user to every other user whose
        `attributeType` property equals the value. */
    method CreateSharedAttributeRelationship(userId: string, attributeType: string, attributeValue: string,
                                             relationshipType: string, now: string)
      requires Valid()
      modifies this`edges
      ensures Valid()
      ensures edges == UserScan(old(edges), userOrder, users, userId,
                                AttributeScan(attributeType, attributeValue, relationshipType), now)
    {
      RunUserScan(userId, AttributeScan(attributeType, attributeValue, relationshipType), now);
    }

    /** `createSharedPaymentMethodRelationship`: link the user to every other user whose
        payment methods include this one. */
    method CreateSharedPaymentMethodRelationship(userId: string, paymentMethod: string, now: string)
      requires Valid()
      modifies this`edges
      ensures Valid()
      ensures edges == UserScan(old(edges), userOrder, users, userId, PaymentMethodScan(paymentMethod), now)
    {
      RunUserScan(userId, PaymentMethodScan(paymentMethod), now);
    }

    /** The statement of a user scan: MATCH the user, MATCH every candidate in node order, and
        MERGE an undirected edge to each one the WHERE clause accepts. */
    method RunUserScan(userId: string, scan: Scan, now: string)
      requires Valid()
      modifies this`edges
      ensures Valid()
      ensures edges == UserScan(old(edges), userOrder, users, userId, scan, now)
    {
      if userId !in users {
        return;
      }
      var isPartner := UserPartner(users, userId, scan);
      var link := UserLink(userId, scan, now);
      var acc := edges;
      var i := 0;
      while i < |userOrder|
        invariant 0 <= i <= |userOrder|
        invariant forall x :: x in acc ==> Joins(x, users, transactions)
        invariant edges == old(edges)
        invariant acc == LinkAll(edges, userOrder[..i], isPartner, link)
      {
        var candidate := userOrder[i];
        LinkAllStep(edges, userOrder, i, isPartner, link);
        if UserMatches(users, userId, scan, candidate) {
          MergeKeepsJoins(acc, UserScanEdge(scan, userId, candidate, now), users, transactions);
          acc := MergeUndirected(acc, UserScanEdge(scan, userId, candidate, now));
        }
        i := i + 1;
      }
      assert userOrder[..i] == userOrder;
      edges := acc;
    }

    // -------------------------------------------------------------------------
    // Transaction writes

    /** `createOrUpdateTransaction`: both users must exist (the sender is checked first, and
        nothing is written otherwise); then the node is upserted by id, the two flow edges are
        merged and detection runs. Returns the converted node as written. */
    method CreateOrUpdateTransaction(input: TransactionInput, now: string, json: Json) returns (r: Result<Value, string>)
      requires Valid()
      modifies this`transactions, this`transactionOrder, this`edges
      ensures Valid()
      ensures input.fromUserId !in old(users) ==>
                r == Failure(FromUserMissing(input.fromUserId)) && unchanged(this)
      ensures input.fromUserId in old(users) && input.toUserId !in old(users) ==>
                r == Failure(ToUserMissing(input.toUserId)) && unchanged(this)
      ensures input.fromUserId in old(users) && input.toUserId in old(users) ==>
                && users == old(users) && userOrder == old(userOrder)
                && transactions == old(transactions)[input.id := UpsertedTransaction(Find(old(transactions), input.id), input, now, json)]
                && transactionOrder == (if input.id in old(transactions) then old(transactionOrder) else old(transactionOrder) + [input.id])
                && r == Success(Converted(TransactionProperties(transactions[input.id]), json.parse))
                && edges == TransactionDetection(WithFlowEdges(old(edges), transactions[input.id], input.fromUserId, input.toUserId),
                                                 transactionOrder, transactions, input.id, now)
    {
      var fromUserExists := UserExists(input.fromUserId);
      var toUserExists := UserExists(input.toUserId);
      if !fromUserExists {
        return Failure(FromUserMissing(input.fromUserId));
      }
      if !toUserExists {
        return Failure(ToUserMissing(input.toUserId));
      }
      var prev := Find(transactions, input.id);
      var t := UpsertedTransaction(prev, input, now, json);
      UpsertKeepsIndex(transactions, transactionOrder, TransactionId, t);
      JoinsGrow(edges, users, transactions, users, transactions[input.id := t]);
      if prev.None? {
        transactionOrder := transactionOrder + [input.id];
      }
      transactions := transactions[input.id := t];
      MergeKeepsJoins(edges, SentEdge(t, input.fromUserId), users, transactions);
      edges := MergeDirected(edges, SentEdge(t, input.fromUserId));
      MergeKeepsJoins(edges, ReceivedEdge(t, input.toUserId), users, transactions);
      edges := MergeDirected(edges, ReceivedEdge(t, input.toUserId));
      var transaction := ConvertTransactionNode(t, json.parse);
      DetectAndCreateTransactionRelationships(input.id, now, json);
      return Success(transaction);
    }

    /** `detectAndCreateTransactionRelationships`: read the transaction back; if it is there,
        scan the IP address when truthy, then the device id when truthy. */
    method DetectAndCreateTransactionRelationships(transactionId: string, now: string, json: Json)
      requires Valid()
      modifies this`edges
      ensures Valid()
      ensures transactionId !in transactions ==> edges == old(edges)
      ensures transactionId in transactions ==>
                edges == TransactionDetection(old(edges), transactionOrder, transactions, transactionId, now)
    {
      var transaction := GetTransactionById(transactionId, json.parse);
      if transaction.None? {
        return;
      }
      TransactionViewFields(transactions[transactionId], edges, json.parse);
      var ip := TruthyString(transaction.value, "ipAddress");
      if ip.Some? {
        CreateSharedAttributeTransactionRelationship(transactionId, "ipAddress", ip.value, SHARED_IP, now);
      }
      var device := TruthyString(transaction.value, "deviceId");
      if device.Some? {
        CreateSharedAttributeTransactionRelationship(transactionId, "deviceId", device.value, SHARED_DEVICE, now);
      }
    }

    /** `createSharedAttributeTransactionRelationship`: for `ipAddress` or `deviceId`, link the
        transaction to every other transaction with an equal value; any other attribute type
        issues no statement. */
    method CreateSharedAttributeTransactionRelationship(transactionId: string, attributeType: string,
                                                        attributeValue: string, relationshipType: string, now: string)
      requires Valid()
      modifies this`edges
      ensures Valid()
      ensures edges == TransactionScan(old(edges), transactionOrder, transactions, transactionId,
                                       attributeType, attributeValue, relationshipType, now)
    {
      if attributeType != "ipAddress" && attributeType != "deviceId" {
        return;
      }
      if transactionId !in transactions {
        return;
      }
      RunTransactionScan(transactionId, attributeType, attributeValue, relationshipType, now);
    }

    /** The statement of a transaction scan: MATCH the transaction, MATCH every other
        transaction in node order, and MERGE an undirected edge to each one with an equal value. */
    method RunTransactionScan(transactionId: string, attributeType: string, attributeValue: string,
                              relationshipType: string, now: string)
      requires Valid()
      requires transactionId in transactions
      modifies this`edges
      ensures Valid()
      ensures edges == LinkAll(old(edges), transactionOrder,
                               TransactionPartner(transactions, transactionId, attributeType, attributeValue),
                               TransactionLink(transactionId, attributeType, attributeValue, relationshipType, now))
    {
      var isPartner := TransactionPartner(transactions, transactionId, attributeType, attributeValue);
      var link := TransactionLink(transactionId, attributeType, attributeValue, relationshipType, now);
      var acc := edges;
      var i := 0;
      while i < |transactionOrder|
        invariant 0 <= i <= |transactionOrder|
        invariant edges == old(edges)
        invariant forall x :: x in acc ==> Joins(x, users, transactions)
        invariant acc == LinkAll(edges, transactionOrder[..i], isPartner, link)
      {
        var candidate := transactionOrder[i];
        LinkAllStep(edges, transactionOrder, i, isPartner, link);
        if TransactionMatches(transactions, transactionId, attributeType, attributeValue, candidate) {
          var e := TransactionScanEdge(transactionId, attributeType, attributeValue, relationshipType, candidate, now);
          MergeKeepsJoins(acc, e, users, transactions);
          acc := MergeUndirected(acc, e);
        }
        i := i + 1;
      }
      assert transactionOrder[..i] == transactionOrder;
      edges := acc;
    }
  }
}
