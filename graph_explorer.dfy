/**
 * The graph explorer view: a Cytoscape element collection and the
 * `isLoadingRelationships` flag. Three operations fill the collection: the
 * neighbourhood of one user (`updateGraphWithSharedAttributes`), the whole
 * loaded data set (`buildInteractiveGraph`), and the shared-attribute edges
 * between loaded users, de-duplicated by a canonical id
 * (`addSharedAttributeEdges`).
 */
module GraphExplorer {
  import opened Wrappers
  import opened DriverValues
  import opened Seqs
  import opened GraphElements
  import Text
  import FrontValues

  const SENT_TO := "SENT_TO"
  const SHARED_PREFIX := "SHARED_"

  // ---------------------------------------------------------------------------
  // Server data, as the view reads it

  /** A user node from the server: `properties.id` and `properties.name`. */
  datatype UserNode = UserNode(id: string, name: string)

  /** A transaction node from the server: `properties.id` and `properties.amount`. */
  datatype TransactionNode = TransactionNode(id: string, amount: Value)

  /** An entry of `directRelationships` for the neighbourhood view: the relationship type, the
      related user, and the relationship's `value` and `paymentMethod` properties. */
  datatype SharedEntry = SharedEntry(rel: string, relatedUser: UserNode, value: Option<Value>, paymentMethod: Option<Value>)

  /** An entry of `transactions`: the transaction, the type of the main user's flow edge, and
      the user at its other end. */
  datatype FlowEntry = FlowEntry(transaction: TransactionNode, rel: string, otherUser: UserNode)

  /** The `getUserRelationships` result; a missing list is `None`. */
  datatype Neighbourhood = Neighbourhood(user: UserNode, direct: Option<seq<SharedEntry>>, transactions: Option<seq<FlowEntry>>)

  // ---------------------------------------------------------------------------
  // The neighbourhood of one user

  function UserElement(u: UserNode): Element {
    Node(u.id, u.name, "user")
  }

  function TransactionElement(t: TransactionNode): Element {
    Node(t.id, "$" + FrontValues.Render(t.amount), "transaction")
  }

  /** `type.replace('SHARED_', '')`. */
  function AttributeType(rel: string): string {
    Text.ReplaceFirst(rel, SHARED_PREFIX, "")
  }

  /** The dotted edge from the main user to a user sharing an attribute. */
  function SharedEdge(main: UserNode, e: SharedEntry): (r: Element)
    ensures r.Link? && r.source == main.id && r.target == e.relatedUser.id && r.kind == "shared"
    ensures FrontValues.Present(e.value) ==> r.caption == AttributeType(e.rel) + ": " + FrontValues.Render(e.value.value)
    ensures !FrontValues.Present(e.value) ==> r.caption == AttributeType(e.rel) + ": " + FrontValues.RenderOption(e.paymentMethod)
  {
    var attr := AttributeType(e.rel);
    Link("shared-" + main.id + "-" + e.relatedUser.id + "-" + attr, main.id, e.relatedUser.id,
         attr + ": " + FrontValues.RenderOption(FrontValues.Or(e.value, e.paymentMethod)), "shared")
  }

  /** For each shared entry: the related user, then the edge to it. */
  function SharedElements(main: UserNode, entries: seq<SharedEntry>): (r: seq<Element>)
    ensures |r| == 2 * |entries|
  {
    if entries == [] then []
    else
      var e := entries[|entries| - 1];
      SharedElements(main, entries[..|entries| - 1]) + [UserElement(e.relatedUser), SharedEdge(main, e)]
  }

  /** The two transaction edges of a flow entry: main user, transaction, other user for an
      outgoing payment, and the other way round for anything else. */
  function FlowEdges(main: UserNode, f: FlowEntry): (r: seq<Element>)
    ensures |r| == 2 && r[0].Link? && r[1].Link?
    ensures r[0].target == f.transaction.id && r[1].source == f.transaction.id
    ensures f.rel == SENT_TO ==> r[0].source == main.id && r[1].target == f.otherUser.id
    ensures f.rel != SENT_TO ==> r[0].source == f.otherUser.id && r[1].target == main.id
  {
    var t := f.transaction;
    var amount := FrontValues.Render(t.amount);
    var (payer, payee) := if f.rel == SENT_TO then (main, f.otherUser) else (f.otherUser, main);
    [Link("sent-" + payer.id + "-" + t.id, payer.id, t.id, "Sent $" + amount, "transaction"),
     Link("received-" + t.id + "-" + payee.id, t.id, payee.id, "Received $" + amount, "transaction")]
  }

  /** What one flow entry offers: the transaction, the other user, then the two edges. */
  function FlowStep(main: UserNode, f: FlowEntry): (r: seq<Element>)
    ensures |r| == 4 && r[0].Node? && r[0].id == f.transaction.id && r[1].Node? && r[1].id == f.otherUser.id
    ensures r[2].Link? && r[3].Link? && r[2].target == r[0].id && r[3].source == r[0].id
    ensures {r[2].source, r[3].target} == {main.id, r[1].id}
  {
    [TransactionElement(f.transaction), UserElement(f.otherUser)] + FlowEdges(main, f)
  }

  function FlowElements(main: UserNode, flows: seq<FlowEntry>): (r: seq<Element>)
    ensures |r| == 4 * |flows|
  {
    if flows == [] then [] else FlowElements(main, flows[..|flows| - 1]) + FlowStep(main, flows[|flows| - 1])
  }

  lemma FlowElementsPrefix(main: UserNode, flows: seq<FlowEntry>, i: nat)
    requires i < |flows|
    ensures FlowElements(main, flows[..i + 1]) == FlowElements(main, flows[..i]) + FlowStep(main, flows[i])
  {
    assert flows[..i + 1][..i] == flows[..i];
  }

  function SharedPart(d: Neighbourhood): seq<Element> {
    if d.direct.Some? then SharedElements(d.user, d.direct.value) else []
  }

  function FlowPart(d: Neighbourhood): seq<Element> {
    if d.transactions.Some? then FlowElements(d.user, d.transactions.value) else []
  }

  /** Everything the neighbourhood view offers to the collection, in order. */
  function NeighbourhoodElements(d: Neighbourhood): seq<Element> {
    [UserElement(d.user)] + (SharedPart(d) + FlowPart(d))
  }

  /** Offering the neighbourhood in three parts is offering it at once, and the main user
      always heads the collection. */
  lemma NeighbourhoodInParts(d: Neighbourhood)
    ensures WithElements([], NeighbourhoodElements(d)) ==
            WithElements(WithElements(WithElements([], [UserElement(d.user)]), SharedPart(d)), FlowPart(d))
    ensures |WithElements([], NeighbourhoodElements(d))| > 0 &&
            WithElements([], NeighbourhoodElements(d))[0] == UserElement(d.user)
  {
    var main := [UserElement(d.user)];
    WithElementsAppend([], main, SharedPart(d) + FlowPart(d));
    WithElementsAppend(WithElements([], main), SharedPart(d), FlowPart(d));
    FirstNodeTaken(UserElement(d.user), SharedPart(d) + FlowPart(d));
  }

  // ---------------------------------------------------------------------------
  // The whole data set

  /** A loaded user: `id` and `name`. */
  datatype UserRecord = UserRecord(id: string, name: string)

  /** A loaded transaction: `id`, `amount`, `currency`, its own `type` property when it has
      one, and the two user ids, when given. */
  datatype TransactionRecord = TransactionRecord(id: string, amount: Value, currency: Value, txType: Option<Value>,
                                                 fromUserId: Option<string>, toUserId: Option<string>)

  /** The node's `type`: `'transaction'`, unless the record carries a `type` property of its
      own, which the `...tx` spread writes over it (a non-string value by its `String` form). */
  function RecordKind(t: TransactionRecord): string {
    match t.txType
    case None => "transaction"
    case Some(v) => FrontValues.Render(v)
  }

  function UserRecordNodes(users: seq<UserRecord>): (r: seq<Element>)
    ensures |r| == |users|
    ensures forall i :: 0 <= i < |users| ==> r[i] == Node(users[i].id, users[i].name, "user")
  {
    if users == [] then []
    else
      var u := users[|users| - 1];
      UserRecordNodes(users[..|users| - 1]) + [Node(u.id, u.name, "user")]
  }

  function TransactionRecordNodes(txs: seq<TransactionRecord>): (r: seq<Element>)
    ensures |r| == |txs|
    ensures forall i :: 0 <= i < |txs| ==>
              r[i].Node? && r[i].id == txs[i].id &&
              r[i].caption == txs[i].id + ": $" + FrontValues.Render(txs[i].amount) + " " + FrontValues.Render(txs[i].currency)
    ensures forall i :: 0 <= i < |txs| && txs[i].txType.None? ==> r[i].kind == "transaction"
    ensures forall i :: 0 <= i < |txs| && txs[i].txType.Some? ==> r[i].kind == FrontValues.Render(txs[i].txType.value)
  {
    if txs == [] then []
    else
      var t := txs[|txs| - 1];
      TransactionRecordNodes(txs[..|txs| - 1]) +
        [Node(t.id, t.id + ": $" + FrontValues.Render(t.amount) + " " + FrontValues.Render(t.currency), RecordKind(t))]
  }

  /** A transaction stored with its default type `'TRANSFER'` is drawn as a node whose type is
      `TRANSFER`, not `transaction`. */
  lemma StoredTypeReplacesTransactionKind(t: TransactionRecord)
    requires t.txType == Some(Str("TRANSFER"))
    ensures var r := TransactionRecordNodes([t]); r[0].kind == "TRANSFER" && r[0].kind != "transaction"
  {
    assert TransactionRecordNodes([t])[0].kind == FrontValues.Render(Str("TRANSFER"));
  }

  /** The flow edges `edge-<id>` and `edge-<id>-to` of one transaction, only when both user
      ids are truthy. */
  function RecordFlowEdges(t: TransactionRecord): (r: seq<Element>)
    ensures r != [] <==> Text.Given(t.fromUserId) && Text.Given(t.toUserId)
    ensures r != [] ==>
              (|r| == 2 &&
               r[0] == Link("edge-" + t.id, t.fromUserId.value, t.id, "$" + FrontValues.Render(t.amount), "transaction") &&
               r[1] == Link("edge-" + t.id + "-to", t.id, t.toUserId.value, "$" + FrontValues.Render(t.amount), "transaction"))
  {
    if Text.Given(t.fromUserId) && Text.Given(t.toUserId) then
      var caption := "$" + FrontValues.Render(t.amount);
      [Link("edge-" + t.id, t.fromUserId.value, t.id, caption, "transaction"),
       Link("edge-" + t.id + "-to", t.id, t.toUserId.value, caption, "transaction")]
    else []
  }

  function AllFlowEdges(txs: seq<TransactionRecord>): seq<Element> {
    if txs == [] then [] else AllFlowEdges(txs[..|txs| - 1]) + RecordFlowEdges(txs[|txs| - 1])
  }

  /** A transaction without both user ids contributes no edge. */
  lemma {:induction false} AllFlowEdgesNeedBothUsers(txs: seq<TransactionRecord>, e: Element)
    requires e in AllFlowEdges(txs)
    ensures exists i :: 0 <= i < |txs| && Text.Given(txs[i].fromUserId) && Text.Given(txs[i].toUserId) && e in RecordFlowEdges(txs[i])
  {
    var init := txs[..|txs| - 1];
    if e in AllFlowEdges(init) {
      AllFlowEdgesNeedBothUsers(init, e);
      var i :| 0 <= i < |init| && Text.Given(init[i].fromUserId) && Text.Given(init[i].toUserId) && e in RecordFlowEdges(init[i]);
      assert txs[i] == init[i];
    } else {
      assert e in RecordFlowEdges(txs[|txs| - 1]);
    }
  }

  // ---------------------------------------------------------------------------
  // Shared-attribute edges between loaded users

  /** An entry of a loaded user's `directRelationships`: its type and related user's id
      (missing when falsy), and the relationship's `value` property. */
  datatype RelationshipEntry = RelationshipEntry(rel: Option<string>, relatedUserId: Option<string>, value: Option<Value>)

  /** A loaded `getUserRelationships` result: the user's id and its entries, if any. */
  datatype UserData = UserData(userId: string, direct: Option<seq<RelationshipEntry>>)

  /** `shared-<a>-<b>-<type>` with the two ids in sorted order. */
  function CanonicalId(a: string, b: string, rel: string): string {
    var sorted := Text.SortPair(a, b);
    "shared-" + sorted.0 + "-" + sorted.1 + "-" + rel
  }

  /** The canonical id does not depend on which user the entry came from. */
  lemma CanonicalIdSymmetric(a: string, b: string, rel: string)
    ensures CanonicalId(a, b, rel) == CanonicalId(b, a, rel)
  {
    Text.SortPairSymmetric(a, b);
  }

  /** The type, followed by the relationship's value when it has a truthy one. */
  function EdgeLabel(rel: string, value: Option<Value>): (r: string)
    ensures |r| >= |rel| && r[..|rel|] == rel
    ensures |r| == |rel| <==> !FrontValues.Present(value)
    ensures FrontValues.Present(value) ==> r[|rel|..] == ": " + FrontValues.Render(value.value)
  {
    if FrontValues.Present(value) then rel + ": " + FrontValues.Render(value.value) else rel
  }

  /** `edgesToAdd` and `addedEdgeIds` while the loops run. */
  datatype Queue = Queue(edges: seq<Element>, added: set<string>)

  /** One entry of one user, against the collection `es` as it stands. */
  function QueueEntry(q: Queue, es: seq<Element>, fromUserId: string, entry: RelationshipEntry): Queue {
    if !(Text.Given(entry.rel) && entry.relatedUserId.Some?) then q
    else
      var toUserId := entry.relatedUserId.value;
      var id := CanonicalId(fromUserId, toUserId, entry.rel.value);
      if id in q.added then q
      else if HasId(es, fromUserId) && HasId(es, toUserId) then
        Queue(q.edges + [Link(id, fromUserId, toUserId, EdgeLabel(entry.rel.value, entry.value), "shared")], q.added + {id})
      else q
  }

  function QueueEntries(q: Queue, es: seq<Element>, fromUserId: string, entries: seq<RelationshipEntry>): Queue {
    if entries == [] then q
    else QueueEntry(QueueEntries(q, es, fromUserId, entries[..|entries| - 1]), es, fromUserId, entries[|entries| - 1])
  }

  function QueueUser(q: Queue, es: seq<Element>, d: Option<UserData>): Queue {
    if d.Some? && d.value.direct.Some? then QueueEntries(q, es, d.value.userId, d.value.direct.value) else q
  }

  /** What the loops over all loaded users leave in the queue. */
  function QueueAll(es: seq<Element>, datas: seq<Option<UserData>>): Queue {
    if datas == [] then Queue([], {}) else QueueUser(QueueAll(es, datas[..|datas| - 1]), es, datas[|datas| - 1])
  }

  /** The queue holds each canonical id once, records exactly the ids it holds, and only
      joins elements of the collection. */
  ghost predicate QueueGood(q: Queue, es: seq<Element>) {
    Distinct(Ids(q.edges)) &&
    (forall id :: id in q.added <==> id in Ids(q.edges)) &&
    forall i :: 0 <= i < |q.edges| ==>
      q.edges[i].Link? && q.edges[i].kind == "shared" && HasId(es, q.edges[i].source) && HasId(es, q.edges[i].target)
  }

  lemma QueueEntryGood(q: Queue, es: seq<Element>, fromUserId: string, entry: RelationshipEntry)
    requires QueueGood(q, es)
    ensures QueueGood(QueueEntry(q, es, fromUserId, entry), es)
  {
    var r := QueueEntry(q, es, fromUserId, entry);
    if r != q {
      var id := CanonicalId(fromUserId, entry.relatedUserId.value, entry.rel.value);
      assert Ids(r.edges) == Ids(q.edges) + [id];
      DistinctSnoc(Ids(q.edges), id);
    }
  }

  lemma {:induction false} QueueEntriesGood(q: Queue, es: seq<Element>, fromUserId: string, entries: seq<RelationshipEntry>)
    requires QueueGood(q, es)
    ensures QueueGood(QueueEntries(q, es, fromUserId, entries), es)
  {
    if entries != [] {
      QueueEntriesGood(q, es, fromUserId, entries[..|entries| - 1]);
      QueueEntryGood(QueueEntries(q, es, fromUserId, entries[..|entries| - 1]), es, fromUserId, entries[|entries| - 1]);
    }
  }

  /** No two queued edges share a canonical id, and each joins two elements of the graph. */
  lemma {:induction false} QueueAllGood(es: seq<Element>, datas: seq<Option<UserData>>)
    ensures QueueGood(QueueAll(es, datas), es)
  {
    if datas != [] {
      QueueAllGood(es, datas[..|datas| - 1]);
      var d := datas[|datas| - 1];
      if d.Some? && d.value.direct.Some? {
        QueueEntriesGood(QueueAll(es, datas[..|datas| - 1]), es, d.value.userId, d.value.direct.value);
      }
    }
  }

  /** Once `a` lists `b` and its edge is queued, `b` listing `a` with the same type adds nothing. */
  lemma ReverseEntrySkipped(q: Queue, es: seq<Element>, a: string, b: string, rel: string,
                            v1: Option<Value>, v2: Option<Value>)
    requires rel != ""
    ensures var q1 := QueueEntry(q, es, a, RelationshipEntry(Some(rel), Some(b), v1));
            QueueEntry(q1, es, b, RelationshipEntry(Some(rel), Some(a), v2)) == q1
  {
    CanonicalIdSymmetric(a, b, rel);
  }

  // ---------------------------------------------------------------------------
  // The view

  class Explorer {
    var elements: seq<Element>
    var isLoadingRelationships: bool

    predicate Valid()
      reads this
    {
      GraphElements.Valid(elements)
    }

    constructor ()
      ensures elements == [] && !isLoadingRelationships
    {
      elements := [];
      isLoadingRelationships := false;
    }

    /** `explorerCy.add` of a list, one element at a time. */
    method AddEach(xs: seq<Element>)
      requires Valid()
      modifies this`elements
      ensures Valid()
      ensures elements == WithElements(old(elements), xs)
    {
      var i := 0;
      while i < |xs|
        invariant 0 <= i <= |xs|
        invariant elements == WithElements(old(elements), xs[..i])
        invariant Valid()
      {
        WithElementsSnoc(old(elements), xs[..i], xs[i]);
        assert xs[..i + 1] == xs[..i] + [xs[i]];
        WithElementValid(elements, xs[i]);
        elements := WithElement(elements, xs[i]);
        i := i + 1;
      }
      assert xs[..i] == xs;
    }

    /** One transaction of the neighbourhood: its node, the user at the other end when no
        element has that id yet, and the two edges. */
    method AddFlow(main: UserNode, f: FlowEntry)
      requires Valid()
      modifies this`elements
      ensures Valid()
      ensures elements == WithElements(old(elements), FlowStep(main, f))
    {
      var transactionNode := [TransactionElement(f.transaction)];
      var otherUserNode := [UserElement(f.otherUser)];
      var edges := FlowEdges(main, f);
      AddEach(transactionNode);
      ghost var mid := elements;
      if !HasId(elements, f.otherUser.id) {
        AddEach(otherUserNode);
      } else {
        assert otherUserNode[..0] == [];
      }
      AddEach(edges);
      WithElementsAppend(mid, otherUserNode, edges);
      WithElementsAppend(old(elements), transactionNode, otherUserNode + edges);
      assert FlowStep(main, f) == transactionNode + (otherUserNode + edges);
    }

    method AddFlows(main: UserNode, flows: seq<FlowEntry>)
      requires Valid()
      modifies this`elements
      ensures Valid()
      ensures elements == WithElements(old(elements), FlowElements(main, flows))
    {
      var i := 0;
      while i < |flows|
        invariant 0 <= i <= |flows|
        invariant elements == WithElements(old(elements), FlowElements(main, flows[..i]))
        invariant Valid()
      {
        var f := flows[i];
        ghost var prefix := FlowElements(main, flows[..i]);
        assert WithElements(old(elements), FlowElements(main, flows[..i + 1])) ==
               WithElements(WithElements(old(elements), prefix), FlowStep(main, f)) by {
          FlowElementsPrefix(main, flows, i);
          WithElementsAppend(old(elements), prefix, FlowStep(main, f));
        }
        AddFlow(main, f);
        i := i + 1;
      }
      assert flows[..i] == flows;
    }

    /** `updateGraphWithSharedAttributes`: clear, then the user, its shared-attribute
        neighbours and its transactions. */
    method UpdateGraphWithSharedAttributes(d: Neighbourhood)
      modifies this`elements
      ensures Valid()
      ensures elements == WithElements([], NeighbourhoodElements(d))
      ensures |elements| > 0 && elements[0] == UserElement(d.user)
    {
      elements := [];
      AddEach([UserElement(d.user)]);
      if d.direct.Some? {
        AddEach(SharedElements(d.user, d.direct.value));
      }
      if d.transactions.Some? {
        AddFlows(d.user, d.transactions.value);
      }
      NeighbourhoodInParts(d);
    }

    /** `addSharedAttributeEdges`: unless a load is already running, queue one edge per
        canonical id between users present in the graph, add the queue, and clear the flag. */
    method AddSharedAttributeEdges(datas: seq<Option<UserData>>)
      requires Valid()
      modifies this
      ensures Valid()
      ensures old(isLoadingRelationships) ==> isLoadingRelationships && elements == old(elements)
      ensures !old(isLoadingRelationships) ==>
                !isLoadingRelationships && elements == WithElements(old(elements), QueueAll(old(elements), datas).edges)
    {
      if isLoadingRelationships {
        return;
      }
      isLoadingRelationships := true;
      var edgesToAdd: seq<Element> := [];
      var addedEdgeIds: set<string> := {};
      var i := 0;
      while i < |datas|
        invariant 0 <= i <= |datas|
        invariant elements == old(elements)
        invariant Queue(edgesToAdd, addedEdgeIds) == QueueAll(elements, datas[..i])
      {
        assert datas[..i + 1][..i] == datas[..i];
        var userData := datas[i];
        if userData.Some? && userData.value.direct.Some? {
          var fromUserId := userData.value.userId;
          var entries := userData.value.direct.value;
          ghost var start := Queue(edgesToAdd, addedEdgeIds);
          var j := 0;
          while j < |entries|
            invariant 0 <= j <= |entries|
            invariant elements == old(elements)
            invariant Queue(edgesToAdd, addedEdgeIds) == QueueEntries(start, elements, fromUserId, entries[..j])
          {
            assert entries[..j + 1][..j] == entries[..j];
            var relationship := entries[j];
            if Text.Given(relationship.rel) && relationship.relatedUserId.Some? {
              var toUserId := relationship.relatedUserId.value;
              var canonicalId := CanonicalId(fromUserId, toUserId, relationship.rel.value);
              if canonicalId !in addedEdgeIds {
                if HasId(elements, fromUserId) && HasId(elements, toUserId) {
                  edgesToAdd := edgesToAdd + [Link(canonicalId, fromUserId, toUserId,
                                                   EdgeLabel(relationship.rel.value, relationship.value), "shared")];
                  addedEdgeIds := addedEdgeIds + {canonicalId};
                }
              }
            }
            j := j + 1;
          }
          assert entries[..j] == entries;
        }
        i := i + 1;
      }
      assert datas[..i] == datas;
      AddEach(edgesToAdd);
      isLoadingRelationships := false;
    }

    /** The first part of `buildInteractiveGraph`: clear, then the users, the transactions
        and their flow edges. */
    method DrawRecords(users: seq<UserRecord>, transactions: seq<TransactionRecord>)
      modifies this`elements
      ensures Valid()
      ensures elements == WithElements([], UserRecordNodes(users) + TransactionRecordNodes(transactions) + AllFlowEdges(transactions))
    {
      var userNodes, transactionNodes, flowEdges := UserRecordNodes(users), TransactionRecordNodes(transactions), AllFlowEdges(transactions);
      elements := [];
      assert Valid() by { assert Ids(elements) == []; }
      AddEach(userNodes);
      AddEach(transactionNodes);
      assert elements == WithElements([], userNodes + transactionNodes) by {
        WithElementsAppend([], userNodes, transactionNodes);
      }
      AddEach(flowEdges);
      WithElementsAppend([], userNodes + transactionNodes, flowEdges);
    }

    /** `buildInteractiveGraph`: clear, add the users, the transactions and their flow edges,
        then the shared-attribute edges. */
    method BuildInteractiveGraph(users: seq<UserRecord>, transactions: seq<TransactionRecord>, datas: seq<Option<UserData>>)
      modifies this
      ensures Valid()
      ensures var base := WithElements([], UserRecordNodes(users) + TransactionRecordNodes(transactions) + AllFlowEdges(transactions));
              if old(isLoadingRelationships) then elements == base && isLoadingRelationships
              else elements == WithElements(base, QueueAll(base, datas).edges) && !isLoadingRelationships
    {
      DrawRecords(users, transactions);
      AddSharedAttributeEdges(datas);
    }
  }
}
