/**
 * `TransactionController`: the ordered checks on a transaction request
 * (required fields, a positive amount, two different users), the mapping of a
 * service error to 404 or 500 by its message, and the list and relationships
 * endpoints.
 */
module TransactionController {
  import opened Wrappers
  import opened DriverValues
  import opened Responses
  import Text
  import GraphModel
  import GraphStore

  const MISSING_FIELDS := "Missing required fields: id, fromUserId, toUserId, amount"
  const AMOUNT_NOT_POSITIVE := "Amount must be positive"
  const SAME_USER := "From user and to user cannot be the same"
  const TRANSACTION_SAVED := "Transaction created/updated successfully"
  const TRANSACTION_NOT_FOUND := "Transaction not found"
  /** The phrase that makes a service error a 404. */
  const DOES_NOT_EXIST := "does not exist"

  /**
   * The `amount` of a request body: a JSON number, or a string together with the number
   * `parseFloat` reads from it (`None` when it reads NaN).
   */
  datatype Amount = Number(n: int) | Numeral(text: string, parsed: Option<int>)

  /** `!!amount`: a number other than 0, or a non-empty string. */
  predicate AmountGiven(a: Option<Amount>) {
    match a
    case None => false
    case Some(Number(n)) => n != 0
    case Some(Numeral(t, _)) => t != ""
  }

  /** `parseFloat(amount)`, with NaN as `None`. */
  function ParseFloat(a: Amount): Option<int> {
    match a
    case Number(n) => Some(n)
    case Numeral(_, p) => p
  }

  /** The amount check as written, `parseFloat(amount) <= 0`: NaN compares false and passes. */
  predicate AmountRejectedAsWritten(a: Amount) {
    match ParseFloat(a)
    case None => false
    case Some(x) => x <= 0
  }

  /** The amount check as intended: anything that does not read as a positive number. */
  predicate AmountRejected(a: Amount) {
    match ParseFloat(a)
    case None => true
    case Some(x) => x <= 0
  }

  /** The fields of the request body the controller looks at; the rest goes to the service. */
  datatype TransactionBody = TransactionBody(id: Option<string>, fromUserId: Option<string>,
                                             toUserId: Option<string>, amount: Option<Amount>)

  predicate HasRequiredFields(b: TransactionBody) {
    Text.Given(b.id) && Text.Given(b.fromUserId) && Text.Given(b.toUserId) && AmountGiven(b.amount)
  }

  /**
   * The message of the first check that fails, in the order missing fields, amount,
   * same user; `None` when the request goes to the service. `rejects` is the amount rule.
   */
  function Validate(b: TransactionBody, rejects: Amount -> bool): (r: Option<string>)
    ensures !HasRequiredFields(b) ==> r == Some(MISSING_FIELDS)
    ensures HasRequiredFields(b) && rejects(b.amount.value) ==> r == Some(AMOUNT_NOT_POSITIVE)
    ensures HasRequiredFields(b) && !rejects(b.amount.value) && b.fromUserId == b.toUserId ==> r == Some(SAME_USER)
    ensures r.None? <==> HasRequiredFields(b) && !rejects(b.amount.value) && b.fromUserId != b.toUserId
  {
    if !HasRequiredFields(b) then Some(MISSING_FIELDS)
    else if rejects(b.amount.value) then Some(AMOUNT_NOT_POSITIVE)
    else if b.fromUserId.value == b.toUserId.value then Some(SAME_USER)
    else None
  }

  /** An amount of 0 is reported as a missing field, before any other check. */
  lemma ZeroAmountIsMissing(b: TransactionBody)
    requires b.amount == Some(Number(0))
    ensures Validate(b, AmountRejected) == Some(MISSING_FIELDS)
  {
  }

  /** As written, a non-numeric amount string passes every check; as intended it does not. */
  lemma AsWrittenAcceptsUnparsableAmount()
    ensures var b := TransactionBody(Some("txn-001"), Some("user-001"), Some("user-002"), Some(Numeral("abc", None)));
            Validate(b, AmountRejectedAsWritten) == None &&
            Validate(b, AmountRejected) == Some(AMOUNT_NOT_POSITIVE)
  {
    assert "user-001" != "user-002" by { assert "user-001"[7] != "user-002"[7]; }
  }

  /** The catch block: 404 when the message mentions a missing entity, 500 otherwise. */
  function ErrorResponse(message: string): (r: Response<Value>)
    ensures r.status == NOT_FOUND <==> exists i :: Text.OccursAt(message, DOES_NOT_EXIST, i)
    ensures r.status == NOT_FOUND || r.status == INTERNAL_ERROR
    ensures r.body.Failed? && r.body.message == message
  {
    Text.ContainsIff(message, DOES_NOT_EXIST);
    if Text.Contains(message, DOES_NOT_EXIST) then NotFound(message) else InternalError(message)
  }

  /** The existence errors of the service are both answered with 404. */
  lemma MissingUserIsNotFound(id: string)
    ensures ErrorResponse(GraphModel.FromUserMissing(id)) == NotFound(GraphModel.FromUserMissing(id))
    ensures ErrorResponse(GraphModel.ToUserMissing(id)) == NotFound(GraphModel.ToUserMissing(id))
  {
    GraphModel.MissingUserMessagesSayDoesNotExist(id);
    var tail := " does not exist";
    var m1 := GraphModel.FromUserMissing(id);
    var m2 := GraphModel.ToUserMissing(id);
    Text.ContainsIff(m1, tail);
    Text.ContainsIff(m2, tail);
    var i1 :| Text.OccursAt(m1, tail, i1);
    var i2 :| Text.OccursAt(m2, tail, i2);
    assert m1[i1 + 1..i1 + 1 + |DOES_NOT_EXIST|] == tail[1..];
    assert m2[i2 + 1..i2 + 1 + |DOES_NOT_EXIST|] == tail[1..];
    assert Text.OccursAt(m1, DOES_NOT_EXIST, i1 + 1);
    assert Text.OccursAt(m2, DOES_NOT_EXIST, i2 + 1);
  }

  /**
   * The response to `POST /transactions`, given what the service call yields when it is
   * made. A request that is answered at all passed a positive amount.
   */
  function CreateOrUpdateTransactionResponse(b: TransactionBody, outcome: Result<Value, string>): (r: Response<Value>)
    ensures r.status == BAD_REQUEST <==> Validate(b, AmountRejected).Some?
    ensures r.status == BAD_REQUEST ==> r == BadRequest(Validate(b, AmountRejected).value)
    ensures r.status == CREATED <==> Validate(b, AmountRejected).None? && outcome.Success?
    ensures r.status == CREATED ==> r == Created(outcome.value, TRANSACTION_SAVED)
    ensures Validate(b, AmountRejected).None? && outcome.Failure? ==> r == ErrorResponse(outcome.error)
    ensures r.status != BAD_REQUEST ==>
              b.fromUserId != b.toUserId && ParseFloat(b.amount.value).Some? && ParseFloat(b.amount.value).value > 0
  {
    match Validate(b, AmountRejected)
    case Some(m) => BadRequest(m)
    case None =>
      match outcome
      case Success(t) => Created(t, TRANSACTION_SAVED)
      case Failure(m) => ErrorResponse(m)
  }

  /** A rejected request does not depend on the service: it is never called. */
  lemma RejectionIgnoresService(b: TransactionBody, o1: Result<Value, string>, o2: Result<Value, string>)
    requires Validate(b, AmountRejected).Some?
    ensures CreateOrUpdateTransactionResponse(b, o1) == CreateOrUpdateTransactionResponse(b, o2)
  {
  }

  /** A valid request naming an unknown sender is answered 404 with the service's message. */
  lemma UnknownSenderIsNotFound(b: TransactionBody)
    requires Validate(b, AmountRejected).None?
    ensures var m := GraphModel.FromUserMissing(b.fromUserId.value);
            CreateOrUpdateTransactionResponse(b, Failure(m)) == NotFound(m)
    ensures var m := GraphModel.ToUserMissing(b.toUserId.value);
            CreateOrUpdateTransactionResponse(b, Failure(m)) == NotFound(m)
  {
    MissingUserIsNotFound(b.fromUserId.value);
    MissingUserIsNotFound(b.toUserId.value);
  }

  // ---------------------------------------------------------------------------
  // Relationships and lists

  /** `GET /transactions/:id/relationships`: 404 "Transaction not found" for a null result. */
  function TransactionRelationshipsResponse(outcome: Result<Option<GraphModel.TransactionNeighbourhood>, string>)
    : (r: Response<GraphModel.TransactionNeighbourhood>)
    ensures r.status == NOT_FOUND <==> outcome == Success(None)
    ensures r.status == NOT_FOUND ==> r == NotFound(TRANSACTION_NOT_FOUND)
    ensures r.status == OK <==> outcome.Success? && outcome.value.Some?
  {
    RelationshipsResponse(outcome, TRANSACTION_NOT_FOUND)
  }

  /** Against the store: the endpoint answers 404 exactly for an unknown transaction. */
  lemma UnknownTransactionIsNotFound(store: GraphStore.Store, id: string)
    ensures TransactionRelationshipsResponse(Success(store.GetTransactionRelationships(id))).status == NOT_FOUND
            <==> id !in store.transactions
  {
  }

  /** `GET /transactions/user/:userId`: the list and its length. */
  function TransactionsByUserResponse(outcome: Result<seq<Value>, string>): (r: Response<seq<Value>>)
    ensures outcome.Success? ==> r.status == OK && r.body == Succeeded(outcome.value, None, Some(|outcome.value|))
    ensures outcome.Failure? ==> r == InternalError(outcome.error)
  {
    ListResponse(outcome)
  }
}
