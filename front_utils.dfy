/**
 * The data helpers of the front end's utility module: record validators,
 * search and filter functions over user and transaction lists, the risk
 * colour table, the per-type counts of graph elements, and the
 * classification of a failed API call.
 */
module FrontUtils {
  import opened Wrappers
  import opened DriverValues
  import opened Seqs
  import Text
  import FrontValues

  // ---------------------------------------------------------------------------
  // Validators

  const USER_REQUIRED: seq<string> := ["id", "name", "email"]
  const TRANSACTION_REQUIRED: seq<string> := ["id", "amount", "fromUserId", "toUserId"]

  /** `!!record[key]`. */
  predicate FieldTruthy(v: Value, key: string) {
    FrontValues.Present(Field(v, key))
  }

  /** `requiredFields.filter(field => !record[field])`. */
  function MissingFields(v: Value, required: seq<string>): (r: seq<string>)
    ensures forall k :: k in r <==> k in required && !FieldTruthy(v, k)
  {
    Filter(required, k => !FieldTruthy(v, k))
  }

  /** No required field is missing exactly when every one of them is truthy. */
  lemma NoneMissing(v: Value, required: seq<string>)
    ensures |MissingFields(v, required)| == 0 <==> forall k :: k in required ==> FieldTruthy(v, k)
  {
    var m := MissingFields(v, required);
    if |m| != 0 {
      assert m[0] in m;
    }
  }

  function ValidateUserData(user: Value): (r: bool)
    ensures r <==> FieldTruthy(user, "id") && FieldTruthy(user, "name") && FieldTruthy(user, "email")
  {
    NoneMissing(user, USER_REQUIRED);
    assert USER_REQUIRED[0] == "id" && USER_REQUIRED[1] == "name" && USER_REQUIRED[2] == "email";
    |MissingFields(user, USER_REQUIRED)| == 0
  }

  function ValidateTransactionData(transaction: Value): (r: bool)
    ensures r <==> FieldTruthy(transaction, "id") && FieldTruthy(transaction, "amount") &&
                   FieldTruthy(transaction, "fromUserId") && FieldTruthy(transaction, "toUserId")
  {
    NoneMissing(transaction, TRANSACTION_REQUIRED);
    assert TRANSACTION_REQUIRED[0] == "id" && TRANSACTION_REQUIRED[1] == "amount";
    assert TRANSACTION_REQUIRED[2] == "fromUserId" && TRANSACTION_REQUIRED[3] == "toUserId";
    |MissingFields(transaction, TRANSACTION_REQUIRED)| == 0
  }

  // ---------------------------------------------------------------------------
  // Search

  /** `v[key]?.toLowerCase().includes(term)`, for a field that holds a string. */
  predicate FieldIncludes(v: Value, key: string, term: string) {
    match FrontValues.StringField(v, key)
    case Some(s) => Text.Contains(Text.Lower(s), term)
    case None => false
  }

  /** The lowercased string in field `key` has `term` somewhere in it. */
  ghost predicate Mentions(v: Value, key: string, term: string) {
    exists i :: FrontValues.StringField(v, key).Some? && Text.OccursAt(Text.Lower(FrontValues.StringField(v, key).value), term, i)
  }

  lemma FieldIncludesIff(v: Value, key: string, term: string)
    ensures FieldIncludes(v, key, term) <==> Mentions(v, key, term)
  {
    if FrontValues.StringField(v, key).Some? {
      Text.ContainsIff(Text.Lower(FrontValues.StringField(v, key).value), term);
    }
  }

  /** Some field among `keys` mentions `term`. */
  predicate AnyIncludes(v: Value, keys: seq<string>, term: string) {
    exists i :: 0 <= i < |keys| && FieldIncludes(v, keys[i], term)
  }

  ghost predicate AnyMentions(v: Value, keys: seq<string>, term: string) {
    exists i :: 0 <= i < |keys| && Mentions(v, keys[i], term)
  }

  lemma AnyIncludesIff(keys: seq<string>, term: string)
    ensures forall v :: AnyIncludes(v, keys, term) <==> AnyMentions(v, keys, term)
  {
    forall v, i | 0 <= i < |keys| {
      FieldIncludesIff(v, keys[i], term);
    }
  }

  const USER_SEARCH_KEYS: seq<string> := ["name", "email", "id"]
  const TRANSACTION_SEARCH_KEYS: seq<string> := ["id", "description", "fromUserId", "toUserId"]

  /** The search shared by `searchUsers` and `searchTransactions`: an empty term keeps
      everything; otherwise an item stays when one of `keys` mentions the lowercased term. */
  function Search(items: seq<Value>, keys: seq<string>, searchTerm: string): (r: seq<Value>)
    ensures searchTerm == "" ==> r == items
    ensures searchTerm != "" ==>
              forall v :: v in r <==> v in items && AnyMentions(v, keys, Text.Lower(searchTerm))
    ensures |r| <= |items|
  {
    if searchTerm == "" then items
    else
      var term := Text.Lower(searchTerm);
      AnyIncludesIff(keys, term);
      Filter(items, v => AnyIncludes(v, keys, term))
  }

  /** Searching keeps the input order: the search of a concatenation is the concatenation
      of the searches. */
  lemma SearchAppend(a: seq<Value>, b: seq<Value>, keys: seq<string>, searchTerm: string)
    ensures Search(a + b, keys, searchTerm) == Search(a, keys, searchTerm) + Search(b, keys, searchTerm)
  {
    if searchTerm != "" {
      var term := Text.Lower(searchTerm);
      FilterAppend(a, b, v => AnyIncludes(v, keys, term));
    }
  }

  function SearchUsers(users: seq<Value>, searchTerm: string): (r: seq<Value>)
    ensures searchTerm == "" ==> r == users
    ensures searchTerm != "" ==> forall u :: u in r <==> (u in users &&
              (Mentions(u, "name", Text.Lower(searchTerm)) || Mentions(u, "email", Text.Lower(searchTerm)) ||
               Mentions(u, "id", Text.Lower(searchTerm))))
  {
    var keys := USER_SEARCH_KEYS;
    assert forall u, t :: AnyMentions(u, keys, t) <==> Mentions(u, "name", t) || Mentions(u, "email", t) || Mentions(u, "id", t) by {
      forall u, t ensures AnyMentions(u, keys, t) <==> Mentions(u, "name", t) || Mentions(u, "email", t) || Mentions(u, "id", t) {
        assert keys[0] == "name" && keys[1] == "email" && keys[2] == "id";
      }
    }
    Search(users, keys, searchTerm)
  }

  function SearchTransactions(transactions: seq<Value>, searchTerm: string): (r: seq<Value>)
    ensures searchTerm == "" ==> r == transactions
    ensures searchTerm != "" ==> forall t :: t in r <==> (t in transactions &&
              (Mentions(t, "id", Text.Lower(searchTerm)) || Mentions(t, "description", Text.Lower(searchTerm)) ||
               Mentions(t, "fromUserId", Text.Lower(searchTerm)) || Mentions(t, "toUserId", Text.Lower(searchTerm))))
  {
    var keys := TRANSACTION_SEARCH_KEYS;
    assert forall v, t :: AnyMentions(v, keys, t) <==>
        Mentions(v, "id", t) || Mentions(v, "description", t) || Mentions(v, "fromUserId", t) || Mentions(v, "toUserId", t) by {
      forall v, t ensures AnyMentions(v, keys, t) <==>
          Mentions(v, "id", t) || Mentions(v, "description", t) || Mentions(v, "fromUserId", t) || Mentions(v, "toUserId", t) {
        assert keys[0] == "id" && keys[1] == "description" && keys[2] == "fromUserId" && keys[3] == "toUserId";
      }
    }
    Search(transactions, keys, searchTerm)
  }

  // ---------------------------------------------------------------------------
  // Filters on metadata

  /** `record.metadata?.[key] === wanted`. */
  predicate MetadataIs(v: Value, key: string, wanted: string) {
    FrontValues.Nested(v, "metadata", key) == Some(Str(wanted))
  }

  /** The filter shared by `filterUsersByRisk` and `filterTransactionsByCategory`: a falsy
      filter keeps everything, otherwise exactly the items whose metadata field equals it. */
  function FilterByMetadata(items: seq<Value>, key: string, wanted: string): (r: seq<Value>)
    ensures wanted == "" ==> r == items
    ensures wanted != "" ==> forall v :: v in r <==> v in items && MetadataIs(v, key, wanted)
  {
    if wanted == "" then items else Filter(items, v => MetadataIs(v, key, wanted))
  }

  lemma FilterByMetadataAppend(a: seq<Value>, b: seq<Value>, key: string, wanted: string)
    ensures FilterByMetadata(a + b, key, wanted) == FilterByMetadata(a, key, wanted) + FilterByMetadata(b, key, wanted)
  {
    if wanted != "" {
      FilterAppend(a, b, v => MetadataIs(v, key, wanted));
    }
  }

  function FilterUsersByRisk(users: seq<Value>, riskLevel: string): (r: seq<Value>)
    ensures riskLevel == "" ==> r == users
    ensures riskLevel != "" ==> forall u :: u in r <==> u in users && MetadataIs(u, "riskLevel", riskLevel)
  {
    FilterByMetadata(users, "riskLevel", riskLevel)
  }

  function FilterTransactionsByCategory(transactions: seq<Value>, category: string): (r: seq<Value>)
    ensures category == "" ==> r == transactions
    ensures category != "" ==> forall t :: t in r <==> t in transactions && MetadataIs(t, "category", category)
  {
    FilterByMetadata(transactions, "category", category)
  }

  // ---------------------------------------------------------------------------
  // Risk colours

  const LOW_COLOR := "#28a745"
  const MEDIUM_COLOR := "#ffc107"
  const HIGH_COLOR := "#dc3545"
  const DEFAULT_COLOR := "#667eea"

  function GetRiskColor(riskLevel: string): (r: string)
    ensures r == LOW_COLOR <==> riskLevel == "low"
    ensures r == MEDIUM_COLOR <==> riskLevel == "medium"
    ensures r == HIGH_COLOR <==> riskLevel == "high"
    ensures r == DEFAULT_COLOR <==> riskLevel != "low" && riskLevel != "medium" && riskLevel != "high"
  {
    assert LOW_COLOR[1] != MEDIUM_COLOR[1] && LOW_COLOR[1] != HIGH_COLOR[1] && LOW_COLOR[1] != DEFAULT_COLOR[1];
    assert MEDIUM_COLOR[1] != HIGH_COLOR[1] && MEDIUM_COLOR[1] != DEFAULT_COLOR[1] && HIGH_COLOR[1] != DEFAULT_COLOR[1];
    match riskLevel
    case "low" => LOW_COLOR
    case "medium" => MEDIUM_COLOR
    case "high" => HIGH_COLOR
    case _ => DEFAULT_COLOR
  }

  // ---------------------------------------------------------------------------
  // Counting element types

  /** The key an element is counted under: `String(type || 'unknown')`. */
  function TypeKey(t: Option<Value>): (r: string)
    ensures !FrontValues.Present(t) ==> r == "unknown"
    ensures FrontValues.Present(t) ==> r == FrontValues.Render(t.value)
  {
    if FrontValues.Present(t) then FrontValues.Render(t.value) else "unknown"
  }

  function TypeKeys(types: seq<Option<Value>>): (ks: seq<string>)
    ensures |ks| == |types|
    ensures forall i :: 0 <= i < |types| ==> ks[i] == TypeKey(types[i])
  {
    if types == [] then [] else TypeKeys(types[..|types| - 1]) + [TypeKey(types[|types| - 1])]
  }

  lemma TypeKeysPrefix(types: seq<Option<Value>>, i: nat)
    requires i < |types|
    ensures TypeKeys(types[..i + 1]) == TypeKeys(types[..i]) + [TypeKey(types[i])]
  {
    assert types[..i + 1][..i] == types[..i];
  }

  /** The `types` object: its keys in insertion order, each with its count. */
  type Tally = seq<(string, nat)>

  function Names(c: Tally): (ns: seq<string>)
    ensures |ns| == |c|
    ensures forall i :: 0 <= i < |c| ==> ns[i] == c[i].0
  {
    if c == [] then [] else [c[0].0] + Names(c[1..])
  }

  /** `types[type]`, with a missing key read as 0. */
  function CountOf(c: Tally, k: string): nat {
    if c == [] then 0 else if c[0].0 == k then c[0].1 else CountOf(c[1..], k)
  }

  function Total(c: Tally): nat {
    if c == [] then 0 else c[0].1 + Total(c[1..])
  }

  /** `types[type] = (types[type] || 0) + 1`. */
  function Bump(c: Tally, k: string): (r: Tally)
    ensures Names(r) == if k in Names(c) then Names(c) else Names(c) + [k]
    ensures CountOf(r, k) == CountOf(c, k) + 1
    ensures forall j :: j != k ==> CountOf(r, j) == CountOf(c, j)
    ensures Total(r) == Total(c) + 1
  {
    if c == [] then [(k, 1)]
    else if c[0].0 == k then
      var r := [(k, c[0].1 + 1)] + c[1..];
      assert r[1..] == c[1..];
      r
    else
      var rest := Bump(c[1..], k);
      var r := [c[0]] + rest;
      assert r[1..] == rest;
      r
  }

  /** The counts for a list of keys, adding them one at a time. */
  function TallyOf(ks: seq<string>): Tally {
    if ks == [] then [] else Bump(TallyOf(ks[..|ks| - 1]), ks[|ks| - 1])
  }

  /** The counted keys are the distinct keys in order of first appearance. */
  lemma {:induction false} TallyNames(ks: seq<string>)
    ensures Names(TallyOf(ks)) == Dedup(ks)
  {
    if ks != [] {
      var init, last := ks[..|ks| - 1], ks[|ks| - 1];
      var d, prev := Dedup(init), TallyOf(init);
      assert Names(prev) == d by { TallyNames(init); }
      assert TallyOf(ks) == Bump(prev, last);
      assert Names(Bump(prev, last)) == if last in d then d else d + [last];
      assert Dedup(ks) == if last in d then d else d + [last];
    }
  }

  /** Each key is counted as many times as it occurs. */
  lemma {:induction false} TallyCounts(ks: seq<string>, k: string)
    ensures CountOf(TallyOf(ks), k) == Occurrences(ks, k)
  {
    if ks != [] {
      TallyCounts(ks[..|ks| - 1], k);
    }
  }

  /** The counts add up to the number of elements. */
  lemma {:induction false} TallyTotal(ks: seq<string>)
    ensures Total(TallyOf(ks)) == |ks|
  {
    if ks != [] {
      TallyTotal(ks[..|ks| - 1]);
    }
  }

  /** `countNodeTypes` and `countEdgeTypes`: one pass over the elements' `type` data,
      bumping the count of each element's key. */
  method CountTypes(types: seq<Option<Value>>) returns (counts: Tally)
    ensures counts == TallyOf(TypeKeys(types))
    ensures Names(counts) == Dedup(TypeKeys(types))
    ensures Total(counts) == |types|
    ensures forall k :: CountOf(counts, k) == Occurrences(TypeKeys(types), k)
  {
    counts := [];
    var i := 0;
    while i < |types|
      invariant 0 <= i <= |types|
      invariant counts == TallyOf(TypeKeys(types[..i]))
    {
      TypeKeysPrefix(types, i);
      counts := Bump(counts, TypeKey(types[i]));
      i := i + 1;
    }
    assert counts == TallyOf(TypeKeys(types)) by { assert types[..i] == types; }
    TallyNames(TypeKeys(types));
    TallyTotal(TypeKeys(types));
    forall k ensures CountOf(counts, k) == Occurrences(TypeKeys(types), k) {
      TallyCounts(TypeKeys(types), k);
    }
  }

  /** Elements without a truthy type are all counted under `unknown`. */
  lemma UntypedCountedAsUnknown(types: seq<Option<Value>>, i: nat)
    requires i < |types| && !FrontValues.Present(types[i])
    ensures Occurrences(TypeKeys(types), "unknown") > 0
  {
    var ks := TypeKeys(types);
    assert ks[i] == "unknown";
    OccurrencesPositive(ks, "unknown");
  }

  // ---------------------------------------------------------------------------
  // API errors

  /** What the client knows about a failed call: the error's name, its message and the
      HTTP status it carries, if any. */
  datatype ApiError = ApiError(name: string, message: string, status: Option<int>)

  datatype ErrorKind = Network | NotFoundError | ServerError | UnknownError

  datatype ErrorReport = ErrorReport(kind: ErrorKind, message: string, details: string)

  /** The `type` string of each kind of report. */
  function KindName(k: ErrorKind): string {
    match k
    case Network => "network"
    case NotFoundError => "not_found"
    case ServerError => "server"
    case UnknownError => "unknown"
  }

  const NETWORK_MESSAGE := "Network error: Please check if the API server is running"
  const NOT_FOUND_MESSAGE := "Resource not found"
  const SERVER_MESSAGE := "Server error: Please try again later"
  const UNKNOWN_MESSAGE := "An unexpected error occurred"

  function KindMessage(k: ErrorKind): string {
    match k
    case Network => NETWORK_MESSAGE
    case NotFoundError => NOT_FOUND_MESSAGE
    case ServerError => SERVER_MESSAGE
    case UnknownError => UNKNOWN_MESSAGE
  }

  /** A failed `fetch`: a `TypeError` whose message mentions fetch. */
  ghost predicate IsNetworkFailure(e: ApiError) {
    e.name == "TypeError" && exists i :: Text.OccursAt(e.message, "fetch", i)
  }

  /** `handleAPIError`: network failure first, then 404, then any status from 500 up. */
  function HandleApiError(e: ApiError): (r: ErrorReport)
    ensures r.kind == Network <==> IsNetworkFailure(e)
    ensures r.kind == NotFoundError <==> !IsNetworkFailure(e) && e.status == Some(404)
    ensures r.kind == ServerError <==> !IsNetworkFailure(e) && e.status.Some? && e.status.value >= 500
    ensures r.kind == UnknownError <==>
              !IsNetworkFailure(e) && (e.status.None? || (e.status.value != 404 && e.status.value < 500))
    ensures r.message == KindMessage(r.kind)
    ensures r.details == e.message
  {
    Text.ContainsIff(e.message, "fetch");
    var kind :=
      if e.name == "TypeError" && Text.Contains(e.message, "fetch") then Network
      else if e.status == Some(404) then NotFoundError
      else if e.status.Some? && e.status.value >= 500 then ServerError
      else UnknownError;
    ErrorReport(kind, KindMessage(kind), e.message)
  }
}
