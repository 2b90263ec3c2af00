/**
 * `RelationshipController`: the high-risk ranking (flag, score, sort by score
 * descending, keep ten) and the shaping of the connection-path answer. The
 * user and transaction relationship endpoints use `Responses.RelationshipsResponse`.
 *
 * The database computes the per-user counts (`count(DISTINCT ...)`) and finds
 * the path; the model takes their results as inputs, and `Candidates` says what
 * the counts are over the graph store's edges.
 */
module RelationshipController {
  import opened Wrappers
  import Text
  import opened Responses
  import opened GraphModel

  const RISK_LIMIT := 10
  const MAX_HOPS := 5
  const MISSING_PATH_PARAMS := "Both fromUserId and toUserId are required"
  const NO_PATH := "No connection path found between users"

  // ---------------------------------------------------------------------------
  // getHighRiskUsers

  /** One row of `WITH u, count(DISTINCT relatedUser), count(DISTINCT t)`. */
  datatype Candidate<U> = Candidate(user: U, sharedConnections: nat, transactionCount: nat)

  /** The returned `riskProfile` map. */
  datatype RiskProfile<U> = RiskProfile(user: U, sharedConnections: nat, transactionCount: nat, riskScore: nat)

  /** `WHERE sharedConnections > 2 OR transactionCount > 5`. */
  predicate Flagged<U>(c: Candidate<U>) {
    c.sharedConnections > 2 || c.transactionCount > 5
  }

  function Profile<U>(c: Candidate<U>): RiskProfile<U> {
    RiskProfile(c.user, c.sharedConnections, c.transactionCount, c.sharedConnections * 2 + c.transactionCount)
  }

  /** The profiles of the flagged rows, in row order. */
  function FlaggedProfiles<U(==)>(cs: seq<Candidate<U>>): (r: seq<RiskProfile<U>>)
    ensures |r| <= |cs|
    ensures forall i :: 0 <= i < |cs| && Flagged(cs[i]) ==> Profile(cs[i]) in r
    ensures forall p :: p in r ==>
              && Candidate(p.user, p.sharedConnections, p.transactionCount) in cs
              && (p.sharedConnections > 2 || p.transactionCount > 5)
              && p.riskScore == p.sharedConnections * 2 + p.transactionCount
  {
    if cs == [] then []
    else
      var last := cs[|cs| - 1];
      var init := cs[..|cs| - 1];
      var prev := FlaggedProfiles(init);
      assert forall i :: 0 <= i < |init| ==> init[i] == cs[i];
      assert forall c :: c in init ==> c in cs;
      prev + (if Flagged(last) then [Profile(last)] else [])
  }

  predicate SortedByScore<U>(s: seq<RiskProfile<U>>) {
    forall i, j :: 0 <= i < j < |s| ==> s[i].riskScore >= s[j].riskScore
  }

  /** Inserts `p` into a list sorted by descending score, ahead of the entries it does not trail. */
  function Insert<U(==)>(p: RiskProfile<U>, s: seq<RiskProfile<U>>): (r: seq<RiskProfile<U>>)
    requires SortedByScore(s)
    ensures SortedByScore(r)
    ensures multiset(r) == multiset(s) + multiset{p}
  {
    if s == [] then [p]
    else if s[0].riskScore <= p.riskScore then
      SortedTail(s);
      assert forall x :: x in s ==> x.riskScore <= p.riskScore by {
        forall x | x in s ensures x.riskScore <= p.riskScore {
          if x != s[0] { assert x in s[1..]; }
        }
      }
      ConsSorted(p, s);
      [p] + s
    else
      SortedTail(s);
      var rest := Insert(p, s[1..]);
      BoundedByMultiset(rest, s[1..], p, s[0].riskScore);
      ConsSorted(s[0], rest);
      assert multiset(s) == multiset{s[0]} + multiset(s[1..]) by { assert s == [s[0]] + s[1..]; }
      [s[0]] + rest
  }

  /** The tail of a sorted list is sorted and trails its head. */
  lemma SortedTail<U>(s: seq<RiskProfile<U>>)
    requires SortedByScore(s) && s != []
    ensures SortedByScore(s[1..])
    ensures forall x :: x in s[1..] ==> x.riskScore <= s[0].riskScore
  {
    forall x | x in s[1..] ensures x.riskScore <= s[0].riskScore {
      var j :| 0 <= j < |s| - 1 && s[1..][j] == x;
      assert s[j + 1] == x;
    }
  }

  /** A head that no entry of a sorted list outscores keeps it sorted. */
  lemma ConsSorted<U>(h: RiskProfile<U>, s: seq<RiskProfile<U>>)
    requires SortedByScore(s)
    requires forall x :: x in s ==> x.riskScore <= h.riskScore
    ensures SortedByScore([h] + s)
  {
    var r := [h] + s;
    forall i, j | 0 <= i < j < |r| ensures r[i].riskScore >= r[j].riskScore {
      assert r[j] == s[j - 1];
      if i == 0 { assert s[j - 1] in s; } else { assert r[i] == s[i - 1]; }
    }
  }

  /** A bound on every entry of `tail` and on `p` bounds every entry of a list holding just those. */
  lemma BoundedByMultiset<U>(rest: seq<RiskProfile<U>>, tail: seq<RiskProfile<U>>, p: RiskProfile<U>, b: nat)
    requires multiset(rest) == multiset(tail) + multiset{p}
    requires forall x :: x in tail ==> x.riskScore <= b
    requires p.riskScore <= b
    ensures forall x :: x in rest ==> x.riskScore <= b
  {
    forall x | x in rest ensures x.riskScore <= b {
      assert x in multiset(rest);
      if x != p { assert x in multiset(tail); }
    }
  }

  /** `ORDER BY riskProfile.riskScore DESC`: a permutation sorted by descending score. */
  function SortByScore<U(==)>(s: seq<RiskProfile<U>>): (r: seq<RiskProfile<U>>)
    ensures SortedByScore(r)
    ensures multiset(r) == multiset(s)
  {
    if s == [] then []
    else
      assert s == [s[0]] + s[1..];
      Insert(s[0], SortByScore(s[1..]))
  }

  /** `LIMIT k`: the first `k` entries, or all of them. */
  function Limit<U>(s: seq<RiskProfile<U>>, k: nat): seq<RiskProfile<U>> {
    if |s| <= k then s else s[..k]
  }

  /** In a sorted list, every entry before position `k` scores at least as much as every entry after. */
  lemma SortedSplit<U>(s: seq<RiskProfile<U>>, k: nat)
    requires SortedByScore(s) && k <= |s|
    ensures forall p, q :: p in s[..k] && q in s[k..] ==> q.riskScore <= p.riskScore
  {
    forall p, q | p in s[..k] && q in s[k..] ensures q.riskScore <= p.riskScore {
      var l :| 0 <= l < k && s[..k][l] == p;
      var m :| 0 <= m < |s| - k && s[k..][m] == q;
      assert s[l] == p && s[k + m] == q;
    }
  }

  /** The entries `LIMIT` keeps from a sorted list are a sub-multiset that outscores the rest. */
  lemma LimitOfSorted<U>(s: seq<RiskProfile<U>>, k: nat)
    requires SortedByScore(s)
    ensures |Limit(s, k)| <= k
    ensures SortedByScore(Limit(s, k))
    ensures multiset(Limit(s, k)) <= multiset(s)
    ensures |s| <= k ==> Limit(s, k) == s
    ensures forall p, q :: p in Limit(s, k) && q in multiset(s) - multiset(Limit(s, k)) ==> q.riskScore <= p.riskScore
  {
    if |s| > k {
      var r := s[..k];
      assert SortedByScore(r) by {
        forall i, j | 0 <= i < j < |r| ensures r[i].riskScore >= r[j].riskScore {
          assert r[i] == s[i] && r[j] == s[j];
        }
      }
      PrefixMultiset(s, k);
      SortedSplit(s, k);
      forall p, q | p in r && q in multiset(s) - multiset(r) ensures q.riskScore <= p.riskScore {
        assert q in multiset(s[k..]);
      }
    }
  }

  /** A list's multiset is that of its first `k` entries plus that of the rest. */
  lemma PrefixMultiset<U>(s: seq<RiskProfile<U>>, k: nat)
    requires k <= |s|
    ensures multiset(s) == multiset(s[..k]) + multiset(s[k..])
  {
    assert s == s[..k] + s[k..];
  }

  /**
   * `getHighRiskUsers`: the flagged rows' profiles, highest score first, at most ten. The
   * list is drawn from the flagged profiles, holds all of them when there are at most ten,
   * and no flagged profile left out scores more than one that was kept.
   */
  function HighRiskUsers<U(==)>(cs: seq<Candidate<U>>): (r: seq<RiskProfile<U>>)
    ensures |r| <= RISK_LIMIT
    ensures SortedByScore(r)
    ensures multiset(r) <= multiset(FlaggedProfiles(cs))
    ensures |FlaggedProfiles(cs)| <= RISK_LIMIT ==> multiset(r) == multiset(FlaggedProfiles(cs))
    ensures forall p, q :: p in r && q in multiset(FlaggedProfiles(cs)) - multiset(r) ==> q.riskScore <= p.riskScore
  {
    var sorted := SortByScore(FlaggedProfiles(cs));
    LimitOfSorted(sorted, RISK_LIMIT);
    Limit(sorted, RISK_LIMIT)
  }

  /**
   * Every listed profile is a flagged row scored `2 * sharedConnections + transactionCount`;
   * with at most ten flagged rows, a row is listed exactly when it is flagged.
   */
  lemma HighRiskMembership<U>(cs: seq<Candidate<U>>)
    ensures forall p :: p in HighRiskUsers(cs) ==>
              && Candidate(p.user, p.sharedConnections, p.transactionCount) in cs
              && (p.sharedConnections > 2 || p.transactionCount > 5)
              && p.riskScore == p.sharedConnections * 2 + p.transactionCount
    ensures |FlaggedProfiles(cs)| <= RISK_LIMIT ==>
              forall i :: 0 <= i < |cs| ==> (Profile(cs[i]) in HighRiskUsers(cs) <==> Flagged(cs[i]))
  {
    var r := HighRiskUsers(cs);
    var f := FlaggedProfiles(cs);
    forall p | p in r ensures p in f {
      assert p in multiset(r);
    }
    if |f| <= RISK_LIMIT {
      forall i | 0 <= i < |cs| && Flagged(cs[i]) ensures Profile(cs[i]) in r {
        assert Profile(cs[i]) in multiset(f);
      }
      forall i | 0 <= i < |cs| && Profile(cs[i]) in r ensures Flagged(cs[i]) {
        assert Profile(cs[i]) in f;
      }
    }
  }

  // ---------------------------------------------------------------------------
  // The counts over the graph store

  /** The other user of every shared-attribute edge at `uid`, matched in either direction. */
  function RelatedUsers(edges: seq<Edge>, uid: string): set<string> {
    set e | e in edges && SharedWith(uid)(e) :: if e.from == uid then e.to else e.from
  }

  /** The transaction of every `SENT_TO` or `RECEIVED_FROM` edge at `uid`, in either direction. */
  function InvolvedTransactions(edges: seq<Edge>, uid: string): set<string> {
    set e | e in edges && IsFlowRel(e.rel) &&
            ((e.ends == UserToTransaction && e.from == uid) || (e.ends == TransactionToUser && e.to == uid))
          :: if e.ends == UserToTransaction then e.to else e.from
  }

  /** The rows of the first `WITH`: one per user in node order, with the two distinct counts. */
  function Candidates(order: seq<string>, users: map<string, User>, edges: seq<Edge>): (r: seq<Candidate<User>>)
    requires forall k :: k in users ==> users[k].id == k
    ensures forall c :: c in r ==>
              && c.user.id in users && users[c.user.id] == c.user
              && c.sharedConnections == |RelatedUsers(edges, c.user.id)|
              && c.transactionCount == |InvolvedTransactions(edges, c.user.id)|
    ensures forall i :: 0 <= i < |order| && order[i] in users ==>
              Candidate(users[order[i]], |RelatedUsers(edges, order[i])|, |InvolvedTransactions(edges, order[i])|) in r
  {
    if order == [] then []
    else
      var id := order[|order| - 1];
      var init := order[..|order| - 1];
      var prev := Candidates(init, users, edges);
      assert forall i :: 0 <= i < |init| ==> init[i] == order[i];
      prev + (if id in users then [Candidate(users[id], |RelatedUsers(edges, id)|, |InvolvedTransactions(edges, id)|)] else [])
  }

  /** Over the store: a listed user's counts are its distinct partners and transactions. */
  lemma StoreRiskProfiles(order: seq<string>, users: map<string, User>, edges: seq<Edge>)
    requires forall k :: k in users ==> users[k].id == k
    ensures forall p :: p in HighRiskUsers(Candidates(order, users, edges)) ==>
              && p.user.id in users
              && p.sharedConnections == |RelatedUsers(edges, p.user.id)|
              && p.transactionCount == |InvolvedTransactions(edges, p.user.id)|
              && p.riskScore == 2 * |RelatedUsers(edges, p.user.id)| + |InvolvedTransactions(edges, p.user.id)|
              && (|RelatedUsers(edges, p.user.id)| > 2 || |InvolvedTransactions(edges, p.user.id)| > 5)
  {
    HighRiskMembership(Candidates(order, users, edges));
  }

  // ---------------------------------------------------------------------------
  // getConnectionPath

  /** A path as the driver returns it: a start node and one (relationship, node) step per hop. */
  datatype Path<N, R> = Path(start: N, segments: seq<(R, N)>)

  /** `path.length`: the number of relationships. */
  function Hops<N, R>(p: Path<N, R>): nat {
    |p.segments|
  }

  datatype Connection<N, R> =
    | NotConnected(message: string)
    | Connected(pathLength: nat, path: Path<N, R>)

  /**
   * `GET /relationships/path`: 400 unless both ids are given (the query is not run), a 500
   * for a failed query, otherwise `connected` false for no rows or true with the first path
   * and its length.
   */
  function ConnectionPathResponse<N, R>(fromUserId: Option<string>, toUserId: Option<string>,
                                        result: Result<seq<Path<N, R>>, string>): (r: Response<Connection<N, R>>)
    ensures !(Text.Given(fromUserId) && Text.Given(toUserId)) <==> r == BadRequest(MISSING_PATH_PARAMS)
    ensures r.status == INTERNAL_ERROR <==> Text.Given(fromUserId) && Text.Given(toUserId) && result.Failure?
    ensures r.status == OK <==> Text.Given(fromUserId) && Text.Given(toUserId) && result.Success?
    ensures r.status == OK ==> r.body.Succeeded? && (r.body.data.Connected? <==> result.value != [])
    ensures r.status == OK && r.body.data.Connected? ==>
              r.body.data.path == result.value[0] && r.body.data.pathLength == Hops(result.value[0])
  {
    if !Text.Given(fromUserId) || !Text.Given(toUserId) then BadRequest(MISSING_PATH_PARAMS)
    else
      match result
      case Failure(m) => InternalError(m)
      case Success(paths) =>
        if paths == [] then Ok(NotConnected(NO_PATH))
        else Ok(Connected(Hops(paths[0]), paths[0]))
  }

  /** Without both ids the answer does not depend on the query's result. */
  lemma MissingIdsRunNoQuery<N, R>(fromUserId: Option<string>, toUserId: Option<string>,
                                   a: Result<seq<Path<N, R>>, string>, b: Result<seq<Path<N, R>>, string>)
    requires !(Text.Given(fromUserId) && Text.Given(toUserId))
    ensures ConnectionPathResponse(fromUserId, toUserId, a) == ConnectionPathResponse(fromUserId, toUserId, b)
  {
  }

  /** When the query yields paths within its `*..5` bound, the reported length is at most 5.
      The bound on the input paths is what the Cypher pattern `*..5` guarantees. The model
      takes it as given, since path queries are inputs here. */
  lemma PathLengthBounded<N, R>(fromUserId: Option<string>, toUserId: Option<string>, paths: seq<Path<N, R>>)
    requires forall p :: p in paths ==> Hops(p) <= MAX_HOPS
    ensures var r := ConnectionPathResponse(fromUserId, toUserId, Success(paths));
            r.status == OK && r.body.data.Connected? ==> 1 <= |paths| && r.body.data.pathLength <= MAX_HOPS
  {
  }
}
