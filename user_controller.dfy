/**
 * `UserController`: request validation for the user upsert (required fields,
 * then the e-mail format), the mapping of the service's outcome to a status,
 * and the 404 of the relationships endpoint.
 *
 * The e-mail check is the regular expression `^[^\s@]+@[^\s@]+\.[^\s@]+$`.
 * `TestEmail` runs it as a finite automaton; `WellFormedEmail` spells out the
 * strings it describes, and `TestEmailIff` proves the two agree.
 */
module UserController {
  import opened Wrappers
  import Text
  import opened DriverValues
  import opened Responses
  import GraphModel
  import GraphStore

  const MISSING_FIELDS := "Missing required fields: id, name, email"
  const INVALID_EMAIL := "Invalid email format"
  const USER_SAVED := "User created/updated successfully"
  const USER_NOT_FOUND := "User not found"

  // ---------------------------------------------------------------------------
  // The e-mail format

  /** JavaScript's `\s`: the ASCII controls tab to carriage return, space and the Unicode spaces. */
  predicate IsWhitespace(c: char) {
    var n := c as int;
    (9 <= n <= 13) || n == 32 || n == 0xA0 || n == 0x1680 || (0x2000 <= n <= 0x200A) ||
    n == 0x2028 || n == 0x2029 || n == 0x202F || n == 0x205F || n == 0x3000 || n == 0xFEFF
  }

  /** The character class `[^\s@]`. */
  predicate Plain(c: char) {
    !IsWhitespace(c) && c != '@'
  }

  /**
   * The strings the pattern accepts: no whitespace, exactly one `@`, a non-empty part
   * before it, and after it a `.` with at least one character on either side.
   */
  ghost predicate WellFormedEmail(s: string) {
    (forall k :: 0 <= k < |s| ==> !IsWhitespace(s[k])) &&
    exists i :: 0 < i < |s| && s[i] == '@' && (forall k :: 0 <= k < |s| && k != i ==> s[k] != '@') &&
      exists j :: i + 1 < j < |s| - 1 && s[j] == '.'
  }

  /** States of the automaton for the pattern. `Accept` is the only accepting state. */
  datatype EmailState = Start | Local | AfterAt | Domain | AfterDot | Accept | Reject

  function Step(q: EmailState, c: char): EmailState {
    if !Plain(c) then
      if c == '@' && q == Local then AfterAt else Reject
    else
      match q
      case Start => Local
      case Local => Local
      case AfterAt => Domain
      case Domain => if c == '.' then AfterDot else Domain
      case AfterDot => Accept
      case Accept => Accept
      case Reject => Reject
  }

  /** The state reached after reading `s`. */
  function Run(s: string): EmailState {
    if s == [] then Start else Step(Run(s[..|s| - 1]), s[|s| - 1])
  }

  /** `emailRegex.test(email)`. */
  function TestEmail(s: string): bool {
    Run(s) == Accept
  }

  ghost predicate PlainBetween(s: string, lo: int, hi: int)
    requires 0 <= lo && hi <= |s|
  {
    forall k :: lo <= k < hi ==> Plain(s[k])
  }

  ghost predicate NoDotBetween(s: string, lo: int, hi: int)
    requires 0 <= lo && hi <= |s|
  {
    forall k :: lo <= k < hi ==> s[k] != '.'
  }

  /** `s[i]` is the `@` and everything else is in `[^\s@]`, with text before the `@`. */
  ghost predicate AtSplit(s: string, i: int) {
    0 < i < |s| && s[i] == '@' && PlainBetween(s, 0, i) && PlainBetween(s, i + 1, |s|)
  }

  /** Two `@`, a leading `@` or a whitespace character: no extension can match. */
  ghost predicate Spoiled(s: string) {
    (exists k :: 0 <= k < |s| && IsWhitespace(s[k])) ||
    (|s| > 0 && s[0] == '@') ||
    (exists k1, k2 :: 0 <= k1 < k2 < |s| && s[k1] == '@' && s[k2] == '@')
  }

  /** What each state says about the text read so far. */
  ghost predicate Means(q: EmailState, s: string) {
    match q
    case Start => s == []
    case Local => |s| > 0 && PlainBetween(s, 0, |s|)
    case AfterAt => AtSplit(s, |s| - 1)
    case Domain => exists i :: AtSplit(s, i) && i + 1 < |s| && NoDotBetween(s, i + 2, |s|)
    case AfterDot => exists i :: AtSplit(s, i) && i + 2 < |s| && s[|s| - 1] == '.' && NoDotBetween(s, i + 2, |s| - 1)
    case Accept => exists i :: AtSplit(s, i) && exists j :: i + 1 < j < |s| - 1 && s[j] == '.'
    case Reject => Spoiled(s)
  }

  lemma {:induction false} StepMeaning(q: EmailState, p: string, c: char)
    requires Means(q, p)
    ensures Means(Step(q, c), p + [c])
  {
    var s := p + [c];
    assert forall k :: 0 <= k < |p| ==> s[k] == p[k];
    assert s[|p|] == c;
    if !Plain(c) {
      if c == '@' && q == Local {
        assert AtSplit(s, |s| - 1);
      } else if IsWhitespace(c) {
        assert 0 <= |p| < |s| && IsWhitespace(s[|p|]);
      } else if q == Reject {
        if exists k :: 0 <= k < |p| && IsWhitespace(p[k]) {
          var k :| 0 <= k < |p| && IsWhitespace(p[k]);
          assert IsWhitespace(s[k]);
        } else if |p| > 0 && p[0] == '@' {
        } else {
          var k1, k2 :| 0 <= k1 < k2 < |p| && p[k1] == '@' && p[k2] == '@';
          assert s[k1] == '@' && s[k2] == '@';
        }
      } else if q == Start {
        assert s[0] == '@';
      } else if q == AfterAt {
        assert s[|p| - 1] == '@' && s[|p|] == '@';
      } else if q == Local {
      } else {
        var i :| AtSplit(p, i);
        assert s[i] == '@' && s[|p|] == '@';
      }
    } else {
      match q
      case Start =>
      case Local =>
      case AfterAt =>
        assert AtSplit(s, |p| - 1);
      case Domain =>
        var i :| AtSplit(p, i) && i + 1 < |p| && NoDotBetween(p, i + 2, |p|);
        assert AtSplit(s, i);
      case AfterDot =>
        var i :| AtSplit(p, i) && i + 2 < |p| && p[|p| - 1] == '.' && NoDotBetween(p, i + 2, |p| - 1);
        assert AtSplit(s, i);
        assert i + 1 < |p| - 1 < |s| - 1 && s[|p| - 1] == '.';
      case Accept =>
        var i :| AtSplit(p, i) && exists j :: i + 1 < j < |p| - 1 && p[j] == '.';
        var j :| i + 1 < j < |p| - 1 && p[j] == '.';
        assert AtSplit(s, i);
        assert i + 1 < j < |s| - 1 && s[j] == '.';
      case Reject =>
        if exists k :: 0 <= k < |p| && IsWhitespace(p[k]) {
          var k :| 0 <= k < |p| && IsWhitespace(p[k]);
          assert IsWhitespace(s[k]);
        } else if |p| > 0 && p[0] == '@' {
        } else {
          var k1, k2 :| 0 <= k1 < k2 < |p| && p[k1] == '@' && p[k2] == '@';
          assert s[k1] == '@' && s[k2] == '@';
        }
    }
  }

  lemma {:induction false} RunMeaning(s: string)
    ensures Means(Run(s), s)
  {
    if s != [] {
      var p := s[..|s| - 1];
      RunMeaning(p);
      StepMeaning(Run(p), p, s[|s| - 1]);
      assert p + [s[|s| - 1]] == s;
    }
  }

  /** The automaton accepts exactly the well-formed addresses. */
  lemma TestEmailIff(s: string)
    ensures TestEmail(s) <==> WellFormedEmail(s)
  {
    RunMeaning(s);
    var q := Run(s);
    if q == Accept {
      var i :| AtSplit(s, i) && exists j :: i + 1 < j < |s| - 1 && s[j] == '.';
      assert forall k :: 0 <= k < |s| && k != i ==> Plain(s[k]);
    }
  }

  // ---------------------------------------------------------------------------
  // createOrUpdateUser

  /** The fields of the request body the controller looks at; the rest goes to the service. */
  datatype UserBody = UserBody(id: Option<string>, name: Option<string>, email: Option<string>)

  predicate HasRequiredFields(body: UserBody) {
    Text.Given(body.id) && Text.Given(body.name) && Text.Given(body.email)
  }

  /** The body passes both checks, so the service is called. */
  ghost predicate UserAccepted(body: UserBody) {
    HasRequiredFields(body) && WellFormedEmail(body.email.value)
  }

  /**
   * The response to `POST /users`, given what the service call yields when it is made:
   * missing fields first, then the e-mail format, then 201 or 500.
   */
  function CreateOrUpdateUserResponse(body: UserBody, outcome: Result<Value, string>): (r: Response<Value>)
    ensures !HasRequiredFields(body) ==> r == BadRequest(MISSING_FIELDS)
    ensures HasRequiredFields(body) ==>
              (r == BadRequest(INVALID_EMAIL) <==> !WellFormedEmail(body.email.value))
    ensures r.status == BAD_REQUEST <==> !UserAccepted(body)
    ensures r.status == CREATED <==> UserAccepted(body) && outcome.Success?
    ensures r.status == CREATED ==> r == Created(outcome.value, USER_SAVED)
    ensures r.status == INTERNAL_ERROR <==> UserAccepted(body) && outcome.Failure?
    ensures r.status == INTERNAL_ERROR ==> r == InternalError(outcome.error)
  {
    if !HasRequiredFields(body) then BadRequest(MISSING_FIELDS)
    else
      TestEmailIff(body.email.value);
      if !TestEmail(body.email.value) then BadRequest(INVALID_EMAIL)
      else
        match outcome
        case Success(user) => Created(user, USER_SAVED)
        case Failure(m) => InternalError(m)
  }

  /** A rejected request does not depend on the service: it is never called. */
  lemma RejectionIgnoresService(body: UserBody, o1: Result<Value, string>, o2: Result<Value, string>)
    requires !UserAccepted(body)
    ensures CreateOrUpdateUserResponse(body, o1) == CreateOrUpdateUserResponse(body, o2)
  {
  }

  /** A request with all fields and the address `a@b.c` reaches the service. */
  lemma SampleAddressAccepted()
    ensures CreateOrUpdateUserResponse(UserBody(Some("user-001"), Some("Ann"), Some("a@b.c")), Success(Null)).status == CREATED
  {
    var s := "a@b.c";
    assert s[1] == '@' && s[3] == '.';
    assert forall k :: 0 <= k < |s| && k != 1 ==> s[k] != '@';
    assert WellFormedEmail(s);
  }

  /** Addresses without a dot after the `@`, or with a space, are rejected. */
  lemma MalformedAddressesRejected()
    ensures CreateOrUpdateUserResponse(UserBody(Some("u"), Some("Ann"), Some("a@b")), Success(Null)) == BadRequest(INVALID_EMAIL)
    ensures CreateOrUpdateUserResponse(UserBody(Some("u"), Some("Ann"), Some("a b@c.d")), Success(Null)) == BadRequest(INVALID_EMAIL)
  {
    TestEmailIff("a@b");
    TestEmailIff("a b@c.d");
    assert "a b@c.d"[1] == ' ';
  }

  // ---------------------------------------------------------------------------
  // getUserRelationships

  /** `GET /users/:id/relationships`: 404 "User not found" for a null result. */
  function UserRelationshipsResponse(outcome: Result<Option<GraphModel.UserNeighbourhood>, string>)
    : (r: Response<GraphModel.UserNeighbourhood>)
    ensures r.status == NOT_FOUND <==> outcome == Success(None)
    ensures r.status == NOT_FOUND ==> r == NotFound(USER_NOT_FOUND)
    ensures r.status == OK <==> outcome.Success? && outcome.value.Some?
  {
    RelationshipsResponse(outcome, USER_NOT_FOUND)
  }

  /** Against the store: the endpoint answers 404 exactly for an unknown user. */
  lemma UnknownUserIsNotFound(store: GraphStore.Store, id: string)
    ensures UserRelationshipsResponse(Success(store.GetUserRelationships(id))).status == NOT_FOUND
            <==> id !in store.users
    ensures id in store.users ==>
              UserRelationshipsResponse(Success(store.GetUserRelationships(id))).body.data.user == store.users[id]
  {
  }
}
