/** The access guard of app/middleware/auth.go: a chain of checks on the
    `Authorization` header, each answering one HTTP status, that ends by
    attaching the loaded user to the request. */
module Middleware {
  import opened Common
  import opened Models
  import opened Jwt
  import UserModel

  // ---------------------------------------------------------------------
  // strings.Split for a one-character separator
  // ---------------------------------------------------------------------

  /** How often `c` occurs in `s`. */
  function Count(s: string, c: char): (r: nat)
  {
    if s == [] then 0 else (if s[0] == c then 1 else 0) + Count(s[1..], c)
  }

  /** `strings.Split(s, sep)`: the pieces between the separators; the empty
      text gives one empty piece. */
  function Split(s: string, sep: char): (parts: seq<string>)
    ensures |parts| == Count(s, sep) + 1
    ensures forall k :: 0 <= k < |parts| ==> sep !in parts[k]
  {
    if s == [] then [[]]
    else
      var rest := Split(s[1..], sep);
      if s[0] == sep then [[]] + rest
      else [[s[0]] + rest[0]] + rest[1..]
  }

  /** `strings.Join(parts, sep)`. */
  function Join(parts: seq<string>, sep: char): (r: string)
    requires |parts| >= 1
  {
    if |parts| == 1 then parts[0] else parts[0] + [sep] + Join(parts[1..], sep)
  }

  /** Joining the pieces back with the separator gives the text again. */
  lemma {:induction false} JoinSplit(s: string, sep: char)
    ensures Join(Split(s, sep), sep) == s
  {
    if s != [] {
      var rest := Split(s[1..], sep);
      JoinSplit(s[1..], sep);
      if s[0] == sep {
        assert Split(s, sep)[1..] == rest;
      } else if |rest| > 1 {
        var parts := Split(s, sep);
        assert parts[1..] == rest[1..];
        assert Join(rest, sep) == rest[0] + [sep] + Join(rest[1..], sep);
      }
    }
  }

  lemma {:induction false} SplitPrefix(w: string, rest: string, sep: char)
    requires sep !in w
    ensures Split(w + [sep] + rest, sep) == [w] + Split(rest, sep)
  {
    var s := w + [sep] + rest;
    if w != [] {
      SplitPrefix(w[1..], rest, sep);
      assert s[0] == w[0] && s[1..] == w[1..] + [sep] + rest;
      assert [w[0]] + w[1..] == w;
    } else {
      assert (w + [sep] + rest)[1..] == rest;
    }
  }

  lemma {:induction false} SplitNoSeparator(w: string, sep: char)
    requires sep !in w
    ensures Split(w, sep) == [w]
  {
    if w != [] {
      SplitNoSeparator(w[1..], sep);
      assert [w[0]] + w[1..] == w;
    }
  }

  /** Splitting pieces that hold no separator, joined by it, gives the pieces back. */
  lemma {:induction false} SplitJoin(parts: seq<string>, sep: char)
    requires |parts| >= 1
    requires forall k :: 0 <= k < |parts| ==> sep !in parts[k]
    ensures Split(Join(parts, sep), sep) == parts
  {
    if |parts| == 1 {
      SplitNoSeparator(parts[0], sep);
    } else {
      SplitJoin(parts[1..], sep);
      SplitPrefix(parts[0], Join(parts[1..], sep), sep);
      assert parts == [parts[0]] + parts[1..];
    }
  }

  // ---------------------------------------------------------------------
  // The guard chain
  // ---------------------------------------------------------------------

  /** What the middleware does with a request: run the next handler with the
      user stored as `current_user`, or answer with an error status. */
  datatype AuthOutcome = Proceed(userId: Uuid, user: UserRow) | Reject(status: int)

  /** The rows `First(&user, id)` loads (auth.go:44-47): the many-to-many
      `Permissions` association is not preloaded, so every loaded user holds none. */
  function Unloaded(users: map<Uuid, UserRow>): (r: map<Uuid, UserRow>)
  {
    map u | u in users :: users[u].(permissions := [])
  }

  /** The guard chain of AuthMiddleware(permissions...) applied to one request
      (auth.go:14-59), over the user rows it loads. `validate` answers
      `ValidateToken` and `parseUuid` answers `uuid.Parse`. */
  function GuardChain(
    header: string,
    required: seq<string>,
    validate: string -> Option<ParsedToken>,
    parseUuid: string -> Option<Uuid>,
    rows: map<Uuid, UserRow>): (r: AuthOutcome)
    ensures r.Reject? ==> r.status in {StatusBadRequest, StatusUnauthorized, StatusForbidden, StatusNotFound}
    ensures r.Proceed? ==>
      && header != ""
      && r.userId in rows && r.user == rows[r.userId]
      && (|required| > 0 ==> UserModel.HoldsAnyOf(r.user.permissions, required))
  {
    if header == "" then Reject(StatusUnauthorized)
    else
      var parts := Split(header, ' ');
      if |parts| != 2 then Reject(StatusBadRequest)
      else match validate(parts[1])
        case None => Reject(StatusUnauthorized)
        case Some(token) =>
          if !token.valid then Reject(StatusUnauthorized)
          else if !token.claims.PtrClaims? then Reject(StatusUnauthorized)
          else match parseUuid(token.claims.claim.userId)
            case None => Reject(StatusBadRequest)
            case Some(id) =>
              if id !in rows then Reject(StatusNotFound)
              else if |required| > 0 && !UserModel.HoldsAnyOf(rows[id].permissions, required) then
                Reject(StatusForbidden)
              else Proceed(id, rows[id])
  }

  /** AuthMiddleware as written: it checks, and attaches, the user as loaded
      without permissions, so a route that requires any permission admits nobody. */
  function Authenticate(
    header: string,
    required: seq<string>,
    validate: string -> Option<ParsedToken>,
    parseUuid: string -> Option<Uuid>,
    users: map<Uuid, UserRow>): (r: AuthOutcome)
    ensures r.Reject? ==> r.status in {StatusBadRequest, StatusUnauthorized, StatusForbidden, StatusNotFound}
    ensures r.Proceed? ==>
      header != "" && r.userId in users && r.user == users[r.userId].(permissions := [])
    ensures |required| > 0 ==> r.Reject?
  {
    var rows := Unloaded(users);
    var r := GuardChain(header, required, validate, parseUuid, rows);
    assert r.Proceed? ==> r.user.permissions == [];
    r
  }

  /** AuthMiddleware as evidently intended: the user is loaded with its
      permissions, and holding any one of the required ones suffices. */
  function AuthenticateIntended(
    header: string,
    required: seq<string>,
    validate: string -> Option<ParsedToken>,
    parseUuid: string -> Option<Uuid>,
    users: map<Uuid, UserRow>): (r: AuthOutcome)
    ensures r.Reject? ==> r.status in {StatusBadRequest, StatusUnauthorized, StatusForbidden, StatusNotFound}
    ensures r.Proceed? ==>
      && header != ""
      && r.userId in users && r.user == users[r.userId]
      && (|required| > 0 ==> UserModel.HoldsAnyOf(r.user.permissions, required))
  {
    GuardChain(header, required, validate, parseUuid, users)
  }

  // An independent statement of the chain: the guards as a list, in source
  // order, each with the status it answers; the first one that fails decides.

  datatype Guard = Guard(passes: bool, status: int)

  function FirstFailure(guards: seq<Guard>): (r: Option<int>)
  {
    if guards == [] then None
    else if !guards[0].passes then Some(guards[0].status)
    else FirstFailure(guards[1..])
  }

  /** The token carried by the second word of the header, if any. */
  function HeaderToken(header: string, validate: string -> Option<ParsedToken>): (r: Option<ParsedToken>)
  {
    var parts := Split(header, ' ');
    if |parts| == 2 then validate(parts[1]) else None
  }

  /** The user id the token's claims name, once parsed as a UUID. */
  function ClaimedId(token: Option<ParsedToken>, parseUuid: string -> Option<Uuid>): (r: Option<Uuid>)
  {
    if token.Some? && token.value.claims.PtrClaims? then parseUuid(token.value.claims.claim.userId)
    else None
  }

  function Guards(
    header: string,
    required: seq<string>,
    validate: string -> Option<ParsedToken>,
    parseUuid: string -> Option<Uuid>,
    rows: map<Uuid, UserRow>): (r: seq<Guard>)
  {
    var token := HeaderToken(header, validate);
    var id := ClaimedId(token, parseUuid);
    [ Guard(header != "", StatusUnauthorized),                                   // auth.go:16-19
      Guard(|Split(header, ' ')| == 2, StatusBadRequest),                        // auth.go:21-24
      Guard(token.Some? && token.value.valid, StatusUnauthorized),              // auth.go:27-31
      Guard(token.Some? && token.value.claims.PtrClaims?, StatusUnauthorized),  // auth.go:33-36
      Guard(id.Some?, StatusBadRequest),                                         // auth.go:38-42
      Guard(id.Some? && id.value in rows, StatusNotFound),                       // auth.go:44-47
      Guard(|required| == 0 || (id.Some? && id.value in rows &&
              UserModel.HoldsAnyOf(rows[id.value].permissions, required)), StatusForbidden) // auth.go:49-55
    ]
  }

  /** Over whichever rows it loads, the middleware answers the status of the
      first failing guard, and runs the next handler with the claimed user
      exactly when every guard passes. */
  lemma AuthenticateIsFirstFailingGuard(
    header: string,
    required: seq<string>,
    validate: string -> Option<ParsedToken>,
    parseUuid: string -> Option<Uuid>,
    rows: map<Uuid, UserRow>)
    ensures var gs := Guards(header, required, validate, parseUuid, rows);
      var id := ClaimedId(HeaderToken(header, validate), parseUuid);
      && (FirstFailure(gs).Some? ==>
            GuardChain(header, required, validate, parseUuid, rows) == Reject(FirstFailure(gs).value))
      && (FirstFailure(gs).None? ==>
            id.Some? && id.value in rows &&
            GuardChain(header, required, validate, parseUuid, rows) == Proceed(id.value, rows[id.value]))
  {
    var gs := Guards(header, required, validate, parseUuid, rows);
    assert FirstFailure(gs[6..]) == (if gs[6].passes then None else Some(gs[6].status)) by {
      assert gs[6..][1..] == [];
    }
    assert FirstFailure(gs[5..]) == (if gs[5].passes then FirstFailure(gs[6..]) else Some(gs[5].status)) by {
      assert gs[5..][1..] == gs[6..];
    }
    assert FirstFailure(gs[4..]) == (if gs[4].passes then FirstFailure(gs[5..]) else Some(gs[4].status)) by {
      assert gs[4..][1..] == gs[5..];
    }
    assert FirstFailure(gs[3..]) == (if gs[3].passes then FirstFailure(gs[4..]) else Some(gs[3].status)) by {
      assert gs[3..][1..] == gs[4..];
    }
    assert FirstFailure(gs[2..]) == (if gs[2].passes then FirstFailure(gs[3..]) else Some(gs[2].status)) by {
      assert gs[2..][1..] == gs[3..];
    }
    assert FirstFailure(gs[1..]) == (if gs[1].passes then FirstFailure(gs[2..]) else Some(gs[1].status)) by {
      assert gs[1..][1..] == gs[2..];
    }
  }

  /** The first word of the header is never inspected: any scheme word in place of
      `Bearer` gives the same outcome (auth.go:21-26). */
  lemma SchemeWordIgnored(
    scheme: string,
    token: string,
    required: seq<string>,
    validate: string -> Option<ParsedToken>,
    parseUuid: string -> Option<Uuid>,
    rows: map<Uuid, UserRow>)
    requires ' ' !in scheme && ' ' !in token
    ensures GuardChain(scheme + " " + token, required, validate, parseUuid, rows) ==
            GuardChain("Bearer " + token, required, validate, parseUuid, rows)
  {
    SplitJoin([scheme, token], ' ');
    SplitJoin(["Bearer", token], ' ');
    assert Join([scheme, token], ' ') == scheme + " " + token;
    assert Join(["Bearer", token], ' ') == "Bearer " + token;
  }

  /** A non-empty header with no space, or with more than one, is a bad request (auth.go:21-24). */
  lemma SpaceCountDecides(
    header: string,
    required: seq<string>,
    validate: string -> Option<ParsedToken>,
    parseUuid: string -> Option<Uuid>,
    rows: map<Uuid, UserRow>)
    requires header != "" && Count(header, ' ') != 1
    ensures GuardChain(header, required, validate, parseUuid, rows) == Reject(StatusBadRequest)
  {
  }

  /** As written, a request that passes every token guard for a stored user is
      refused with 403 as soon as the route requires any permission, whatever
      the user holds (auth.go:44-55). */
  lemma RequiredPermissionsForbidAll(
    header: string,
    required: seq<string>,
    validate: string -> Option<ParsedToken>,
    parseUuid: string -> Option<Uuid>,
    users: map<Uuid, UserRow>,
    id: Uuid)
    requires ClaimedId(HeaderToken(header, validate), parseUuid) == Some(id)
    requires header != "" && HeaderToken(header, validate).value.valid && id in users
    requires |required| > 0
    ensures Authenticate(header, required, validate, parseUuid, users) == Reject(StatusForbidden)
  {
    assert !UserModel.HoldsAnyOf(Unloaded(users)[id].permissions, required);
  }

  /** The outcome with the user's permissions dropped from what is attached. */
  function WithoutPermissions(outcome: AuthOutcome): (r: AuthOutcome)
  {
    match outcome
    case Proceed(id, user) => Proceed(id, user.(permissions := []))
    case Reject(status) => outcome
  }

  /** The missing preload matters only on routes that require permissions: on
      the others the middleware as written answers as the intended one does,
      and attaches the same user, only without its permissions. */
  lemma PreloadMattersOnlyForPermissions(
    header: string,
    validate: string -> Option<ParsedToken>,
    parseUuid: string -> Option<Uuid>,
    users: map<Uuid, UserRow>)
    ensures Authenticate(header, [], validate, parseUuid, users) ==
            WithoutPermissions(AuthenticateIntended(header, [], validate, parseUuid, users))
  {
    AuthenticateIsFirstFailingGuard(header, [], validate, parseUuid, users);
    AuthenticateIsFirstFailingGuard(header, [], validate, parseUuid, Unloaded(users));
    assert Guards(header, [], validate, parseUuid, users) == Guards(header, [], validate, parseUuid, Unloaded(users));
  }

  /** With the permissions loaded: without required permissions, a user the token
      names passes whatever it holds; with them, holding any one of them suffices. */
  lemma PermissionsOnlyWhenRequired(
    header: string,
    required: seq<string>,
    validate: string -> Option<ParsedToken>,
    parseUuid: string -> Option<Uuid>,
    users: map<Uuid, UserRow>,
    id: Uuid)
    requires ClaimedId(HeaderToken(header, validate), parseUuid) == Some(id)
    requires header != "" && HeaderToken(header, validate).value.valid && id in users
    ensures AuthenticateIntended(header, required, validate, parseUuid, users) ==
      if |required| == 0 || UserModel.HoldsAnyOf(users[id].permissions, required)
      then Proceed(id, users[id]) else Reject(StatusForbidden)
  {
  }
}
