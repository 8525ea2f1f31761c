/** The HTTP handlers of app/handlers (auth.go, cart.go, orders.go and
    products.go) as methods of one `Store` that holds every table they read and
    write. Each method takes the request's decoded fields, the user the access
    guard attached (for the guarded routes), and the answers of the services the
    handler calls (clock, UUID generator, password hasher, mailer, token
    validator); it returns the HTTP status and changes the tables as the
    handler's SQL statements would. */
module Handlers {
  import opened Common
  import opened Models
  import opened Jwt
  import UserModel
  import Carts
  import Orders
  import Products

  /** The durations of `utils.AppConfig` the handlers use. */
  datatype Config = Config(sessionExpire: int, refreshExpire: int, verificationExpire: int)

  /** The body of a successful login (auth.go:177). */
  datatype LoginTokens = LoginTokens(accessToken: string, refreshToken: string)

  /** `schemas.CreateOrderResponse` (order.go:9-14); the status is the plain `int`. */
  datatype OrderResponse = OrderResponse(id: Uuid, items: seq<OrderItem>, userId: Uuid, status: int)

  // ---------------------------------------------------------------------
  // Table predicates
  // ---------------------------------------------------------------------

  predicate EmailTaken(users: map<Uuid, UserRow>, email: string)
  {
    exists u :: u in users && users[u].email == email
  }

  predicate EmailVerified(users: map<Uuid, UserRow>, email: string)
  {
    exists u :: u in users && users[u].email == email && users[u].isEmailVerified
  }

  predicate UsernameTakenByOther(users: map<Uuid, UserRow>, username: string, except: Uuid)
  {
    exists u :: u in users && u != except && users[u].username == username
  }

  predicate TokenTaken(vs: map<Uuid, Verification>, token: string)
  {
    exists v :: v in vs && vs[v].token == token
  }

  /** `vid` is a verification of the given kind carrying `token`. */
  predicate Holds(vs: map<Uuid, Verification>, token: string, kind: string, vid: Uuid)
  {
    vid in vs && vs[vid].token == token && vs[vid].kind == kind
  }

  /** The `email` unique index, and the `username` one. */
  predicate UniqueEmails(users: map<Uuid, UserRow>)
  {
    forall a, b :: a in users && b in users && users[a].email == users[b].email ==> a == b
  }

  predicate UniqueUsernames(users: map<Uuid, UserRow>)
  {
    forall a, b :: a in users && b in users && users[a].username == users[b].username ==> a == b
  }

  /** The `token` unique index of the verifications table. */
  predicate UniqueTokens(vs: map<Uuid, Verification>)
  {
    forall a, b :: a in vs && b in vs && vs[a].token == vs[b].token ==> a == b
  }

  /** At most one review per product and user: CreateReview refuses a second one. */
  predicate UniqueReviews(reviews: map<Uuid, Review>)
  {
    forall a, b ::
      (a in reviews && b in reviews &&
       reviews[a].productId == reviews[b].productId && reviews[a].userId == reviews[b].userId) ==> a == b
  }

  /** At most one favourite per product and user: AddToFavorites finds before it creates. */
  predicate UniqueFavourites(favourites: map<Uuid, Favourite>)
  {
    forall a, b :: a in favourites && b in favourites && favourites[a] == favourites[b] ==> a == b
  }

  predicate HasReview(reviews: map<Uuid, Review>, productId: Uuid, userId: Uuid)
  {
    exists r :: r in reviews && reviews[r].productId == productId && reviews[r].userId == userId
  }

  predicate HasFavourite(favourites: map<Uuid, Favourite>, productId: Uuid, userId: Uuid)
  {
    exists f :: f in favourites && favourites[f] == Favourite(productId, userId)
  }

  /** No two line items are for one product. */
  predicate DistinctLines(lines: seq<CartLine>)
  {
    forall i, j :: 0 <= i < j < |lines| ==> lines[i].productId != lines[j].productId
  }

  /** No cart holds two line items for one product. */
  predicate DistinctProducts(carts: map<Uuid, Cart>)
  {
    forall u :: u in carts ==> DistinctLines(carts[u].lines)
  }

  /** Appending a line for a product the cart does not hold keeps its products distinct. */
  lemma AppendKeepsDistinct(lines: seq<CartLine>, line: CartLine)
    requires DistinctLines(lines) && !Carts.HasLineForProduct(lines, line.productId)
    ensures DistinctLines(lines + [line])
  {
    forall i, j | 0 <= i < j < |lines + [line]|
      ensures (lines + [line])[i].productId != (lines + [line])[j].productId
    {
      if j == |lines| {
        assert (lines + [line])[i] == lines[i];
      }
    }
  }

  /** The primary key (id, cart, product) of a new line item is already used in this cart. */
  predicate LineKeyTaken(lines: seq<CartLine>, lineId: Uuid, productId: Uuid)
  {
    exists i :: 0 <= i < |lines| && lines[i].id == lineId && lines[i].productId == productId
  }

  predicate CartIdTaken(carts: map<Uuid, Cart>, cartId: Uuid)
  {
    exists u :: u in carts && carts[u].id == cartId
  }

  /** The validation tags of Register's input (auth.go:44-49). */
  predicate RegisterInputValid(username: string, email: string, password: string, redirectUrl: string,
                               isEmail: string -> bool)
  {
    3 <= |username| <= 32 && email != "" && isEmail(email) && |password| >= 8 && redirectUrl != ""
  }

  /** The validation tags of Login's input (auth.go:132-135). */
  predicate LoginInputValid(email: string, password: string, isEmail: string -> bool)
  {
    email != "" && isEmail(email) && password != ""
  }

  /** The validation tags of ResetPassword's input (auth.go:246-249). */
  predicate ResetInputValid(email: string, redirectUrl: string, isEmail: string -> bool)
  {
    email != "" && isEmail(email) && redirectUrl != ""
  }

  /** `ValidateToken` answered without error and with a valid token. */
  predicate Validated(parsed: Option<ParsedToken>)
  {
    parsed.Some? && parsed.value.valid
  }

  /** The user Register writes: the holder of the e-mail, or a new row at `newUserId`. */
  ghost function Registrant(users: map<Uuid, UserRow>, email: string, newUserId: Uuid): (r: Uuid)
  {
    if EmailTaken(users, email) then var u :| u in users && users[u].email == email; u else newUserId
  }

  /** The user row Register leaves at `Registrant`. */
  ghost function RegisteredRow(users: map<Uuid, UserRow>, uid: Uuid, username: string, email: string,
                               hash: string): (r: UserRow)
  {
    if uid in users then users[uid].(username := username, email := email, password := hash)
    else UserRow(email, username, hash, None, false, [])
  }

  /** A write of Register's transaction that violates a key or unique index. */
  ghost predicate RegisterConflict(users: map<Uuid, UserRow>, vs: map<Uuid, Verification>, username: string,
                                   email: string, newUserId: Uuid, token: string, verificationId: Uuid)
  {
    || (!EmailTaken(users, email) && newUserId in users)
    || UsernameTakenByOther(users, username, Registrant(users, email, newUserId))
    || verificationId in vs
    || TokenTaken(vs, token)
  }

  /** The blank user row VerifyPasswordReset inserts cannot be inserted. */
  predicate BlankUserConflict(users: map<Uuid, UserRow>, blankUserId: Uuid)
  {
    blankUserId in users || EmailTaken(users, "") || UsernameTakenByOther(users, "", blankUserId)
  }

  /** With unique e-mails, the user Register writes is the e-mail's holder. */
  lemma RegistrantIsHolder(users: map<Uuid, UserRow>, email: string, newUserId: Uuid, u: Uuid)
    requires UniqueEmails(users) && u in users && users[u].email == email
    ensures Registrant(users, email, newUserId) == u
  {
  }

  /** Writing a row whose e-mail and username no other row has keeps both indexes unique. */
  lemma WriteUserKeepsUnique(users: map<Uuid, UserRow>, uid: Uuid, row: UserRow)
    requires UniqueEmails(users) && UniqueUsernames(users)
    requires forall u :: u in users && u != uid ==> users[u].email != row.email
    requires !UsernameTakenByOther(users, row.username, uid)
    ensures UniqueEmails(users[uid := row]) && UniqueUsernames(users[uid := row])
  {
  }

  /** The account tables' part of the store invariant: the unique indexes on
      users and tokens, the owners of tokens and sessions stored, and stored
      phones in the form the hooks produce. */
  ghost predicate AccountsValid(users: map<Uuid, UserRow>, vs: map<Uuid, Verification>,
                                sessions: map<Uuid, Session>)
  {
    && UniqueEmails(users)
    && UniqueUsernames(users)
    && UniqueTokens(vs)
    && (forall v :: v in vs ==> vs[v].userId in users)
    && (forall s :: s in sessions ==> sessions[s].userId in users)
    && (forall u :: u in users ==> UserModel.PhoneNormalized(users[u]))
  }

  /** Marking a token's owner verified and consuming the token keeps the
      account tables valid. */
  lemma VerifyKeepsAccounts(users: map<Uuid, UserRow>, vs: map<Uuid, Verification>,
                            sessions: map<Uuid, Session>, v: Uuid)
    requires AccountsValid(users, vs, sessions) && v in vs
    ensures var owner := vs[v].userId;
      AccountsValid(users[owner := users[owner].(isEmailVerified := true)], vs - {v}, sessions)
  {
    var owner := vs[v].userId;
    var after := users[owner := users[owner].(isEmailVerified := true)];
    assert after.Keys == users.Keys;
    assert UserModel.PhoneNormalized(after[owner]);
  }

  /** Setting a token owner's password and consuming the token keeps the
      account tables valid. */
  lemma ResetKeepsAccounts(users: map<Uuid, UserRow>, vs: map<Uuid, Verification>,
                           sessions: map<Uuid, Session>, v: Uuid, hash: string)
    requires AccountsValid(users, vs, sessions) && v in vs
    ensures var owner := vs[v].userId;
      AccountsValid(users[owner := users[owner].(password := hash)], vs - {v}, sessions)
  {
    var owner := vs[v].userId;
    var after := users[owner := users[owner].(password := hash)];
    assert after.Keys == users.Keys;
    assert UserModel.PhoneNormalized(after[owner]);
  }

  /** Inserting the blank user, when it clashes with no key or unique value, and
      consuming a token keeps the account tables valid. */
  lemma BlankInsertKeepsAccounts(users: map<Uuid, UserRow>, vs: map<Uuid, Verification>,
                                 sessions: map<Uuid, Session>, v: Uuid, blankUserId: Uuid, hash: string)
    requires AccountsValid(users, vs, sessions) && !BlankUserConflict(users, blankUserId)
    ensures AccountsValid(users[blankUserId := UserRow("", "", hash, None, false, [])], vs - {v}, sessions)
  {
    WriteUserKeepsUnique(users, blankUserId, UserRow("", "", hash, None, false, []));
  }

  /** Writing one user row that keeps both indexes unique and its phone
      normalised, and adding a fresh token for that user, keeps the account
      tables valid. */
  lemma RegisterKeepsAccounts(users: map<Uuid, UserRow>, vs: map<Uuid, Verification>,
                              sessions: map<Uuid, Session>, uid: Uuid, row: UserRow,
                              vid: Uuid, v: Verification)
    requires AccountsValid(users, vs, sessions)
    requires UniqueEmails(users[uid := row]) && UniqueUsernames(users[uid := row])
    requires UserModel.PhoneNormalized(row)
    requires vid !in vs && !TokenTaken(vs, v.token) && v.userId == uid
    ensures AccountsValid(users[uid := row], vs[vid := v], sessions)
  {
  }

  /** Every cart with the line items whose own ID is listed deleted. */
  function WithoutLineIds(carts: map<Uuid, Cart>, ids: seq<Uuid>): (r: map<Uuid, Cart>)
    ensures r.Keys == carts.Keys
    ensures forall u :: u in r ==> r[u].id == carts[u].id
  {
    map u | u in carts :: carts[u].(lines := Orders.WithoutIds(carts[u].lines, ids))
  }

  class Store {
    const config: Config
    var users: map<Uuid, UserRow>
    var verifications: map<Uuid, Verification>
    /** Keyed by the session ID, which is the refresh token's `jti`. */
    var sessions: map<Uuid, Session>
    /** Keyed by the owner's user ID: `Where("user_id = ?", ...).First` finds one cart. */
    var carts: map<Uuid, Cart>
    var products: map<Uuid, Product>
    var reviews: map<Uuid, Review>
    var favourites: map<Uuid, Favourite>
    var orders: map<Uuid, Order>

    /** The unique indexes and foreign keys the handlers rely on, and stored phones
        in the form the hooks produce. */
    ghost predicate Valid()
      reads this
    {
      && AccountsValid(users, verifications, sessions)
      && UniqueReviews(reviews)
      && UniqueFavourites(favourites)
    }

    constructor (config: Config)
      ensures Valid()
      ensures this.config == config
      ensures users == map[] && verifications == map[] && sessions == map[] && carts == map[]
      ensures products == map[] && reviews == map[] && favourites == map[] && orders == map[]
    {
      this.config := config;
      users, verifications, sessions, carts := map[], map[], map[], map[];
      products, reviews, favourites, orders := map[], map[], map[], map[];
    }

    // -------------------------------------------------------------------
    // auth.go
    // -------------------------------------------------------------------

    /** Register (auth.go:43-128). `hashed` is `HashPassword`'s answer (None for an
        error), `newUserId` the ID the database gives a new row, `token` and
        `verificationId` the new verification's, and `mailDelivered` whether
        `SendEmail` succeeded. The transaction writes the user and the
        verification together or not at all; the mail is sent after it commits. */
    method Register(username: string, email: string, password: string, redirectUrl: string,
                    isEmail: string -> bool, hashed: Option<string>,
                    newUserId: Uuid, token: string, verificationId: Uuid,
                    now: Time, mailDelivered: bool)
      returns (status: int)
      requires Valid()
      modifies this`users, this`verifications
      ensures Valid()
      ensures status in {StatusCreated, StatusBadRequest, StatusInternalServerError}
      ensures status == StatusBadRequest <==>
        !RegisterInputValid(username, email, password, redirectUrl, isEmail) || EmailVerified(old(users), email)
      ensures var uid := Registrant(old(users), email, newUserId);
        if RegisterInputValid(username, email, password, redirectUrl, isEmail) && !EmailVerified(old(users), email)
           && hashed.Some?
           && !RegisterConflict(old(users), old(verifications), username, email, newUserId, token, verificationId)
        then
          && users == old(users)[uid := RegisteredRow(old(users), uid, username, email, hashed.value)]
          && verifications == old(verifications)[verificationId :=
               Verification(EmailVerifyType, token, uid, now + config.verificationExpire)]
          && status == (if mailDelivered then StatusCreated else StatusInternalServerError)
        else
          users == old(users) && verifications == old(verifications) && status != StatusCreated
    {
      if !RegisterInputValid(username, email, password, redirectUrl, isEmail) {
        return StatusBadRequest;
      }
      var owner: Option<Uuid> := None;
      if EmailTaken(users, email) {
        var u :| u in users && users[u].email == email;
        RegistrantIsHolder(users, email, newUserId, u);
        owner := Some(u);
      }
      if owner.Some? && users[owner.value].isEmailVerified {
        return StatusBadRequest;
      }
      assert !EmailVerified(users, email);
      if hashed.None? {
        return StatusInternalServerError;
      }
      ghost var uid0 := Registrant(users, email, newUserId);
      var before := users;
      var uid: Uuid;
      if owner.None? {
        if newUserId in users || UsernameTakenByOther(users, username, newUserId) {
          return StatusInternalServerError;
        }
        var created := new UserModel.User.FromRow(newUserId, UserRow(email, username, hashed.value, None, false, []));
        var err := created.BeforeCreate();
        assert created.Row() == UserRow(email, username, hashed.value, None, false, []);
        WriteUserKeepsUnique(users, newUserId, created.Row());
        users := users[newUserId := created.Row()];
        uid := newUserId;
      } else {
        uid := owner.value;
        if UsernameTakenByOther(users, username, uid) {
          return StatusInternalServerError;
        }
        WriteUserKeepsUnique(users, uid, users[uid].(username := username, email := email, password := hashed.value));
        users := users[uid := users[uid].(username := username, email := email, password := hashed.value)];
      }
      assert uid == uid0 && users == before[uid := RegisteredRow(before, uid, username, email, hashed.value)];
      if verificationId in verifications || TokenTaken(verifications, token) {
        users := before;
        return StatusInternalServerError;
      }
      RegisterKeepsAccounts(before, verifications, sessions, uid, users[uid], verificationId,
                            Verification(EmailVerifyType, token, uid, now + config.verificationExpire));
      verifications := verifications[verificationId :=
        Verification(EmailVerifyType, token, uid, now + config.verificationExpire)];
      if !mailDelivered {
        return StatusInternalServerError;
      }
      return StatusCreated;
    }

    /** Login (auth.go:131-178). `checkHash` answers `CheckPasswordHash`, `jti` is the
        new session's ID, and the two tokens are what the JWT service signs. Saving
        the user runs its update hook, which leaves a stored phone as it is. */
    method Login(email: string, password: string, isEmail: string -> bool,
                 checkHash: (string, string) -> bool,
                 jti: Uuid, accessToken: string, refreshToken: string, agent: string, now: Time)
      returns (status: int, tokens: Option<LoginTokens>)
      requires Valid()
      modifies this`sessions
      ensures Valid()
      ensures status in {StatusOK, StatusBadRequest, StatusUnauthorized}
      ensures status == StatusBadRequest <==> !LoginInputValid(email, password, isEmail)
      ensures status == StatusOK <==>
        LoginInputValid(email, password, isEmail) &&
        exists u :: u in users && users[u].email == email && users[u].isEmailVerified &&
                    checkHash(password, users[u].password)
      ensures status == StatusOK ==>
        && tokens == Some(LoginTokens(accessToken, refreshToken))
        && forall u :: u in users && users[u].email == email ==>
             sessions == old(sessions)[jti := Session(u, refreshToken, agent, false, now + config.refreshExpire)]
      ensures status != StatusOK ==> tokens == None && sessions == old(sessions)
    {
      if !LoginInputValid(email, password, isEmail) {
        return StatusBadRequest, None;
      }
      if !EmailVerified(users, email) {
        return StatusUnauthorized, None;
      }
      var u :| u in users && users[u].email == email && users[u].isEmailVerified;
      if !checkHash(password, users[u].password) {
        return StatusUnauthorized, None;
      }
      var account := new UserModel.User.FromRow(u, users[u]);
      var err := account.BeforeUpdate();
      // A stored phone is already normalised, so the hook never fails and the
      // user row is written back as it was.
      assert err.None? && account.Row() == users[u];
      sessions := sessions[jti := Session(u, refreshToken, agent, false, now + config.refreshExpire)];
      return StatusOK, Some(LoginTokens(accessToken, refreshToken));
    }

    /** Refresh (auth.go:209-242) with the claims asserted to the type
        `ValidateToken` produces, `*JwtCustomClaim`, as the access guard does.
        `parsed` is `ValidateToken`'s answer; a failed type assertion panics and
        the recovery middleware answers 500. `access` is the user the new access
        token is issued for. The session's own expiry is not consulted. */
    method Refresh(refreshToken: string, parsed: Option<ParsedToken>)
      returns (status: int, access: Option<Uuid>)
      ensures status == StatusBadRequest <==> refreshToken == ""
      ensures status == StatusInternalServerError <==>
        refreshToken != "" && Validated(parsed) && !parsed.value.claims.PtrClaims?
      ensures status == StatusOK <==>
        refreshToken != "" && Validated(parsed) && parsed.value.claims.PtrClaims? &&
        parsed.value.claims.claim.jti in sessions
      ensures status == StatusOK ==> access == Some(sessions[parsed.value.claims.claim.jti].userId)
      ensures status != StatusOK ==> access == None
      ensures status in {StatusOK, StatusBadRequest, StatusUnauthorized, StatusInternalServerError}
    {
      if refreshToken == "" {
        return StatusBadRequest, None;
      }
      if parsed.None? || !parsed.value.valid {
        return StatusUnauthorized, None;
      }
      if !parsed.value.claims.PtrClaims? {
        return StatusInternalServerError, None;
      }
      var sessionId := parsed.value.claims.claim.jti;
      if sessionId !in sessions {
        return StatusUnauthorized, None;
      }
      return StatusOK, Some(sessions[sessionId].userId);
    }

    /** Refresh as written: the claims are asserted to the value type
        `JwtCustomClaim` (auth.go:228), which `ValidateToken` never produces, so
        every token that passes validation ends in a panic and a 500. */
    method RefreshAsWritten(refreshToken: string, parsed: Option<ParsedToken>)
      returns (status: int, access: Option<Uuid>)
      ensures status == StatusBadRequest <==> refreshToken == ""
      ensures status == StatusUnauthorized <==>
        refreshToken != "" && (!Validated(parsed) ||
          (parsed.value.claims.ValueClaims? && parsed.value.claims.claim.jti !in sessions))
      ensures FromValidateToken(parsed) && refreshToken != "" && Validated(parsed) ==>
        status == StatusInternalServerError
      ensures status == StatusOK ==> parsed.Some? && parsed.value.claims.ValueClaims?
      ensures status != StatusOK ==> access == None
    {
      if refreshToken == "" {
        return StatusBadRequest, None;
      }
      if parsed.None? || !parsed.value.valid {
        return StatusUnauthorized, None;
      }
      if !parsed.value.claims.ValueClaims? {
        return StatusInternalServerError, None;
      }
      var sessionId := parsed.value.claims.claim.jti;
      if sessionId !in sessions {
        return StatusUnauthorized, None;
      }
      return StatusOK, Some(sessions[sessionId].userId);
    }

    /** Logout as written (auth.go:181-206). The value-type assertion panics for
        the claims `ValidateToken` produces; with value claims, the `*gorm.DB`
        the delete returns is compared with nil and is never nil, so the answer is
        500 either way, and the delete filters on a `JTI` column the sessions
        table does not have, so no session is removed. */
    method Logout(refreshToken: string, parsed: Option<ParsedToken>) returns (status: int)
      ensures status == StatusBadRequest <==> refreshToken == ""
      ensures status == StatusUnauthorized <==> refreshToken != "" && !Validated(parsed)
      ensures status == StatusInternalServerError <==> refreshToken != "" && Validated(parsed)
      ensures status != StatusNoContent
    {
      if refreshToken == "" {
        return StatusBadRequest;
      }
      if parsed.None? || !parsed.value.valid {
        return StatusUnauthorized;
      }
      if !parsed.value.claims.ValueClaims? {
        return StatusInternalServerError;
      }
      // The statement's result object is not nil.
      return StatusInternalServerError;
    }

    /** Logout as evidently intended: the session named by the token's `jti` is
        deleted and the answer is 204. */
    method LogoutIntended(refreshToken: string, parsed: Option<ParsedToken>) returns (status: int)
      requires Valid()
      modifies this`sessions
      ensures Valid()
      ensures status == StatusBadRequest <==> refreshToken == ""
      ensures status == StatusUnauthorized <==> refreshToken != "" && !Validated(parsed)
      ensures status == StatusInternalServerError <==>
        refreshToken != "" && Validated(parsed) && !parsed.value.claims.PtrClaims?
      ensures status in {StatusBadRequest, StatusUnauthorized, StatusInternalServerError, StatusNoContent}
      ensures status == StatusNoContent <==>
        refreshToken != "" && Validated(parsed) && parsed.value.claims.PtrClaims?
      ensures status == StatusNoContent ==>
        parsed.Some? && parsed.value.claims.PtrClaims? &&
        sessions == old(sessions) - {parsed.value.claims.claim.jti}
      ensures status != StatusNoContent ==> sessions == old(sessions)
    {
      if refreshToken == "" {
        return StatusBadRequest;
      }
      if parsed.None? || !parsed.value.valid {
        return StatusUnauthorized;
      }
      if !parsed.value.claims.PtrClaims? {
        return StatusInternalServerError;
      }
      sessions := sessions - {parsed.value.claims.claim.jti};
      return StatusNoContent;
    }

    /** The body ResetPassword runs, with the verification kind it writes as a
        parameter: find the user by e-mail, store a new verification, mail it. */
    method IssueVerification(kind: string, email: string, redirectUrl: string, isEmail: string -> bool,
                             token: string, verificationId: Uuid, now: Time, mailDelivered: bool)
      returns (status: int)
      requires Valid()
      modifies this`verifications
      ensures Valid()
      ensures status in {StatusOK, StatusBadRequest, StatusNotFound, StatusInternalServerError}
      ensures status == StatusBadRequest <==> !ResetInputValid(email, redirectUrl, isEmail)
      ensures status == StatusNotFound <==> ResetInputValid(email, redirectUrl, isEmail) && !EmailTaken(users, email)
      ensures if ResetInputValid(email, redirectUrl, isEmail) && EmailTaken(users, email) &&
                 verificationId !in old(verifications) && !TokenTaken(old(verifications), token)
        then
          && status == (if mailDelivered then StatusOK else StatusInternalServerError)
          && forall u :: u in users && users[u].email == email ==>
               verifications == old(verifications)[verificationId :=
                 Verification(kind, token, u, now + config.verificationExpire)]
        else
          && verifications == old(verifications)
          && status == (if !ResetInputValid(email, redirectUrl, isEmail) then StatusBadRequest
                        else if !EmailTaken(users, email) then StatusNotFound
                        else StatusInternalServerError)
    {
      if !ResetInputValid(email, redirectUrl, isEmail) {
        return StatusBadRequest;
      }
      if !EmailTaken(users, email) {
        return StatusNotFound;
      }
      var u :| u in users && users[u].email == email;
      if verificationId in verifications || TokenTaken(verifications, token) {
        return StatusInternalServerError;
      }
      verifications := verifications[verificationId :=
        Verification(kind, token, u, now + config.verificationExpire)];
      if !mailDelivered {
        return StatusInternalServerError;
      }
      return StatusOK;
    }

    /** ResetPassword as written (auth.go:245-287): the token it stores is of
        kind `EMAIL_VERIFY`. */
    method ResetPassword(email: string, redirectUrl: string, isEmail: string -> bool,
                         token: string, verificationId: Uuid, now: Time, mailDelivered: bool)
      returns (status: int)
      requires Valid()
      modifies this`verifications
      ensures Valid()
      ensures status == StatusBadRequest <==> !ResetInputValid(email, redirectUrl, isEmail)
      ensures status == StatusNotFound <==> ResetInputValid(email, redirectUrl, isEmail) && !EmailTaken(users, email)
      ensures if ResetInputValid(email, redirectUrl, isEmail) && EmailTaken(users, email) &&
                 verificationId !in old(verifications) && !TokenTaken(old(verifications), token)
        then
          && status == (if mailDelivered then StatusOK else StatusInternalServerError)
          && forall u :: u in users && users[u].email == email ==>
               verifications == old(verifications)[verificationId :=
                 Verification(EmailVerifyType, token, u, now + config.verificationExpire)]
        else
          && verifications == old(verifications)
          && status == (if !ResetInputValid(email, redirectUrl, isEmail) then StatusBadRequest
                        else if !EmailTaken(users, email) then StatusNotFound
                        else StatusInternalServerError)
    {
      status := IssueVerification(EmailVerifyType, email, redirectUrl, isEmail, token, verificationId, now, mailDelivered);
    }

    /** ResetPassword as evidently intended: the token it stores is of kind
        `PASSWORD_RESET`, the kind VerifyPasswordReset looks for. */
    method ResetPasswordIntended(email: string, redirectUrl: string, isEmail: string -> bool,
                                 token: string, verificationId: Uuid, now: Time, mailDelivered: bool)
      returns (status: int)
      requires Valid()
      modifies this`verifications
      ensures Valid()
      ensures status == StatusBadRequest <==> !ResetInputValid(email, redirectUrl, isEmail)
      ensures status == StatusNotFound <==> ResetInputValid(email, redirectUrl, isEmail) && !EmailTaken(users, email)
      ensures if ResetInputValid(email, redirectUrl, isEmail) && EmailTaken(users, email) &&
                 verificationId !in old(verifications) && !TokenTaken(old(verifications), token)
        then
          && status == (if mailDelivered then StatusOK else StatusInternalServerError)
          && forall u :: u in users && users[u].email == email ==>
               verifications == old(verifications)[verificationId :=
                 Verification(PasswordResetType, token, u, now + config.verificationExpire)]
        else
          && verifications == old(verifications)
          && status == (if !ResetInputValid(email, redirectUrl, isEmail) then StatusBadRequest
                        else if !EmailTaken(users, email) then StatusNotFound
                        else StatusInternalServerError)
    {
      status := IssueVerification(PasswordResetType, email, redirectUrl, isEmail, token, verificationId, now, mailDelivered);
    }

    /** The guards VerifyPasswordReset passes before it writes anything
        (auth.go:297-322): the input check, the lookup of a `PASSWORD_RESET`
        token, and its expiry, where only an instant strictly before now is
        expired. `refusal` is the answer when one guard fails; otherwise `v` is
        the one verification carrying the token. */
    method LookupResetToken(token: string, password: string, now: Time)
      returns (refusal: Option<int>, v: Uuid)
      requires Valid()
      ensures refusal == Some(StatusBadRequest) <==> token == "" || |password| < 8
      ensures refusal == Some(StatusNotFound) <==>
        token != "" && |password| >= 8 && !exists w :: Holds(verifications, token, PasswordResetType, w)
      ensures refusal == Some(StatusUnauthorized) <==>
        token != "" && |password| >= 8 &&
        exists w :: Holds(verifications, token, PasswordResetType, w) && verifications[w].expiresAt < now
      ensures refusal.Some? ==> refusal.value in {StatusBadRequest, StatusNotFound, StatusUnauthorized}
      ensures refusal.None? ==>
        && Holds(verifications, token, PasswordResetType, v) && verifications[v].expiresAt >= now
        && forall w :: Holds(verifications, token, PasswordResetType, w) ==> w == v
    {
      v := "";
      if token == "" || |password| < 8 {
        return Some(StatusBadRequest), v;
      }
      if !exists w :: w in verifications && Holds(verifications, token, PasswordResetType, w) {
        return Some(StatusNotFound), v;
      }
      v :| v in verifications && Holds(verifications, token, PasswordResetType, v);
      assert forall w :: Holds(verifications, token, PasswordResetType, w) ==> w == v;
      if verifications[v].expiresAt < now {
        return Some(StatusUnauthorized), v;
      }
      return None, v;
    }

    /** VerifyPasswordReset as written (auth.go:290-346). The verification is
        loaded without its user, so the user saved is the zero value: with no
        primary key, saving it inserts a new blank row (ID `blankUserId`, empty
        e-mail and username) holding the new hash, and the token's owner keeps
        the old password. `hashed` is `HashPassword`'s answer. */
    method VerifyPasswordReset(token: string, password: string, hashed: Option<string>,
                               blankUserId: Uuid, now: Time)
      returns (status: int)
      requires Valid()
      modifies this`users, this`verifications
      ensures Valid()
      ensures status in {StatusOK, StatusBadRequest, StatusUnauthorized, StatusNotFound, StatusInternalServerError}
      ensures status == StatusBadRequest <==> token == "" || |password| < 8
      ensures status == StatusNotFound <==>
        token != "" && |password| >= 8 && !exists v :: Holds(old(verifications), token, PasswordResetType, v)
      ensures status == StatusUnauthorized <==>
        token != "" && |password| >= 8 &&
        exists v :: Holds(old(verifications), token, PasswordResetType, v) && old(verifications)[v].expiresAt < now
      ensures status == StatusOK <==>
        && token != "" && |password| >= 8 && hashed.Some?
        && (exists v :: Holds(old(verifications), token, PasswordResetType, v) && old(verifications)[v].expiresAt >= now)
        && !BlankUserConflict(old(users), blankUserId)
      ensures status == StatusOK ==>
        hashed.Some? &&
        users == old(users)[blankUserId := UserRow("", "", hashed.value, None, false, [])] &&
        exists v :: Holds(old(verifications), token, PasswordResetType, v) && verifications == old(verifications) - {v}
      ensures status == StatusOK ==> forall u :: u in old(users) ==> u in users && users[u] == old(users)[u]
      ensures status != StatusOK ==> users == old(users) && verifications == old(verifications)
    {
      var refusal, v := LookupResetToken(token, password, now);
      if refusal.Some? {
        return refusal.value;
      }
      if hashed.None? {
        return StatusInternalServerError;
      }
      if BlankUserConflict(users, blankUserId) {
        return StatusInternalServerError;
      }
      BlankInsertKeepsAccounts(users, verifications, sessions, v, blankUserId, hashed.value);
      users := users[blankUserId := UserRow("", "", hashed.value, None, false, [])];
      verifications := verifications - {v};
      return StatusOK;
    }

    /** VerifyPasswordReset as evidently intended: the token's owner gets the new hash. */
    method VerifyPasswordResetIntended(token: string, password: string, hashed: Option<string>, now: Time)
      returns (status: int)
      requires Valid()
      modifies this`users, this`verifications
      ensures Valid()
      ensures status in {StatusOK, StatusBadRequest, StatusUnauthorized, StatusNotFound, StatusInternalServerError}
      ensures status == StatusBadRequest <==> token == "" || |password| < 8
      ensures status == StatusNotFound <==>
        token != "" && |password| >= 8 && !exists v :: Holds(old(verifications), token, PasswordResetType, v)
      ensures status == StatusUnauthorized <==>
        token != "" && |password| >= 8 &&
        exists v :: Holds(old(verifications), token, PasswordResetType, v) && old(verifications)[v].expiresAt < now
      ensures status == StatusOK <==>
        token != "" && |password| >= 8 && hashed.Some? &&
        exists v :: Holds(old(verifications), token, PasswordResetType, v) && old(verifications)[v].expiresAt >= now
      ensures status == StatusOK ==>
        forall v :: Holds(old(verifications), token, PasswordResetType, v) ==>
          var owner := old(verifications)[v].userId;
          && users == old(users)[owner := old(users)[owner].(password := hashed.value)]
          && verifications == old(verifications) - {v}
      ensures status != StatusOK ==> users == old(users) && verifications == old(verifications)
    {
      var refusal, v := LookupResetToken(token, password, now);
      if refusal.Some? {
        return refusal.value;
      }
      if hashed.None? {
        return StatusInternalServerError;
      }
      ResetKeepsAccounts(users, verifications, sessions, v, hashed.value);
      var owner := verifications[v].userId;
      users := users[owner := users[owner].(password := hashed.value)];
      verifications := verifications - {v};
      return StatusOK;
    }

    /** VerifyEmail (auth.go:349-392): a live `EMAIL_VERIFY` token marks its
        owner's e-mail verified and is consumed. */
    method VerifyEmail(token: string, now: Time) returns (status: int)
      requires Valid()
      modifies this`users, this`verifications
      ensures Valid()
      ensures status in {StatusOK, StatusBadRequest, StatusNotFound}
      ensures status == StatusBadRequest <==> token == ""
      ensures status == StatusOK <==>
        token != "" &&
        exists v :: Holds(old(verifications), token, EmailVerifyType, v) && old(verifications)[v].expiresAt > now
      ensures status == StatusOK ==>
        forall v :: Holds(old(verifications), token, EmailVerifyType, v) ==>
          var owner := old(verifications)[v].userId;
          && users == old(users)[owner := old(users)[owner].(isEmailVerified := true)]
          && verifications == old(verifications) - {v}
      ensures status != StatusOK ==> users == old(users) && verifications == old(verifications)
    {
      if token == "" {
        return StatusBadRequest;
      }
      if !exists v :: v in verifications && Holds(verifications, token, EmailVerifyType, v) && verifications[v].expiresAt > now {
        return StatusNotFound;
      }
      var v :| v in verifications && Holds(verifications, token, EmailVerifyType, v) && verifications[v].expiresAt > now;
      assert forall w :: Holds(verifications, token, EmailVerifyType, w) ==> w == v;
      var owner := verifications[v].userId;
      VerifyKeepsAccounts(users, verifications, sessions, v);
      users := users[owner := users[owner].(isEmailVerified := true)];
      verifications := verifications - {v};
      return StatusOK;
    }

    // -------------------------------------------------------------------
    // cart.go; `userId` is the user the access guard attached
    // -------------------------------------------------------------------

    /** GetCart (cart.go:28-54). */
    method GetCart(userId: Uuid) returns (status: int, response: Option<Carts.CartResponse>)
      ensures userId !in carts ==> status == StatusInternalServerError && response == None
      ensures userId in carts ==>
        && status == StatusOK && response.Some?
        && response.value.id == carts[userId].id && response.value.userId == userId
        && |response.value.products| == |carts[userId].lines|
        && forall i :: 0 <= i < |carts[userId].lines| ==>
             response.value.products[i].id == carts[userId].lines[i].id &&
             response.value.products[i].quantity == carts[userId].lines[i].quantity
    {
      if userId !in carts {
        return StatusInternalServerError, None;
      }
      var cart := carts[userId];
      var entries := Carts.ResponseEntries(cart.lines);
      return StatusOK, Some(Carts.CartResponse(cart.id, userId, entries));
    }

    /** AddToCart as written (cart.go:56-123). A missing cart is a lookup error
        (500), so the branch that would create one never runs; the duplicate
        check compares line IDs with the product ID; the response lists the
        line items loaded before the insert. `lineId` is the new line's ID. */
    method AddToCart(userId: Uuid, productId: Uuid, quantity: int, lineId: Uuid)
      returns (status: int, response: Option<Carts.CartResponse>)
      modifies this`carts
      ensures productId !in products ==> status == StatusNotFound
      ensures productId in products && userId !in old(carts) ==> status == StatusInternalServerError
      ensures status == StatusBadRequest <==>
        productId in products && userId in old(carts) && Carts.HasLineWithId(old(carts)[userId].lines, productId)
      ensures status == StatusOK <==>
        productId in products && userId in old(carts) &&
        !Carts.HasLineWithId(old(carts)[userId].lines, productId) &&
        !LineKeyTaken(old(carts)[userId].lines, lineId, productId)
      ensures (&& productId in products && userId in old(carts)
               && !Carts.HasLineWithId(old(carts)[userId].lines, productId)
               && LineKeyTaken(old(carts)[userId].lines, lineId, productId)) ==>
        status == StatusInternalServerError
      ensures status == StatusOK ==>
        var cart := old(carts)[userId];
        && carts == old(carts)[userId := cart.(lines := cart.lines + [CartLine(lineId, productId, quantity)])]
        && response.Some? && response.value.id == cart.id && response.value.userId == userId
        && |response.value.products| == |cart.lines|
        && forall i :: 0 <= i < |cart.lines| ==>
             response.value.products[i] == Carts.CartProductResponse(cart.lines[i].id, cart.lines[i].quantity)
      ensures status != StatusOK ==> carts == old(carts) && response == None
    {
      if productId !in products {
        return StatusNotFound, None;
      }
      if userId !in carts {
        return StatusInternalServerError, None;
      }
      var cart := carts[userId];
      var duplicate := Carts.ContainsLineId(cart.lines, productId);
      if duplicate {
        return StatusBadRequest, None;
      }
      if LineKeyTaken(cart.lines, lineId, productId) {
        return StatusInternalServerError, None;
      }
      carts := carts[userId := cart.(lines := cart.lines + [CartLine(lineId, productId, quantity)])];
      var entries := Carts.ResponseEntries(cart.lines);
      return StatusOK, Some(Carts.CartResponse(cart.id, userId, entries));
    }

    /** AddToCart as evidently intended: a missing cart is created (ID `cartId`),
        and a product already in the cart is refused. It keeps every cart free of
        duplicate products. */
    method AddToCartIntended(userId: Uuid, productId: Uuid, quantity: int, lineId: Uuid, cartId: Uuid)
      returns (status: int, response: Option<Carts.CartResponse>)
      modifies this`carts
      ensures DistinctProducts(old(carts)) ==> DistinctProducts(carts)
      ensures productId !in products ==> status == StatusNotFound && carts == old(carts)
      ensures status == StatusBadRequest <==>
        productId in products && userId in old(carts) && Carts.HasLineForProduct(old(carts)[userId].lines, productId)
      ensures status == StatusOK ==>
        && userId in carts
        && carts[userId].lines ==
             (if userId in old(carts) then old(carts)[userId].lines else []) + [CartLine(lineId, productId, quantity)]
        && forall u :: u in old(carts) && u != userId ==> u in carts && carts[u] == old(carts)[u]
      ensures status == StatusOK ==>
        var before := if userId in old(carts) then old(carts)[userId].lines else [];
        && response.Some? && response.value.id == carts[userId].id && response.value.userId == userId
        && |response.value.products| == |before|
        && forall i :: 0 <= i < |before| ==>
             response.value.products[i] == Carts.CartProductResponse(before[i].id, before[i].quantity)
      ensures productId in products && userId !in old(carts) && !CartIdTaken(old(carts), cartId) ==>
        status == StatusOK && carts == old(carts)[userId := Cart(cartId, [CartLine(lineId, productId, quantity)])]
      ensures status == StatusOK <==>
        && productId in products
        && !(userId in old(carts) && Carts.HasLineForProduct(old(carts)[userId].lines, productId))
        && !(userId !in old(carts) && CartIdTaken(old(carts), cartId))
        && !LineKeyTaken(if userId in old(carts) then old(carts)[userId].lines else [], lineId, productId)
      ensures status == StatusOK && userId in old(carts) ==> carts[userId].id == old(carts)[userId].id
      ensures status != StatusOK ==> carts == old(carts)
      ensures status != StatusOK ==> response == None
    {
      if productId !in products {
        return StatusNotFound, None;
      }
      var cart: Cart;
      if userId !in carts {
        if CartIdTaken(carts, cartId) {
          return StatusInternalServerError, None;
        }
        cart := Cart(cartId, []);
        carts := carts[userId := cart];
      } else {
        cart := carts[userId];
        if Carts.HasLineForProduct(cart.lines, productId) {
          return StatusBadRequest, None;
        }
      }
      if LineKeyTaken(cart.lines, lineId, productId) {
        return StatusInternalServerError, None;
      }
      var line := CartLine(lineId, productId, quantity);
      if DistinctProducts(old(carts)) {
        AppendKeepsDistinct(cart.lines, line);
      }
      carts := carts[userId := cart.(lines := cart.lines + [line])];
      assert cart == Cart(cartId, []) ==> cart.(lines := cart.lines + [line]) == Cart(cartId, [line]);
      var entries := Carts.ResponseEntries(cart.lines);
      return StatusOK, Some(Carts.CartResponse(cart.id, userId, entries));
    }

    /** RemoveFromCart (cart.go:125-160): every line item for the product is
        deleted, one at a time, by its own primary key. */
    method RemoveFromCart(userId: Uuid, productId: Uuid) returns (status: int)
      modifies this`carts
      ensures productId !in products ==> status == StatusNotFound && carts == old(carts)
      ensures productId in products && userId !in old(carts) ==>
        status == StatusInternalServerError && carts == old(carts)
      ensures productId in products && userId in old(carts) ==>
        && status == StatusNoContent
        && carts == old(carts)[userId := old(carts)[userId].(lines := Carts.WithoutProduct(old(carts)[userId].lines, productId))]
    {
      if productId !in products {
        return StatusNotFound;
      }
      if userId !in carts {
        return StatusInternalServerError;
      }
      var cart := carts[userId];
      var kept: seq<CartLine> := [];
      for i := 0 to |cart.lines|
        invariant kept == Carts.WithoutProduct(cart.lines[..i], productId)
      {
        assert cart.lines[..i + 1][..i] == cart.lines[..i];
        if cart.lines[i].productId != productId {
          kept := kept + [cart.lines[i]];
        }
      }
      assert cart.lines[..|cart.lines|] == cart.lines;
      carts := carts[userId := cart.(lines := kept)];
      return StatusNoContent;
    }

    // -------------------------------------------------------------------
    // orders.go
    // -------------------------------------------------------------------

    /** CreateOrder as written (orders.go:48-106). The order row is created on
        its own (orders.go:68) before any item is attached. The items are
        `CartProduct` values appended to the `[]Product` association
        (orders.go:90), which refuses them as an unsupported type as soon as
        there is one. So a request that takes a cart line answers 500, leaving
        the empty order stored and the cart untouched; one that takes none
        answers 201 with an empty order, and the delete by no IDs removes nothing. */
    method CreateOrder(userId: Uuid, selections: seq<string>, orderId: Uuid)
      returns (status: int, response: Option<OrderResponse>)
      modifies this`orders
      ensures userId !in old(carts) ==>
        status == StatusNotFound && response == None && orders == old(orders)
      ensures userId in old(carts) && orderId in old(orders) ==>
        status == StatusInternalServerError && response == None && orders == old(orders)
      ensures userId in old(carts) && orderId !in old(orders) ==>
        && orders == old(orders)[orderId := Order(userId, Created, [])]
        && (status == StatusCreated <==> Orders.MatchedLines(old(carts)[userId].lines, selections) == [])
        && status in {StatusCreated, StatusInternalServerError}
        && response == (if status == StatusCreated
                        then Some(OrderResponse(orderId, [], userId, Created as int)) else None)
    {
      if userId !in carts {
        return StatusNotFound, None;
      }
      var cart := carts[userId];
      if orderId in orders {
        return StatusInternalServerError, None;
      }
      orders := orders[orderId := Order(userId, Created, [])];
      var items, toRemove := Orders.MatchSelections(cart.lines, selections);
      if items != [] {
        return StatusInternalServerError, None;
      }
      return StatusCreated, Some(OrderResponse(orderId, items, userId, Created as int));
    }

    /** CreateOrder as evidently intended: an order with status CREATED is stored
        under `orderId`, the selected cart lines become its items, and those lines
        are deleted by their IDs. */
    method CreateOrderIntended(userId: Uuid, selections: seq<string>, orderId: Uuid)
      returns (status: int, response: Option<OrderResponse>)
      modifies this`orders, this`carts
      ensures userId !in old(carts) ==>
        status == StatusNotFound && response == None && orders == old(orders) && carts == old(carts)
      ensures userId in old(carts) && orderId in old(orders) ==>
        status == StatusInternalServerError && response == None && orders == old(orders) && carts == old(carts)
      ensures userId in old(carts) && orderId !in old(orders) ==>
        var taken := Orders.MatchedLines(old(carts)[userId].lines, selections);
        && status == StatusCreated
        && orders == old(orders)[orderId := Order(userId, Created, Orders.ItemsOf(taken))]
        && carts == WithoutLineIds(old(carts), Orders.IdsOf(taken))
        && response == Some(OrderResponse(orderId, Orders.ItemsOf(taken), userId, Created as int))
    {
      if userId !in carts {
        return StatusNotFound, None;
      }
      var cart := carts[userId];
      if orderId in orders {
        return StatusInternalServerError, None;
      }
      var items, toRemove := Orders.MatchSelections(cart.lines, selections);
      orders := orders[orderId := Order(userId, Created, items)];
      carts := WithoutLineIds(carts, toRemove);
      return StatusCreated, Some(OrderResponse(orderId, items, userId, Created as int));
    }

    /** UpdateOrderStatus (orders.go:109-137): the caller's order gets whatever
        `int32` the body carries, whether or not it names one of the four statuses. */
    method UpdateOrderStatus(userId: Uuid, routeId: Option<Uuid>, newStatus: int)
      returns (status: int, order: Option<Order>)
      modifies this`orders
      ensures routeId.None? ==> status == StatusBadRequest && orders == old(orders)
      ensures routeId.Some? && !(routeId.value in old(orders) && old(orders)[routeId.value].userId == userId) ==>
        status == StatusNotFound && orders == old(orders)
      ensures routeId.Some? && routeId.value in old(orders) && old(orders)[routeId.value].userId == userId ==>
        if IsInt32(newStatus) then
          && status == StatusOK
          && orders == old(orders)[routeId.value := old(orders)[routeId.value].(status := newStatus as OrderStatus)]
          && order == Some(orders[routeId.value])
        else
          status == StatusBadRequest && orders == old(orders)
      ensures status != StatusOK ==> order == None
    {
      if routeId.None? {
        return StatusBadRequest, None;
      }
      var id := routeId.value;
      if !(id in orders && orders[id].userId == userId) {
        return StatusNotFound, None;
      }
      if !IsInt32(newStatus) {
        return StatusBadRequest, None;
      }
      orders := orders[id := orders[id].(status := newStatus as OrderStatus)];
      return StatusOK, Some(orders[id]);
    }

    /** DeleteOrder (orders.go:140-152): only the caller's own order is deleted,
        and the answer is 204 whether or not there was one. */
    method DeleteOrder(userId: Uuid, routeId: Option<Uuid>) returns (status: int)
      modifies this`orders
      ensures routeId.None? ==> status == StatusBadRequest && orders == old(orders)
      ensures routeId.Some? ==>
        && status == StatusNoContent
        && orders == if routeId.value in old(orders) && old(orders)[routeId.value].userId == userId
                     then old(orders) - {routeId.value} else old(orders)
    {
      if routeId.None? {
        return StatusBadRequest;
      }
      var id := routeId.value;
      if id in orders && orders[id].userId == userId {
        orders := orders - {id};
      }
      return StatusNoContent;
    }

    // -------------------------------------------------------------------
    // products.go
    // -------------------------------------------------------------------

    /** UpdateProduct (products.go:111-159): the caller's own product is merged
        with the request field by field. */
    method UpdateProduct(userId: Uuid, routeId: Option<Uuid>, req: Products.ProductUpdateRequest)
      returns (status: int)
      modifies this`products
      ensures routeId.None? ==> status == StatusBadRequest && products == old(products)
      ensures routeId.Some? && !(routeId.value in old(products) && old(products)[routeId.value].ownerId == userId) ==>
        status == StatusNotFound && products == old(products)
      ensures routeId.Some? && routeId.value in old(products) && old(products)[routeId.value].ownerId == userId ==>
        && status == StatusAccepted
        && products == old(products)[routeId.value := Products.Merged(old(products)[routeId.value], req)]
    {
      if routeId.None? {
        return StatusBadRequest;
      }
      var id := routeId.value;
      if !(id in products && products[id].ownerId == userId) {
        return StatusNotFound;
      }
      var product := products[id];
      if req.name.Some? {
        product := product.(name := req.name.value);
      }
      if req.description.Some? {
        product := product.(description := req.description.value);
      }
      if req.image.Some? {
        product := product.(image := req.image);
      }
      if req.price.Some? {
        product := product.(price := req.price.value);
      }
      if req.stock.Some? {
        product := product.(stock := req.stock.value);
      }
      if req.categories.Some? {
        var categories := Products.CategoriesFromNames(req.categories.value);
        assert categories == Products.NamedCategories(req.categories.value);
        product := product.(categories := categories);
      }
      product := product.(image := req.image);
      products := products[id := product];
      return StatusAccepted;
    }

    /** DeleteProduct (products.go:162-174): only the caller's own product is
        deleted; the answer is 204 either way. */
    method DeleteProduct(userId: Uuid, routeId: Option<Uuid>) returns (status: int)
      modifies this`products
      ensures routeId.None? ==> status == StatusBadRequest && products == old(products)
      ensures routeId.Some? ==>
        && status == StatusNoContent
        && products == if routeId.value in old(products) && old(products)[routeId.value].ownerId == userId
                       then old(products) - {routeId.value} else old(products)
    {
      if routeId.None? {
        return StatusBadRequest;
      }
      var id := routeId.value;
      if id in products && products[id].ownerId == userId {
        products := products - {id};
      }
      return StatusNoContent;
    }

    /** CreateReview (products.go:177-213): one review per product and user. */
    method CreateReview(userId: Uuid, routeId: Option<Uuid>, rating: Float64, comment: string, reviewId: Uuid)
      returns (status: int, review: Option<Review>)
      requires Valid()
      modifies this`reviews
      ensures Valid()
      ensures routeId.None? ==> status == StatusBadRequest
      ensures routeId.Some? && routeId.value !in products ==> status == StatusNotFound
      ensures routeId.Some? && routeId.value in products && HasReview(old(reviews), routeId.value, userId) ==>
        status == StatusBadRequest
      ensures (&& routeId.Some? && routeId.value in products
               && !HasReview(old(reviews), routeId.value, userId) && reviewId in old(reviews)) ==>
        status == StatusInternalServerError
      ensures status == StatusCreated <==>
        routeId.Some? && routeId.value in products && !HasReview(old(reviews), routeId.value, userId) &&
        reviewId !in old(reviews)
      ensures status == StatusCreated ==>
        && review == Some(Review(routeId.value, userId, rating, comment))
        && reviews == old(reviews)[reviewId := review.value]
      ensures status != StatusCreated ==> review == None && reviews == old(reviews)
    {
      if routeId.None? {
        return StatusBadRequest, None;
      }
      var productId := routeId.value;
      if productId !in products {
        return StatusNotFound, None;
      }
      if HasReview(reviews, productId, userId) {
        return StatusBadRequest, None;
      }
      if reviewId in reviews {
        return StatusInternalServerError, None;
      }
      var created := Review(productId, userId, rating, comment);
      reviews := reviews[reviewId := created];
      return StatusCreated, Some(created);
    }

    /** RemoveReview (products.go:216-228): the caller's reviews of the product are deleted. */
    method RemoveReview(userId: Uuid, routeId: Option<Uuid>) returns (status: int)
      requires Valid()
      modifies this`reviews
      ensures Valid()
      ensures routeId.None? ==> status == StatusBadRequest && reviews == old(reviews)
      ensures routeId.Some? ==>
        && status == StatusNoContent
        && !HasReview(reviews, routeId.value, userId)
        && (forall r :: r in old(reviews) ==>
              (r in reviews <==> !(old(reviews)[r].productId == routeId.value && old(reviews)[r].userId == userId)))
        && (forall r :: r in reviews ==> r in old(reviews) && reviews[r] == old(reviews)[r])
    {
      if routeId.None? {
        return StatusBadRequest;
      }
      var productId := routeId.value;
      reviews := map r | r in reviews && !(reviews[r].productId == productId && reviews[r].userId == userId) :: reviews[r];
      return StatusNoContent;
    }

    /** AddToFavorites (products.go:231-250): `FirstOrCreate` stores the pair only
        when it is not there yet, so adding twice is the same as adding once. */
    method AddToFavorites(userId: Uuid, routeId: Option<Uuid>, favouriteId: Uuid) returns (status: int)
      requires Valid()
      modifies this`favourites
      ensures Valid()
      ensures routeId.None? ==> status == StatusBadRequest && favourites == old(favourites)
      ensures routeId.Some? && routeId.value !in products ==> status == StatusNotFound && favourites == old(favourites)
      ensures routeId.Some? && routeId.value in products && HasFavourite(old(favourites), routeId.value, userId) ==>
        status == StatusCreated && favourites == old(favourites)
      ensures routeId.Some? && routeId.value in products && !HasFavourite(old(favourites), routeId.value, userId) ==>
        if favouriteId in old(favourites) then status == StatusInternalServerError && favourites == old(favourites)
        else status == StatusCreated && favourites == old(favourites)[favouriteId := Favourite(routeId.value, userId)]
      ensures status == StatusCreated ==> HasFavourite(favourites, routeId.value, userId)
    {
      if routeId.None? {
        return StatusBadRequest;
      }
      var productId := routeId.value;
      if productId !in products {
        return StatusNotFound;
      }
      if HasFavourite(favourites, productId, userId) {
        return StatusCreated;
      }
      if favouriteId in favourites {
        return StatusInternalServerError;
      }
      favourites := favourites[favouriteId := Favourite(productId, userId)];
      assert favourites[favouriteId] == Favourite(productId, userId);
      return StatusCreated;
    }

    /** RemoveFromFavorites (products.go:253-265). */
    method RemoveFromFavorites(userId: Uuid, routeId: Option<Uuid>) returns (status: int)
      requires Valid()
      modifies this`favourites
      ensures Valid()
      ensures routeId.None? ==> status == StatusBadRequest && favourites == old(favourites)
      ensures routeId.Some? ==>
        && status == StatusNoContent
        && !HasFavourite(favourites, routeId.value, userId)
        && (forall f :: f in old(favourites) ==>
              (f in favourites <==> old(favourites)[f] != Favourite(routeId.value, userId)))
        && (forall f :: f in favourites ==> f in old(favourites) && favourites[f] == old(favourites)[f])
    {
      if routeId.None? {
        return StatusBadRequest;
      }
      var productId := routeId.value;
      favourites := map f | f in favourites && favourites[f] != Favourite(productId, userId) :: favourites[f];
      return StatusNoContent;
    }
  }
}
