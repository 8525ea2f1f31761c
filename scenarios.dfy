/** Sequences of requests against one store, and what the handlers promise
    about them together. */
module Scenarios {
  import opened Common
  import opened Models
  import opened Jwt
  import opened Handlers

  /** A verification e-mail's token works once: after it has verified the
      address, the same token is not found. */
  method VerifyEmailTokenSingleUse(s: Store, token: string, now: Time, later: Time)
    returns (first: int, second: int)
    requires s.Valid()
    modifies s`users, s`verifications
    ensures s.Valid()
    ensures first == StatusOK ==> second == StatusNotFound
  {
    first := s.VerifyEmail(token, now);
    second := s.VerifyEmail(token, later);
  }

  /** Registering, then following the e-mailed link before it expires, lets the
      user log in with the password they registered with. */
  method RegisterVerifyLogin(s: Store, username: string, email: string, password: string, redirectUrl: string,
                             isEmail: string -> bool, hash: string, checkHash: (string, string) -> bool,
                             newUserId: Uuid, token: string, verificationId: Uuid, now: Time, later: Time,
                             jti: Uuid, accessToken: string, refreshToken: string, agent: string)
    returns (registered: int, verified: int, loggedIn: int)
    requires s.Valid()
    requires token != "" && checkHash(password, hash) && now <= later < now + s.config.verificationExpire
    modifies s`users, s`verifications, s`sessions
    ensures s.Valid()
    ensures registered == StatusCreated ==> verified == StatusOK && loggedIn == StatusOK
  {
    registered := s.Register(username, email, password, redirectUrl, isEmail, Some(hash),
                             newUserId, token, verificationId, now, true);
    ghost var owner := Registrant(old(s.users), email, newUserId);
    ghost var midVerifications := s.verifications;
    if registered == StatusCreated {
      assert Holds(midVerifications, token, EmailVerifyType, verificationId);
      assert midVerifications[verificationId].userId == owner;
      assert s.users[owner].email == email && s.users[owner].password == hash;
    }
    verified := s.VerifyEmail(token, later);
    if registered == StatusCreated {
      assert s.users[owner].email == email && s.users[owner].isEmailVerified && s.users[owner].password == hash;
    }
    var tokens;
    loggedIn, tokens := s.Login(email, password, isEmail, checkHash, jti, accessToken, refreshToken, agent, later);
  }

  /** The password-reset mail, as written, carries an `EMAIL_VERIFY` token: the
      change-password request that follows it finds no reset token. */
  method ResetTokenRefusedAsWritten(s: Store, email: string, redirectUrl: string, isEmail: string -> bool,
                                    token: string, verificationId: Uuid, now: Time,
                                    password: string, hash: string, blankUserId: Uuid, later: Time)
    returns (reset: int, change: int)
    requires s.Valid()
    requires token != "" && |password| >= 8
    modifies s`users, s`verifications
    ensures s.Valid()
    ensures reset == StatusOK ==> change == StatusNotFound
  {
    reset := s.ResetPassword(email, redirectUrl, isEmail, token, verificationId, now, true);
    change := s.VerifyPasswordReset(token, password, Some(hash), blankUserId, later);
  }

  /** As written, only one password change can ever succeed: the first inserts
      a blank user whose e-mail is empty, and the second blank user would repeat
      that value of the unique `email` column. */
  method SecondResetFailsAsWritten(s: Store, firstToken: string, secondToken: string,
                                   password: string, hash: string,
                                   firstBlankId: Uuid, secondBlankId: Uuid, now: Time)
    returns (first: int, second: int)
    requires s.Valid()
    modifies s`users, s`verifications
    ensures s.Valid()
    ensures first == StatusOK ==> second != StatusOK
    ensures first == StatusOK && second != StatusNotFound && second != StatusUnauthorized && secondToken != "" ==>
      second == StatusInternalServerError
  {
    first := s.VerifyPasswordReset(firstToken, password, Some(hash), firstBlankId, now);
    if first == StatusOK {
      assert s.users[firstBlankId].email == "";
      assert EmailTaken(s.users, "");
    }
    second := s.VerifyPasswordReset(secondToken, password, Some(hash), secondBlankId, now);
  }

  /** With the intended kind, following the reset mail in time changes the
      owner's password and nothing else about the user. */
  method ResetThenChangeIntended(s: Store, email: string, redirectUrl: string, isEmail: string -> bool,
                                 token: string, verificationId: Uuid, now: Time,
                                 password: string, hash: string, later: Time)
    returns (reset: int, change: int)
    requires s.Valid()
    requires token != "" && |password| >= 8 && now <= later <= now + s.config.verificationExpire
    modifies s`users, s`verifications
    ensures s.Valid()
    ensures reset == StatusOK ==>
      && change == StatusOK
      && forall u :: u in old(s.users) && old(s.users)[u].email == email ==>
           s.users == old(s.users)[u := old(s.users)[u].(password := hash)]
  {
    reset := s.ResetPasswordIntended(email, redirectUrl, isEmail, token, verificationId, now, true);
    if reset == StatusOK {
      var u :| u in s.users && s.users[u].email == email;
      assert Holds(s.verifications, token, PasswordResetType, verificationId);
    }
    change := s.VerifyPasswordResetIntended(token, password, Some(hash), later);
  }

  /** As written, logging out answers 500 and leaves the session row in place,
      so the refresh with the corrected claims assertion still accepts the token. */
  method LogoutKeepsSessionAsWritten(s: Store, refreshToken: string, parsed: Option<ParsedToken>)
    returns (logout: int, refresh: int)
    requires FromValidateToken(parsed) && Validated(parsed) && refreshToken != ""
    requires parsed.value.claims.claim.jti in s.sessions
    ensures logout == StatusInternalServerError && parsed.value.claims.claim.jti in s.sessions
    ensures refresh == StatusOK
  {
    logout := s.Logout(refreshToken, parsed);
    var access;
    refresh, access := s.Refresh(refreshToken, parsed);
  }

  /** With the intended logout, a token as `ValidateToken` accepts it is logged
      out with 204, and then stops refreshing. */
  method LogoutRevokesRefreshIntended(s: Store, refreshToken: string, parsed: Option<ParsedToken>)
    returns (logout: int, refresh: int)
    requires s.Valid()
    requires FromValidateToken(parsed) && Validated(parsed) && refreshToken != ""
    modifies s`sessions
    ensures s.Valid()
    ensures logout == StatusNoContent && refresh == StatusUnauthorized
  {
    logout := s.LogoutIntended(refreshToken, parsed);
    var access;
    refresh, access := s.Refresh(refreshToken, parsed);
  }

  /** As written, adding a product the cart already holds is accepted and the
      cart ends with two line items for it. */
  method DuplicateAddAcceptedAsWritten() returns (status: int, lines: seq<CartLine>)
    ensures status == StatusOK
    ensures |lines| == 2 && lines[0].productId == lines[1].productId == "product-1"
  {
    var s := new Store(Config(1, 1, 1));
    s.products := map["product-1" := Product("owner-1", "Lamp", "", Float64(0), 3, None, [])];
    s.carts := map["user-1" := Cart("cart-1", [CartLine("line-1", "product-1", 1)])];
    var response;
    status, response := s.AddToCart("user-1", "product-1", 2, "line-2");
    lines := s.carts["user-1"].lines;
  }

  /** The intended check refuses the same request and leaves the cart alone. */
  method DuplicateAddRefusedIntended() returns (status: int, lines: seq<CartLine>)
    ensures status == StatusBadRequest
    ensures lines == [CartLine("line-1", "product-1", 1)]
  {
    var s := new Store(Config(1, 1, 1));
    s.products := map["product-1" := Product("owner-1", "Lamp", "", Float64(0), 3, None, [])];
    s.carts := map["user-1" := Cart("cart-1", [CartLine("line-1", "product-1", 1)])];
    assert s.carts["user-1"].lines[0].productId == "product-1";
    var response;
    status, response := s.AddToCartIntended("user-1", "product-1", 2, "line-2", "cart-2");
    lines := s.carts["user-1"].lines;
  }

  /** As written, a user without a cart cannot add anything; intended, the first
      add creates the cart. */
  method FirstAddWithoutCart() returns (asWritten: int, intended: int)
    ensures asWritten == StatusInternalServerError && intended == StatusOK
  {
    var s := new Store(Config(1, 1, 1));
    s.products := map["product-1" := Product("owner-1", "Lamp", "", Float64(0), 3, None, [])];
    var response;
    asWritten, response := s.AddToCart("user-1", "product-1", 1, "line-1");
    intended, response := s.AddToCartIntended("user-1", "product-1", 1, "line-1", "cart-1");
  }

  /** As written, ordering a product the cart holds fails and leaves an empty
      order behind; intended, the order carries the line and the cart gives it up. */
  method OrderHeldProduct() returns (asWritten: int, leftOrder: Order, intended: int, leftLines: seq<CartLine>)
    ensures asWritten == StatusInternalServerError && leftOrder == Order("user-1", Created, [])
    ensures intended == StatusCreated && leftLines == []
  {
    var s := new Store(Config(1, 1, 1));
    s.carts := map["user-1" := Cart("cart-1", [CartLine("line-1", "product-1", 2)])];
    assert Orders.FirstMatch(s.carts["user-1"].lines, "product-1") == Some(0);
    var response;
    asWritten, response := s.CreateOrder("user-1", ["product-1"], "order-1");
    leftOrder := s.orders["order-1"];
    var line := CartLine("line-1", "product-1", 2);
    assert Orders.MatchedLines([line], ["product-1"]) == [line] by {
      assert ["product-1"][..0] == [];
    }
    assert Orders.IdsOf([line]) == ["line-1"];
    intended, response := s.CreateOrderIntended("user-1", ["product-1"], "order-2");
    leftLines := s.carts["user-1"].lines;
    assert Orders.WithoutIds([line], ["line-1"]) == [] by {
      assert [line][1..] == [];
    }
  }

  /** Adding a favourite twice stores it once: the second request changes nothing. */
  method AddFavouriteTwice(s: Store, userId: Uuid, routeId: Option<Uuid>, firstId: Uuid, secondId: Uuid)
    returns (first: int, second: int, afterFirst: map<Uuid, Favourite>)
    requires s.Valid()
    modifies s`favourites
    ensures s.Valid()
    ensures first == StatusCreated ==> second == StatusCreated && s.favourites == afterFirst
  {
    first := s.AddToFavorites(userId, routeId, firstId);
    afterFirst := s.favourites;
    second := s.AddToFavorites(userId, routeId, secondId);
  }

  /** At the very instant an e-mail token expires it is refused: the lookup wants
      `expires_at` after now. */
  method EmailTokenAtExpiry() returns (status: int)
    ensures status == StatusNotFound
  {
    var s := new Store(Config(1, 1, 1));
    s.users := map["user-1" := UserRow("a@example.org", "alice", "old-hash", None, true, [])];
    s.verifications := map["verification-1" := Verification(EmailVerifyType, "token-1", "user-1", 10)];
    status := s.VerifyEmail("token-1", 10);
  }

  /** At the very instant a reset token expires it is still accepted: only an
      expiry before now is refused. */
  method ResetTokenAtExpiry() returns (status: int)
    ensures status == StatusOK
  {
    var s := new Store(Config(1, 1, 1));
    s.users := map["user-1" := UserRow("a@example.org", "alice", "old-hash", None, true, [])];
    s.verifications := map["verification-2" := Verification(PasswordResetType, "token-2", "user-1", 10)];
    assert Holds(s.verifications, "token-2", PasswordResetType, "verification-2");
    status := s.VerifyPasswordResetIntended("token-2", "new-password", Some("new-hash"), 10);
  }
}
