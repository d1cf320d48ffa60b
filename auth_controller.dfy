/** `controllers/authController.js`: token selection and the `protect`
    decision, `restrictTo`, `createSendToken`, `login`, `logout`,
    `forgotPassword`, `resetPassword` and `updatePassword`. The process-wide
    `global.token` is a field of the `App` object, which outlives requests. */
module AuthController {
  import opened Js
  import opened Crypto
  import opened UserModel
  import opened Express

  const ErrorLogin := Reply(404, Message("error", "Incorrect username and password"))
  const ErrorLogin400 := Reply(400, Messag("error", "error login"))

  /** The token `protect` uses: the second word of a `Bearer` authorization
      header, else a truthy `global.token`, else a truthy `jwt` cookie. */
  function SelectToken(authorization: Option<string>, globalToken: Option<string>, cookieJwt: Option<string>): Option<string> {
    if Truthy(authorization) && StartsWith(authorization.value, "Bearer") then SecondWord(authorization.value)
    else if Truthy(globalToken) then globalToken
    else if Truthy(cookieJwt) then cookieJwt
    else None
  }

  /** A `Bearer <t>` header wins over the global token and the cookie. */
  lemma BearerHeaderWins(t: string, globalToken: Option<string>, cookieJwt: Option<string>)
    requires forall k :: 0 <= k < |t| ==> t[k] != ' '
    ensures SelectToken(Some("Bearer " + t), globalToken, cookieJwt) == Some(t)
  {
    SecondWordOfBearer(t);
  }

  /** Without a `Bearer` header, a set `global.token` hides the request's own
      cookie: two requests that differ only in their cookie get the same token. */
  lemma GlobalTokenShadowsCookie(authorization: Option<string>, globalToken: Option<string>, cookie1: Option<string>, cookie2: Option<string>)
    requires !(Truthy(authorization) && StartsWith(authorization.value, "Bearer"))
    requires Truthy(globalToken)
    ensures SelectToken(authorization, globalToken, cookie1) == globalToken
    ensures SelectToken(authorization, globalToken, cookie2) == globalToken
  {
  }

  /** The cookie is used exactly when neither the header nor the global
      token supplies a token and the cookie is truthy. */
  lemma CookieUsedLast(authorization: Option<string>, globalToken: Option<string>, cookieJwt: Option<string>)
    requires Truthy(cookieJwt) && cookieJwt != globalToken
    requires !(Truthy(authorization) && StartsWith(authorization.value, "Bearer") && SecondWord(authorization.value) == cookieJwt)
    ensures SelectToken(authorization, globalToken, cookieJwt) == cookieJwt
            <==> !(Truthy(authorization) && StartsWith(authorization.value, "Bearer")) && !Truthy(globalToken)
  {
  }

  /** The outcome of the `try` block of `protect` for a selected token. */
  datatype Decision = NoToken | BadToken | NoUser | PasswordChanged | Accept(user: UserRecord, token: string)

  /** `jwt.verify`, `findById` (which hides deactivated users and the
      `select: false` fields) and `changedPasswordAfter(decoded.iat)`. */
  function Decide(records: map<UserId, UserRecord>, c: Crypto, token: Option<string>, nowSec: int): Decision {
    if !Truthy(token) then NoToken
    else match c.verify(token.value, nowSec)
      case None => BadToken
      case Some(claims) =>
        match FindById(records, claims.id)
        case None => NoUser
        case Some(u) =>
          if ChangedPasswordAfter(u.passwordChangedAt, claims.iat) then PasswordChanged
          else Accept(DefaultView(u), token.value)
  }

  /** `protect` lets a request through only with an unexpired signed token of
      a stored, active user whose password-change check passes; the request
      then carries that user without its password hash. */
  lemma {:induction false} AcceptOnlyLiveSignedTokens(records: map<UserId, UserRecord>, c: Crypto, token: Option<string>, nowSec: int)
    requires Axioms(c)
    requires Decide(records, c, token, nowSec).Accept?
    ensures exists id, iat ::
      && token == Some(c.sign(id, iat))
      && nowSec < iat + c.expiresIn
      && id in records && Findable(records[id])
      && !ChangedPasswordAfter(records[id].passwordChangedAt, iat)
      && Decide(records, c, token, nowSec) == Accept(DefaultView(records[id]), c.sign(id, iat))
    ensures Decide(records, c, token, nowSec).user.password.None?
  {
    var claims := c.verify(token.value, nowSec).value;
    assert token == Some(c.sign(claims.id, claims.iat));
  }

  /** A token signed for an active user within its lifetime is accepted. */
  lemma {:induction false} SignedTokenAccepted(records: map<UserId, UserRecord>, c: Crypto, id: UserId, iat: int, nowSec: int)
    requires Axioms(c)
    requires id in records && Findable(records[id])
    requires iat <= nowSec < iat + c.expiresIn && iat >= 10
    ensures Decide(records, c, Some(c.sign(id, iat)), nowSec) == Accept(DefaultView(records[id]), c.sign(id, iat))
  {
    assert c.sign(id, iat) != "";
    assert c.verify(c.sign(id, iat), nowSec) == Some(Claims(id, iat));
    ChangedPasswordAfterIgnoresChangeTime(records[id].passwordChangedAt, iat);
  }

  /** A deactivated user's token never passes, however valid it is. */
  lemma DeactivatedUserRejected(records: map<UserId, UserRecord>, c: Crypto, id: UserId, iat: int, nowSec: int)
    requires Axioms(c)
    requires id in records && records[id].active == Some(false)
    requires iat <= nowSec < iat + c.expiresIn
    ensures Decide(records, c, Some(c.sign(id, iat)), nowSec) == NoUser
  {
    assert c.sign(id, iat) != "";
    assert c.verify(c.sign(id, iat), nowSec) == Some(Claims(id, iat));
  }

  /** `protect` with the evidently intended `changedPasswordAfter`. */
  function DecideIntended(records: map<UserId, UserRecord>, c: Crypto, token: Option<string>, nowSec: int): Decision {
    if !Truthy(token) then NoToken
    else match c.verify(token.value, nowSec)
      case None => BadToken
      case Some(claims) =>
        match FindById(records, claims.id)
        case None => NoUser
        case Some(u) =>
          if ChangedPasswordAfterIntended(u.passwordChangedAt, claims.iat) then PasswordChanged
          else Accept(DefaultView(u), token.value)
  }

  /** The record `updatePassword` saves: a new password is hashed, the
      confirmation cleared and the change time recorded; re-sending the stored
      hash only stores the confirmation. */
  function PasswordSaved(rec: UserRecord, c: Crypto, p: Option<string>, q: Option<string>, now: int): UserRecord {
    if p.Some? && p != rec.password then
      rec.(password := Some(c.hash(p.value, BcryptCost)), passwordConfirm := None, passwordChangedAt := Some(now - 1000))
    else rec.(passwordConfirm := q)
  }

  /** The record `resetPassword` saves. The loaded document does not hold the
      password, so any supplied password counts as a change. */
  function ResetSaved(rec: UserRecord, c: Crypto, p: Option<string>, q: Option<string>, now: int): UserRecord {
    var r := rec.(passwordResetToken := None, passwordResetExpires := None);
    if p.Some? then
      r.(password := Some(c.hash(p.value, BcryptCost)), passwordConfirm := None, passwordChangedAt := Some(now - 1000))
    else r.(passwordConfirm := q)
  }

  /** What `save()` writes for the document `resetPassword` prepared. */
  lemma ResetSaveWrites(rec: UserRecord, c: Crypto, p: Option<string>, q: Option<string>, now: int)
    ensures var d := DefaultView(rec).(password := p, passwordConfirm := q, passwordResetToken := None, passwordResetExpires := None);
      var m := ModifiedIf(Password, p != None) + ModifiedIf(PasswordConfirm, q != rec.passwordConfirm)
             + ModifiedIf(PasswordResetToken, rec.passwordResetToken != None) + ModifiedIf(PasswordResetExpires, rec.passwordResetExpires != None);
      Merge(rec, Hooked(d, m, false, c, now), HookedPaths(d, m, false)) == ResetSaved(rec, c, p, q, now)
  {
  }

  /** What `save()` writes for the document `updatePassword` prepared. */
  lemma PasswordSaveWrites(rec: UserRecord, c: Crypto, p: Option<string>, q: Option<string>, now: int)
    requires p.Some?
    ensures var d := WithPassword(rec).(password := p, passwordConfirm := q);
      var m := ModifiedIf(Password, p != rec.password) + ModifiedIf(PasswordConfirm, q != rec.passwordConfirm);
      Merge(rec, Hooked(d, m, false, c, now), HookedPaths(d, m, false)) == PasswordSaved(rec, c, p, q, now)
  {
  }

  /** What the two saves of `forgotPassword` write. */
  lemma ResetFieldsWrites(rec: UserRecord, t: Option<string>, e: Option<int>, c: Crypto, now: int)
    ensures var d := DefaultView(rec).(passwordResetToken := t, passwordResetExpires := e);
      var m := ModifiedIf(PasswordResetToken, t != rec.passwordResetToken) + ModifiedIf(PasswordResetExpires, e != rec.passwordResetExpires);
      Merge(rec, Hooked(d, m, false, c, now), HookedPaths(d, m, false)) == rec.(passwordResetToken := t, passwordResetExpires := e)
  {
  }

  /** As written, a token issued before a password change keeps passing
      `protect`; with the intended check it is turned away. */
  lemma {:induction false} OldTokenSurvivesPasswordChange(records: map<UserId, UserRecord>, c: Crypto, id: UserId, issuedMs: int, p: string, q: Option<string>, now: int, nowSec: int)
    requires Axioms(c)
    requires id in records && Findable(records[id]) && Some(p) != records[id].password
    requires 10_000 <= issuedMs && issuedMs + 2000 <= now
    requires issuedMs / 1000 <= nowSec < issuedMs / 1000 + c.expiresIn
    ensures var after := records[id := PasswordSaved(records[id], c, Some(p), q, now)];
      && Decide(after, c, Some(c.sign(id, issuedMs / 1000)), nowSec).Accept?
      && DecideIntended(after, c, Some(c.sign(id, issuedMs / 1000)), nowSec) == PasswordChanged
  {
    var after := records[id := PasswordSaved(records[id], c, Some(p), q, now)];
    SignedTokenAccepted(after, c, id, issuedMs / 1000, nowSec);
    IntendedRejectsOlderTokens(issuedMs, now, SecondsOf(now - 1000));
    assert c.sign(id, issuedMs / 1000) != "";
    assert c.verify(c.sign(id, issuedMs / 1000), nowSec) == Some(Claims(id, issuedMs / 1000));
  }

  /** `restrictTo(...roles)`: membership of the user's role name. */
  function Permitted(roles: seq<string>, role: Role): bool {
    RoleName(role) in roles
  }

  /** The role list `('admin', 'lead-guide')` admits exactly the admins: the
      schema has no `lead-guide` role. */
  lemma LeadGuideAdmitsOnlyAdmins(role: Role)
    ensures Permitted(["admin", "lead-guide"], role) <==> role == Admin
    ensures Permitted(["admin"], role) <==> role == Admin
  {
    assert RoleName(User) == "user";
    assert "user" != "admin" && "user" != "lead-guide" by {
      assert "user"[0] != "admin"[0];
      assert |"user"| != |"lead-guide"|;
    }
  }

  /** `findByIdAndUpdate(id, { token })` from `createSendToken`, subject to
      the `pre(/^find/)` hook; any failure is swallowed. */
  function TokenWritten(records: map<UserId, UserRecord>, id: UserId, token: string, writeOk: bool): (r: map<UserId, UserRecord>)
    ensures r.Keys == records.Keys
    ensures forall k :: k in records && k != id ==> r[k] == records[k]
    ensures id in records ==> r[id] == records[id] || r[id] == records[id].(token := Some(token))
  {
    if writeOk && id in records && Findable(records[id]) then records[id := records[id].(token := Some(token))] else records
  }

  /** The fields `createSendToken` blanks on the user it returns. */
  function Blanked(r: UserRecord): UserRecord {
    r.(password := None, passwordResetExpires := None, passwordResetToken := None, passwordChangedAt := None)
  }

  /** `bcrypt.compare(password, user.password)`; None when bcrypt throws on
      a missing argument. */
  function PasswordCheck(c: Crypto, password: Option<string>, rec: UserRecord): Option<bool> {
    if password.None? || rec.password.None? then None else Some(CorrectPassword(c, password.value, rec.password.value))
  }

  /** `findOne({ email })`; an undefined filter value is dropped from the query. */
  function EmailQuery(email: Option<string>): UserRecord -> bool {
    (r: UserRecord) => email.None? || HasEmail(r, email.value)
  }

  /** `findOne({ passwordResetToken: hashed, passwordResetExpires: { $gt: now } })`. */
  function ResetQuery(hashed: string, now: int): UserRecord -> bool {
    (r: UserRecord) => r.passwordResetToken == Some(hashed) && r.passwordResetExpires.Some? && r.passwordResetExpires.value > now
  }

  /** Whether the document `resetPassword` prepares passes validation: a
      password, when given, and the confirmation have at least 8 characters
      after trimming. */
  predicate ResetValidates(password: Option<string>, passwordConfirm: Option<string>) {
    (TrimValue(password).None? || MeetsMinLength(TrimValue(password))) && MeetsMinLength(TrimValue(passwordConfirm))
  }

  /** The methods the shipped `Email` class defines. */
  const EmailMethods: set<string> := {"send", "newTransport"}

  /** `forgotPassword` calls `sendPasswordReset`, which the shipped class lacks. */
  lemma ShippedMailerLacksSendPasswordReset()
    ensures "sendPasswordReset" !in EmailMethods
  {
    assert "sendPasswordReset" != "send" by { assert |"sendPasswordReset"| != |"send"|; }
    assert "sendPasswordReset" != "newTransport" by { assert "sendPasswordReset"[0] != "newTransport"[0]; }
  }

  class App {
    /** `global.token`: shared by every request the process serves. */
    var globalToken: Option<string>
    const store: UserStore
    const c: Crypto

    constructor (store: UserStore, c: Crypto)
      ensures this.store == store && this.c == c && globalToken.None?
    {
      this.store := store;
      this.c := c;
      globalToken := None;
    }

    /** `createSendToken(user, statusCode, req, res)` at time `now` (ms).
        `threw` when `res.cookie` finds the headers already sent; by then
        `global.token` has been replaced. */
    method CreateSendToken(ex: Exchange, user: UserDoc, statusCode: int, now: int, tokenWriteOk: bool) returns (threw: bool)
      modifies this, ex, user, store
      ensures globalToken == Some(c.sign(old(user.data).id, now / 1000))
      ensures threw <==> old(ex.reply).Some?
      ensures threw ==> ex.reply == old(ex.reply) && ex.cookies == old(ex.cookies) && ex.locals == old(ex.locals)
                        && user.data == old(user.data) && store.records == old(store.records)
      ensures !threw ==>
        var token := c.sign(old(user.data).id, now / 1000);
        && ex.cookies == old(ex.cookies) + [SetCookie("jwt", token)]
        && user.data == Blanked(old(user.data))
        && store.records == TokenWritten(old(store.records), old(user.data).id, token, tokenWriteOk)
        && ex.locals == old(ex.locals).(user := Some(user.data))
        && ex.reply == Some(Reply(statusCode, Issued(token, user.data)))
      ensures ex.nexts == old(ex.nexts) && ex.reqUser == old(ex.reqUser) && ex.paramsId == old(ex.paramsId)
    {
      var token := c.sign(user.data.id, now / 1000);
      globalToken := Some(token);
      threw := ex.Cookie(SetCookie("jwt", token));
      if threw {
        return;
      }
      var id := user.data.id;
      user.BlankSecurityFields();
      store.records := TokenWritten(store.records, id, token, tokenWriteOk);
      ex.locals := ex.locals.(user := Some(user.data));
      threw := ex.Send(Reply(statusCode, Issued(token, user.data)));
    }

    /** `login` as written: the `errorLogin` responses are not followed by
        `return`. `target` is the user `findOne` returned. */
    method Login(ex: Exchange, email: Option<string>, password: Option<string>, now: int, tokenWriteOk: bool) returns (target: Option<UserId>)
      requires ex.reply.None? && store.Valid()
      modifies this, ex, store
      ensures store.Valid()
      ensures target.Some? ==> target.value in old(store.records) && Findable(old(store.records)[target.value])
                               && EmailQuery(email)(old(store.records)[target.value])
      ensures target.None? ==> forall id :: id in old(store.records) && Findable(old(store.records)[id]) ==> !EmailQuery(email)(old(store.records)[id])
      ensures target.None? ==>
        ex.reply == Some(ErrorLogin) && ex.nexts == old(ex.nexts) + [Rethrown]
        && globalToken == old(globalToken) && store.records == old(store.records)
      ensures target.Some? ==>
        var rec := WithPassword(old(store.records)[target.value]);
        var token := c.sign(target.value, now / 1000);
        var early := !Truthy(email) || !Truthy(password);
        match PasswordCheck(c, password, rec)
        case None =>
          && ex.reply == (if early then Some(ErrorLogin) else None) && ex.nexts == old(ex.nexts) + [Rethrown]
          && globalToken == old(globalToken) && store.records == old(store.records)
        case Some(correct) =>
          if correct && !early then
            && globalToken == Some(token) && ex.nexts == old(ex.nexts)
            && ex.reply == Some(Reply(200, Issued(token, Blanked(rec))))
            && ex.cookies == old(ex.cookies) + [SetCookie("jwt", token)]
            && store.records == TokenWritten(old(store.records), target.value, token, tokenWriteOk)
          else if !correct && early then
            && globalToken == old(globalToken) && ex.nexts == old(ex.nexts) + [Rethrown]
            && ex.reply == Some(ErrorLogin) && ex.cookies == old(ex.cookies)
            && store.records == old(store.records)
          else
            && globalToken == Some(token) && ex.nexts == old(ex.nexts) + [Rethrown]
            && ex.reply == Some(ErrorLogin) && ex.cookies == old(ex.cookies)
            && store.records == old(store.records)
    {
      var early := !Truthy(email) || !Truthy(password);
      if early {
        var _ := ex.Send(ErrorLogin);
      }
      target := FindOne(store.records, EmailQuery(email));
      if target.None? {
        // Either this 404 throws (one was sent already) or
        // `user.correctPassword` throws on `null`: the promise rejects.
        var _ := ex.Send(ErrorLogin);
        ex.Next(Rethrown);
        return;
      }
      var user := new UserDoc.Loaded(WithPassword(store.records[target.value]));
      var check := PasswordCheck(c, password, user.data);
      if check.None? {
        ex.Next(Rethrown);
        return;
      }
      if !check.value {
        // A second 404 after the early one throws, and the rejection skips
        // `createSendToken`.
        var threw := ex.Send(ErrorLogin);
        if threw {
          ex.Next(Rethrown);
          return;
        }
      }
      var threw := CreateSendToken(ex, user, 200, now, tokenWriteOk);
      if threw {
        ex.Next(Rethrown);
      }
    }

    /** `login` with a `return` after each `errorLogin`, as evidently
        intended: a failed login sends one 404 and leaves `global.token` alone. */
    method LoginIntended(ex: Exchange, email: Option<string>, password: Option<string>, now: int, tokenWriteOk: bool) returns (target: Option<UserId>)
      requires ex.reply.None? && store.Valid()
      modifies this, ex, store
      ensures store.Valid()
      ensures ex.nexts == old(ex.nexts)
      ensures globalToken != old(globalToken) ==>
        && Truthy(email) && Truthy(password) && target.Some? && target.value in old(store.records)
        && PasswordCheck(c, password, old(store.records)[target.value]) == Some(true)
        && globalToken == Some(c.sign(target.value, now / 1000))
      ensures ex.reply != Some(ErrorLogin) ==>
        && target.Some? && Truthy(email) && Truthy(password) && target.value in old(store.records)
        && Findable(old(store.records)[target.value]) && EmailQuery(email)(old(store.records)[target.value])
        && PasswordCheck(c, password, old(store.records)[target.value]) == Some(true)
      ensures ex.reply == Some(ErrorLogin) ==> globalToken == old(globalToken) && store.records == old(store.records)
    {
      target := None;
      if !Truthy(email) || !Truthy(password) {
        var _ := ex.Send(ErrorLogin);
        return;
      }
      target := FindOne(store.records, EmailQuery(email));
      if target.None? {
        var _ := ex.Send(ErrorLogin);
        return;
      }
      var user := new UserDoc.Loaded(WithPassword(store.records[target.value]));
      var check := PasswordCheck(c, password, user.data);
      if check != Some(true) {
        var _ := ex.Send(ErrorLogin);
        return;
      }
      var _ := CreateSendToken(ex, user, 200, now, tokenWriteOk);
    }

    /** `logout`: replaces and clears the cookies; `global.token` stays. */
    method Logout(ex: Exchange)
      requires ex.reply.None?
      modifies ex
      ensures ex.cookies == old(ex.cookies) + [SetCookie("jwt", "loggedout"), ClearCookie("jwt"), ClearCookie("token")]
      ensures ex.reply == Some(Reply(200, Messag("success", "successfully logout")))
      ensures ex.nexts == old(ex.nexts) && ex.reqUser == old(ex.reqUser) && ex.locals == old(ex.locals)
    {
      var _ := ex.Cookie(SetCookie("jwt", "loggedout"));
      var _ := ex.Cookie(ClearCookie("jwt"));
      var _ := ex.Cookie(ClearCookie("token"));
      var _ := ex.Send(Reply(200, Messag("success", "successfully logout")));
    }

    /** `protect` at time `now` (ms). Without a token it sends 400 and, lacking
        a `return`, goes on to `jwt.verify`, whose failure makes the `catch`
        send a second response, which throws. */
    method Protect(ex: Exchange, now: int)
      requires ex.reply.None?
      modifies ex
      ensures var d := Decide(store.records, c, SelectToken(ex.authorization, globalToken, ex.cookieJwt), now / 1000);
        && (d.NoToken? ==> ex.reply == Some(ErrorLogin400) && ex.nexts == old(ex.nexts) + [Rethrown])
        && (d.BadToken? ==> ex.reply == Some(ErrorLogin400) && ex.nexts == old(ex.nexts) + [Fail(AppError("Incorrect email or password", 401))])
        && (d.NoUser? ==> ex.reply.None? && ex.nexts == old(ex.nexts) + [Fail(AppError("The token area expired, please login.", 401))])
        && (d.PasswordChanged? ==> ex.reply.None? && ex.nexts == old(ex.nexts) + [Fail(AppError("Yot are changed password, please log in", 401))])
        && (d.Accept? ==>
              && ex.reply.None? && ex.nexts == old(ex.nexts) + [Proceed] && ex.reqUser == Some(d.user)
              && ex.locals == old(ex.locals).(user := Some(d.user), token := Some(d.token)))
        && (!d.Accept? ==> ex.reqUser == old(ex.reqUser) && ex.locals == old(ex.locals))
      ensures ex.cookies == old(ex.cookies) && ex.paramsId == old(ex.paramsId)
    {
      var token := SelectToken(ex.authorization, globalToken, ex.cookieJwt);
      if !Truthy(token) {
        var _ := ex.Send(ErrorLogin400);
      }
      var decoded := if Truthy(token) then c.verify(token.value, now / 1000) else None;
      if decoded.None? {
        var threw := ex.Send(ErrorLogin400);
        if threw {
          ex.Next(Rethrown);
        } else {
          ex.Next(Fail(AppError("Incorrect email or password", 401)));
        }
        return;
      }
      var currentUser := FindById(store.records, decoded.value.id);
      if currentUser.None? {
        ex.Next(Fail(AppError("The token area expired, please login.", 401)));
        return;
      }
      if ChangedPasswordAfter(currentUser.value.passwordChangedAt, decoded.value.iat) {
        ex.Next(Fail(AppError("Yot are changed password, please log in", 401)));
        return;
      }
      var u := DefaultView(currentUser.value);
      ex.reqUser := Some(u);
      ex.locals := ex.locals.(user := Some(u), token := token);
      ex.Next(Proceed);
    }

    /** `restrictTo(...roles)`; without `req.user` the property access throws. */
    method RestrictTo(ex: Exchange, roles: seq<string>)
      modifies ex
      ensures ex.reqUser.None? ==> ex.nexts == old(ex.nexts) + [Rethrown]
      ensures ex.reqUser.Some? && Permitted(roles, ex.reqUser.value.role) ==> ex.nexts == old(ex.nexts) + [Proceed]
      ensures ex.reqUser.Some? && !Permitted(roles, ex.reqUser.value.role) ==>
        ex.nexts == old(ex.nexts) + [Fail(AppError("You do not have permission to perform this action", 403))]
      ensures ex.reqUser == old(ex.reqUser) && ex.locals == old(ex.locals) && ex.paramsId == old(ex.paramsId)
      ensures ex.reply == old(ex.reply) && ex.cookies == old(ex.cookies)
    {
      if ex.reqUser.None? {
        ex.Next(Rethrown);
      } else if !Permitted(roles, ex.reqUser.value.role) {
        ex.Next(Fail(AppError("You do not have permission to perform this action", 403)));
      } else {
        ex.Next(Proceed);
      }
    }

    /** `save({ validateBeforeSave: false })` of a loaded user document whose
        only changes are its reset fields, the shape both saves of
        `forgotPassword` have. */
    method SaveResetFields(user: UserDoc, id: UserId, now: int)
      requires store.Valid() && id in store.records && !user.isNew
      requires user.data == DefaultView(store.records[id]).(passwordResetToken := user.data.passwordResetToken, passwordResetExpires := user.data.passwordResetExpires)
      requires user.modified == ModifiedIf(PasswordResetToken, user.data.passwordResetToken != store.records[id].passwordResetToken)
                              + ModifiedIf(PasswordResetExpires, user.data.passwordResetExpires != store.records[id].passwordResetExpires)
      modifies user, store
      ensures store.Valid()
      ensures store.records == old(store.records)[id := old(store.records)[id].(
        passwordResetToken := old(user.data).passwordResetToken, passwordResetExpires := old(user.data).passwordResetExpires)]
      ensures user.data == old(user.data) && user.modified == {} && !user.isNew
    {
      ResetFieldsWrites(store.records[id], user.data.passwordResetToken, user.data.passwordResetExpires, c, now);
      var _ := user.Save(store, c, now, false);
    }

    /** The `try`/`catch` of `forgotPassword`: send the reset mail, or clear
        both reset fields, save again and fail with 500. */
    method SendResetOrRollBack(ex: Exchange, user: UserDoc, id: UserId, now: int, mailer: set<string>, deliveryOk: bool)
      requires store.Valid() && id in store.records && !user.isNew && user.modified == {}
      requires user.data == DefaultView(store.records[id])
      requires ex.reply.None?
      modifies ex, user, store
      ensures store.Valid()
      ensures "sendPasswordReset" in mailer && deliveryOk ==>
        && store.records == old(store.records)
        && ex.reply == Some(Reply(200, Message("success", "Token sent to email"))) && ex.nexts == old(ex.nexts)
      ensures !("sendPasswordReset" in mailer && deliveryOk) ==>
        && store.records == old(store.records)[id := old(store.records)[id].(passwordResetToken := None, passwordResetExpires := None)]
        && ex.reply.None? && ex.nexts == old(ex.nexts) + [Fail(AppError("There was an error sending email. Try later", 500))]
    {
      if "sendPasswordReset" in mailer && deliveryOk {
        var _ := ex.Send(Reply(200, Message("success", "Token sent to email")));
      } else {
        user.SetResetFields(None, None);
        SaveResetFields(user, id, now);
        ex.Next(Fail(AppError("There was an error sending email. Try later", 500)));
      }
    }

    /** `forgotPassword`. `mailer` is the set of methods of the `Email` object
        and `deliveryOk` whether sending would succeed; the shipped class is
        `EmailMethods`, so the rollback branch is the one that runs. */
    method ForgotPassword(ex: Exchange, email: Option<string>, randomHex: string, now: int, mailer: set<string>, deliveryOk: bool)
      returns (target: Option<UserId>)
      requires ex.reply.None? && store.Valid()
      modifies ex, store
      ensures store.Valid()
      ensures target.Some? ==> target.value in old(store.records) && Findable(old(store.records)[target.value])
                               && EmailQuery(email)(old(store.records)[target.value])
      ensures target.None? ==>
        && (forall id :: id in old(store.records) && Findable(old(store.records)[id]) ==> !EmailQuery(email)(old(store.records)[id]))
        && ex.nexts == old(ex.nexts) + [Fail(AppError("There in no user with email address", 404))]
        && store.records == old(store.records) && ex.reply.None?
      ensures target.Some? && "sendPasswordReset" in mailer && deliveryOk ==>
        && store.records == old(store.records)[target.value := old(store.records)[target.value].(
             passwordResetToken := Some(c.sha256(randomHex)), passwordResetExpires := Some(now + ResetTokenLifetime))]
        && ex.reply == Some(Reply(200, Message("success", "Token sent to email"))) && ex.nexts == old(ex.nexts)
      ensures target.Some? && !("sendPasswordReset" in mailer && deliveryOk) ==>
        && store.records == old(store.records)[target.value := old(store.records)[target.value].(
             passwordResetToken := None, passwordResetExpires := None)]
        && ex.reply.None? && ex.nexts == old(ex.nexts) + [Fail(AppError("There was an error sending email. Try later", 500))]
      ensures globalToken == old(globalToken)
    {
      target := FindOne(store.records, EmailQuery(email));
      if target.None? {
        ex.Next(Fail(AppError("There in no user with email address", 404)));
        return;
      }
      var rec := store.records[target.value];
      var issued := rec.(passwordResetToken := Some(c.sha256(randomHex)), passwordResetExpires := Some(now + ResetTokenLifetime));
      var user := new UserDoc.Loaded(DefaultView(rec));
      var _ := user.CreatePasswordResetToken(c, randomHex, now);
      SaveResetFields(user, target.value, now);
      assert store.records == old(store.records)[target.value := issued];
      SendResetOrRollBack(ex, user, target.value, now, mailer, deliveryOk);
    }

    /** The assignments and `save()` of `resetPassword` on the loaded user. */
    method ApplyReset(user: UserDoc, id: UserId, password: Option<string>, passwordConfirm: Option<string>, now: int) returns (ok: bool)
      requires store.Valid() && id in store.records
      requires user.data == DefaultView(store.records[id]) && user.modified == {} && !user.isNew
      modifies user, store
      ensures store.Valid()
      ensures ok <==> ResetValidates(password, passwordConfirm)
      ensures store.records == if ok then old(store.records)[id := ResetSaved(old(store.records)[id], c, TrimValue(password), TrimValue(passwordConfirm), now)]
                               else old(store.records)
      ensures ok ==> user.data.id == id
    {
      var rec := store.records[id];
      user.SetPassword(password);
      user.SetPasswordConfirm(passwordConfirm);
      user.SetResetFields(None, None);
      ResetSaveWrites(rec, c, TrimValue(password), TrimValue(passwordConfirm), now);
      ok := user.Save(store, c, now, true);
    }

    /** `resetPassword` for the token `param` of the reset URL. */
    method ResetPassword(ex: Exchange, param: string, password: Option<string>, passwordConfirm: Option<string>, now: int, tokenWriteOk: bool)
      returns (target: Option<UserId>)
      requires ex.reply.None? && store.Valid()
      modifies this, ex, store
      ensures store.Valid()
      ensures target.Some? ==> target.value in old(store.records) && Findable(old(store.records)[target.value])
                               && ResetQuery(c.sha256(param), now)(old(store.records)[target.value])
      ensures target.None? ==>
        && (forall id :: id in old(store.records) && Findable(old(store.records)[id]) ==> !ResetQuery(c.sha256(param), now)(old(store.records)[id]))
        && ex.nexts == old(ex.nexts) + [Fail(AppError("Token is invalid or has expired", 400))]
        && store.records == old(store.records) && globalToken == old(globalToken) && ex.reply.None?
      ensures target.Some? ==>
        var p, q := TrimValue(password), TrimValue(passwordConfirm);
        if ResetValidates(password, passwordConfirm) then
          var token := c.sign(target.value, now / 1000);
          && store.records == TokenWritten(old(store.records)[target.value := ResetSaved(old(store.records)[target.value], c, p, q, now)],
                                           target.value, token, tokenWriteOk)
          && globalToken == Some(token) && ex.nexts == old(ex.nexts) && ex.reply.Some? && ex.reply.value.code == 200
        else
          store.records == old(store.records) && globalToken == old(globalToken) && ex.nexts == old(ex.nexts) + [Rethrown]
    {
      var hashedToken := c.sha256(param);
      target := FindOne(store.records, ResetQuery(hashedToken, now));
      if target.None? {
        ex.Next(Fail(AppError("Token is invalid or has expired", 400)));
        return;
      }
      var user := new UserDoc.Loaded(DefaultView(store.records[target.value]));
      var ok := ApplyReset(user, target.value, password, passwordConfirm, now);
      if !ok {
        ex.Next(Rethrown);
        return;
      }
      var _ := CreateSendToken(ex, user, 200, now, tokenWriteOk);
    }

    /** `updatePassword` for the signed-in `req.user`. */
    method UpdatePassword(ex: Exchange, passwordCurrent: Option<string>, password: Option<string>, passwordConfirm: Option<string>, now: int, tokenWriteOk: bool)
      requires ex.reply.None? && store.Valid()
      modifies this, ex, store
      ensures store.Valid()
      ensures ex.reqUser.None? || FindById(old(store.records), ex.reqUser.value.id).None? ==>
        store.records == old(store.records) && globalToken == old(globalToken) && ex.nexts == old(ex.nexts) + [Rethrown]
      ensures ex.reqUser.Some? && FindById(old(store.records), ex.reqUser.value.id).Some? ==>
        var id := ex.reqUser.value.id;
        var rec := old(store.records)[id];
        var p, q := TrimValue(password), TrimValue(passwordConfirm);
        match PasswordCheck(c, passwordCurrent, rec)
        case None =>
          store.records == old(store.records) && globalToken == old(globalToken) && ex.nexts == old(ex.nexts) + [Rethrown]
        case Some(correct) =>
          if !correct then
            && store.records == old(store.records) && globalToken == old(globalToken) && ex.reply.None?
            && ex.nexts == old(ex.nexts) + [Fail(AppError("Your current password is wrong.", 401))]
          else if MeetsMinLength(p) && MeetsMinLength(q) then
            var token := c.sign(id, now / 1000);
            && store.records == TokenWritten(old(store.records)[id := PasswordSaved(rec, c, p, q, now)], id, token, tokenWriteOk)
            && globalToken == Some(token) && ex.nexts == old(ex.nexts) && ex.reply.Some? && ex.reply.value.code == 200
          else
            store.records == old(store.records) && globalToken == old(globalToken) && ex.nexts == old(ex.nexts) + [Rethrown]
    {
      if ex.reqUser.None? {
        ex.Next(Rethrown);
        return;
      }
      var found := FindById(store.records, ex.reqUser.value.id);
      if found.None? {
        ex.Next(Rethrown);
        return;
      }
      var user := new UserDoc.Loaded(WithPassword(found.value));
      var check := PasswordCheck(c, passwordCurrent, user.data);
      if check.None? {
        ex.Next(Rethrown);
        return;
      }
      if !check.value {
        ex.Next(Fail(AppError("Your current password is wrong.", 401)));
        return;
      }
      SaveNewPassword(ex, user, found.value, password, passwordConfirm, now, tokenWriteOk);
    }

    /** The rest of `updatePassword` once the current password matched:
        set both fields, save, and issue a token. */
    method SaveNewPassword(ex: Exchange, user: UserDoc, rec: UserRecord, password: Option<string>, passwordConfirm: Option<string>, now: int, tokenWriteOk: bool)
      requires ex.reply.None? && store.Valid() && rec.id in store.records && store.records[rec.id] == rec
      requires user.data == WithPassword(rec) && user.modified == {} && !user.isNew && rec.password.Some?
      modifies this, ex, user, store
      ensures store.Valid() && ex.reqUser == old(ex.reqUser)
      ensures var p, q := TrimValue(password), TrimValue(passwordConfirm);
        if MeetsMinLength(p) && MeetsMinLength(q) then
          var token := c.sign(rec.id, now / 1000);
          && store.records == TokenWritten(old(store.records)[rec.id := PasswordSaved(rec, c, p, q, now)], rec.id, token, tokenWriteOk)
          && globalToken == Some(token) && ex.nexts == old(ex.nexts) && ex.reply.Some? && ex.reply.value.code == 200
        else
          store.records == old(store.records) && globalToken == old(globalToken) && ex.nexts == old(ex.nexts) + [Rethrown]
    {
      var ok := SetAndSavePassword(user, rec, password, passwordConfirm, now);
      if !ok {
        ex.Next(Rethrown);
        return;
      }
      var _ := CreateSendToken(ex, user, 200, now, tokenWriteOk);
    }

    /** `user.password = ..; user.passwordConfirm = ..; await user.save()`. */
    method SetAndSavePassword(user: UserDoc, rec: UserRecord, password: Option<string>, passwordConfirm: Option<string>, now: int)
      returns (ok: bool)
      requires store.Valid() && rec.id in store.records && store.records[rec.id] == rec
      requires user.data == WithPassword(rec) && user.modified == {} && !user.isNew && rec.password.Some?
      modifies user, store
      ensures store.Valid() && (ok ==> user.data.id == rec.id)
      ensures ok <==> MeetsMinLength(TrimValue(password)) && MeetsMinLength(TrimValue(passwordConfirm))
      ensures !ok ==> store.records == old(store.records)
      ensures ok ==> store.records == old(store.records)[rec.id := PasswordSaved(rec, c, TrimValue(password), TrimValue(passwordConfirm), now)]
    {
      user.SetPassword(password);
      user.SetPasswordConfirm(passwordConfirm);
      ok := user.Save(store, c, now, true);
      if ok {
        PasswordSaveWrites(rec, c, TrimValue(password), TrimValue(passwordConfirm), now);
      }
    }

    /** `global.token` makes one login everybody's session: after a successful
        login and a logout, a request carrying neither an authorization
        header nor a cookie is let through as the user who logged in. */
    method SessionSharedAfterLogout(login: Exchange, logout: Exchange, other: Exchange,
                                    email: Option<string>, password: Option<string>, now: int, tokenWriteOk: bool)
      returns (target: Option<UserId>)
      requires Axioms(c) && c.expiresIn > 0 && now >= 10_000
      requires login != logout && login != other && logout != other
      requires login.reply.None? && logout.reply.None? && other.reply.None? && store.Valid()
      requires other.authorization.None? && other.cookieJwt.None?
      modifies this, login, logout, other, store
      ensures target.Some? ==> target.value in old(store.records) && EmailQuery(email)(old(store.records)[target.value])
      ensures (target.Some? && Truthy(email) && Truthy(password)
               && PasswordCheck(c, password, old(store.records)[target.value]) == Some(true)) ==>
          && other.nexts == old(other.nexts) + [Proceed]
          && other.reqUser == Some(DefaultView(old(store.records)[target.value]))
    {
      target := Login(login, email, password, now, tokenWriteOk);
      Logout(logout);
      if target.Some? && Truthy(email) && Truthy(password) && PasswordCheck(c, password, old(store.records)[target.value]) == Some(true) {
        SignedTokenAccepted(store.records, c, target.value, now / 1000, now / 1000);
      }
      Protect(other, now);
    }

    /** A reset token works once: when no other user holds the same token
        hash, a second `resetPassword` with the token that just succeeded
        is refused with 400. */
    method ResetTokenSingleUse(first: Exchange, second: Exchange, param: string,
                               password: Option<string>, passwordConfirm: Option<string>,
                               password2: Option<string>, passwordConfirm2: Option<string>, now: int, later: int, tokenWriteOk: bool)
      returns (target: Option<UserId>, retry: Option<UserId>)
      requires first != second && first.reply.None? && second.reply.None? && store.Valid()
      requires forall a, b ::
                 (a in store.records && b in store.records
                  && store.records[a].passwordResetToken == Some(c.sha256(param))
                  && store.records[b].passwordResetToken == Some(c.sha256(param))) ==> a == b
      modifies this, first, second, store
      ensures target.Some? && ResetValidates(password, passwordConfirm) ==>
        retry.None? && second.nexts == old(second.nexts) + [Fail(AppError("Token is invalid or has expired", 400))]
    {
      target := ResetPassword(first, param, password, passwordConfirm, now, tokenWriteOk);
      retry := ResetPassword(second, param, password2, passwordConfirm2, later, tokenWriteOk);
    }
  }
}
