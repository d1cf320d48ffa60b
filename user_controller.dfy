/** `userController`: `getMe`, the `getUsers` listing arithmetic, `updateMe`
    (password guard and field whitelist), and the two password-writing
    handlers `createUser` and `updatePassword`, which hash with
    `bcrypt.hash(p, 10)` themselves. (`multerFilter` is `Upload.ImageFilter`;
    `filterObj` is `RequestShaping.FilterObj`.) */
module UserController {
  import opened Js
  import opened Crypto
  import opened UserModel
  import opened Express
  import opened Listing
  import opened RequestShaping

  const SetLimit := 12
  /** The cost these handlers pass to `bcrypt.hash`. */
  const HandlerCost: nat := 10

  datatype UserListing = UserListing(name: NameFilter, page: Page)

  /** What `getUsers` computes before querying. */
  function ListUsers(q: ListQuery, count: nat): (r: UserListing)
    ensures r.name.NameLike? <==> Truthy(q.key)
    ensures q.limit.None? || q.limit == Some(0) ==> r.page.limit == SetLimit
    ensures q.page.None? || q.page == Some(0) ==> r.page.page == 1 && r.page.skip == 0
    ensures r.page.skip == (r.page.page - 1) * r.page.limit
    ensures r.page.limit > 0 ==> (r.page.totalPages - 1) * r.page.limit < count <= r.page.totalPages * r.page.limit
  {
    UserListing(KeyFilter(q.key), Paginate(q.limit, q.page, count, SetLimit))
  }

  /** `getMe`: `req.params.id = req.user.id; next()`. Without `req.user`
      the property access throws, and Express passes the error on. */
  method GetMe(ex: Exchange)
    modifies ex
    ensures old(ex.reqUser).Some? ==> ex.paramsId == Some(old(ex.reqUser).value.id) && ex.nexts == old(ex.nexts) + [Proceed]
    ensures old(ex.reqUser).None? ==> ex.paramsId == old(ex.paramsId) && ex.nexts == old(ex.nexts) + [Rethrown]
    ensures ex.reqUser == old(ex.reqUser) && ex.reply == old(ex.reply)
    ensures ex.cookies == old(ex.cookies) && ex.locals == old(ex.locals)
  {
    if ex.reqUser.None? {
      ex.Next(Rethrown);
      return;
    }
    ex.paramsId := Some(ex.reqUser.value.id);
    ex.Next(Proceed);
  }

  /** The profile fields of an update, through their `trim` and
      `lowercase` setters. */
  function ApplyProfile(r: UserRecord, f: Fields): UserRecord {
    r.(name := if "name" in f then Trim(f["name"]) else r.name,
       surname := if "surname" in f then Trim(f["surname"]) else r.surname,
       email := if "email" in f then NormalizeEmail(f["email"]) else r.email,
       photo := if "photo" in f then Some(Trim(f["photo"])) else r.photo)
  }

  /** The unique index on `email` covers every document, deactivated ones too. */
  predicate EmailTaken(records: map<UserId, UserRecord>, id: UserId, email: string) {
    exists k :: k in records && k != id && records[k].email == email
  }

  /** Whatever the body holds, `updateMe` can change only the name,
      surname, email and photo: the role, the password fields, the reset
      fields, `active` and `token` keep their values. */
  lemma UpdateMeKeepsSecurityFields(r: UserRecord, body: Fields, file: Option<string>)
    ensures var u := ApplyProfile(r, ProfileUpdate(body, file));
      && u.id == r.id && u.role == r.role
      && u.password == r.password && u.passwordConfirm == r.passwordConfirm
      && u.passwordChangedAt == r.passwordChangedAt
      && u.passwordResetToken == r.passwordResetToken && u.passwordResetExpires == r.passwordResetExpires
      && u.active == r.active && u.token == r.token
    ensures "email" in body ==> ApplyProfile(r, ProfileUpdate(body, file)).email == NormalizeEmail(body["email"])
  {
    assert "email" in body ==> "email" in ProfileUpdate(body, file);
  }

  /** `updateMe`. A truthy `password` or `passwordConfirm` goes to `next`
      with 400. Otherwise the whitelisted fields (and the uploaded photo's
      file name) update the signed-in user through `findByIdAndUpdate`,
      which validates them and hides deactivated users; the reply carries
      the updated user in its default projection, or null. */
  method UpdateMe(ex: Exchange, store: UserStore, body: Fields, file: Option<string>, isEmail: string -> bool)
    requires ex.reply.None?
    modifies ex, store
    ensures ex.reqUser == old(ex.reqUser) && ex.paramsId == old(ex.paramsId)
    ensures ex.cookies == old(ex.cookies) && ex.locals == old(ex.locals)
    ensures TriesPasswordUpdate(body) ==>
      ex.nexts == old(ex.nexts) + [Fail(AppError(PasswordRouteError, 400))]
      && ex.reply.None? && store.records == old(store.records)
    ensures !TriesPasswordUpdate(body) && old(ex.reqUser).None? ==>
      ex.nexts == old(ex.nexts) + [Rethrown] && ex.reply.None? && store.records == old(store.records)
    ensures !TriesPasswordUpdate(body) && old(ex.reqUser).Some? ==>
      var id := old(ex.reqUser).value.id;
      var f := ProfileUpdate(body, file);
      if !ProfileValidates(f, isEmail) then
        ex.nexts == old(ex.nexts) + [Rethrown] && ex.reply.None? && store.records == old(store.records)
      else if FindById(old(store.records), id).None? then
        ex.nexts == old(ex.nexts) && ex.reply == Some(Reply(200, UserData(None)))
        && store.records == old(store.records)
      else if "email" in f && EmailTaken(old(store.records), id, NormalizeEmail(f["email"])) then
        ex.nexts == old(ex.nexts) + [Rethrown] && ex.reply.None? && store.records == old(store.records)
      else
        var u := ApplyProfile(old(store.records)[id], f);
        && ex.nexts == old(ex.nexts)
        && store.records == old(store.records)[id := u]
        && ex.reply == Some(Reply(200, UserData(Some(DefaultView(u)))))
  {
    if TriesPasswordUpdate(body) {
      ex.Next(Fail(AppError(PasswordRouteError, 400)));
      return;
    }
    var filteredBody := FilterObj(body, ProfileFields);
    if file.Some? {
      filteredBody := filteredBody["photo" := file.value];
    }
    if ex.reqUser.None? {
      ex.Next(Rethrown);
      return;
    }
    var id := ex.reqUser.value.id;
    if !ProfileValidates(filteredBody, isEmail) {
      ex.Next(Rethrown);
      return;
    }
    match FindById(store.records, id)
    case None =>
      var _ := ex.Send(Reply(200, UserData(None)));
    case Some(rec) =>
      if "email" in filteredBody && EmailTaken(store.records, id, NormalizeEmail(filteredBody["email"])) {
        ex.Next(Rethrown);
        return;
      }
      var updated := ApplyProfile(rec, filteredBody);
      store.records := store.records[id := updated];
      var _ := ex.Send(Reply(200, UserData(Some(DefaultView(updated)))));
  }

  /** The document `User.create` builds from the handler's values, before
      validation: the setters trim the strings and lowercase the email,
      `role` takes its default, `active` its default `true`. None when the
      role is outside the enum. */
  function NewUser(id: UserId, name: string, surname: string, email: string, role: Option<string>, password: string, confirm: string): (r: Option<UserRecord>)
    ensures r.Some? <==> ParseRole(role).Some?
    ensures r.Some? ==> r.value.id == id && r.value.password == Some(Trim(password)) && r.value.passwordConfirm == Some(Trim(confirm))
    ensures r.Some? ==> r.value.passwordChangedAt.None? && r.value.passwordResetToken.None? && r.value.passwordResetExpires.None?
  {
    match ParseRole(role)
    case None => None
    case Some(rl) =>
      Some(UserRecord(id, Trim(name), Trim(surname), NormalizeEmail(email), None, rl,
        Some(Trim(password)), Some(Trim(confirm)), None, None, None, Some(true), None))
  }

  /** The schema validators `User.create` runs besides the password ones:
      required `name`, `surname` and `email`, `isEmail`, and the unique index. */
  predicate ProfileAccepted(records: map<UserId, UserRecord>, r: UserRecord, isEmail: string -> bool) {
    r.name != "" && r.surname != "" && r.email != "" && isEmail(r.email) && !EmailTaken(records, r.id, r.email)
  }

  /** `User.create({ name, surname, role, email, password, passwordConfirm })`
      inside the handlers' `try`: a failure is caught and answered with 200
      `{ status: 'error', message: err.message }`. */
  method CreateFrom(ex: Exchange, store: UserStore, c: Crypto, newId: UserId, name: string, surname: string,
                    email: string, role: Option<string>, password: string, confirm: string, now: int, isEmail: string -> bool)
    returns (created: bool)
    requires ex.reply.None? && newId !in store.records
    modifies ex, store
    ensures ex.reqUser == old(ex.reqUser) && ex.paramsId == old(ex.paramsId) && ex.nexts == old(ex.nexts)
    ensures ex.cookies == old(ex.cookies) && ex.locals == old(ex.locals)
    ensures !created ==> store.records == old(store.records) && ex.reply == Some(Reply(200, Caught))
    ensures created ==>
      && NewUser(newId, name, surname, email, role, password, confirm).Some?
      && newId in store.records && store.records == old(store.records)[newId := store.records[newId]]
      && store.records[newId].password == Some(c.hash(Trim(password), BcryptCost))
      && store.records[newId].passwordConfirm.None?
      && store.records[newId].passwordChangedAt.None?
      && ex.reply == Some(Reply(200, Message("success", "success")))
  {
    var r := NewUser(newId, name, surname, email, role, password, confirm);
    if r.None? || !ProfileAccepted(store.records, r.value, isEmail) {
      var _ := ex.Send(Reply(200, Caught));
      return false;
    }
    var doc := new UserDoc.Created(r.value);
    var ok := doc.Save(store, c, now, true);
    if !ok {
      var _ := ex.Send(Reply(200, Caught));
      return false;
    }
    var _ := ex.Send(Reply(200, Message("success", "success")));
    created := true;
  }

  /** `createUser` as written: after the match check it hashes both values
      with cost 10 and hands the hashes to `User.create`, whose save hook
      hashes the password a second time. `bcrypt.hash` of an absent value
      throws into the `catch`. */
  method CreateUser(ex: Exchange, store: UserStore, c: Crypto, newId: UserId, name: string, surname: string,
                    email: string, role: Option<string>, password: Option<string>, confirm: Option<string>,
                    now: int, isEmail: string -> bool)
    returns (created: bool)
    requires ex.reply.None? && newId !in store.records
    modifies ex, store
    ensures ex.nexts == old(ex.nexts) && ex.cookies == old(ex.cookies) && ex.locals == old(ex.locals)
    ensures password != confirm ==>
      !created && store.records == old(store.records)
      && ex.reply == Some(Reply(200, Message("error", "Password not match")))
    ensures password == confirm && password.None? ==>
      !created && store.records == old(store.records) && ex.reply == Some(Reply(200, Caught))
    ensures !created ==> store.records == old(store.records)
    ensures created ==>
      && password == confirm && password.Some?
      && newId in store.records && store.records == old(store.records)[newId := store.records[newId]]
      && store.records[newId].password == Some(c.hash(Trim(c.hash(password.value, HandlerCost)), BcryptCost))
      && ex.reply == Some(Reply(200, Message("success", "success")))
  {
    if password != confirm {
      var _ := ex.Send(Reply(200, Message("error", "Password not match")));
      return false;
    }
    if password.None? {
      var _ := ex.Send(Reply(200, Caught));
      return false;
    }
    var hashedPassword := c.hash(password.value, HandlerCost);
    var hashedPasswordConfirm := c.hash(confirm.value, HandlerCost);
    created := CreateFrom(ex, store, c, newId, name, surname, email, role, hashedPassword, hashedPasswordConfirm, now, isEmail);
  }

  /** A user created through `createUser` cannot log in with the password
      they were given: the stored hash is of the cost-10 hash, and a hash
      never equals its own plaintext. */
  lemma CreatedUserCannotLogIn(c: Crypto, p: string)
    requires Axioms(c)
    ensures !CorrectPassword(c, p, c.hash(Trim(c.hash(p, HandlerCost)), BcryptCost))
  {
    assert Trim(c.hash(p, HandlerCost)) == c.hash(p, HandlerCost);
    assert c.hash(p, HandlerCost) != p;
  }

  /** `createUser` as evidently intended: the plaintext goes to
      `User.create` and the save hook hashes it once. */
  method CreateUserIntended(ex: Exchange, store: UserStore, c: Crypto, newId: UserId, name: string, surname: string,
                            email: string, role: Option<string>, password: Option<string>, confirm: Option<string>,
                            now: int, isEmail: string -> bool)
    returns (created: bool)
    requires ex.reply.None? && newId !in store.records
    modifies ex, store
    ensures password != confirm ==>
      !created && store.records == old(store.records)
      && ex.reply == Some(Reply(200, Message("error", "Password not match")))
    ensures !created ==> store.records == old(store.records)
    ensures created ==>
      && password == confirm && password.Some?
      && newId in store.records && store.records == old(store.records)[newId := store.records[newId]]
      && store.records[newId].password == Some(c.hash(Trim(password.value), BcryptCost))
  {
    if password != confirm {
      var _ := ex.Send(Reply(200, Message("error", "Password not match")));
      return false;
    }
    if password.None? {
      var _ := ex.Send(Reply(200, Caught));
      return false;
    }
    created := CreateFrom(ex, store, c, newId, name, surname, email, role, password.value, confirm.value, now, isEmail);
  }

  /** With the intended handler, the created user logs in with the
      password they were given (when it carries no surrounding whitespace,
      which the `trim` setter would remove) and with no other. */
  lemma CreatedUserIntendedCanLogIn(c: Crypto, p: string)
    requires Axioms(c) && Trim(p) == p
    ensures CorrectPassword(c, p, c.hash(Trim(p), BcryptCost))
    ensures forall q :: q != p ==> !CorrectPassword(c, q, c.hash(Trim(p), BcryptCost))
  {
    CorrectPasswordForOwnHash(c, p);
  }

  /** `updatePassword` (`/user/password/:id`): after the match check both
      values are hashed with cost 10 and written with `findByIdAndUpdate`,
      which runs the validators but not the save hooks: the stored password
      is hashed once and `passwordChangedAt` keeps its value. The reply is
      200 success whether or not a user was found. */
  method UpdatePassword(ex: Exchange, store: UserStore, c: Crypto, id: UserId, password: Option<string>, confirm: Option<string>)
    requires ex.reply.None?
    modifies ex, store
    ensures ex.nexts == old(ex.nexts) && ex.cookies == old(ex.cookies) && ex.locals == old(ex.locals)
    ensures password != confirm ==>
      store.records == old(store.records) && ex.reply == Some(Reply(200, Message("error", "Password not match")))
    ensures password == confirm && password.None? ==>
      store.records == old(store.records) && ex.reply == Some(Reply(200, Caught))
    ensures password == confirm && password.Some? ==>
      var h := c.hash(password.value, HandlerCost);
      if !MeetsMinLength(Some(Trim(h))) then
        store.records == old(store.records) && ex.reply == Some(Reply(200, Caught))
      else
        && ex.reply == Some(Reply(200, Message("success", "success")))
        && (FindById(old(store.records), id).None? ==> store.records == old(store.records))
        && (FindById(old(store.records), id).Some? ==>
              store.records == old(store.records)[id := old(store.records)[id].(password := Some(Trim(h)), passwordConfirm := Some(Trim(h)))])
  {
    if password != confirm {
      var _ := ex.Send(Reply(200, Message("error", "Password not match")));
      return;
    }
    if password.None? {
      var _ := ex.Send(Reply(200, Caught));
      return;
    }
    var hashedPassword := c.hash(password.value, HandlerCost);
    var hashedPasswordConfirm := c.hash(confirm.value, HandlerCost);
    if !MeetsMinLength(Some(Trim(hashedPassword))) || !MeetsMinLength(Some(Trim(hashedPasswordConfirm))) {
      var _ := ex.Send(Reply(200, Caught));
      return;
    }
    if FindById(store.records, id).Some? {
      store.records := store.records[id := store.records[id].(password := Some(Trim(hashedPassword)), passwordConfirm := Some(Trim(hashedPasswordConfirm)))];
    }
    var _ := ex.Send(Reply(200, Message("success", "success")));
  }

  /** After `updatePassword` the user logs in with the new password, and
      `changedPasswordAfter` sees no change, so tokens issued before it stay
      valid. */
  lemma UpdatedPasswordLogsIn(c: Crypto, p: string, r: UserRecord)
    requires Axioms(c)
    ensures var h := Trim(c.hash(p, HandlerCost));
      && CorrectPassword(c, p, h)
      && r.(password := Some(h), passwordConfirm := Some(h)).passwordChangedAt == r.passwordChangedAt
  {
    assert Trim(c.hash(p, HandlerCost)) == c.hash(p, HandlerCost);
  }
}
