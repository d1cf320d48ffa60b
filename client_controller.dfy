/** `clientController`: `getMe`, the `getClients` listing arithmetic,
    `updateMe` (the same password guard and whitelist as for users) and
    `updatePassword`. Nothing in the application sets `req.client`, so it
    is a parameter here. (`multerFilter` is `Upload.ImageFilter`;
    `filterObj` is `RequestShaping.FilterObj`.) */
module ClientController {
  import opened Js
  import opened Crypto
  import opened UserModel
  import opened ClientModel
  import opened Express
  import opened Listing
  import opened RequestShaping

  const SetLimit := 12

  datatype ClientListing = ClientListing(name: NameFilter, page: Page)

  /** The `Client` collection. It has no `pre(/^find/)` hook: every record
      is found. */
  class ClientStore {
    var records: map<ClientId, ClientRecord>

    constructor (records: map<ClientId, ClientRecord>)
      ensures this.records == records
    {
      this.records := records;
    }
  }

  /** What `getClients` computes before querying. */
  function ListClients(q: ListQuery, count: nat): (r: ClientListing)
    ensures r.name.NameLike? <==> Truthy(q.key)
    ensures q.limit.None? || q.limit == Some(0) ==> r.page.limit == SetLimit
    ensures q.page.None? || q.page == Some(0) ==> r.page.page == 1 && r.page.skip == 0
    ensures r.page.skip == (r.page.page - 1) * r.page.limit
    ensures r.page.limit > 0 ==> (r.page.totalPages - 1) * r.page.limit < count <= r.page.totalPages * r.page.limit
  {
    ClientListing(KeyFilter(q.key), Paginate(q.limit, q.page, count, SetLimit))
  }

  /** `getMe`: `req.params.id = req.client.id; next()`. Without `req.client`
      the property access throws, and Express passes the error on. */
  method GetMe(ex: Exchange, reqClient: Option<ClientId>)
    modifies ex
    ensures reqClient.Some? ==> ex.paramsId == Some(reqClient.value) && ex.nexts == old(ex.nexts) + [Proceed]
    ensures reqClient.None? ==> ex.paramsId == old(ex.paramsId) && ex.nexts == old(ex.nexts) + [Rethrown]
    ensures ex.reqUser == old(ex.reqUser) && ex.reply == old(ex.reply)
    ensures ex.cookies == old(ex.cookies) && ex.locals == old(ex.locals)
  {
    if reqClient.None? {
      ex.Next(Rethrown);
      return;
    }
    ex.paramsId := Some(reqClient.value);
    ex.Next(Proceed);
  }

  /** The profile fields of an update, through the schema's `trim` and
      `lowercase` setters. */
  function ApplyClientProfile(r: ClientRecord, f: Fields): ClientRecord {
    r.(name := if "name" in f then Trim(f["name"]) else r.name,
       surname := if "surname" in f then Trim(f["surname"]) else r.surname,
       email := if "email" in f then NormalizeEmail(f["email"]) else r.email,
       photo := if "photo" in f then Some(Trim(f["photo"])) else r.photo)
  }

  predicate ClientEmailTaken(records: map<ClientId, ClientRecord>, id: ClientId, email: string) {
    exists k :: k in records && k != id && records[k].email == email
  }

  /** Whatever the body holds, `updateMe` leaves the id and the company
      name alone and takes the email, when sent, from the body. */
  lemma UpdateMeKeepsCompany(r: ClientRecord, body: Fields, file: Option<string>)
    ensures var u := ApplyClientProfile(r, ProfileUpdate(body, file));
      u.id == r.id && u.companyName == r.companyName
    ensures "email" in body ==> ApplyClientProfile(r, ProfileUpdate(body, file)).email == NormalizeEmail(body["email"])
    ensures "name" !in body ==> ApplyClientProfile(r, ProfileUpdate(body, file)).name == r.name
  {
    assert "email" in body ==> "email" in ProfileUpdate(body, file);
  }

  /** `updateMe` for the client given by `req.client`: the password guard,
      then `findByIdAndUpdate` with the whitelisted fields and the uploaded
      photo's file name. */
  method UpdateMe(ex: Exchange, store: ClientStore, reqClient: Option<ClientId>, body: Fields,
                  file: Option<string>, isEmail: string -> bool)
    requires ex.reply.None?
    modifies ex, store
    ensures ex.reqUser == old(ex.reqUser) && ex.paramsId == old(ex.paramsId)
    ensures ex.cookies == old(ex.cookies) && ex.locals == old(ex.locals)
    ensures TriesPasswordUpdate(body) ==>
      ex.nexts == old(ex.nexts) + [Fail(AppError(PasswordRouteError, 400))]
      && ex.reply.None? && store.records == old(store.records)
    ensures !TriesPasswordUpdate(body) && reqClient.None? ==>
      ex.nexts == old(ex.nexts) + [Rethrown] && ex.reply.None? && store.records == old(store.records)
    ensures !TriesPasswordUpdate(body) && reqClient.Some? ==>
      var id := reqClient.value;
      var f := ProfileUpdate(body, file);
      if !ProfileValidates(f, isEmail) then
        ex.nexts == old(ex.nexts) + [Rethrown] && ex.reply.None? && store.records == old(store.records)
      else if id !in old(store.records) then
        ex.nexts == old(ex.nexts) && ex.reply == Some(Reply(200, ClientData(None)))
        && store.records == old(store.records)
      else if "email" in f && ClientEmailTaken(old(store.records), id, NormalizeEmail(f["email"])) then
        ex.nexts == old(ex.nexts) + [Rethrown] && ex.reply.None? && store.records == old(store.records)
      else
        var u := ApplyClientProfile(old(store.records)[id], f);
        && ex.nexts == old(ex.nexts)
        && store.records == old(store.records)[id := u]
        && ex.reply == Some(Reply(200, ClientData(Some(u))))
  {
    if TriesPasswordUpdate(body) {
      ex.Next(Fail(AppError(PasswordRouteError, 400)));
      return;
    }
    var filteredBody := FilterObj(body, ProfileFields);
    if file.Some? {
      filteredBody := filteredBody["photo" := file.value];
    }
    if reqClient.None? {
      ex.Next(Rethrown);
      return;
    }
    var id := reqClient.value;
    if !ProfileValidates(filteredBody, isEmail) {
      ex.Next(Rethrown);
      return;
    }
    if id !in store.records {
      var _ := ex.Send(Reply(200, ClientData(None)));
      return;
    }
    if "email" in filteredBody && ClientEmailTaken(store.records, id, NormalizeEmail(filteredBody["email"])) {
      ex.Next(Rethrown);
      return;
    }
    var updated := ApplyClientProfile(store.records[id], filteredBody);
    store.records := store.records[id := updated];
    var _ := ex.Send(Reply(200, ClientData(Some(updated))));
  }

  /** `updatePassword` (`/client/password/:id`): after the match check both
      values are hashed and sent to `findByIdAndUpdate`, but the `Client`
      schema has no password paths, so strict mode strips them and no
      record changes. The reply is 200 success. */
  method UpdatePassword(ex: Exchange, store: ClientStore, c: Crypto, id: ClientId,
                        password: Option<string>, confirm: Option<string>)
    requires ex.reply.None?
    modifies ex, store
    ensures store.records == old(store.records)
    ensures ex.nexts == old(ex.nexts) && ex.cookies == old(ex.cookies) && ex.locals == old(ex.locals)
    ensures password != confirm ==> ex.reply == Some(Reply(200, Message("error", "Password not match")))
    ensures password == confirm && password.None? ==> ex.reply == Some(Reply(200, Caught))
    ensures password == confirm && password.Some? ==> ex.reply == Some(Reply(200, Message("success", "success")))
  {
    if password != confirm {
      var _ := ex.Send(Reply(200, Message("error", "Password not match")));
      return;
    }
    if password.None? {
      var _ := ex.Send(Reply(200, Caught));
      return;
    }
    var hashedPassword := c.hash(password.value, 10);
    var hashedPasswordConfirm := c.hash(confirm.value, 10);
    var update: Fields := map["password" := hashedPassword, "passwordConfirm" := hashedPasswordConfirm];
    var kept := FilterObj(update, ClientPaths);
    assert kept == map[] by {
      assert forall k :: k in update ==> k !in ClientPaths;
    }
    var _ := ex.Send(Reply(200, Message("success", "success")));
  }

  /** The paths of the `Client` schema. */
  const ClientPaths := ["companyName", "name", "surname", "email", "photo"]
}
