/** The `User` model: the record stored in the users collection, its schema
    constraints, the `pre('save')` and `pre(/^find/)` hooks, and the instance
    methods `correctPassword`, `changedPasswordAfter` and
    `createPasswordResetToken`. A Mongoose document is a `UserDoc` object that
    tracks which paths were modified; `save` writes only those paths. */
module UserModel {
  import opened Js
  import opened Crypto

  /** The `role` enum; the schema default is `User`. */
  datatype Role = User | Admin

  function RoleName(r: Role): string {
    match r
    case User => "user"
    case Admin => "admin"
  }

  /** Casting a `role` value on creation: absent means the default, anything
      outside the enum is a validation error (None). */
  function ParseRole(v: Option<string>): (r: Option<Role>)
    ensures v.None? ==> r == Some(User)
    ensures r.Some? && v.Some? ==> RoleName(r.value) == v.value
    ensures v.Some? && r.None? ==> v.value != "user" && v.value != "admin"
  {
    match v
    case None => Some(User)
    case Some(s) => if s == "user" then Some(User) else if s == "admin" then Some(Admin) else None
  }

  /** One document of the users collection. Absent fields are None. */
  datatype UserRecord = UserRecord(
    id: UserId,
    name: string,
    surname: string,
    email: string,
    photo: Option<string>,
    role: Role,
    password: Option<string>,
    passwordConfirm: Option<string>,
    passwordChangedAt: Option<int>,
    passwordResetToken: Option<string>,
    passwordResetExpires: Option<int>,
    active: Option<bool>,
    token: Option<string>)

  /** The paths of a user document whose modification the hooks and `save` track. */
  datatype Path = Password | PasswordConfirm | PasswordChangedAt | PasswordResetToken | PasswordResetExpires

  const BcryptCost: nat := 12
  /** `createPasswordResetToken`: 10 minutes, in milliseconds. */
  const ResetTokenLifetime: int := 10 * 60 * 1000
  const PasswordMinLength: nat := 8

  /** The `pre(/^find/)` hook adds `active: { $ne: false }` to every find. */
  predicate Findable(r: UserRecord) {
    r.active != Some(false)
  }

  /** Default projection: `password`, `active` and `token` are `select: false`. */
  function DefaultView(r: UserRecord): (v: UserRecord)
    ensures v.password.None? && v.active.None? && v.token.None?
    ensures v.(password := r.password, active := r.active, token := r.token) == r
  {
    r.(password := None, active := None, token := None)
  }

  /** Projection of `.select('+password')`. */
  function WithPassword(r: UserRecord): (v: UserRecord)
    ensures v.password == r.password && v.active.None? && v.token.None?
    ensures v.(active := r.active, token := r.token) == r
  {
    r.(active := None, token := None)
  }

  /** The `lowercase: true, trim: true` setters of `email`. */
  function NormalizeEmail(s: string): string {
    Trim(Lower(s))
  }

  predicate IsLower(s: string) {
    forall k :: 0 <= k < |s| ==> LowerChar(s[k]) == s[k]
  }

  lemma {:induction false} LowerOfLower(s: string)
    requires IsLower(s)
    ensures Lower(s) == s
  {
  }

  lemma TrimIsSlice(s: string)
    ensures exists i, j :: 0 <= i <= j <= |s| && Trim(s) == s[i..j]
  {
    TrimStartShape(s);
    var i :| 0 <= i <= |s| && TrimStart(s) == s[i..];
    TrimEndShape(s[i..]);
    var k :| 0 <= k <= |s[i..]| && TrimEnd(s[i..]) == s[i..][..k];
    assert Trim(s) == s[i..i + k];
  }

  lemma LowerCharIdempotent(c: char)
    ensures LowerChar(LowerChar(c)) == LowerChar(c)
  {
  }

  /** Any slice of a lower-cased string is lower-case. */
  lemma SliceOfLowerIsLower(s: string, i: int, j: int)
    requires 0 <= i <= j <= |s|
    ensures IsLower(Lower(s)[i..j])
  {
    var l := Lower(s);
    forall k | 0 <= k < j - i
      ensures LowerChar(l[i..j][k]) == l[i..j][k]
    {
      assert l[i..j][k] == l[i + k];
      LowerCharIdempotent(s[i + k]);
    }
  }

  /** A stored email is lower-case, has no surrounding whitespace, and
      normalising it again leaves it unchanged. */
  lemma NormalizeEmailIdempotent(s: string)
    ensures IsLower(NormalizeEmail(s)) && IsTrimmed(NormalizeEmail(s))
    ensures NormalizeEmail(NormalizeEmail(s)) == NormalizeEmail(s)
  {
    var l := Lower(s);
    TrimIsSlice(l);
    var i, j :| 0 <= i <= j <= |l| && Trim(l) == l[i..j];
    SliceOfLowerIsLower(s, i, j);
    LowerOfLower(Trim(l));
    TrimIsTrimmed(l);
  }

  /** `required` with `minlength: 8`, on the value the `trim` setter produced. */
  predicate MeetsMinLength(v: Option<string>) {
    v.Some? && |v.value| >= PasswordMinLength
  }

  /** `correctPassword(candidate, hash)` is `bcrypt.compare(candidate, hash)`. */
  function CorrectPassword(c: Crypto, candidate: string, hash: string): bool {
    c.compare(candidate, hash)
  }

  /** A password checks against the hash the save hook stores for it. */
  lemma CorrectPasswordForOwnHash(c: Crypto, p: string)
    requires Axioms(c)
    ensures CorrectPassword(c, p, c.hash(p, BcryptCost))
    ensures forall q :: q != p ==> !CorrectPassword(c, q, c.hash(p, BcryptCost))
  {
  }

  /** `changedPasswordAfter(JWTTimestamp)` as written: the comma operator in
      `(getTime() / 1000, 10)` makes the compared timestamp the constant 10. */
  function ChangedPasswordAfter(changedAt: Option<int>, jwtTimestamp: int): bool {
    if changedAt.Some? then
      var changedTimestamp := 10;
      jwtTimestamp < changedTimestamp
    else false
  }

  /** Whatever the change time, no token issued after the tenth second of
      1970 is ever reported as older than the password. */
  lemma ChangedPasswordAfterIgnoresChangeTime(changedAt: Option<int>, jwtTimestamp: int)
    requires jwtTimestamp >= 10
    ensures !ChangedPasswordAfter(changedAt, jwtTimestamp)
  {
  }

  /** A password changed in 2023 does not invalidate a token issued in 2020. */
  lemma ChangedPasswordAfterCounterexample()
    ensures !ChangedPasswordAfter(Some(1_700_000_000_000), 1_600_000_000)
    ensures ChangedPasswordAfterIntended(Some(1_700_000_000_000), 1_600_000_000)
  {
  }

  /** `parseInt(x / 1000, 10)` for a millisecond time: truncation toward zero. */
  function SecondsOf(ms: int): int {
    if ms >= 0 then ms / 1000 else -((-ms) / 1000)
  }

  /** `changedPasswordAfter` with `parseInt(getTime() / 1000, 10)`, as the
      comma expression was evidently meant to read. */
  function ChangedPasswordAfterIntended(changedAt: Option<int>, jwtTimestamp: int): bool {
    changedAt.Some? && jwtTimestamp < SecondsOf(changedAt.value)
  }

  /** With the intended check, a token issued at least two seconds before a
      save that changes the password (which records `now - 1000`) is rejected,
      and a token issued at or after the recorded second is accepted. */
  lemma IntendedRejectsOlderTokens(issuedMs: int, savedMs: int, laterIat: int)
    requires 0 <= issuedMs && issuedMs + 2000 <= savedMs
    requires laterIat >= SecondsOf(savedMs - 1000)
    ensures ChangedPasswordAfterIntended(Some(savedMs - 1000), issuedMs / 1000)
    ensures !ChangedPasswordAfterIntended(Some(savedMs - 1000), laterIat)
  {
    assert (savedMs - 1000) / 1000 >= (issuedMs + 1000) / 1000 == issuedMs / 1000 + 1;
  }

  function TrimValue(v: Option<string>): Option<string> {
    match v
    case None => None
    case Some(s) => Some(Trim(s))
  }

  function ModifiedIf(p: Path, changed: bool): set<Path> {
    if changed then {p} else {}
  }

  /** The document after the two `pre('save')` hooks: when `password` was
      modified it is re-hashed with cost 12 and `passwordConfirm` is cleared;
      when, in addition, the document is not new, `passwordChangedAt` is set
      to one second before `now`. */
  function Hooked(d: UserRecord, m: set<Path>, isNew: bool, c: Crypto, now: int): UserRecord
    requires Password in m ==> d.password.Some?
  {
    var d1 := if Password in m then d.(password := Some(c.hash(d.password.value, BcryptCost)), passwordConfirm := None) else d;
    if Password in m && !isNew then d1.(passwordChangedAt := Some(now - 1000)) else d1
  }

  /** The modified paths after the hooks. */
  function HookedPaths(d: UserRecord, m: set<Path>, isNew: bool): set<Path> {
    m + (if Password in m then ModifiedIf(PasswordConfirm, d.passwordConfirm.Some?) else {})
      + (if Password in m && !isNew then {PasswordChangedAt} else {})
  }

  /** `save()` on an existing document issues `$set`/`$unset` for the modified
      paths only; everything else keeps its stored value. */
  function Merge(stored: UserRecord, d: UserRecord, m: set<Path>): UserRecord {
    stored.(
      password := if Password in m then d.password else stored.password,
      passwordConfirm := if PasswordConfirm in m then d.passwordConfirm else stored.passwordConfirm,
      passwordChangedAt := if PasswordChangedAt in m then d.passwordChangedAt else stored.passwordChangedAt,
      passwordResetToken := if PasswordResetToken in m then d.passwordResetToken else stored.passwordResetToken,
      passwordResetExpires := if PasswordResetExpires in m then d.passwordResetExpires else stored.passwordResetExpires)
  }

  /** The users collection. */
  class UserStore {
    var records: map<UserId, UserRecord>

    constructor (records: map<UserId, UserRecord>)
      ensures this.records == records
    {
      this.records := records;
    }

    /** Every record is stored under its own `_id`. */
    ghost predicate Valid()
      reads this
    {
      forall k :: k in records ==> records[k].id == k
    }
  }

  /** `findById(id)`, subject to the `pre(/^find/)` hook. */
  function FindById(records: map<UserId, UserRecord>, id: UserId): (r: Option<UserRecord>)
    ensures r.Some? <==> id in records && Findable(records[id])
    ensures r.Some? ==> r.value == records[id]
  {
    if id in records && Findable(records[id]) then Some(records[id]) else None
  }

  /** `findOne(filter)`, subject to the `pre(/^find/)` hook: some findable
      record that matches, or none when no findable record matches. */
  method FindOne(records: map<UserId, UserRecord>, matches: UserRecord -> bool) returns (found: Option<UserId>)
    ensures found.Some? ==> found.value in records && Findable(records[found.value]) && matches(records[found.value])
    ensures found.None? ==> forall id :: id in records && Findable(records[id]) ==> !matches(records[id])
  {
    var ids := set id | id in records && Findable(records[id]) && matches(records[id]);
    if ids == {} {
      assert forall id :: id in records && Findable(records[id]) && matches(records[id]) ==> id in ids;
      found := None;
    } else {
      var id :| id in ids;
      found := Some(id);
    }
  }

  /** `findOne({ email })`: the query value goes through the same setters. */
  predicate HasEmail(r: UserRecord, email: string) {
    r.email == NormalizeEmail(email)
  }

  /** An in-memory Mongoose user document. */
  class UserDoc {
    var data: UserRecord
    var modified: set<Path>
    var isNew: bool

    /** A document returned by a query. */
    constructor Loaded(r: UserRecord)
      ensures data == r && modified == {} && !isNew
    {
      data, modified, isNew := r, {}, false;
    }

    /** `new User(fields)` as `User.create` builds it: every path that holds
        a value counts as modified. */
    constructor Created(r: UserRecord)
      ensures data == r && isNew
      ensures modified == ModifiedIf(Password, r.password.Some?) + ModifiedIf(PasswordConfirm, r.passwordConfirm.Some?)
        + ModifiedIf(PasswordChangedAt, r.passwordChangedAt.Some?) + ModifiedIf(PasswordResetToken, r.passwordResetToken.Some?)
        + ModifiedIf(PasswordResetExpires, r.passwordResetExpires.Some?)
    {
      data, isNew := r, true;
      modified := ModifiedIf(Password, r.password.Some?) + ModifiedIf(PasswordConfirm, r.passwordConfirm.Some?)
        + ModifiedIf(PasswordChangedAt, r.passwordChangedAt.Some?) + ModifiedIf(PasswordResetToken, r.passwordResetToken.Some?)
        + ModifiedIf(PasswordResetExpires, r.passwordResetExpires.Some?);
    }

    /** `doc.password = v`, through the `trim` setter. */
    method SetPassword(v: Option<string>)
      modifies this
      ensures data == old(data).(password := TrimValue(v)) && isNew == old(isNew)
      ensures modified == old(modified) + ModifiedIf(Password, TrimValue(v) != old(data).password)
    {
      var t := TrimValue(v);
      modified := modified + ModifiedIf(Password, t != data.password);
      data := data.(password := t);
    }

    /** `doc.passwordConfirm = v`, through the `trim` setter. */
    method SetPasswordConfirm(v: Option<string>)
      modifies this
      ensures data == old(data).(passwordConfirm := TrimValue(v)) && isNew == old(isNew)
      ensures modified == old(modified) + ModifiedIf(PasswordConfirm, TrimValue(v) != old(data).passwordConfirm)
    {
      var t := TrimValue(v);
      modified := modified + ModifiedIf(PasswordConfirm, t != data.passwordConfirm);
      data := data.(passwordConfirm := t);
    }

    /** `doc.passwordResetToken = v; doc.passwordResetExpires = e`. */
    method SetResetFields(v: Option<string>, e: Option<int>)
      modifies this
      ensures data == old(data).(passwordResetToken := v, passwordResetExpires := e) && isNew == old(isNew)
      ensures modified == old(modified) + ModifiedIf(PasswordResetToken, v != old(data).passwordResetToken)
                                        + ModifiedIf(PasswordResetExpires, e != old(data).passwordResetExpires)
    {
      modified := modified + ModifiedIf(PasswordResetToken, v != data.passwordResetToken)
                           + ModifiedIf(PasswordResetExpires, e != data.passwordResetExpires);
      data := data.(passwordResetToken := v, passwordResetExpires := e);
    }

    /** `createPasswordResetToken()`, given the 32 random bytes in hex: keeps
        only the SHA-256 of the token, sets a ten-minute expiry and returns
        the plaintext. */
    method CreatePasswordResetToken(c: Crypto, randomHex: string, now: int) returns (plain: string)
      modifies this
      ensures plain == randomHex
      ensures data == old(data).(passwordResetToken := Some(c.sha256(randomHex)), passwordResetExpires := Some(now + ResetTokenLifetime))
      ensures isNew == old(isNew)
      ensures modified == old(modified) + ModifiedIf(PasswordResetToken, Some(c.sha256(randomHex)) != old(data).passwordResetToken)
                                        + ModifiedIf(PasswordResetExpires, Some(now + ResetTokenLifetime) != old(data).passwordResetExpires)
    {
      SetResetFields(Some(c.sha256(randomHex)), Some(now + ResetTokenLifetime));
      plain := randomHex;
    }

    /** `createSendToken` blanks `password`, the reset fields and
        `passwordChangedAt` on the object it returns. */
    method BlankSecurityFields()
      modifies this
      ensures data == old(data).(password := None, passwordResetExpires := None, passwordResetToken := None, passwordChangedAt := None)
      ensures isNew == old(isNew)
      ensures modified == old(modified) + ModifiedIf(Password, old(data).password.Some?)
                                        + ModifiedIf(PasswordResetExpires, old(data).passwordResetExpires.Some?)
                                        + ModifiedIf(PasswordResetToken, old(data).passwordResetToken.Some?)
                                        + ModifiedIf(PasswordChangedAt, old(data).passwordChangedAt.Some?)
    {
      modified := modified + ModifiedIf(Password, data.password.Some?)
                           + ModifiedIf(PasswordResetExpires, data.passwordResetExpires.Some?)
                           + ModifiedIf(PasswordResetToken, data.passwordResetToken.Some?)
                           + ModifiedIf(PasswordChangedAt, data.passwordChangedAt.Some?);
      data := data.(password := None, passwordResetExpires := None, passwordResetToken := None, passwordChangedAt := None);
    }

    /** Validation before `save()`: `password` (when present or modified) and
        the required `passwordConfirm` must each have at least 8 characters.
        The equality validator of `passwordConfirm` is commented out. */
    predicate PassesValidation()
      reads this
    {
      ((data.password.None? && Password !in modified) || MeetsMinLength(data.password))
      && MeetsMinLength(data.passwordConfirm)
    }

    /** The first `pre('save')` hook; `threw` when `bcrypt.hash` is given undefined. */
    method HashPasswordHook(c: Crypto) returns (threw: bool)
      modifies this
      ensures isNew == old(isNew)
      ensures threw <==> Password in old(modified) && old(data).password.None?
      ensures !threw && Password in old(modified) ==>
        data == old(data).(password := Some(c.hash(old(data).password.value, BcryptCost)), passwordConfirm := None) &&
        modified == old(modified) + ModifiedIf(PasswordConfirm, old(data).passwordConfirm.Some?)
      ensures Password !in old(modified) || threw ==> data == old(data) && modified == old(modified)
    {
      threw := false;
      if Password !in modified {
        return;
      }
      if data.password.None? {
        threw := true;
        return;
      }
      modified := modified + ModifiedIf(PasswordConfirm, data.passwordConfirm.Some?);
      data := data.(password := Some(c.hash(data.password.value, BcryptCost)), passwordConfirm := None);
    }

    /** The second `pre('save')` hook. */
    method PasswordChangedAtHook(now: int)
      modifies this
      ensures isNew == old(isNew)
      ensures Password in old(modified) && !old(isNew) ==>
        data == old(data).(passwordChangedAt := Some(now - 1000)) && modified == old(modified) + {PasswordChangedAt}
      ensures !(Password in old(modified) && !old(isNew)) ==> data == old(data) && modified == old(modified)
    {
      if Password !in modified || isNew {
        return;
      }
      data := data.(passwordChangedAt := Some(now - 1000));
      modified := modified + {PasswordChangedAt};
    }

    /** `save()` (or `save({ validateBeforeSave: false })`): validation, the two
        hooks, then an insert for a new document or an update of the modified
        paths. `ok` is false when it throws: a validation error, the hook's
        bcrypt failure, a duplicate id on insert, or a vanished document. */
    method Save(store: UserStore, c: Crypto, now: int, validate: bool) returns (ok: bool)
      modifies this, store
      ensures ok <==> (!validate || old(PassesValidation()))
                      && (Password in old(modified) ==> old(data).password.Some?)
                      && (old(isNew) <==> old(data).id !in old(store.records))
      ensures !ok ==> store.records == old(store.records)
      ensures ok ==> data == Hooked(old(data), old(modified), old(isNew), c, now) && modified == {} && !isNew
      ensures ok && old(isNew) ==> store.records == old(store.records)[old(data).id := data]
      ensures ok && !old(isNew) ==>
        store.records == old(store.records)[old(data).id :=
          Merge(old(store.records)[old(data).id], data, HookedPaths(old(data), old(modified), old(isNew)))]
    {
      if validate && !PassesValidation() {
        return false;
      }
      var threw := HashPasswordHook(c);
      if threw {
        return false;
      }
      PasswordChangedAtHook(now);
      if isNew {
        if data.id in store.records {
          return false;
        }
        store.records := store.records[data.id := data];
      } else {
        if data.id !in store.records {
          return false;
        }
        store.records := store.records[data.id := Merge(store.records[data.id], data, modified)];
      }
      modified, isNew := {}, false;
      ok := true;
    }
  }
}
