/** Request shaping shared by `userController` and `clientController`:
    `filterObj` field whitelisting, the `updateMe` password guard and the
    `password !== passwordConfirm` check. A request body is a map from field
    name to submitted string. */
module RequestShaping {
  import opened Js
  import opened UserModel

  type Fields = map<string, string>

  /** `req.body.f`: undefined when the field was not submitted. */
  function Field(body: Fields, f: string): (r: Option<string>)
    ensures r.Some? <==> f in body
    ensures r.Some? ==> r.value == body[f]
  {
    if f in body then Some(body[f]) else None
  }

  /** The fields of `obj` named in `allowed`, with their values. */
  function Filtered(obj: Fields, allowed: seq<string>): Fields {
    map k | k in obj && k in allowed :: obj[k]
  }

  /** Filtering keeps only allowed fields, changes no value, and filtering
      again changes nothing; with every field allowed it is the identity. */
  lemma FilteredProperties(obj: Fields, allowed: seq<string>)
    ensures Filtered(obj, allowed).Keys <= obj.Keys
    ensures forall k :: k in Filtered(obj, allowed) ==> k in allowed && Filtered(obj, allowed)[k] == obj[k]
    ensures forall k :: k in obj && k in allowed ==> k in Filtered(obj, allowed)
    ensures Filtered(Filtered(obj, allowed), allowed) == Filtered(obj, allowed)
    ensures (forall k :: k in obj ==> k in allowed) ==> Filtered(obj, allowed) == obj
  {
  }

  /** `filterObj(obj, ...allowedFields)`: `Object.keys(obj).forEach` adds
      each allowed field to `newObj`. The key order does not matter. */
  method FilterObj(obj: Fields, allowed: seq<string>) returns (newObj: Fields)
    ensures newObj == Filtered(obj, allowed)
  {
    newObj := map[];
    var keys := obj.Keys;
    while keys != {}
      invariant keys <= obj.Keys
      invariant newObj == map k | k in obj && k !in keys && k in allowed :: obj[k]
      decreases |keys|
    {
      var el :| el in keys;
      if el in allowed {
        newObj := newObj[el := obj[el]];
      }
      keys := keys - {el};
    }
  }

  /** `if (req.body.password || req.body.passwordConfirm)`. */
  predicate TriesPasswordUpdate(body: Fields) {
    Truthy(Field(body, "password")) || Truthy(Field(body, "passwordConfirm"))
  }

  const PasswordRouteError := "This route is not for password updates. Please use /updateMyPassword."

  /** The whitelist of `updateMe`. */
  const ProfileFields := ["surname", "name", "email"]

  /** `filteredBody`: the whitelisted fields, plus `photo` when a file was
      uploaded (`req.file.filename`). */
  function ProfileUpdate(body: Fields, file: Option<string>): (f: Fields)
    ensures f.Keys <= {"surname", "name", "email", "photo"}
    ensures forall k :: k in f && k != "photo" ==> k in body && f[k] == body[k]
    ensures file.Some? ==> "photo" in f && f["photo"] == file.value
    ensures file.None? ==> "photo" !in f
    ensures forall k :: k in body && k in ProfileFields ==> k in f
  {
    var f := Filtered(body, ProfileFields);
    if file.Some? then f["photo" := file.value] else f
  }

  /** `runValidators` on the updated paths, the same for users and clients:
      `name`, `surname` and `email` are required (non-empty after the setters) and `email` must satisfy
      `validator.isEmail`. */
  predicate ProfileValidates(f: Fields, isEmail: string -> bool) {
    && ("name" in f ==> Trim(f["name"]) != "")
    && ("surname" in f ==> Trim(f["surname"]) != "")
    && ("email" in f ==> NormalizeEmail(f["email"]) != "" && isEmail(NormalizeEmail(f["email"])))
  }

  /** `password !== passwordConfirm`: strict inequality, so two absent
      values are equal. */
  predicate PasswordsDiffer(password: Option<string>, confirm: Option<string>) {
    password != confirm
  }
}
