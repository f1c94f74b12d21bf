/** CreateUserPresenter and UserPresenter
 *  (src/interfaces/controller/user/presenter/): the user as the API shows it.
 *  Both classes exclude every property by default and expose a fixed list. */
module Presenters {
  import opened Domain

  /** An exposed property: copied text, a Date as it is, or a Date's ISO text. */
  datatype View = Str(s: string) | Instant(date: Date)

  type ViewObject = map<string, View>

  /** CreateUserPresenter: id, names, email and creation date. */
  function CreateUserView(user: UserModel): (v: ViewObject)
    ensures v.Keys == {"id", "firstname", "lastname", "email", "createdAt"}
    ensures v["id"] == Str(user.id) && v["email"] == Str(user.email)
    ensures v["firstname"] == Str(user.firstname) && v["lastname"] == Str(user.lastname)
    ensures v["createdAt"] == Instant(user.createdAt)
    ensures "password" !in v && "updatedAt" !in v && "deletedAt" !in v
  {
    map["id" := Str(user.id), "firstname" := Str(user.firstname), "lastname" := Str(user.lastname),
        "email" := Str(user.email), "createdAt" := Instant(user.createdAt)]
  }

  /** UserPresenter, given Date.prototype.toISOString. */
  function UserView(user: UserModel, toIso: Date -> string): (v: ViewObject)
    ensures v.Keys == {"id", "firstname", "lastname", "email", "createdAt", "updatedAt"}
    ensures v["id"] == Str(user.id) && v["email"] == Str(user.email)
    ensures v["firstname"] == Str(user.firstname) && v["lastname"] == Str(user.lastname)
    ensures v["createdAt"] == Str(toIso(user.createdAt)) && v["updatedAt"] == Str(toIso(user.updatedAt))
    ensures "password" !in v && "deletedAt" !in v
  {
    map["id" := Str(user.id), "firstname" := Str(user.firstname), "lastname" := Str(user.lastname),
        "email" := Str(user.email), "createdAt" := Str(toIso(user.createdAt)),
        "updatedAt" := Str(toIso(user.updatedAt))]
  }

  /** Two users that differ only in what CreateUserPresenter hides (the
   *  password, updatedAt, deletedAt) present alike. */
  lemma CreateUserViewHidesRest(user: UserModel, other: UserModel)
    requires other.id == user.id && other.email == user.email
    requires other.firstname == user.firstname && other.lastname == user.lastname
    requires other.createdAt == user.createdAt
    ensures CreateUserView(other) == CreateUserView(user)
  {
  }

  /** Two users that differ only in the password or deletedAt present alike. */
  lemma UserViewHidesRest(user: UserModel, other: UserModel, toIso: Date -> string)
    requires other.id == user.id && other.email == user.email
    requires other.firstname == user.firstname && other.lastname == user.lastname
    requires other.createdAt == user.createdAt && other.updatedAt == user.updatedAt
    ensures UserView(other, toIso) == UserView(user, toIso)
  {
  }

  /** The two presenters agree on the copied text fields; UserPresenter adds
   *  updatedAt and renders the dates. */
  lemma PresentersAgree(user: UserModel, toIso: Date -> string)
    ensures var created := CreateUserView(user);
      var shown := UserView(user, toIso);
      && created.Keys + {"updatedAt"} == shown.Keys
      && (forall k <- created.Keys :: k != "createdAt" ==> created[k] == shown[k])
  {
    var created := CreateUserView(user);
    var shown := UserView(user, toIso);
    assert created.Keys + {"updatedAt"} == shown.Keys;
  }
}
