/** The social-login user service: normalise the provider's claims, save or
    refresh the user matched by email, and hand a principal back to the
    security layer. The user table is the map `users` from email to entity. */
module LoginService {
  import opened Wrappers
  import opened Users
  import opened OAuth

  /** The principal returned to the security layer (`DefaultOAuth2User`). */
  datatype OAuth2Principal = DefaultOAuth2User(authorities: set<string>, attributes: Claims, nameAttributeKey: string)

  type UserTable = map<NullableString, UserRecord>

  /** The user table after a login with these attributes: the user with
      that email gets the new name and picture, or a GUEST user is added. */
  function Upsert(t: UserTable, a: OAuthAttributes): UserTable
  {
    if a.email in t then t[a.email := t[a.email].(name := a.name, picture := a.picture)]
    else t[a.email := UserRecord(a.name, a.email, a.picture, GUEST)]
  }

  /** A known email is refreshed in place: same record count, same email and
      role, only name and picture replaced. */
  lemma UpsertKnownEmail(t: UserTable, a: OAuthAttributes)
    requires a.email in t
    ensures Upsert(t, a).Keys == t.Keys && |Upsert(t, a)| == |t|
    ensures Upsert(t, a)[a.email] == UserRecord(a.name, t[a.email].email, a.picture, t[a.email].role)
  {
  }

  /** A new email adds exactly one record, a GUEST built from the attributes. */
  lemma UpsertNewEmail(t: UserTable, a: OAuthAttributes)
    requires a.email !in t
    ensures Upsert(t, a).Keys == t.Keys + {a.email} && |Upsert(t, a)| == |t| + 1
    ensures Upsert(t, a)[a.email] == UserRecord(a.name, a.email, a.picture, GUEST)
    ensures Upsert(t, a)[a.email].role.Key() == "ROLE_GUEST"
  {
  }

  /** Users with any other email are untouched, and afterwards the email is
      present. */
  lemma UpsertFrame(t: UserTable, a: OAuthAttributes)
    ensures a.email in Upsert(t, a)
    ensures forall e | e != a.email :: (e in Upsert(t, a) <==> e in t)
    ensures forall e | e in t && e != a.email :: Upsert(t, a)[e] == t[e]
  {
  }

  class CustomOAuth2UserService {
    var users: map<NullableString, User>

    /** Each stored user carries its own key as email, so one email has one
        record and distinct emails hold distinct entities. */
    ghost predicate Valid()
      reads this, users.Values
    {
      forall e | e in users :: users[e].email == e
    }

    /** The table's contents. */
    function Users(): (t: UserTable)
      reads this, users.Values
      ensures t.Keys == users.Keys
    {
      map e | e in users :: users[e].AsRecord()
    }

    constructor ()
      ensures Valid() && Users() == map[]
    {
      users := map[];
    }

    /** Finds the user by email and overwrites name and picture, or creates a
        GUEST user from the attributes; then saves it and returns it. */
    method SaveOrUpdate(a: OAuthAttributes) returns (user: User)
      requires Valid()
      modifies this, users.Values
      ensures Valid() && fresh(users.Values - old(users.Values))
      ensures Users() == Upsert(old(Users()), a)
      ensures a.email in users && users[a.email] == user
      ensures a.email in old(users) ==> user == old(users[a.email])
      ensures a.email !in old(users) ==> fresh(user)
    {
      if a.email in users {
        user := users[a.email];
        assert forall e | e in users && e != a.email :: users[e] != user;
        user.Update(a.name, a.picture);
      } else {
        user := a.ToEntity();
      }
      users := users[a.email := user];
    }

    /** The login hook. `providerAttributes` are the claims the provider's
        user-info endpoint returned. The principal carries exactly one
        authority, the saved user's role key, with the normalised attributes
        and user-name key. */
    method LoadUser(registrationId: string, userNameAttributeName: string, providerAttributes: Claims)
      returns (principal: OAuth2Principal)
      requires Valid()
      requires CanNormalize(registrationId, providerAttributes)
      modifies this, users.Values
      ensures Valid() && fresh(users.Values - old(users.Values))
      ensures var a := Of(registrationId, userNameAttributeName, providerAttributes);
        && Users() == Upsert(old(Users()), a)
        && a.email in Users()
        && principal == DefaultOAuth2User({Users()[a.email].role.Key()}, a.attributes, a.nameAttributeKey)
        && (a.email !in old(Users()) ==> principal.authorities == {"ROLE_GUEST"})
    {
      var attributes := Of(registrationId, userNameAttributeName, providerAttributes);
      var user := SaveOrUpdate(attributes);
      principal := DefaultOAuth2User({user.role.Key()}, attributes.attributes, attributes.nameAttributeKey);
    }
  }
}
