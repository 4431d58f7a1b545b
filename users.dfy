/** The user entity created on first social login and refreshed on later
    ones, and its role. */
module Users {
  import opened Wrappers

  datatype Role = GUEST | USER
  {
    /** The authority name the security layer grants for this role: the
        role's name with the `ROLE_` prefix that `hasRole` checks for. */
    function Key(): (k: string)
      ensures |k| > 5 && k[..5] == "ROLE_"
      ensures this == GUEST <==> k == "ROLE_GUEST"
    {
      match this
      case GUEST => "ROLE_GUEST"
      case USER => "ROLE_USER"
    }
  }

  /** The value of one stored user. */
  datatype UserRecord = UserRecord(name: NullableString, email: NullableString, picture: NullableString, role: Role)

  class User {
    var name: NullableString
    var email: NullableString
    var picture: NullableString
    var role: Role

    constructor (name: NullableString, email: NullableString, picture: NullableString, role: Role)
      ensures this.name == name && this.email == email && this.picture == picture && this.role == role
    {
      this.name := name;
      this.email := email;
      this.picture := picture;
      this.role := role;
    }

    function AsRecord(): UserRecord
      reads this
    {
      UserRecord(name, email, picture, role)
    }

    /** Overwrites name and picture in place; email and role are kept. */
    method Update(name: NullableString, picture: NullableString)
      modifies this
      ensures this.name == name && this.picture == picture
      ensures this.email == old(this.email) && this.role == old(this.role)
    {
      this.name := name;
      this.picture := picture;
    }
  }
}
