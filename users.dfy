/**
 * UserService: the staff accounts. `createUser` refuses a username that is
 * already taken and stores the role in the form Spring Security expects,
 * upper case with a "ROLE_" prefix. `resetPassword` replaces one user's
 * password hash. The repository is a map from user id to user. The password
 * encoder is a salted hash, so its output for a call is a parameter, and so
 * is the id the database assigns to a new row.
 */
module Users {
  import opened Wrappers
  import opened Text

  /** User: id, login name, password hash, display name and role. */
  datatype User = User(id: int, username: string, password: string, fullName: string, role: string)

  /** IllegalArgumentException("User not found") and ("Username already exists"). */
  datatype UserError = UserNotFound | UsernameExists

  const RolePrefix: string := "ROLE_"

  /** The stored role: "ROLE_" is put in front unless the role already starts
    * with it (a case-sensitive test), and the whole is upper-cased. */
  function NormalizedRole(role: string): (r: string)
    ensures StartsWith(r, RolePrefix)
    ensures forall i :: 0 <= i < |r| ==> UpperChar(r[i]) == r[i]
    ensures StartsWith(role, RolePrefix) ==> r == Upper(role)
    ensures !StartsWith(role, RolePrefix) ==> r == RolePrefix + Upper(role)
  {
    var prefixed := if StartsWith(role, RolePrefix) then role else RolePrefix + role;
    forall i | 0 <= i < |prefixed|
      ensures UpperChar(UpperChar(prefixed[i])) == UpperChar(prefixed[i])
    {
      UpperCharIdempotent(prefixed[i]);
    }
    assert Upper(prefixed)[..|RolePrefix|] == RolePrefix;
    if !StartsWith(role, RolePrefix) then
      assert Upper(prefixed) == RolePrefix + Upper(role);
      Upper(prefixed)
    else Upper(prefixed)
  }

  /** Normalising a stored role leaves it as it is. */
  lemma NormalizedRoleIdempotent(role: string)
    ensures NormalizedRole(NormalizedRole(role)) == NormalizedRole(role)
  {
    var r := NormalizedRole(role);
    assert Upper(r) == r;
  }

  /** The prefix test is case-sensitive: a lower-case prefix is not recognised,
    * so "role_admin" is stored as "ROLE_ROLE_ADMIN", not "ROLE_ADMIN". */
  lemma LowerCasePrefixDoubled(rest: string)
    ensures NormalizedRole("role_" + rest) == "ROLE_ROLE_" + Upper(rest)
  {
    var lower := "role_";
    assert ("role_" + rest)[0] == 'r';
    UpperAppend(lower, rest);
    assert Upper(lower) == RolePrefix by {
      assert UpperChar('r') == 'R' && UpperChar('o') == 'O' && UpperChar('l') == 'L'
          && UpperChar('e') == 'E' && UpperChar('_') == '_';
    }
    assert RolePrefix + (RolePrefix + Upper(rest)) == "ROLE_ROLE_" + Upper(rest);
  }

  class UserService {
    var users: map<int, User>

    /** Every user is stored under its own id, and no two users share a username. */
    ghost predicate Valid()
      reads this
    {
      (forall id :: id in users ==> users[id].id == id)
      && forall a, b :: a in users && b in users && users[a].username == users[b].username ==> a == b
    }

    /** findByUsername(username).isPresent(). */
    ghost predicate Taken(username: string)
      reads this
    {
      exists id :: id in users && users[id].username == username
    }

    constructor ()
      ensures users == map[] && Valid()
    {
      users := map[];
    }

    /** getByUsername: the user with that name, or "User not found". */
    method GetByUsername(username: string) returns (r: Result<User, UserError>)
      requires Valid()
      ensures r.Ok? <==> Taken(username)
      ensures r.Ok? ==> r.value.id in users && users[r.value.id] == r.value && r.value.username == username
      ensures r.Err? ==> r.error == UserNotFound
    {
      if id :| id in users && users[id].username == username {
        return Ok(users[id]);
      }
      return Err(UserNotFound);
    }

    /** createUser: refuses a taken username and saves nothing; otherwise stores
      * a new user with the encoded password and the normalised role.
      * `freshId` is the id the database assigns, `hash` the encoder's output. */
    method CreateUser(username: string, hash: string, fullName: string, role: string, freshId: int)
      returns (r: Result<User, UserError>)
      requires Valid() && freshId !in users
      modifies this
      ensures Valid()
      ensures old(Taken(username)) ==> r == Err(UsernameExists) && users == old(users)
      ensures !old(Taken(username)) ==>
        r == Ok(User(freshId, username, hash, fullName, NormalizedRole(role)))
        && users == old(users)[freshId := r.value]
      ensures Taken(username)
    {
      var existing := GetByUsername(username);
      if existing.Ok? {
        return Err(UsernameExists);
      }
      var user := User(freshId, username, hash, fullName, NormalizedRole(role));
      users := users[freshId := user];
      assert users[freshId].username == username;
      return Ok(user);
    }

    /** resetPassword: replaces the password hash of the user, and nothing else;
      * an unknown id is "User not found" and changes nothing. */
    method ResetPassword(id: int, hash: string) returns (r: Result<User, UserError>)
      requires Valid()
      modifies this
      ensures Valid()
      ensures id !in old(users) ==> r == Err(UserNotFound) && users == old(users)
      ensures id in old(users) ==>
        r == Ok(old(users)[id].(password := hash)) && users == old(users)[id := r.value]
    {
      if id !in users {
        return Err(UserNotFound);
      }
      var user := users[id].(password := hash);
      users := users[id := user];
      return Ok(user);
    }

    /** deleteUser: removes the row; a missing id is ignored. */
    method DeleteUser(id: int)
      requires Valid()
      modifies this
      ensures Valid()
      ensures users == old(users) - {id}
    {
      users := users - {id};
    }
  }
}
