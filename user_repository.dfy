/**
 * The user repository (server/src/app/user/user.repository.ts): the record a
 * sign-up creates, and the lookup by id.
 */
module UserRepository {
  import opened Wrappers
  import opened Domain
  import opened Persistence

  /** The stored full name: the first name, one space, the last name. */
  function FullName(firstName: string, lastName: string): (r: string)
    ensures |r| == |firstName| + 1 + |lastName|
    ensures r[..|firstName|] == firstName && r[|firstName|] == ' ' && r[|firstName| + 1..] == lastName
  {
    firstName + " " + lastName
  }

  /**
   * The record `createUser` inserts: the input fields copied, the full name
   * derived from the two names, and the role forced to `USER`.
   */
  function NewUserRecord(id: Id, data: UserInput): (u: User)
    ensures u.id == id && u.role == "USER"
    ensures u.firstName == data.firstName && u.lastName == data.lastName
    ensures u.fullName == FullName(data.firstName, data.lastName)
    ensures u.email == data.email && u.password == data.password && u.mobileNumber == data.mobileNumber
    ensures u.streetNumber == data.streetNumber && u.streetName == data.streetName
    ensures u.city == data.city && u.state == data.state && u.postCode == data.postCode
  {
    User(id, data.email, data.password, data.firstName, data.lastName, FullName(data.firstName, data.lastName),
         data.mobileNumber, data.streetNumber, data.streetName, data.city, data.state, data.postCode, "USER")
  }

  /** `createUser`: inserts the derived record under a new id. */
  method CreateUser(db: Store, data: UserInput) returns (user: User)
    requires db.Valid()
    modifies db`users
    ensures db.Valid()
    ensures user == NewUserRecord(user.id, data)
    ensures user.id !in old(db.users) && db.users == old(db.users)[user.id := user]
  {
    var id := NewId(db.users.Keys);
    user := NewUserRecord(id, data);
    db.users := db.users[id := user];
  }

  /** `getUserById`: the stored user, or null. */
  function GetUserById(users: map<Id, User>, id: Id): (r: Option<User>)
    ensures r.Some? <==> id in users
    ensures r.Some? ==> r.value == users[id]
  {
    Lookup(users, id)
  }

  /** When first names contain no space, the full name determines both names. */
  lemma FullNameInjective(first1: string, last1: string, first2: string, last2: string)
    requires ' ' !in first1 && ' ' !in first2
    requires FullName(first1, last1) == FullName(first2, last2)
    ensures first1 == first2 && last1 == last2
  {
  }

  /** Without that condition it does not: two different name pairs share a full name. */
  lemma FullNameAmbiguous()
    ensures FullName("Mary Ann", "Lee") == FullName("Mary", "Ann Lee")
  {
  }
}
