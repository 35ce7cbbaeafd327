/**
 * The user request schemas (server/src/app/user/user.validator.ts): sign-up
 * and login. Unlike the provider schema, the password only needs a length and
 * the mobile number only a lower bound.
 */
module UserValidator {
  import opened Domain
  import opened Schema
  import ProviderValidator

  const EmailMessage := "Invalid email address"
  const PasswordMessage := "Password must be at least 8 characters"
  const FirstNameMessage := "First name must be at least 2 characters"
  const LastNameMessage := "Last name must be at least 2 characters"
  const MobileMessage := "Mobile number must be at least 10 digits"
  const LoginPasswordMessage := "Password is required"

  /** The sign-up schema in words; `emailOk` stands for the library's e-mail format check. */
  predicate UserSchema(u: UserInput, emailOk: bool)
  {
    emailOk && |u.password| >= 8 && |u.firstName| >= 2 && |u.lastName| >= 2 && |u.mobileNumber| >= 10
  }

  /** `userSchema`: the messages in key order; the address fields take any string. */
  function UserIssues(u: UserInput, emailOk: bool): (r: seq<string>)
    ensures r == [] <==> UserSchema(u, emailOk)
    ensures |r| <= 5
    ensures !emailOk ==> r[0] == EmailMessage
  {
    Check(emailOk, EmailMessage)
    + MinLength(u.password, 8, PasswordMessage)
    + MinLength(u.firstName, 2, FirstNameMessage)
    + MinLength(u.lastName, 2, LastNameMessage)
    + MinLength(u.mobileNumber, 10, MobileMessage)
  }

  /** A body for the login route. */
  datatype LoginBody = LoginBody(email: string, password: string)

  /** `loginSchema`: any non-empty password. */
  function LoginIssues(l: LoginBody, emailOk: bool): (r: seq<string>)
    ensures r == [] <==> emailOk && l.password != ""
    ensures emailOk && l.password == "" ==> r == [LoginPasswordMessage]
  {
    Check(emailOk, EmailMessage) + MinLength(l.password, 1, LoginPasswordMessage)
  }

  /** The contact fields of a provider body, read as a user body. */
  function AsUserInput(b: ProviderBody): (u: UserInput)
    ensures u.email == b.email && u.password == b.password && u.mobileNumber == b.mobileNumber
    ensures u.firstName == b.firstName && u.lastName == b.lastName
  {
    UserInput(b.email, b.password, b.firstName, b.lastName, b.mobileNumber,
              b.streetNumber, b.streetName, b.city, b.state, b.postCode)
  }

  /** The provider rules are stricter: whatever the provider schema accepts, the user schema accepts. */
  lemma ProviderSchemaIsStricter(b: ProviderBody, emailOk: bool)
    requires ProviderValidator.ProviderSchema(b, emailOk)
    ensures UserIssues(AsUserInput(b), emailOk) == []
  {
  }

  /** And strictly so: a lower-case password of 8 letters passes as a user's but not as a provider's. */
  lemma PasswordRulesDiffer()
    ensures |"password"| >= 8 && !ProviderValidator.StrongPassword("password")
  {
    assert !ProviderValidator.IsUpper("password"[0]);
    assert forall i :: 0 <= i < |"password"| ==> !ProviderValidator.IsUpper("password"[i]);
  }
}
