/**
 * The provider sign-up schema (server/src/app/provider/provider.validator.ts):
 * the common contact fields with the strict password and mobile rules, the
 * provider-only fields, and the refinement that asks for name fields from an
 * individual and company fields from a company.
 */
module ProviderValidator {
  import opened Wrappers
  import opened Domain
  import opened Schema

  const EmailMessage := "Invalid email address"
  const PasswordLengthMessage := "Password must be at least 8 characters"
  const PasswordRuleMessage :=
    "Password must contain at least one uppercase letter, one lowercase letter, one number and one special character"
  const FirstNameMessage := "First name must be at least 2 characters"
  const LastNameMessage := "Last name must be at least 2 characters"
  const FullNameMessage := "Full name must be at least 2 characters"
  const MobileMinMessage := "Mobile number must be at least 10 digits"
  const MobileMaxMessage := "Mobile number must not exceed 15 digits"
  const MobileCharsMessage := "Mobile number must contain only digits and + symbol"
  // The two messages zod itself gives for a wrong literal and a wrong enum value.
  const RoleMessage := "Invalid literal value, expected \"PROVIDER\""
  const ProviderTypeMessage := "Invalid enum value. Expected 'INDIVIDUAL' | 'COMPANY'"
  const TaxNumberMessage :=
    "Business Tax Number must be 10 characters long and contain only capital letters and numbers"
  const SkillsMessage := "At least one skill must be specified"
  const ExperienceMessage := "Experience must be a non-negative number"
  const EducationMessage := "Education must be at least 2 characters"
  const RefineMessage := "Provider type specific fields are required"

  // Character classes of the patterns (`\d` is `[0-9]` without the `u` flag).
  predicate IsLower(c: char) { 'a' <= c <= 'z' }
  predicate IsUpper(c: char) { 'A' <= c <= 'Z' }
  predicate IsDigit(c: char) { '0' <= c <= '9' }
  predicate IsSpecial(c: char) { c == '@' || c == '$' || c == '!' || c == '%' || c == '*' || c == '?' || c == '&' }
  predicate IsPasswordChar(c: char) { IsLower(c) || IsUpper(c) || IsDigit(c) || IsSpecial(c) }
  predicate IsMobileChar(c: char) { IsDigit(c) || c == '+' }

  /**
   * The password rule in words: at least 8 characters, at least one lower-case
   * letter, one upper-case letter, one digit and one of `@$!%*?&`, and no
   * character outside those classes.
   */
  predicate StrongPassword(p: string)
  {
    && |p| >= 8
    && (exists i :: 0 <= i < |p| && IsLower(p[i]))
    && (exists i :: 0 <= i < |p| && IsUpper(p[i]))
    && (exists i :: 0 <= i < |p| && IsDigit(p[i]))
    && (exists i :: 0 <= i < |p| && IsSpecial(p[i]))
    && (forall i :: 0 <= i < |p| ==> IsPasswordChar(p[i]))
  }

  /** What one pass over a password finds: which classes occur, and whether every character is allowed. */
  datatype PasswordScan = PasswordScan(lower: bool, upper: bool, digit: bool, special: bool, allowed: bool)

  function ScanPassword(p: string): PasswordScan
  {
    if p == [] then PasswordScan(false, false, false, false, true)
    else
      var rest := ScanPassword(p[1..]);
      PasswordScan(rest.lower || IsLower(p[0]), rest.upper || IsUpper(p[0]), rest.digit || IsDigit(p[0]),
                   rest.special || IsSpecial(p[0]), rest.allowed && IsPasswordChar(p[0]))
  }

  /**
   * The pattern `^(?=.*[a-z])(?=.*[A-Z])(?=.*\d)(?=.*[@$!%*?&])[A-Za-z\d@$!%*?&]{8,}$`:
   * four look-aheads, each satisfied by one character of its class, in front of
   * a run of at least 8 allowed characters that spans the whole string.
   */
  predicate PasswordPatternMatches(p: string)
  {
    var scan := ScanPassword(p);
    scan.lower && scan.upper && scan.digit && scan.special && scan.allowed && |p| >= 8
  }

  /** One pass over the password finds a class exactly when some character belongs to it. */
  lemma {:induction false} ScanPasswordFinds(p: string)
    ensures ScanPassword(p).lower <==> exists i :: 0 <= i < |p| && IsLower(p[i])
    ensures ScanPassword(p).upper <==> exists i :: 0 <= i < |p| && IsUpper(p[i])
    ensures ScanPassword(p).digit <==> exists i :: 0 <= i < |p| && IsDigit(p[i])
    ensures ScanPassword(p).special <==> exists i :: 0 <= i < |p| && IsSpecial(p[i])
    ensures ScanPassword(p).allowed <==> forall i :: 0 <= i < |p| ==> IsPasswordChar(p[i])
  {
    if p != [] {
      ScanPasswordFinds(p[1..]);
      assert forall i :: 0 < i < |p| ==> p[i] == p[1..][i - 1];
      assert forall j :: 0 <= j < |p[1..]| ==> p[1..][j] == p[j + 1];
    }
  }

  /** The pattern accepts exactly the passwords of the rule in words. */
  lemma PasswordPatternIsRule(p: string)
    ensures PasswordPatternMatches(p) <==> StrongPassword(p)
  {
    ScanPasswordFinds(p);
  }

  /** `password`: `.min(8)` and then the pattern, both always checked. */
  function PasswordIssues(p: string): (r: seq<string>)
    ensures r == [] <==> StrongPassword(p)
    ensures |p| < 8 ==> r == [PasswordLengthMessage, PasswordRuleMessage]
    ensures |p| >= 8 && !StrongPassword(p) ==> r == [PasswordRuleMessage]
  {
    PasswordPatternIsRule(p);
    MinLength(p, 8, PasswordLengthMessage) + Check(PasswordPatternMatches(p), PasswordRuleMessage)
  }

  /** The mobile rule: 10 to 15 characters, each a digit or `+`. */
  predicate ValidMobile(m: string)
  {
    10 <= |m| <= 15 && forall i :: 0 <= i < |m| ==> IsMobileChar(m[i])
  }

  /** `mobileNumber`: `.min(10)`, `.max(15)` and the pattern `^[0-9+]+$`. */
  function MobileIssues(m: string): (r: seq<string>)
    ensures r == [] <==> ValidMobile(m)
    ensures (forall i :: 0 <= i < |m| ==> IsMobileChar(m[i])) && 1 <= |m| < 10 ==> r == [MobileMinMessage]
    ensures m == "" ==> r == [MobileMinMessage, MobileCharsMessage]
    ensures (forall i :: 0 <= i < |m| ==> IsMobileChar(m[i])) && |m| > 15 ==> r == [MobileMaxMessage]
    ensures (exists i :: 0 <= i < |m| && !IsMobileChar(m[i])) ==> MobileCharsMessage in r
  {
    MinLength(m, 10, MobileMinMessage) + Check(|m| <= 15, MobileMaxMessage) +
    Check(|m| >= 1 && forall i :: 0 <= i < |m| ==> IsMobileChar(m[i]), MobileCharsMessage)
  }

  /** The business tax number pattern `^[A-Z0-9]{10}$`. */
  predicate ValidTaxNumber(t: string)
  {
    |t| == 10 && forall i :: 0 <= i < |t| ==> IsUpper(t[i]) || IsDigit(t[i])
  }

  predicate ValidProviderType(providerType: string)
  {
    providerType == "INDIVIDUAL" || providerType == "COMPANY"
  }

  /** The `.refine` predicate, with JavaScript truthiness of the strings it tests. */
  predicate RefineHolds(b: ProviderBody)
  {
    if b.providerType == "INDIVIDUAL" then b.firstName != "" && b.lastName != "" && b.fullName != ""
    else if b.providerType == "COMPANY" then Truthy(b.companyName) && Truthy(b.businessTaxNumber)
    else true
  }

  /** The schema in words; `emailOk` stands for the library's e-mail format check. */
  predicate ProviderSchema(b: ProviderBody, emailOk: bool)
  {
    && emailOk
    && StrongPassword(b.password)
    && |b.firstName| >= 2 && |b.lastName| >= 2 && |b.fullName| >= 2
    && ValidMobile(b.mobileNumber)
    && b.role == "PROVIDER"
    && ValidProviderType(b.providerType)
    && (b.businessTaxNumber.Some? ==> ValidTaxNumber(b.businessTaxNumber.value))
    && (b.skills.Some? ==> |b.skills.value| >= 1)
    && (b.experience.Some? ==> b.experience.value >= 0.0)
    && (b.education.Some? ==> |b.education.value| >= 2)
    && RefineHolds(b)
  }

  /** The messages of the object's own fields, in the order the keys are declared. */
  function FieldIssues(b: ProviderBody, emailOk: bool): (r: seq<string>)
    ensures r == [] <==>
      && emailOk && StrongPassword(b.password)
      && |b.firstName| >= 2 && |b.lastName| >= 2 && |b.fullName| >= 2
      && ValidMobile(b.mobileNumber) && b.role == "PROVIDER" && ValidProviderType(b.providerType)
      && (b.businessTaxNumber.Some? ==> ValidTaxNumber(b.businessTaxNumber.value))
      && (b.skills.Some? ==> |b.skills.value| >= 1)
      && (b.experience.Some? ==> b.experience.value >= 0.0)
      && (b.education.Some? ==> |b.education.value| >= 2)
    ensures RefineMessage !in r
  {
    Check(emailOk, EmailMessage)
    + PasswordIssues(b.password)
    + MinLength(b.firstName, 2, FirstNameMessage)
    + MinLength(b.lastName, 2, LastNameMessage)
    + MinLength(b.fullName, 2, FullNameMessage)
    + MobileIssues(b.mobileNumber)
    + Check(b.role == "PROVIDER", RoleMessage)
    + Check(ValidProviderType(b.providerType), ProviderTypeMessage)
    + (if b.businessTaxNumber.Some? then Check(ValidTaxNumber(b.businessTaxNumber.value), TaxNumberMessage) else [])
    + (if b.skills.Some? then Check(|b.skills.value| >= 1, SkillsMessage) else [])
    + (if b.experience.Some? then Check(b.experience.value >= 0.0, ExperienceMessage) else [])
    + (if b.education.Some? then MinLength(b.education.value, 2, EducationMessage) else [])
  }

  /**
   * `providerSchema`: the field messages, then the refinement's message. A
   * wrong `role` literal or `providerType` value aborts the object, and the
   * refinement is then not run at all.
   */
  function ProviderIssues(b: ProviderBody, emailOk: bool): (r: seq<string>)
    ensures r == [] <==> ProviderSchema(b, emailOk)
    ensures RefineMessage in r <==> b.role == "PROVIDER" && ValidProviderType(b.providerType) && !RefineHolds(b)
  {
    FieldIssues(b, emailOk)
    + (if b.role == "PROVIDER" && ValidProviderType(b.providerType) then Check(RefineHolds(b), RefineMessage) else [])
  }

  /** For an individual the refinement adds nothing: the `.min(2)` name rules already imply it. */
  lemma IndividualRefineIsImplied(b: ProviderBody, emailOk: bool)
    requires b.providerType == "INDIVIDUAL" && FieldIssues(b, emailOk) == []
    ensures RefineHolds(b) && ProviderIssues(b, emailOk) == []
  {
  }

  /** For a company the refinement is what demands the two optional company fields. */
  lemma CompanyRefineRequiresCompanyFields(b: ProviderBody, emailOk: bool)
    requires b.providerType == "COMPANY"
    ensures ProviderSchema(b, emailOk) ==> Truthy(b.companyName) && b.businessTaxNumber.Some?
    ensures ProviderSchema(b, emailOk) ==> ValidTaxNumber(b.businessTaxNumber.value)
  {
  }
}
