# LegacyApp user registration, modelled in Dafny

`LegacyApp.UserService` registers a new user. `AddUser` runs five steps and
returns `false` at the first one that fails:

1. `ValidateInput`: both names non-empty, an email containing `@` and `.`,
   and an age of at least `MinimumAge` (21).
2. `CalculateAge`: whole years between the birth date and the current date.
   It takes the year difference and subtracts one while this year's birthday
   is still to come.
3. `CreateUser`: copies the inputs and the looked-up client into a new `User`.
4. `SetCreditLimit`: a decision table on the client's type string.
   - `"VeryImportantClient"`: no credit limit.
   - `"ImportantClient"`: twice the credit service's base limit.
   - Any other type: the base limit.
5. `ValidateCreditLimit`: fails only when a limit exists and is below
   `MinimumCreditLimit` (500).

When every step passes, the user is handed to the user repository.

The model is in two files.
- `UserService.dfy` (module `LegacyApp`) holds the data, the rules and the classes.
  - `User` is a class whose credit fields `SetCreditLimit` updates in place.
  - `UserRepository` is a class holding the stored users as a `seq<User>`.
  - `UserService` holds the collaborators and the methods `CreateUser`,
    `SetCreditLimit` and `AddUser`.
  - The steps that only compute are functions: `ValidateInput`,
    `CalculateAge` and `ValidateCreditLimit`.
  - `ApplyCreditPolicy` is the credit decision table on a `UserRecord`, the
    value of a `User`'s fields. `SetCreditLimit` is proved against it.
  - `Register` says what `AddUser` stores, or `None` when it returns false.
    `AddUser` is proved against it.
- `Properties.dfy` (module `UserServiceProperties`) holds lemmas that relate
  several operations or several calls. It also has a client method that
  registers users through `AddUser`'s contract alone.

The collaborators become values.
- The client repository is a function from client id to `Client`.
- The credit service is a function from (last name, date of birth) to a
  32-bit base limit. The source creates this service inside
  `SetCreditLimit`; the model passes it to the `UserService` constructor.
- The current date is a `now` parameter of `AddUser` and `ValidateInput`.

Three points of the code's behaviour the model keeps:
- Client types are the code's strings, compared exactly. Every string other
  than the two named ones is the standard tier.
- `creditLimit *= 2` is unchecked C# `int` arithmetic. It wraps modulo 2^32.
  The model states this with `Wrap32`. `ImportantLimitIsDoubled` shows the
  doubling is exact while the base is below 2^30 in magnitude.
  `ImportantLimitOverflowRejected` shows that a base of 2^30 or more wraps to
  a negative limit, so the registration is refused.
  `ImportantNegativeLimitWraps` shows the other direction: a base below
  -2^30 wraps to a non-negative limit. `ImportantNegativeLimitRegisters`
  shows that a base of -2^31 + 250 registers an important client with a
  limit of 500.
- A very important client's `CreditLimit` is left as it was. For a fresh
  user that is the C# default, 0.

## Model

| member | source | states |
|---|---|---|
| LegacyApp.Wrap32 | LegacyApp/UserService.cs:113 | the result is congruent to the input modulo 2^32, and equals it when the input fits in 32 bits |
| LegacyApp.CalculateAge | LegacyApp/UserService.cs:74-83 | the age is the year difference or one less, one less exactly when (month, day) of now precedes the birthday; the age-th anniversary is on or before now and the next one after it |
| LegacyApp.ValidateInput | LegacyApp/UserService.cs:52-71 | passes exactly when both names are non-empty, the email has '@' and '.', and the age is at least 21; passing implies the 21st birthday has happened |
| LegacyApp.ApplyCreditPolicy | LegacyApp/UserService.cs:99-118 | has a limit exactly when the client is not very important; very important keeps the old limit, important gets the doubled base (wrapped to 32 bits), others the base; no other field changes |
| LegacyApp.Register | LegacyApp/UserService.cs:29-50 | succeeds exactly when input validation passes and the client is very important or its tier limit is at least 500; the stored user carries the inputs and client, has a limit exactly when not very important, and any limit is at least 500 |
| LegacyApp.User.constructor | LegacyApp/UserService.cs:88-95 | the new user's fields are the inputs, with no credit limit |
| LegacyApp.UserRepository.AddUser | LegacyApp/UserService.cs:47 | the stored users are the old ones followed by the given user |
| LegacyApp.UserService.constructor | LegacyApp/UserService.cs:23-27 | the service keeps the injected client repository, user repository and credit service |
| LegacyApp.UserService.CreateUser | LegacyApp/UserService.cs:86-96 | returns a fresh user whose fields are the inputs and the client, with no credit limit |
| LegacyApp.UserService.SetCreditLimit | LegacyApp/UserService.cs:99-118 | the user's new fields are the decision table applied to its old fields and to the credit service's answer for its last name and birth date |
| LegacyApp.UserService.AddUser | LegacyApp/UserService.cs:29-50 | returns true exactly when Register accepts; then exactly one fresh user holding Register's record is appended, else the repository is unchanged |
| UserServiceProperties.AgeCountsBirthdays | LegacyApp/UserService.cs:74-83 | for a birth date on or before now, the age equals the number of birthdays counted one year at a time |
| UserServiceProperties.AgeAtMinimumAgeBoundary | LegacyApp/UserService.cs:74-83 | for a birth 21 years before now's year, the age is 21 from the birthday on (the birthday itself included) and 20 while the birthday is still to come |
| UserServiceProperties.AgeMonotoneInTime | LegacyApp/UserService.cs:74-83 | the age never decreases as now advances |
| UserServiceProperties.ValidInputStaysValid | LegacyApp/UserService.cs:52-71 | input valid on one date stays valid on every later date |
| UserServiceProperties.EmptyNameRejected | LegacyApp/UserService.cs:54-57 | an empty first or last name makes registration fail |
| UserServiceProperties.MalformedEmailRejected | LegacyApp/UserService.cs:60-63 | an email without '@' or without '.' makes registration fail |
| UserServiceProperties.EmailNeedsOnlyAtAndDot | LegacyApp/UserService.cs:60-63 | with the other rules met, even the email "@." passes: no further format rule exists |
| UserServiceProperties.VeryImportantIgnoresCreditService | LegacyApp/UserService.cs:101-104 | for a very important client the outcome does not depend on the credit service's answer |
| UserServiceProperties.CreditCheckByType | LegacyApp/UserService.cs:99-128 | very important always passes the credit check; important passes exactly when the base is at least 250 (no overflow); others exactly when the base is at least 500 |
| UserServiceProperties.ImportantLimitIsDoubled | LegacyApp/UserService.cs:111-115 | an important client's limit is exactly twice the base while that fits in 32 bits |
| UserServiceProperties.ImportantLimitOverflowRejected | LegacyApp/UserService.cs:111-115 | a base of 2^30 or more wraps to a negative limit and the credit check fails |
| UserServiceProperties.ImportantNegativeLimitWraps | LegacyApp/UserService.cs:111-115 | a base below -2^30 wraps to twice the base plus 2^32, a non-negative limit |
| UserServiceProperties.ImportantNegativeLimitRegisters | LegacyApp/UserService.cs:29-50 | an important client with base -2^31 + 250 is stored with a limit of 500 |
| UserServiceProperties.StandardClientAtMinimumRegisters | LegacyApp/UserService.cs:29-50 | a 30-year-old standard client with base 500 is stored with a limit of 500 |
| UserServiceProperties.StandardClientBelowMinimumRefused | LegacyApp/UserService.cs:29-50 | the same client with base 499 is refused |
| UserServiceProperties.VeryImportantClientRegisters | LegacyApp/UserService.cs:29-50 | a very important client is stored without a limit whatever the credit service answers |

## Left out

- The parameterless `UserService` constructor (lines 17-21) and the concrete `ClientRepository`, `UserDataAdapter` and `UserCreditService`. They are not part of this model; the collaborators are functions and a `seq` instead.
- `DateTime.Now` (line 76) is an ambient clock. It is the `now` parameter.
- The `using` block that disposes the credit service (line 108). Releasing a resource is not observable in the model, so the service is one function call.
- Null strings and a null client. A null email or client throws in the source; the model has no null values, so `string.IsNullOrEmpty` is a length test.
- Exceptions thrown by the collaborators propagate uncaught in the source and have no counterpart here.
- The collaborators are fixed functions of one `UserService`: the client repository answers from the client id alone, and the credit service from the last name and the (year, month, day) of the birth date alone. So the same arguments always get the same answer. The source creates a new credit service on every call (line 108) and passes it the whole `DateTime` (line 110); neither is captured.
- Dates are not checked for validity. DateTime guarantees valid dates, and the age formula reads only the integer year, month and day.
- UserService.SetCreditLimit: "does not call the credit service for a very important client" is stated as "the result does not depend on the answer" (`VeryImportantIgnoresCreditService`), because a call to a pure function is not observable.
