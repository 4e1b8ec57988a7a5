/** Properties of the registration rules that relate several operations
    or several calls. */
module UserServiceProperties {

  import opened LegacyApp

  /** Whole years from `birth` to `now`, counted by stepping the birthday
      forward one year at a time until the next one lies after `now`. */
  function YearsCompleted(birth: Date, now: Date): nat
    requires !DateBefore(now, birth)
    decreases now.year - birth.year
  {
    var next := Anniversary(birth, 1);
    if DateBefore(now, next) then 0 else 1 + YearsCompleted(next, now)
  }

  /** From a birth date on or before `now`, CalculateAge is the number of
      birthdays that have come round. */
  lemma {:induction false} AgeCountsBirthdays(birth: Date, now: Date)
    requires !DateBefore(now, birth)
    ensures CalculateAge(birth, now) == YearsCompleted(birth, now)
    decreases now.year - birth.year
  {
    var next := Anniversary(birth, 1);
    if !DateBefore(now, next) {
      AgeCountsBirthdays(next, now);
    }
  }

  /** For a birth in the year MinimumAge years before `now`: once this
      year's birthday has come (on the birthday itself too) the age is
      exactly MinimumAge, and while it is still to come it is one less. */
  lemma AgeAtMinimumAgeBoundary(now: Date)
    ensures CalculateAge(Date(now.year - MinimumAge, now.month, now.day), now) == MinimumAge
    ensures forall b: Date :: b.year == now.year - MinimumAge && !BirthdayPending(now, b) ==>
              CalculateAge(b, now) == MinimumAge
    ensures forall b: Date :: b.year == now.year - MinimumAge && BirthdayPending(now, b) ==>
              CalculateAge(b, now) == MinimumAge - 1
  {
  }

  /** The age never decreases as "now" advances. */
  lemma AgeMonotoneInTime(birth: Date, earlier: Date, later: Date)
    requires !DateBefore(later, earlier)
    ensures CalculateAge(birth, earlier) <= CalculateAge(birth, later)
  {
  }

  /** Input that passes validation on one date still passes on any later date. */
  lemma ValidInputStaysValid(firstName: string, lastName: string, email: string, birth: Date, earlier: Date, later: Date)
    requires !DateBefore(later, earlier)
    requires ValidateInput(firstName, lastName, email, birth, earlier)
    ensures ValidateInput(firstName, lastName, email, birth, later)
  {
  }

  /** Registration fails whenever a name is empty. */
  lemma EmptyNameRejected(firstName: string, lastName: string, email: string, birth: Date,
                          client: Client, baseLimit: int32, now: Date)
    requires |firstName| == 0 || |lastName| == 0
    ensures Register(firstName, lastName, email, birth, client, baseLimit, now).None?
  {
  }

  /** Registration fails whenever the email lacks an '@' or a '.'. */
  lemma MalformedEmailRejected(firstName: string, lastName: string, email: string, birth: Date,
                               client: Client, baseLimit: int32, now: Date)
    requires '@' !in email || '.' !in email
    ensures Register(firstName, lastName, email, birth, client, baseLimit, now).None?
  {
  }

  /** The email rule asks for nothing beyond an '@' and a '.': with the
      other rules met, any such email is accepted, even "@.". */
  lemma EmailNeedsOnlyAtAndDot(firstName: string, lastName: string, birth: Date, now: Date)
    requires |firstName| > 0 && |lastName| > 0
    requires CalculateAge(birth, now) >= MinimumAge
    ensures ValidateInput(firstName, lastName, "@.", birth, now)
  {
  }

  /** The policy for a very important client does not depend on the
      credit service's answer. */
  lemma VeryImportantIgnoresCreditService(u: UserRecord, client: Client, base1: int32, base2: int32)
    requires client.clientType == VeryImportantClientType
    ensures ApplyCreditPolicy(u, client, base1) == ApplyCreditPolicy(u, client, base2)
  {
  }

  /** The credit check, applied after the policy, by client type. */
  lemma CreditCheckByType(u: UserRecord, client: Client, baseLimit: int32)
    ensures client.clientType == VeryImportantClientType ==>
              ValidateCreditLimit(ApplyCreditPolicy(u, client, baseLimit))
    ensures client.clientType == ImportantClientType && -0x4000_0000 <= baseLimit < 0x4000_0000 ==>
              (ValidateCreditLimit(ApplyCreditPolicy(u, client, baseLimit)) <==> baseLimit >= 250)
    ensures client.clientType != VeryImportantClientType && client.clientType != ImportantClientType ==>
              (ValidateCreditLimit(ApplyCreditPolicy(u, client, baseLimit)) <==> baseLimit >= MinimumCreditLimit)
  {
  }

  /** Doubling an important client's base limit is exact while it fits in
      32 bits. */
  lemma ImportantLimitIsDoubled(u: UserRecord, client: Client, baseLimit: int32)
    requires client.clientType == ImportantClientType
    requires -0x4000_0000 <= baseLimit < 0x4000_0000
    ensures ApplyCreditPolicy(u, client, baseLimit).creditLimit as int == 2 * baseLimit as int
  {
  }

  /** An important client whose base limit is 2^30 or more gets a doubled
      limit that wraps to a negative number, so the credit check fails. */
  lemma ImportantLimitOverflowRejected(u: UserRecord, client: Client, baseLimit: int32)
    requires client.clientType == ImportantClientType
    requires baseLimit >= 0x4000_0000
    ensures ApplyCreditPolicy(u, client, baseLimit).creditLimit < 0
    ensures !ValidateCreditLimit(ApplyCreditPolicy(u, client, baseLimit))
  {
  }

  /** An important client whose base limit is below -2^30 gets a doubled
      limit that wraps to a non-negative number: 2^32 more than twice the
      base. */
  lemma ImportantNegativeLimitWraps(u: UserRecord, client: Client, baseLimit: int32)
    requires client.clientType == ImportantClientType
    requires baseLimit < -0x4000_0000
    ensures ApplyCreditPolicy(u, client, baseLimit).creditLimit as int == 2 * baseLimit as int + 0x1_0000_0000
    ensures ApplyCreditPolicy(u, client, baseLimit).creditLimit >= 0
  {
  }

  /** So a negative base of -2^31 + 250 registers an important client with
      a credit limit of 500. */
  lemma ImportantNegativeLimitRegisters()
    ensures Register("John", "Doe", "john.doe@example.com", Date(1994, 1, 1),
                     Client(3, ImportantClientType), -0x8000_0000 + 250, Date(2024, 6, 15))
         == Some(UserRecord("John", "Doe", "john.doe@example.com", Date(1994, 1, 1),
                            Client(3, ImportantClientType), true, 500))
  {
    var base: int32 := -0x8000_0000 + 250;
    assert 2 * base as int == 500 - 0x1_0000_0000;
    assert Wrap32(2 * base as int) == 500 by {
      assert (500 - 0x1_0000_0000) % 0x1_0000_0000 == 500;
    }
  }

  /** A standard client, 30 years old, base limit exactly the minimum:
      registered with a credit limit of 500. */
  lemma StandardClientAtMinimumRegisters()
    ensures Register("John", "Doe", "john.doe@example.com", Date(1994, 1, 1),
                     Client(1, "NormalClient"), 500, Date(2024, 6, 15))
         == Some(UserRecord("John", "Doe", "john.doe@example.com", Date(1994, 1, 1),
                            Client(1, "NormalClient"), true, 500))
  {
  }

  /** The same registration with a base limit of 499 is refused. */
  lemma StandardClientBelowMinimumRefused()
    ensures Register("John", "Doe", "john.doe@example.com", Date(1994, 1, 1),
                     Client(1, "NormalClient"), 499, Date(2024, 6, 15)).None?
  {
  }

  /** A very important client is registered without a credit limit,
      whatever the credit service answers. */
  lemma VeryImportantClientRegisters(baseLimit: int32)
    ensures Register("John", "Doe", "john.doe@example.com", Date(1994, 1, 1),
                     Client(2, VeryImportantClientType), baseLimit, Date(2024, 6, 15))
         == Some(UserRecord("John", "Doe", "john.doe@example.com", Date(1994, 1, 1),
                            Client(2, VeryImportantClientType), false, 0))
  {
  }

  /** A client of the service: what a caller can conclude from AddUser's
      contract alone. */
  method RegistrationScenario()
  {
    var repository := new UserRepository();
    var service := new UserService((id: int32) => Client(id, ImportantClientType), repository,
                                   (lastName: string, birth: Date) => 300);
    var now := Date(2024, 6, 15);
    var ok := service.AddUser("John", "Doe", "john.doe@example.com", Date(1994, 1, 1), 7, now);
    assert ok;
    assert |repository.users| == 1;
    assert repository.users[0].creditLimit == 600;
    ok := service.AddUser("", "Doe", "john.doe@example.com", Date(1994, 1, 1), 7, now);
    assert !ok;
    assert |repository.users| == 1;
  }
}
