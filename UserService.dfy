/** A model of the user-registration rules of LegacyApp.UserService:
    input validation, age calculation, user construction, the
    credit-limit policy and the credit-limit check, run in that order by
    AddUser, which stores the user only when every rule passes. */
module LegacyApp {

  datatype Option<T> = None | Some(value: T)

  /** The C# `int` the service computes credit limits in. */
  newtype int32 = x: int | -0x8000_0000 <= x < 0x8000_0000

  const MinimumAge: int := 21
  const MinimumCreditLimit: int32 := 500
  const VeryImportantClientType: string := "VeryImportantClient"
  const ImportantClientType: string := "ImportantClient"

  /** The three components of a DateTime that the service reads. */
  datatype Date = Date(year: int, month: int, day: int)

  /** A client as returned by the client repository; only its type is read. */
  datatype Client = Client(id: int32, clientType: string)

  /** The value of a User object's fields at one moment. */
  datatype UserRecord = UserRecord(
    firstName: string,
    lastName: string,
    emailAddress: string,
    dateOfBirth: Date,
    client: Client,
    hasCreditLimit: bool,
    creditLimit: int32)

  /** Strict chronological order on dates: year, then month, then day. */
  predicate DateBefore(a: Date, b: Date) {
    a.year < b.year || (a.year == b.year && (a.month < b.month || (a.month == b.month && a.day < b.day)))
  }

  /** Whether (month, day) of `now` comes before (month, day) of `birth` in the year. */
  predicate BirthdayPending(now: Date, birth: Date) {
    now.month < birth.month || (now.month == birth.month && now.day < birth.day)
  }

  /** The date `years` years after `d`, on the same month and day. */
  function Anniversary(d: Date, years: int): Date {
    Date(d.year + years, d.month, d.day)
  }

  /** Two's-complement wrap-around of an integer into 32 bits, as an
      unchecked C# multiplication does. */
  function Wrap32(x: int): (r: int32)
    ensures (r as int - x) % 0x1_0000_0000 == 0
    ensures -0x8000_0000 <= x < 0x8000_0000 ==> r as int == x
  {
    var m := x % 0x1_0000_0000;
    if m < 0x8000_0000 then m as int32 else (m - 0x1_0000_0000) as int32
  }

  /** Whole years from `dateOfBirth` to `now`: the year difference, one
      less while this year's birthday is still to come. The result is the
      number `age` of the last anniversary on or before `now`. */
  function CalculateAge(dateOfBirth: Date, now: Date): (age: int)
    ensures age == now.year - dateOfBirth.year || age == now.year - dateOfBirth.year - 1
    ensures age == now.year - dateOfBirth.year - 1 <==> BirthdayPending(now, dateOfBirth)
    ensures !DateBefore(now, Anniversary(dateOfBirth, age))
    ensures DateBefore(now, Anniversary(dateOfBirth, age + 1))
  {
    var age := now.year - dateOfBirth.year;
    if BirthdayPending(now, dateOfBirth) then age - 1 else age
  }

  /** Names present, an email with an '@' and a '.', and an age of at least
      MinimumAge on the date `now`. */
  function ValidateInput(firstName: string, lastName: string, email: string, dateOfBirth: Date, now: Date): (ok: bool)
    ensures ok <==> |firstName| > 0 && |lastName| > 0 && '@' in email && '.' in email
                    && CalculateAge(dateOfBirth, now) >= MinimumAge
    ensures ok ==> !DateBefore(now, Anniversary(dateOfBirth, MinimumAge))
  {
    if |firstName| == 0 || |lastName| == 0 then false
    else if '@' !in email || '.' !in email then false
    else if CalculateAge(dateOfBirth, now) < MinimumAge then false
    else true
  }

  /** The user CreateUser builds: the inputs copied, no credit limit yet. */
  function NewUserRecord(firstName: string, lastName: string, email: string, dateOfBirth: Date, client: Client): (u: UserRecord)
    ensures !u.hasCreditLimit && u.creditLimit == 0
  {
    UserRecord(firstName, lastName, email, dateOfBirth, client, false, 0)
  }

  /** The credit-limit decision table applied to `u`, where `baseLimit` is
      what the credit service returns for the user. */
  function ApplyCreditPolicy(u: UserRecord, client: Client, baseLimit: int32): (r: UserRecord)
    ensures r.hasCreditLimit <==> client.clientType != VeryImportantClientType
    ensures client.clientType == VeryImportantClientType ==> r.creditLimit == u.creditLimit
    ensures client.clientType == ImportantClientType ==> r.creditLimit == Wrap32(2 * baseLimit as int)
    ensures client.clientType != VeryImportantClientType && client.clientType != ImportantClientType
            ==> r.creditLimit == baseLimit
    ensures r.(hasCreditLimit := u.hasCreditLimit, creditLimit := u.creditLimit) == u
  {
    if client.clientType == VeryImportantClientType then
      u.(hasCreditLimit := false)
    else
      var limit := if client.clientType == ImportantClientType then Wrap32(2 * baseLimit as int) else baseLimit;
      u.(hasCreditLimit := true, creditLimit := limit)
  }

  /** Fails only a user that has a credit limit below MinimumCreditLimit. */
  function ValidateCreditLimit(u: UserRecord): (ok: bool)
    ensures !ok <==> u.hasCreditLimit && u.creditLimit < MinimumCreditLimit
    ensures !u.hasCreditLimit ==> ok
  {
    !(u.hasCreditLimit && u.creditLimit < MinimumCreditLimit)
  }

  /** What AddUser stores for the given inputs, or None when it returns
      false; `client` is the looked-up client and `baseLimit` the credit
      service's answer. */
  function Register(firstName: string, lastName: string, email: string, dateOfBirth: Date,
                    client: Client, baseLimit: int32, now: Date): (r: Option<UserRecord>)
    ensures r.Some? <==>
      ValidateInput(firstName, lastName, email, dateOfBirth, now) &&
      (client.clientType == VeryImportantClientType ||
       (client.clientType == ImportantClientType && Wrap32(2 * baseLimit as int) >= MinimumCreditLimit) ||
       (client.clientType != ImportantClientType && baseLimit >= MinimumCreditLimit))
    ensures r.Some? ==>
      r.value.firstName == firstName && r.value.lastName == lastName &&
      r.value.emailAddress == email && r.value.dateOfBirth == dateOfBirth && r.value.client == client
    ensures r.Some? ==> (r.value.hasCreditLimit <==> client.clientType != VeryImportantClientType)
    ensures r.Some? ==> !r.value.hasCreditLimit || r.value.creditLimit >= MinimumCreditLimit
  {
    if !ValidateInput(firstName, lastName, email, dateOfBirth, now) then None
    else
      var user := ApplyCreditPolicy(NewUserRecord(firstName, lastName, email, dateOfBirth, client), client, baseLimit);
      if !ValidateCreditLimit(user) then None else Some(user)
  }

  /** A user object; SetCreditLimit updates its credit fields in place. */
  class User {
    var firstName: string
    var lastName: string
    var emailAddress: string
    var dateOfBirth: Date
    var client: Client
    var hasCreditLimit: bool
    var creditLimit: int32

    /** The object initialiser of CreateUser; the credit fields keep their
        C# defaults. */
    constructor (firstName: string, lastName: string, email: string, dateOfBirth: Date, client: Client)
      ensures Snapshot() == NewUserRecord(firstName, lastName, email, dateOfBirth, client)
    {
      this.firstName := firstName;
      this.lastName := lastName;
      this.emailAddress := email;
      this.dateOfBirth := dateOfBirth;
      this.client := client;
      this.hasCreditLimit := false;
      this.creditLimit := 0;
    }

    /** The value of this object's fields. */
    function Snapshot(): UserRecord
      reads this
    {
      UserRecord(firstName, lastName, emailAddress, dateOfBirth, client, hasCreditLimit, creditLimit)
    }
  }

  /** The user store: the users handed to it, in order. */
  class UserRepository {
    var users: seq<User>

    constructor ()
      ensures users == []
    {
      users := [];
    }

    method AddUser(user: User)
      modifies this
      ensures users == old(users) + [user]
    {
      users := users + [user];
    }
  }

  class UserService {
    /** Client lookup by id. */
    const clientRepository: int32 -> Client
    const userRepository: UserRepository
    /** The credit service's answer for a (last name, date of birth). */
    const creditService: (string, Date) -> int32

    constructor (clientRepository: int32 -> Client, userRepository: UserRepository,
                 creditService: (string, Date) -> int32)
      ensures this.clientRepository == clientRepository
      ensures this.userRepository == userRepository
      ensures this.creditService == creditService
    {
      this.clientRepository := clientRepository;
      this.userRepository := userRepository;
      this.creditService := creditService;
    }

    method CreateUser(firstName: string, lastName: string, email: string, dateOfBirth: Date, client: Client)
      returns (user: User)
      ensures fresh(user)
      ensures user.Snapshot() == NewUserRecord(firstName, lastName, email, dateOfBirth, client)
    {
      user := new User(firstName, lastName, email, dateOfBirth, client);
    }

    /** Sets the credit fields of `user` by the client's type, consulting
        the credit service only when the client is not very important. */
    method SetCreditLimit(user: User, client: Client)
      modifies user
      ensures user.Snapshot() ==
        ApplyCreditPolicy(old(user.Snapshot()), client, creditService(old(user.lastName), old(user.dateOfBirth)))
    {
      if client.clientType == VeryImportantClientType {
        user.hasCreditLimit := false;
      } else {
        user.hasCreditLimit := true;
        var creditLimit := creditService(user.lastName, user.dateOfBirth);
        if client.clientType == ImportantClientType {
          creditLimit := Wrap32(2 * creditLimit as int);
        }
        user.creditLimit := creditLimit;
      }
    }

    /** Registers a user; true exactly when Register accepts the inputs,
        and then the repository has gained exactly one new user holding
        what Register describes. */
    method AddUser(firstName: string, lastName: string, email: string, dateOfBirth: Date,
                   clientId: int32, now: Date) returns (ok: bool)
      modifies userRepository
      ensures var expected := Register(firstName, lastName, email, dateOfBirth,
                                       clientRepository(clientId), creditService(lastName, dateOfBirth), now);
        && ok == expected.Some?
        && (ok ==>
              |userRepository.users| == |old(userRepository.users)| + 1
              && userRepository.users[..|old(userRepository.users)|] == old(userRepository.users)
              && fresh(userRepository.users[|old(userRepository.users)|])
              && userRepository.users[|old(userRepository.users)|].Snapshot() == expected.value)
        && (!ok ==> userRepository.users == old(userRepository.users))
    {
      if !ValidateInput(firstName, lastName, email, dateOfBirth, now) {
        return false;
      }
      var client := clientRepository(clientId);
      var user := CreateUser(firstName, lastName, email, dateOfBirth, client);
      SetCreditLimit(user, client);
      if !ValidateCreditLimit(user.Snapshot()) {
        return false;
      }
      userRepository.AddUser(user);
      return true;
    }
  }
}
