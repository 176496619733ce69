/** The `User` JPA entity of the Java backend: its persisted state, its bean
    validation constraints, the `UserDetails` accessors, and the mutable
    entity object with its constructors, lifecycle callbacks and setters. */
module UserEntity {
  import opened Common

  /** The persisted state of a user. The string columns that validation
      requires to be non-blank are plain strings, with "" standing for null;
      the other nullable columns are options. */
  datatype UserRow = UserRow(
    id: Option<int>,
    name: string,
    email: string,
    phone: Option<string>,
    bloodGroup: string,
    location: string,
    age: Option<int>,
    weight: Option<real>,
    userType: string,
    isAvailable: Option<bool>,
    lastDonation: Option<Timestamp>,
    medicalConditions: Option<string>,
    emergencyContact: Option<string>,
    createdAt: Option<Timestamp>,
    updatedAt: Option<Timestamp>)

  /** The state `new User()` leaves: nothing set except `isAvailable`, whose initialiser is `true`. */
  function BlankUser(): (u: UserRow)
    ensures u.id.None? && u.age.None? && u.createdAt.None? && u.updatedAt.None?
    ensures u.isAvailable == Some(true)
  {
    UserRow(None, "", "", None, "", "", None, None, "", Some(true), None, None, None, None, None)
  }

  /** The state the six-argument constructor leaves. */
  function NewUser(name: string, email: string, bloodGroup: string, location: string,
                   age: Option<int>, userType: string, now: Timestamp): UserRow
  {
    BlankUser().(name := name, email := email, bloodGroup := bloodGroup, location := location,
                 age := age, userType := userType, createdAt := Some(now), updatedAt := Some(now))
  }

  /** The bean validation constraints on the entity's fields (`@Email` is not
      modelled). `@Size` measures the name as `String.length()` does. */
  predicate IsValid(u: UserRow) {
    && NotBlank(u.name) && 2 <= Utf16Length(u.name) <= 100
    && NotBlank(u.email)
    && NotBlank(u.bloodGroup)
    && NotBlank(u.location)
    && u.age.Some? && 18 <= u.age.value <= 65
    && (u.weight.Some? ==> u.weight.value >= 45.0)
    && NotBlank(u.userType)
  }

  /** A user built by the six-argument constructor is valid exactly when the
      given fields meet their constraints; the unset weight never violates one. */
  lemma NewUserValidity(name: string, email: string, bloodGroup: string, location: string,
                        age: Option<int>, userType: string, now: Timestamp)
    ensures IsValid(NewUser(name, email, bloodGroup, location, age, userType, now)) <==>
      (NotBlank(name) && 2 <= Utf16Length(name) <= 100 && NotBlank(email) && NotBlank(bloodGroup)
       && NotBlank(location) && age.Some? && 18 <= age.value <= 65 && NotBlank(userType))
  {
  }

  /** A name of one emoji is two code units long, so the constraint accepts it. */
  lemma AstralNameValid(now: Timestamp)
    ensures IsValid(NewUser("\U{1F600}", "ann@x", "O+", "Leeds", Some(30), "donor", now))
  {
    AstralCountsTwice();
    assert !Trimmable("\U{1F600}"[0]) && !Trimmable("ann@x"[0]) && !Trimmable("O+"[0]);
    assert !Trimmable("Leeds"[0]) && !Trimmable("donor"[0]);
  }

  /** `isEnabled`: the availability flag, with a null flag counting as enabled. */
  function IsEnabled(u: UserRow): (r: bool)
    ensures r <==> u.isAvailable != Some(false)
  {
    match u.isAvailable
    case Some(b) => b
    case None => true
  }

  /** `getUsername`: users log in by email. */
  function Username(u: UserRow): (r: string)
    ensures r == u.email
  {
    u.email
  }

  /** `getPassword`: no password is stored. */
  function Password(u: UserRow): (r: Option<string>)
    ensures r.None?
  {
    None
  }

  /** The entity object. `Row()` is the state a save writes to the table. */
  class User {
    var id: Option<int>
    var name: string
    var email: string
    var phone: Option<string>
    var bloodGroup: string
    var location: string
    var age: Option<int>
    var weight: Option<real>
    var userType: string
    var isAvailable: Option<bool>
    var lastDonation: Option<Timestamp>
    var medicalConditions: Option<string>
    var emergencyContact: Option<string>
    var createdAt: Option<Timestamp>
    var updatedAt: Option<Timestamp>

    function Row(): UserRow
      reads this
    {
      UserRow(id, name, email, phone, bloodGroup, location, age, weight, userType, isAvailable,
              lastDonation, medicalConditions, emergencyContact, createdAt, updatedAt)
    }

    /** `new User()`. */
    constructor ()
      ensures Row() == BlankUser()
    {
      id, name, email, phone := None, "", "", None;
      bloodGroup, location, age, weight, userType := "", "", None, None, "";
      isAvailable := Some(true);
      lastDonation, medicalConditions, emergencyContact := None, None, None;
      createdAt, updatedAt := None, None;
    }

    /** The six-argument constructor: the given fields and both timestamps. */
    constructor Create(name: string, email: string, bloodGroup: string, location: string,
                       age: Option<int>, userType: string, now: Timestamp)
      ensures Row() == NewUser(name, email, bloodGroup, location, age, userType, now)
    {
      this.id, this.phone, this.weight := None, None, None;
      this.name, this.email, this.bloodGroup, this.location := name, email, bloodGroup, location;
      this.age, this.userType := age, userType;
      this.isAvailable := Some(true);
      this.lastDonation, this.medicalConditions, this.emergencyContact := None, None, None;
      this.createdAt, this.updatedAt := Some(now), Some(now);
    }

    /** The entity a repository lookup materialises from a stored row. */
    constructor Load(r: UserRow)
      ensures Row() == r
    {
      id, name, email, phone := r.id, r.name, r.email, r.phone;
      bloodGroup, location, age, weight := r.bloodGroup, r.location, r.age, r.weight;
      userType, isAvailable, lastDonation := r.userType, r.isAvailable, r.lastDonation;
      medicalConditions, emergencyContact := r.medicalConditions, r.emergencyContact;
      createdAt, updatedAt := r.createdAt, r.updatedAt;
    }

    /** `@PrePersist onCreate`: both timestamps, nothing else. */
    method OnCreate(now: Timestamp)
      modifies this
      ensures Row() == old(Row()).(createdAt := Some(now), updatedAt := Some(now))
    {
      createdAt := Some(now);
      updatedAt := Some(now);
    }

    /** `@PreUpdate onUpdate`: only `updatedAt`. */
    method OnUpdate(now: Timestamp)
      modifies this
      ensures Row() == old(Row()).(updatedAt := Some(now))
    {
      updatedAt := Some(now);
    }

    method SetId(v: Option<int>)
      modifies this
      ensures Row() == old(Row()).(id := v)
    { id := v; }

    method SetName(v: string)
      modifies this
      ensures Row() == old(Row()).(name := v)
    { name := v; }

    method SetEmail(v: string)
      modifies this
      ensures Row() == old(Row()).(email := v)
    { email := v; }

    method SetPhone(v: Option<string>)
      modifies this
      ensures Row() == old(Row()).(phone := v)
    { phone := v; }

    method SetBloodGroup(v: string)
      modifies this
      ensures Row() == old(Row()).(bloodGroup := v)
    { bloodGroup := v; }

    method SetLocation(v: string)
      modifies this
      ensures Row() == old(Row()).(location := v)
    { location := v; }

    method SetAge(v: Option<int>)
      modifies this
      ensures Row() == old(Row()).(age := v)
    { age := v; }

    method SetWeight(v: Option<real>)
      modifies this
      ensures Row() == old(Row()).(weight := v)
    { weight := v; }

    method SetUserType(v: string)
      modifies this
      ensures Row() == old(Row()).(userType := v)
    { userType := v; }

    method SetIsAvailable(v: Option<bool>)
      modifies this
      ensures Row() == old(Row()).(isAvailable := v)
    { isAvailable := v; }

    method SetLastDonation(v: Option<Timestamp>)
      modifies this
      ensures Row() == old(Row()).(lastDonation := v)
    { lastDonation := v; }

    method SetMedicalConditions(v: Option<string>)
      modifies this
      ensures Row() == old(Row()).(medicalConditions := v)
    { medicalConditions := v; }

    method SetEmergencyContact(v: Option<string>)
      modifies this
      ensures Row() == old(Row()).(emergencyContact := v)
    { emergencyContact := v; }

    method SetCreatedAt(v: Option<Timestamp>)
      modifies this
      ensures Row() == old(Row()).(createdAt := v)
    { createdAt := v; }

    method SetUpdatedAt(v: Option<Timestamp>)
      modifies this
      ensures Row() == old(Row()).(updatedAt := v)
    { updatedAt := v; }
  }
}
