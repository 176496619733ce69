/** `UserService`: user registration with a unique email, the field-copying
    update, deletion, and the filtered lookups over the user table. */
module UserService {
  import opened Common
  import opened UserEntity
  import opened UserRepository
  import DonationRepository
  import MatchRepository

  /** The row `updateUser` builds: the eleven copied fields come from the
      details; key, email and both timestamps stay as stored. */
  function CopyDetails(stored: UserRow, details: UserRow): (r: UserRow)
    ensures r == details.(id := stored.id, email := stored.email,
                          createdAt := stored.createdAt, updatedAt := stored.updatedAt)
  {
    stored.(name := details.name, phone := details.phone, bloodGroup := details.bloodGroup,
            location := details.location, age := details.age, weight := details.weight,
            userType := details.userType, isAvailable := details.isAvailable,
            lastDonation := details.lastDonation, medicalConditions := details.medicalConditions,
            emergencyContact := details.emergencyContact)
  }

  /** Copying the stored row's own details changes nothing, so the dirty
      check writes the row back untouched. */
  lemma {:induction false} CopyOwnDetailsIsClean(stored: UserRow, now: Timestamp)
    ensures Flushed(CopyDetails(stored, stored), stored, now) == stored
  {
  }

  class UserService {
    const users: UserTable
    /** The tables the user's one-to-many relations cascade into. */
    const donations: DonationRepository.DonationTable
    const matches: MatchRepository.MatchTable

    constructor (users: UserTable, donations: DonationRepository.DonationTable, matches: MatchRepository.MatchTable)
      ensures this.users == users && this.donations == donations && this.matches == matches
    {
      this.users := users;
      this.donations := donations;
      this.matches := matches;
    }

    predicate Valid()
      reads this, users, donations, matches
    {
      users.Valid() && donations.Valid() && matches.Valid()
    }

    /** `createUser`: a taken email throws and stores nothing; otherwise the
        user is saved with a fresh key and both timestamps. */
    method CreateUser(user: User, now: Timestamp) returns (r: Result<UserRow>)
      requires Valid() && user.id.None?
      modifies users, user
      ensures Valid()
      ensures old(ExistsByEmail(users.rows, user.email)) ==>
        && r == Err("Email already exists")
        && users.rows == old(users.rows) && users.nextId == old(users.nextId)
        && user.Row() == old(user.Row())
      ensures !old(ExistsByEmail(users.rows, user.email)) ==>
        && r == Ok(old(user.Row()).(id := Some(old(users.nextId)), createdAt := Some(now), updatedAt := Some(now)))
        && users.rows == old(users.rows) + [r.value]
        && users.nextId == old(users.nextId) + 1
      ensures r.Ok? ==> FindByEmail(users.rows, r.value.email) == Some(r.value)
    {
      if ExistsByEmail(users.rows, user.email) {
        return Err("Email already exists");
      }
      var saved := users.Insert(user, now);
      FindByEmailOfStored(users.rows, users.nextId, |users.rows| - 1);
      r := Ok(saved);
    }

    /** `updateUser`: a missing key throws "User not found"; otherwise the
        stored row gets the eleven copied fields, keeps its key and email,
        and every other row is left as it was. */
    method UpdateUser(id: int, details: UserRow, now: Timestamp) returns (r: Result<UserRow>)
      requires Valid()
      modifies users
      ensures Valid() && users.nextId == old(users.nextId)
      ensures old(FindById(users.rows, id)).None? ==> r == Err("User not found") && users.rows == old(users.rows)
      ensures old(FindById(users.rows, id)).Some? ==>
        var stored := old(FindById(users.rows, id)).value;
        && r == Ok(Flushed(CopyDetails(stored, details), stored, now))
        && r.value.id == Some(id) && r.value.email == stored.email
      ensures |users.rows| == |old(users.rows)|
      ensures forall i :: 0 <= i < |users.rows| ==>
        users.rows[i] == (if old(users.rows[i]).id == Some(id) then r.value else old(users.rows[i]))
    {
      var found := IndexWhere(users.rows, HasId(id));
      if found.None? {
        return Err("User not found");
      }
      var k := found.value;
      var stored := users.rows[k];
      var e := new User.Load(stored);
      e.SetName(details.name);
      e.SetPhone(details.phone);
      e.SetBloodGroup(details.bloodGroup);
      e.SetLocation(details.location);
      e.SetAge(details.age);
      e.SetWeight(details.weight);
      e.SetUserType(details.userType);
      e.SetIsAvailable(details.isAvailable);
      e.SetLastDonation(details.lastDonation);
      e.SetMedicalConditions(details.medicalConditions);
      e.SetEmergencyContact(details.emergencyContact);
      var saved := users.Update(k, e, now);
      r := Ok(saved);
    }

    /** `deleteUser`: removes the user with that key, if there is one, and
        with it every donation and match it takes part in; nothing else goes. */
    method DeleteUser(id: int)
      requires Valid()
      modifies users, donations, matches
      ensures Valid() && users.nextId == old(users.nextId)
      ensures forall u :: u in users.rows <==> u in old(users.rows) && u.id != Some(id)
      ensures FindById(users.rows, id).None?
      ensures old(FindById(users.rows, id)).Some? ==>
        && (forall d :: d in donations.rows <==>
              d in old(donations.rows) && !DonationRepository.DonorIs(d, id) && !DonationRepository.SeekerIs(d, id))
        && (forall m :: m in matches.rows <==>
              m in old(matches.rows) && !MatchRepository.DonorIs(m, id) && !MatchRepository.SeekerIs(m, id))
      ensures old(FindById(users.rows, id)).None? ==>
        donations.rows == old(donations.rows) && matches.rows == old(matches.rows)
    {
      users.DeleteById(id, donations, matches);
    }

    /** `getUserById`. */
    function GetUserById(id: int): (r: Option<UserRow>)
      reads this, users
      ensures r.Some? <==> exists u :: u in users.rows && u.id == Some(id)
      ensures r.Some? ==> r.value in users.rows && r.value.id == Some(id)
    {
      FindById(users.rows, id)
    }

    /** `getUserByEmail`. */
    function GetUserByEmail(email: string): (r: Option<UserRow>)
      reads this, users
      ensures r.Some? <==> exists u :: u in users.rows && u.email == email
      ensures r.Some? ==> r.value in users.rows && r.value.email == email
    {
      FindByEmail(users.rows, email)
    }

    /** `getUsersByBloodGroupAndType`: available users of that group and type. */
    function GetUsersByBloodGroupAndType(bloodGroup: string, userType: string): (r: seq<UserRow>)
      reads this, users
      ensures forall u :: u in r <==>
        u in users.rows && u.bloodGroup == bloodGroup && u.userType == userType && IsAvailableTrue(u)
    {
      FindAvailableUsersByBloodGroupAndType(users.rows, bloodGroup, userType)
    }

    /** `getUsersByLocationAndType`: case-insensitive substring match on location. */
    function GetUsersByLocationAndType(location: string, userType: string): (r: seq<UserRow>)
      reads this, users
      ensures forall u :: u in r <==>
        u in users.rows && ContainsIgnoreCase(u.location, location) && u.userType == userType && IsAvailableTrue(u)
    {
      FindByLocationContainingIgnoreCaseAndUserTypeAndIsAvailableTrue(users.rows, location, userType)
    }

    /** `getAvailableDonors`. */
    function GetAvailableDonors(bloodGroup: string): (r: seq<UserRow>)
      reads this, users
      ensures forall u :: u in r <==>
        u in users.rows && u.bloodGroup == bloodGroup && u.userType == "donor" && IsAvailableTrue(u)
    {
      FindAvailableUsersByBloodGroupAndType(users.rows, bloodGroup, "donor")
    }

    /** `getAvailableSeekers`. */
    function GetAvailableSeekers(bloodGroup: string): (r: seq<UserRow>)
      reads this, users
      ensures forall u :: u in r <==>
        u in users.rows && u.bloodGroup == bloodGroup && u.userType == "seeker" && IsAvailableTrue(u)
    {
      FindAvailableUsersByBloodGroupAndType(users.rows, bloodGroup, "seeker")
    }
  }
}
