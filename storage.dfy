/** `DatabaseStorage` of the TypeScript server: the three tables with their
    serial keys, the unique `email` column and the foreign keys to `users`,
    the insert and merge-update operations, and the filter queries. */
module Storage {
  import opened Common
  import opened Schema

  // ---------------------------------------------------------------------------
  // Partial updates (`Partial<InsertX>`): `None` leaves a column as it is.
  // A nullable column's new value is itself an option.

  datatype UserPatch = UserPatch(
    name: Option<string>,
    email: Option<string>,
    phone: Option<Option<string>>,
    bloodGroup: Option<string>,
    location: Option<string>,
    age: Option<int>,
    weight: Option<Option<string>>,
    userType: Option<string>,
    isAvailable: Option<Option<bool>>,
    lastDonation: Option<Option<Timestamp>>,
    medicalConditions: Option<Option<string>>,
    emergencyContact: Option<Option<string>>)

  datatype DonationPatch = DonationPatch(
    donorId: Option<Option<int>>,
    seekerId: Option<Option<int>>,
    bloodGroup: Option<string>,
    amount: Option<Option<string>>,
    donationType: Option<string>,
    location: Option<string>,
    status: Option<string>,
    urgency: Option<string>,
    scheduledDate: Option<Option<Timestamp>>,
    completedDate: Option<Option<Timestamp>>)

  datatype MatchPatch = MatchPatch(
    donorId: Option<Option<int>>,
    seekerId: Option<Option<int>>,
    bloodGroup: Option<string>,
    distance: Option<Option<string>>,
    compatibilityScore: Option<Option<int>>,
    status: Option<string>)

  /** The column value after `set`: the patch's value if it has one. */
  function Pick<T>(p: Option<T>, current: T): (r: T)
    ensures p.None? ==> r == current
    ensures p.Some? ==> r == p.value
  {
    if p.Some? then p.value else current
  }

  /** `{ ...updates, updatedAt: new Date() }` applied to a user row. */
  function MergeUser(u: UserRecord, p: UserPatch, now: Timestamp): (r: UserRecord)
    ensures r.id == u.id && r.createdAt == u.createdAt && r.updatedAt == Some(now)
  {
    u.(name := Pick(p.name, u.name), email := Pick(p.email, u.email), phone := Pick(p.phone, u.phone),
       bloodGroup := Pick(p.bloodGroup, u.bloodGroup), location := Pick(p.location, u.location),
       age := Pick(p.age, u.age), weight := Pick(p.weight, u.weight), userType := Pick(p.userType, u.userType),
       isAvailable := Pick(p.isAvailable, u.isAvailable), lastDonation := Pick(p.lastDonation, u.lastDonation),
       medicalConditions := Pick(p.medicalConditions, u.medicalConditions),
       emergencyContact := Pick(p.emergencyContact, u.emergencyContact), updatedAt := Some(now))
  }

  function MergeDonation(d: DonationRecord, p: DonationPatch, now: Timestamp): (r: DonationRecord)
    ensures r.id == d.id && r.createdAt == d.createdAt && r.updatedAt == Some(now)
  {
    d.(donorId := Pick(p.donorId, d.donorId), seekerId := Pick(p.seekerId, d.seekerId),
       bloodGroup := Pick(p.bloodGroup, d.bloodGroup), amount := Pick(p.amount, d.amount),
       donationType := Pick(p.donationType, d.donationType), location := Pick(p.location, d.location),
       status := Pick(p.status, d.status), urgency := Pick(p.urgency, d.urgency),
       scheduledDate := Pick(p.scheduledDate, d.scheduledDate),
       completedDate := Pick(p.completedDate, d.completedDate), updatedAt := Some(now))
  }

  function MergeMatch(m: MatchRecord, p: MatchPatch, now: Timestamp): (r: MatchRecord)
    ensures r.id == m.id && r.createdAt == m.createdAt && r.updatedAt == Some(now)
  {
    m.(donorId := Pick(p.donorId, m.donorId), seekerId := Pick(p.seekerId, m.seekerId),
       bloodGroup := Pick(p.bloodGroup, m.bloodGroup), distance := Pick(p.distance, m.distance),
       compatibilityScore := Pick(p.compatibilityScore, m.compatibilityScore),
       status := Pick(p.status, m.status), updatedAt := Some(now))
  }

  const EmptyUserPatch := UserPatch(None, None, None, None, None, None, None, None, None, None, None, None)
  const EmptyDonationPatch := DonationPatch(None, None, None, None, None, None, None, None, None, None)
  const EmptyMatchPatch := MatchPatch(None, None, None, None, None, None)

  /** An empty body only refreshes `updatedAt`. */
  lemma {:induction false} MergeEmptyOnlyTouches(u: UserRecord, d: DonationRecord, m: MatchRecord, now: Timestamp)
    ensures MergeUser(u, EmptyUserPatch, now) == u.(updatedAt := Some(now))
    ensures MergeDonation(d, EmptyDonationPatch, now) == d.(updatedAt := Some(now))
    ensures MergeMatch(m, EmptyMatchPatch, now) == m.(updatedAt := Some(now))
  {
  }

  /** Applying the same patch twice is applying it once (at the later time). */
  lemma {:induction false} MergeIdempotent(u: UserRecord, p: UserPatch, t1: Timestamp, t2: Timestamp)
    ensures MergeUser(MergeUser(u, p, t1), p, t2) == MergeUser(u, p, t2)
  {
  }

  /** The email after a patch is the patched one, if any; the stored one otherwise. */
  lemma {:induction false} MergeEmail(u: UserRecord, p: UserPatch, now: Timestamp)
    ensures MergeUser(u, p, now).email == (if p.email.Some? then p.email.value else u.email)
  {
  }

  // ---------------------------------------------------------------------------
  // Table constraints

  predicate UserExists(users: seq<UserRecord>, id: int) {
    exists i :: 0 <= i < |users| && users[i].id == id
  }

  /** `references(() => users.id)`: a null reference, or one naming a stored user. */
  predicate RefOk(users: seq<UserRecord>, ref: Option<int>) {
    ref.None? || UserExists(users, ref.value)
  }

  predicate UsersWellFormed(users: seq<UserRecord>, nextId: int) {
    && (forall i :: 0 <= i < |users| ==> users[i].id < nextId)
    && (forall i, j :: 0 <= i < j < |users| ==> users[i].id != users[j].id && users[i].email != users[j].email)
  }

  predicate DonationsWellFormed(donations: seq<DonationRecord>, nextId: int, users: seq<UserRecord>) {
    && (forall i :: 0 <= i < |donations| ==>
          donations[i].id < nextId && RefOk(users, donations[i].donorId) && RefOk(users, donations[i].seekerId))
    && (forall i, j :: 0 <= i < j < |donations| ==> donations[i].id != donations[j].id)
  }

  predicate MatchesWellFormed(matches: seq<MatchRecord>, nextId: int, users: seq<UserRecord>) {
    && (forall i :: 0 <= i < |matches| ==>
          matches[i].id < nextId && RefOk(users, matches[i].donorId) && RefOk(users, matches[i].seekerId))
    && (forall i, j :: 0 <= i < j < |matches| ==> matches[i].id != matches[j].id)
  }

  /** A user that is stored stays stored when the user table only grows or
      is rewritten with the same keys. */
  lemma RefOkKept(users: seq<UserRecord>, users': seq<UserRecord>, ref: Option<int>)
    requires |users| <= |users'| && forall i :: 0 <= i < |users| ==> users'[i].id == users[i].id
    requires RefOk(users, ref)
    ensures RefOk(users', ref)
  {
    if ref.Some? {
      var i :| 0 <= i < |users| && users[i].id == ref.value;
      assert users'[i].id == ref.value;
    }
  }

  /** Appending a row with the next key and an unused email keeps the user table well formed. */
  lemma UsersWellFormedSnoc(users: seq<UserRecord>, row: UserRecord)
    requires UsersWellFormed(users, row.id) && !EmailTaken(users, row.email, row.id)
    ensures UsersWellFormed(users + [row], row.id + 1)
  {
  }

  /** Rewriting row `k` with its key kept and an email no other row holds
      keeps the user table well formed. */
  lemma UsersWellFormedUpdate(users: seq<UserRecord>, nextId: int, k: nat, row: UserRecord)
    requires UsersWellFormed(users, nextId) && k < |users| && row.id == users[k].id
    requires !EmailTaken(users, row.email, row.id)
    ensures UsersWellFormed(users[k := row], nextId)
  {
  }

  /** Another row already holds this email. */
  predicate EmailTaken(users: seq<UserRecord>, email: string, except: int) {
    exists i :: 0 <= i < |users| && users[i].email == email && users[i].id != except
  }

  function UserHasId(id: int): UserRecord -> bool { (u: UserRecord) => u.id == id }

  function UserHasEmail(email: string): UserRecord -> bool { (u: UserRecord) => u.email == email }

  function DonationHasId(id: int): DonationRecord -> bool { (d: DonationRecord) => d.id == id }

  function MatchHasId(id: int): MatchRecord -> bool { (m: MatchRecord) => m.id == id }

  // ---------------------------------------------------------------------------
  // Queries on the table contents

  /** `getUsersByBloodGroup`: a null `is_available` does not equal true. */
  function UsersByBloodGroup(users: seq<UserRecord>, bloodGroup: string, userType: string): (r: seq<UserRecord>)
    ensures forall u :: u in r <==>
      u in users && u.bloodGroup == bloodGroup && u.userType == userType && u.isAvailable == Some(true)
  {
    Filter(users, (u: UserRecord) => u.bloodGroup == bloodGroup && u.userType == userType && u.isAvailable == Some(true))
  }

  /** `getUsersByLocation`: the location must be equal, not merely contained. */
  function UsersByLocation(users: seq<UserRecord>, location: string, userType: string): (r: seq<UserRecord>)
    ensures forall u :: u in r <==>
      u in users && u.location == location && u.userType == userType && u.isAvailable == Some(true)
  {
    Filter(users, (u: UserRecord) => u.location == location && u.userType == userType && u.isAvailable == Some(true))
  }

  /** The exact-equality location query misses a user whose location only
      contains the searched one. */
  lemma UsersByLocationIsExact()
    ensures var u := UserRecord(1, "Ann", "ann@x", None, "O+", "North London", 30, None, "donor", Some(true),
                                None, None, None, None, None);
            && Contains(u.location, "London")
            && UsersByLocation([u], "London", "donor") == []
  {
    var u := UserRecord(1, "Ann", "ann@x", None, "O+", "North London", 30, None, "donor", Some(true),
                        None, None, None, None, None);
    assert OccursAt(u.location, "London", 6);
    assert u !in UsersByLocation([u], "London", "donor");
  }

  /** `getDonationsByUser`: only the donations the user gives. */
  function DonationsByUser(donations: seq<DonationRecord>, userId: int): (r: seq<DonationRecord>)
    ensures forall d :: d in r <==> d in donations && d.donorId == Some(userId)
  {
    Filter(donations, (d: DonationRecord) => d.donorId == Some(userId))
  }

  /** A donation the user receives is not among the user's donations. */
  lemma DonationsByUserSkipsSeeker(donations: seq<DonationRecord>, d: DonationRecord, userId: int)
    requires d in donations && d.seekerId == Some(userId) && d.donorId != Some(userId)
    ensures d !in DonationsByUser(donations, userId)
  {
  }

  function DonationsByBloodGroup(donations: seq<DonationRecord>, bloodGroup: string): (r: seq<DonationRecord>)
    ensures forall d :: d in r <==> d in donations && d.bloodGroup == bloodGroup
  {
    Filter(donations, (d: DonationRecord) => d.bloodGroup == bloodGroup)
  }

  /** `getMatchesForUser`: only the matches where the user is the donor. */
  function MatchesForUser(matches: seq<MatchRecord>, userId: int): (r: seq<MatchRecord>)
    ensures forall m :: m in r <==> m in matches && m.donorId == Some(userId)
  {
    Filter(matches, (m: MatchRecord) => m.donorId == Some(userId))
  }

  /** `findPotentialMatches`: pending matches of the blood group; `location` is not used. */
  function PotentialMatches(matches: seq<MatchRecord>, bloodGroup: string, location: string): (r: seq<MatchRecord>)
    ensures forall m :: m in r <==> m in matches && m.bloodGroup == bloodGroup && m.status == "pending"
  {
    Filter(matches, (m: MatchRecord) => m.bloodGroup == bloodGroup && m.status == "pending")
  }

  lemma {:induction false} PotentialMatchesIgnoreLocation(matches: seq<MatchRecord>, bloodGroup: string, a: string, b: string)
    ensures PotentialMatches(matches, bloodGroup, a) == PotentialMatches(matches, bloodGroup, b)
  {
  }

  // ---------------------------------------------------------------------------
  // The store

  class DatabaseStorage {
    var users: seq<UserRecord>
    var donations: seq<DonationRecord>
    var matches: seq<MatchRecord>
    var nextUserId: int
    var nextDonationId: int
    var nextMatchId: int

    predicate Valid()
      reads this
    {
      && UsersWellFormed(users, nextUserId)
      && DonationsWellFormed(donations, nextDonationId, users)
      && MatchesWellFormed(matches, nextMatchId, users)
    }

    constructor ()
      ensures Valid() && users == [] && donations == [] && matches == []
      ensures nextUserId == 1 && nextDonationId == 1 && nextMatchId == 1
    {
      users, donations, matches := [], [], [];
      nextUserId, nextDonationId, nextMatchId := 1, 1, 1;
    }

    /** `getUser`: the row with that key, or undefined. */
    function GetUser(id: int): (r: Option<UserRecord>)
      reads this
      ensures r.Some? <==> UserExists(users, id)
      ensures r.Some? ==> r.value in users && r.value.id == id
    {
      FirstWhere(users, UserHasId(id))
    }

    /** `getUserByEmail`: the row with that email, or undefined. */
    function GetUserByEmail(email: string): (r: Option<UserRecord>)
      reads this
      ensures r.Some? <==> exists u :: u in users && u.email == email
      ensures r.Some? ==> r.value in users && r.value.email == email
    {
      FirstWhere(users, UserHasEmail(email))
    }

    /** `createUser`: the serial key is drawn first, so it is spent even when
        the unique email constraint then rejects the row. */
    method CreateUser(ins: InsertUser, now: Timestamp) returns (r: Result<UserRecord>)
      requires Valid()
      modifies this
      ensures Valid() && nextUserId == old(nextUserId) + 1
      ensures donations == old(donations) && matches == old(matches)
      ensures nextDonationId == old(nextDonationId) && nextMatchId == old(nextMatchId)
      ensures old(EmailTaken(users, ins.email, nextUserId)) ==> r.Err? && users == old(users)
      ensures !old(EmailTaken(users, ins.email, nextUserId)) ==>
        r == Ok(UserFromInsert(ins, old(nextUserId), now)) && users == old(users) + [r.value]
      ensures r.Ok? ==> GetUserByEmail(ins.email) == Some(r.value) && GetUser(r.value.id) == Some(r.value)
    {
      var id := nextUserId;
      nextUserId := nextUserId + 1;
      if EmailTaken(users, ins.email, id) {
        return Err("duplicate key value violates unique constraint \"users_email_unique\"");
      }
      var row := UserFromInsert(ins, id, now);
      ghost var before := users;
      UsersWellFormedSnoc(users, row);
      users := users + [row];
      RefsKeptAfterUserChange(before);
      StoredUserFound(|users| - 1);
      r := Ok(row);
    }

    /** `updateUser`: a missing key gives undefined and changes nothing; an
        email held by another user is rejected by the unique constraint;
        otherwise only that row is rewritten, with a fresh `updatedAt`. */
    method UpdateUser(id: int, p: UserPatch, now: Timestamp) returns (r: Result<Option<UserRecord>>)
      requires Valid()
      modifies this
      ensures Valid()
      ensures donations == old(donations) && matches == old(matches)
      ensures nextUserId == old(nextUserId) && nextDonationId == old(nextDonationId) && nextMatchId == old(nextMatchId)
      ensures old(GetUser(id)).None? ==> r == Ok(None) && users == old(users)
      ensures old(GetUser(id)).Some? && old(EmailTaken(users, MergeUser(GetUser(id).value, p, now).email, id)) ==>
        r.Err? && users == old(users)
      ensures old(GetUser(id)).Some? && !old(EmailTaken(users, MergeUser(GetUser(id).value, p, now).email, id)) ==>
        r == Ok(Some(MergeUser(old(GetUser(id)).value, p, now)))
      ensures |users| == |old(users)|
      ensures forall i :: 0 <= i < |users| ==>
        users[i] == (if old(users[i]).id == id && r.Ok? then r.value.value else old(users[i]))
    {
      var found := IndexWhere(users, UserHasId(id));
      if found.None? {
        return Ok(None);
      }
      var k := found.value;
      var row := MergeUser(users[k], p, now);
      if EmailTaken(users, row.email, id) {
        return Err("duplicate key value violates unique constraint \"users_email_unique\"");
      }
      ghost var before := users;
      UsersWellFormedUpdate(users, nextUserId, k, row);
      users := users[k := row];
      RefsKeptAfterUserChange(before);
      r := Ok(Some(row));
    }

    /** `getDonation`. */
    function GetDonation(id: int): (r: Option<DonationRecord>)
      reads this
      ensures r.Some? <==> exists d :: d in donations && d.id == id
      ensures r.Some? ==> r.value in donations && r.value.id == id
    {
      FirstWhere(donations, DonationHasId(id))
    }

    /** `createDonation`: a donor or seeker key naming no user is rejected by
        the foreign key, after the serial key is spent. */
    method CreateDonation(ins: InsertDonation, now: Timestamp) returns (r: Result<DonationRecord>)
      requires Valid()
      modifies this
      ensures Valid() && nextDonationId == old(nextDonationId) + 1
      ensures users == old(users) && matches == old(matches)
      ensures nextUserId == old(nextUserId) && nextMatchId == old(nextMatchId)
      ensures !(RefOk(users, ins.donorId) && RefOk(users, ins.seekerId)) ==> r.Err? && donations == old(donations)
      ensures RefOk(users, ins.donorId) && RefOk(users, ins.seekerId) ==>
        r == Ok(DonationFromInsert(ins, old(nextDonationId), now)) && donations == old(donations) + [r.value]
    {
      var id := nextDonationId;
      nextDonationId := nextDonationId + 1;
      if !RefExists(ins.donorId) || !RefExists(ins.seekerId) {
        return Err("insert or update on table \"donations\" violates foreign key constraint");
      }
      var row := DonationFromInsert(ins, id, now);
      donations := donations + [row];
      r := Ok(row);
    }

    /** `updateDonation`: undefined for a missing key; a patched reference
        naming no user is rejected; otherwise only that row is rewritten. */
    method UpdateDonation(id: int, p: DonationPatch, now: Timestamp) returns (r: Result<Option<DonationRecord>>)
      requires Valid()
      modifies this
      ensures Valid()
      ensures users == old(users) && matches == old(matches)
      ensures nextUserId == old(nextUserId) && nextDonationId == old(nextDonationId) && nextMatchId == old(nextMatchId)
      ensures old(GetDonation(id)).None? ==> r == Ok(None) && donations == old(donations)
      ensures old(GetDonation(id)).Some? ==>
        var merged := MergeDonation(old(GetDonation(id)).value, p, now);
        if RefOk(users, merged.donorId) && RefOk(users, merged.seekerId)
        then r == Ok(Some(merged))
        else r.Err? && donations == old(donations)
      ensures |donations| == |old(donations)|
      ensures forall i :: 0 <= i < |donations| ==>
        donations[i] == (if old(donations[i]).id == id && r.Ok? then r.value.value else old(donations[i]))
    {
      var found := IndexWhere(donations, DonationHasId(id));
      if found.None? {
        return Ok(None);
      }
      var k := found.value;
      var row := MergeDonation(donations[k], p, now);
      if !RefExists(row.donorId) || !RefExists(row.seekerId) {
        return Err("insert or update on table \"donations\" violates foreign key constraint");
      }
      donations := donations[k := row];
      r := Ok(Some(row));
    }

    /** `getDonationsByUser`. */
    function GetDonationsByUser(userId: int): (r: seq<DonationRecord>)
      reads this
      ensures forall d :: d in r <==> d in donations && d.donorId == Some(userId)
    {
      DonationsByUser(donations, userId)
    }

    /** `getDonationsByBloodGroup`. */
    function GetDonationsByBloodGroup(bloodGroup: string): (r: seq<DonationRecord>)
      reads this
      ensures forall d :: d in r <==> d in donations && d.bloodGroup == bloodGroup
    {
      DonationsByBloodGroup(donations, bloodGroup)
    }

    /** `getMatch`. */
    function GetMatch(id: int): (r: Option<MatchRecord>)
      reads this
      ensures r.Some? <==> exists m :: m in matches && m.id == id
      ensures r.Some? ==> r.value in matches && r.value.id == id
    {
      FirstWhere(matches, MatchHasId(id))
    }

    /** `createMatch`: as `createDonation`, for the matches table. */
    method CreateMatch(ins: InsertMatch, now: Timestamp) returns (r: Result<MatchRecord>)
      requires Valid()
      modifies this
      ensures Valid() && nextMatchId == old(nextMatchId) + 1
      ensures users == old(users) && donations == old(donations)
      ensures nextUserId == old(nextUserId) && nextDonationId == old(nextDonationId)
      ensures !(RefOk(users, ins.donorId) && RefOk(users, ins.seekerId)) ==> r.Err? && matches == old(matches)
      ensures RefOk(users, ins.donorId) && RefOk(users, ins.seekerId) ==>
        r == Ok(MatchFromInsert(ins, old(nextMatchId), now)) && matches == old(matches) + [r.value]
    {
      var id := nextMatchId;
      nextMatchId := nextMatchId + 1;
      if !RefExists(ins.donorId) || !RefExists(ins.seekerId) {
        return Err("insert or update on table \"matches\" violates foreign key constraint");
      }
      var row := MatchFromInsert(ins, id, now);
      matches := matches + [row];
      r := Ok(row);
    }

    /** `updateMatch`: as `updateDonation`, for the matches table. */
    method UpdateMatch(id: int, p: MatchPatch, now: Timestamp) returns (r: Result<Option<MatchRecord>>)
      requires Valid()
      modifies this
      ensures Valid()
      ensures users == old(users) && donations == old(donations)
      ensures nextUserId == old(nextUserId) && nextDonationId == old(nextDonationId) && nextMatchId == old(nextMatchId)
      ensures old(GetMatch(id)).None? ==> r == Ok(None) && matches == old(matches)
      ensures old(GetMatch(id)).Some? ==>
        var merged := MergeMatch(old(GetMatch(id)).value, p, now);
        if RefOk(users, merged.donorId) && RefOk(users, merged.seekerId)
        then r == Ok(Some(merged))
        else r.Err? && matches == old(matches)
      ensures |matches| == |old(matches)|
      ensures forall i :: 0 <= i < |matches| ==>
        matches[i] == (if old(matches[i]).id == id && r.Ok? then r.value.value else old(matches[i]))
    {
      var found := IndexWhere(matches, MatchHasId(id));
      if found.None? {
        return Ok(None);
      }
      var k := found.value;
      var row := MergeMatch(matches[k], p, now);
      if !RefExists(row.donorId) || !RefExists(row.seekerId) {
        return Err("insert or update on table \"matches\" violates foreign key constraint");
      }
      matches := matches[k := row];
      r := Ok(Some(row));
    }

    /** `getMatchesForUser`. */
    function GetMatchesForUser(userId: int): (r: seq<MatchRecord>)
      reads this
      ensures forall m :: m in r <==> m in matches && m.donorId == Some(userId)
    {
      MatchesForUser(matches, userId)
    }

    /** `findPotentialMatches`. */
    function FindPotentialMatches(bloodGroup: string, location: string): (r: seq<MatchRecord>)
      reads this
      ensures forall m :: m in r <==> m in matches && m.bloodGroup == bloodGroup && m.status == "pending"
    {
      PotentialMatches(matches, bloodGroup, location)
    }

    /** `getUsersByBloodGroup`. */
    function GetUsersByBloodGroup(bloodGroup: string, userType: string): (r: seq<UserRecord>)
      reads this
      ensures forall u :: u in r <==>
        u in users && u.bloodGroup == bloodGroup && u.userType == userType && u.isAvailable == Some(true)
    {
      UsersByBloodGroup(users, bloodGroup, userType)
    }

    /** `getUsersByLocation`. */
    function GetUsersByLocation(location: string, userType: string): (r: seq<UserRecord>)
      reads this
      ensures forall u :: u in r <==>
        u in users && u.location == location && u.userType == userType && u.isAvailable == Some(true)
    {
      UsersByLocation(users, location, userType)
    }

    // -------------------------------------------------------------------------
    // Helpers

    /** The foreign key check on one reference column. */
    function RefExists(ref: Option<int>): (r: bool)
      reads this
      ensures r <==> RefOk(users, ref)
    {
      ref.None? || exists i :: 0 <= i < |users| && users[i].id == ref.value
    }

    /** Rewriting the user table with the keys kept (and perhaps one row
        more) keeps every donation and match reference valid. */
    lemma RefsKeptAfterUserChange(before: seq<UserRecord>)
      requires |before| <= |users| && forall i :: 0 <= i < |before| ==> users[i].id == before[i].id
      requires DonationsWellFormed(donations, nextDonationId, before)
      requires MatchesWellFormed(matches, nextMatchId, before)
      ensures DonationsWellFormed(donations, nextDonationId, users)
      ensures MatchesWellFormed(matches, nextMatchId, users)
    {
      forall i | 0 <= i < |donations|
        ensures RefOk(users, donations[i].donorId) && RefOk(users, donations[i].seekerId)
      {
        RefOkKept(before, users, donations[i].donorId);
        RefOkKept(before, users, donations[i].seekerId);
      }
      forall i | 0 <= i < |matches|
        ensures RefOk(users, matches[i].donorId) && RefOk(users, matches[i].seekerId)
      {
        RefOkKept(before, users, matches[i].donorId);
        RefOkKept(before, users, matches[i].seekerId);
      }
    }

    /** With unique emails and keys, each stored user is what both lookups find. */
    lemma StoredUserFound(k: nat)
      requires UsersWellFormed(users, nextUserId) && k < |users|
      ensures GetUserByEmail(users[k].email) == Some(users[k])
      ensures GetUser(users[k].id) == Some(users[k])
    {
      var i := IndexWhere(users, UserHasEmail(users[k].email)).value;
      assert i == k;
      var j := IndexWhere(users, UserHasId(users[k].id)).value;
      assert j == k;
    }
  }
}
