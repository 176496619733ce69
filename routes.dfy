/** The Express routes of the TypeScript server: how each handler turns a
    request and the store's answer into a status code and a JSON body. */
module Routes {
  import opened Common
  import opened Schema
  import opened Storage

  datatype Body =
    | UserBody(user: UserRecord)
    | DonationBody(donation: DonationRecord)
    | MatchBody(matchRow: MatchRecord)
    | UsersBody(users: seq<UserRecord>)
    | DonationsBody(donations: seq<DonationRecord>)
    | MatchesBody(matches: seq<MatchRecord>)
    | ErrorBody(error: string)
    | AuthBody(user: UserRecord, token: string)

  datatype Response = Response(status: int, body: Body)

  /** The token both auth routes send; the user's password field is dropped,
      and a stored row has none to drop. */
  const MockToken := "mock-jwt-token"

  // ---------------------------------------------------------------------------
  // `parseInt` on a path parameter

  /** The white space `parseInt` skips: ECMAScript's WhiteSpace (tab, vertical
      tab, form feed, the byte order mark and every space separator) and its
      LineTerminator characters. */
  predicate JsSpace(c: char) {
    c == ' ' || c == '\t' || c == '\n' || c == '\r' || c == '\U{B}' || c == '\U{C}'
    || c == '\U{A0}' || c == '\U{1680}' || ('\U{2000}' <= c <= '\U{200A}')
    || c == '\U{2028}' || c == '\U{2029}' || c == '\U{202F}' || c == '\U{205F}'
    || c == '\U{3000}' || c == '\U{FEFF}'
  }

  function SkipSpace(s: string): (r: string)
    ensures |r| <= |s| && (r == [] || !JsSpace(r[0]))
  {
    if s != [] && JsSpace(s[0]) then SkipSpace(s[1..]) else s
  }

  /** The number of leading decimal digits. */
  function DigitRun(s: string): (n: nat)
    ensures n <= |s| && forall i :: 0 <= i < n ==> IsDigit(s[i])
    ensures n < |s| ==> !IsDigit(s[n])
  {
    if s != [] && IsDigit(s[0]) then 1 + DigitRun(s[1..]) else 0
  }

  /** The text after an optional sign. */
  function Unsigned(t: string): (r: string)
    ensures |r| <= |t|
  {
    if t != [] && (t[0] == '-' || t[0] == '+') then t[1..] else t
  }

  /** The value of the leading run of digits, if there is one. */
  function LeadingNumber(body: string): (r: Option<nat>)
    ensures r.Some? <==> body != [] && IsDigit(body[0])
  {
    var n := DigitRun(body);
    if n == 0 then None else Some(ParseDigits(body[..n]))
  }

  /** `parseInt(s)` with no radix, on decimal text: white space, an optional
      sign, then the longest run of digits; no digit at all is `NaN` (None). */
  function ParseInt(s: string): (r: Option<int>)
    ensures r.Some? <==> LeadingNumber(Unsigned(SkipSpace(s))).Some?
  {
    var t := SkipSpace(s);
    match LeadingNumber(Unsigned(t))
    case None => None
    case Some(m) => Some(if t != [] && t[0] == '-' then -(m as int) else m as int)
  }

  lemma {:induction false} DigitRunAll(s: string)
    requires forall i :: 0 <= i < |s| ==> IsDigit(s[i])
    ensures DigitRun(s) == |s|
  {
    if s != [] {
      DigitRunAll(s[1..]);
    }
  }

  /** A run of digits alone is read whole. */
  lemma LeadingNumberAll(digits: string)
    requires digits != [] && forall i :: 0 <= i < |digits| ==> IsDigit(digits[i])
    ensures LeadingNumber(digits) == Some(ParseDigits(digits))
  {
    DigitRunAll(digits);
    assert digits[..|digits|] == digits;
  }

  /** A run of digits is read back whole. */
  lemma ParseIntOfDigits(digits: string)
    requires digits != [] && forall i :: 0 <= i < |digits| ==> IsDigit(digits[i])
    ensures ParseInt(digits) == Some(ParseDigits(digits) as int)
  {
    LeadingNumberAll(digits);
    var c := digits[0];
    assert IsDigit(c);
    assert !JsSpace(c) && c != '-' && c != '+';
    assert SkipSpace(digits) == digits;
    assert Unsigned(digits) == digits;
  }

  /** A leading minus sign negates the number that follows it. */
  lemma ParseIntMinus(s: string, m: nat)
    requires s != [] && s[0] == '-' && LeadingNumber(s[1..]) == Some(m)
    ensures ParseInt(s) == Some(-(m as int))
  {
    assert !JsSpace(s[0]);
    assert SkipSpace(s) == s;
    assert Unsigned(s) == s[1..];
  }

  /** A minus sign and a run of digits are read back as the negated number. */
  lemma ParseIntOfNegated(s: string, digits: string)
    requires digits != [] && forall i :: 0 <= i < |digits| ==> IsDigit(digits[i])
    requires s == "-" + digits
    ensures ParseInt(s) == Some(-(ParseDigits(digits) as int))
  {
    LeadingNumberAll(digits);
    assert s[1..] == digits;
    ParseIntMinus(s, ParseDigits(digits));
  }

  /** An id written out in decimal is read back by `parseInt`. */
  lemma ParseIntRoundTrip(id: int)
    ensures ParseInt(IntToString(id)) == Some(id)
  {
    var m: nat := if id < 0 then -id else id;
    ParseNatToString(m);
    if id < 0 {
      ParseIntOfNegated(IntToString(id), NatToString(m));
    } else {
      ParseIntOfDigits(NatToString(m));
    }
  }

  /** A parameter with no digits is `NaN`; the query then fails in the database. */
  lemma ParseIntRejects()
    ensures ParseInt("abc") == None && ParseInt("") == None && ParseInt(" -x") == None
    ensures ParseInt("12abc") == Some(12)
  {
    assert SkipSpace("abc") == "abc";
    assert SkipSpace(" -x") == "-x" && Unsigned("-x") == "x";
    var s := "12abc";
    assert SkipSpace(s) == s && Unsigned(s) == s;
    assert DigitRun(s[2..]) == 0;
    assert DigitRun(s) == 2;
    assert s[..2] == "12" && "12"[..1] == "1" && "1"[..0] == [];
    assert ParseDigits("1") == 1;
    assert ParseDigits("12") == 12;
    assert LeadingNumber(s) == Some(12);
  }

  /** PostgreSQL's `integer`, the type of every key column. */
  predicate Int4(n: int) {
    -0x8000_0000 <= n < 0x8000_0000
  }

  /** The key a path parameter selects: `None` when `parseInt` gives `NaN` or
      a number outside `integer`, where the query fails and the handler's
      catch answers 500. */
  function Key(param: string): (r: Option<int>)
    ensures r.Some? <==> ParseInt(param).Some? && Int4(ParseInt(param).value)
    ensures r.Some? ==> r.value == ParseInt(param).value
  {
    match ParseInt(param)
    case None => None
    case Some(n) => if Int4(n) then Some(n) else None
  }

  /** The decimal text of any id selects that id when the column can hold
      it, and fails like `NaN` when it cannot ("3000000000", say). */
  lemma KeyRoundTrip(id: int)
    ensures Key(IntToString(id)) == (if Int4(id) then Some(id) else None)
  {
    ParseIntRoundTrip(id);
  }

  // ---------------------------------------------------------------------------
  // The handlers

  class Routes {
    const storage: DatabaseStorage

    constructor (storage: DatabaseStorage)
      ensures this.storage == storage
    {
      this.storage := storage;
    }

    /** GET /api/users/:id: 404 when storage finds nothing, 500 when the
        parameter is not a number. */
    function GetUserRoute(param: string): (r: Response)
      reads this, storage
      ensures Key(param).None? ==> r == Response(500, ErrorBody("Failed to fetch user"))
      ensures Key(param).Some? && !UserExists(storage.users, Key(param).value) ==>
        r == Response(404, ErrorBody("User not found"))
      ensures r.status == 200 <==> Key(param).Some? && UserExists(storage.users, Key(param).value)
      ensures r.status == 200 ==> r.body.UserBody? && r.body.user in storage.users && r.body.user.id == Key(param).value
    {
      match Key(param)
      case None => Response(500, ErrorBody("Failed to fetch user"))
      case Some(id) =>
        match storage.GetUser(id)
        case None => Response(404, ErrorBody("User not found"))
        case Some(u) => Response(200, UserBody(u))
    }

    /** POST /api/users: 400 when the body fails the insert schema, 500 when
        the insert fails (a taken email), 201 with the stored row otherwise. */
    method PostUserRoute(body: JsonObject, now: Timestamp) returns (r: Response)
      requires storage.Valid()
      modifies storage
      ensures storage.Valid()
      ensures ParseInsertUser(body).Err? ==>
        r == Response(400, ErrorBody("Invalid user data")) && storage.users == old(storage.users)
      ensures ParseInsertUser(body).Ok? && old(EmailTaken(storage.users, body["email"].s, storage.nextUserId)) ==>
        r == Response(500, ErrorBody("Failed to create user")) && storage.users == old(storage.users)
      ensures ParseInsertUser(body).Ok? && !old(EmailTaken(storage.users, body["email"].s, storage.nextUserId)) ==>
        var row := UserFromInsert(ParseInsertUser(body).value, old(storage.nextUserId), now);
        r == Response(201, UserBody(row)) && storage.users == old(storage.users) + [row]
      ensures storage.nextUserId == old(storage.nextUserId) + (if ParseInsertUser(body).Ok? then 1 else 0)
      ensures storage.donations == old(storage.donations) && storage.matches == old(storage.matches)
      ensures storage.nextDonationId == old(storage.nextDonationId) && storage.nextMatchId == old(storage.nextMatchId)
    {
      var parsed := ParseInsertUser(body);
      if parsed.Err? {
        return Response(400, ErrorBody("Invalid user data"));
      }
      var created := storage.CreateUser(parsed.value, now);
      if created.Err? {
        return Response(500, ErrorBody("Failed to create user"));
      }
      r := Response(201, UserBody(created.value));
    }

    /** PUT /api/users/:id: the body's fields are merged into the row. */
    method PutUserRoute(param: string, updates: UserPatch, now: Timestamp) returns (r: Response)
      requires storage.Valid()
      modifies storage
      ensures storage.Valid()
      ensures Key(param).None? ==>
        r == Response(500, ErrorBody("Failed to update user")) && storage.users == old(storage.users)
      ensures Key(param).Some? && !old(UserExists(storage.users, Key(param).value)) ==>
        r == Response(404, ErrorBody("User not found")) && storage.users == old(storage.users)
      ensures Key(param).Some? && old(storage.GetUser(Key(param).value)).Some? ==>
        var merged := MergeUser(old(storage.GetUser(Key(param).value)).value, updates, now);
        if old(EmailTaken(storage.users, merged.email, Key(param).value))
        then r == Response(500, ErrorBody("Failed to update user"))
        else r == Response(200, UserBody(merged))
      ensures r.status != 200 ==> storage.users == old(storage.users)
      ensures |storage.users| == |old(storage.users)|
      ensures r.status == 200 ==> forall i :: 0 <= i < |storage.users| ==>
        storage.users[i] == (if old(storage.users[i]).id == Key(param).value then r.body.user else old(storage.users[i]))
      ensures storage.donations == old(storage.donations) && storage.matches == old(storage.matches)
      ensures storage.nextUserId == old(storage.nextUserId) && storage.nextDonationId == old(storage.nextDonationId)
      ensures storage.nextMatchId == old(storage.nextMatchId)
    {
      var id := Key(param);
      if id.None? {
        return Response(500, ErrorBody("Failed to update user"));
      }
      var updated := storage.UpdateUser(id.value, updates, now);
      if updated.Err? {
        return Response(500, ErrorBody("Failed to update user"));
      }
      if updated.value.None? {
        return Response(404, ErrorBody("User not found"));
      }
      r := Response(200, UserBody(updated.value.value));
    }

    /** GET /api/users/blood-group/:bloodGroup/:userType. */
    function UsersByBloodGroupRoute(bloodGroup: string, userType: string): (r: Response)
      reads this, storage
      ensures r.status == 200 && r.body.UsersBody?
      ensures forall u :: u in r.body.users <==>
        u in storage.users && u.bloodGroup == bloodGroup && u.userType == userType && u.isAvailable == Some(true)
    {
      Response(200, UsersBody(storage.GetUsersByBloodGroup(bloodGroup, userType)))
    }

    /** GET /api/users/location/:location/:userType. */
    function UsersByLocationRoute(location: string, userType: string): (r: Response)
      reads this, storage
      ensures r.status == 200 && r.body.UsersBody?
      ensures forall u :: u in r.body.users <==>
        u in storage.users && u.location == location && u.userType == userType && u.isAvailable == Some(true)
    {
      Response(200, UsersBody(storage.GetUsersByLocation(location, userType)))
    }

    /** GET /api/donations/:id. */
    function GetDonationRoute(param: string): (r: Response)
      reads this, storage
      ensures Key(param).None? ==> r == Response(500, ErrorBody("Failed to fetch donation"))
      ensures r.status == 200 <==>
        Key(param).Some? && exists d :: d in storage.donations && d.id == Key(param).value
      ensures Key(param).Some? && r.status != 200 ==> r == Response(404, ErrorBody("Donation not found"))
      ensures r.status == 200 ==> r.body.DonationBody? && r.body.donation in storage.donations
    {
      match Key(param)
      case None => Response(500, ErrorBody("Failed to fetch donation"))
      case Some(id) =>
        match storage.GetDonation(id)
        case None => Response(404, ErrorBody("Donation not found"))
        case Some(d) => Response(200, DonationBody(d))
    }

    /** POST /api/donations: 400 on a schema failure, 500 when a reference
        names no user, 201 with the stored row otherwise. */
    method PostDonationRoute(body: JsonObject, now: Timestamp) returns (r: Response)
      requires storage.Valid()
      modifies storage
      ensures storage.Valid()
      ensures ParseInsertDonation(body).Err? ==>
        r == Response(400, ErrorBody("Invalid donation data")) && storage.donations == old(storage.donations)
      ensures ParseInsertDonation(body).Ok? ==>
        var ins := ParseInsertDonation(body).value;
        if RefOk(storage.users, ins.donorId) && RefOk(storage.users, ins.seekerId)
        then
          var row := DonationFromInsert(ins, old(storage.nextDonationId), now);
          r == Response(201, DonationBody(row)) && storage.donations == old(storage.donations) + [row]
        else r == Response(500, ErrorBody("Failed to create donation")) && storage.donations == old(storage.donations)
      ensures storage.nextDonationId == old(storage.nextDonationId) + (if ParseInsertDonation(body).Ok? then 1 else 0)
      ensures storage.users == old(storage.users) && storage.matches == old(storage.matches)
      ensures storage.nextUserId == old(storage.nextUserId) && storage.nextMatchId == old(storage.nextMatchId)
    {
      var parsed := ParseInsertDonation(body);
      if parsed.Err? {
        return Response(400, ErrorBody("Invalid donation data"));
      }
      var created := storage.CreateDonation(parsed.value, now);
      if created.Err? {
        return Response(500, ErrorBody("Failed to create donation"));
      }
      r := Response(201, DonationBody(created.value));
    }

    /** PUT /api/donations/:id. */
    method PutDonationRoute(param: string, updates: DonationPatch, now: Timestamp) returns (r: Response)
      requires storage.Valid()
      modifies storage
      ensures storage.Valid()
      ensures Key(param).None? ==>
        r == Response(500, ErrorBody("Failed to update donation")) && storage.donations == old(storage.donations)
      ensures Key(param).Some? && old(storage.GetDonation(Key(param).value)).None? ==>
        r == Response(404, ErrorBody("Donation not found")) && storage.donations == old(storage.donations)
      ensures Key(param).Some? && old(storage.GetDonation(Key(param).value)).Some? ==>
        var merged := MergeDonation(old(storage.GetDonation(Key(param).value)).value, updates, now);
        if RefOk(storage.users, merged.donorId) && RefOk(storage.users, merged.seekerId)
        then r == Response(200, DonationBody(merged))
        else r == Response(500, ErrorBody("Failed to update donation"))
      ensures r.status != 200 ==> storage.donations == old(storage.donations)
      ensures |storage.donations| == |old(storage.donations)|
      ensures r.status == 200 ==> forall i :: 0 <= i < |storage.donations| ==>
        storage.donations[i] == (if old(storage.donations[i]).id == Key(param).value then r.body.donation else old(storage.donations[i]))
      ensures storage.users == old(storage.users) && storage.matches == old(storage.matches)
      ensures storage.nextUserId == old(storage.nextUserId) && storage.nextDonationId == old(storage.nextDonationId)
      ensures storage.nextMatchId == old(storage.nextMatchId)
    {
      var id := Key(param);
      if id.None? {
        return Response(500, ErrorBody("Failed to update donation"));
      }
      var updated := storage.UpdateDonation(id.value, updates, now);
      if updated.Err? {
        return Response(500, ErrorBody("Failed to update donation"));
      }
      if updated.value.None? {
        return Response(404, ErrorBody("Donation not found"));
      }
      r := Response(200, DonationBody(updated.value.value));
    }

    /** GET /api/donations/user/:userId: the donations the user gives. */
    function DonationsByUserRoute(param: string): (r: Response)
      reads this, storage
      ensures Key(param).None? ==> r == Response(500, ErrorBody("Failed to fetch user donations"))
      ensures Key(param).Some? ==>
        && r.status == 200 && r.body.DonationsBody?
        && (forall d :: d in r.body.donations <==> d in storage.donations && d.donorId == Key(param))
    {
      match Key(param)
      case None => Response(500, ErrorBody("Failed to fetch user donations"))
      case Some(id) => Response(200, DonationsBody(storage.GetDonationsByUser(id)))
    }

    /** GET /api/donations/blood-group/:bloodGroup. */
    function DonationsByBloodGroupRoute(bloodGroup: string): (r: Response)
      reads this, storage
      ensures r.status == 200 && r.body.DonationsBody?
      ensures forall d :: d in r.body.donations <==> d in storage.donations && d.bloodGroup == bloodGroup
    {
      Response(200, DonationsBody(storage.GetDonationsByBloodGroup(bloodGroup)))
    }

    /** GET /api/matches/:id. */
    function GetMatchRoute(param: string): (r: Response)
      reads this, storage
      ensures Key(param).None? ==> r == Response(500, ErrorBody("Failed to fetch match"))
      ensures r.status == 200 <==>
        Key(param).Some? && exists m :: m in storage.matches && m.id == Key(param).value
      ensures Key(param).Some? && r.status != 200 ==> r == Response(404, ErrorBody("Match not found"))
      ensures r.status == 200 ==> r.body.MatchBody? && r.body.matchRow in storage.matches
    {
      match Key(param)
      case None => Response(500, ErrorBody("Failed to fetch match"))
      case Some(id) =>
        match storage.GetMatch(id)
        case None => Response(404, ErrorBody("Match not found"))
        case Some(m) => Response(200, MatchBody(m))
    }

    /** POST /api/matches. */
    method PostMatchRoute(body: JsonObject, now: Timestamp) returns (r: Response)
      requires storage.Valid()
      modifies storage
      ensures storage.Valid()
      ensures ParseInsertMatch(body).Err? ==>
        r == Response(400, ErrorBody("Invalid match data")) && storage.matches == old(storage.matches)
      ensures ParseInsertMatch(body).Ok? ==>
        var ins := ParseInsertMatch(body).value;
        if RefOk(storage.users, ins.donorId) && RefOk(storage.users, ins.seekerId)
        then
          var row := MatchFromInsert(ins, old(storage.nextMatchId), now);
          r == Response(201, MatchBody(row)) && storage.matches == old(storage.matches) + [row]
        else r == Response(500, ErrorBody("Failed to create match")) && storage.matches == old(storage.matches)
      ensures storage.nextMatchId == old(storage.nextMatchId) + (if ParseInsertMatch(body).Ok? then 1 else 0)
      ensures storage.users == old(storage.users) && storage.donations == old(storage.donations)
      ensures storage.nextUserId == old(storage.nextUserId) && storage.nextDonationId == old(storage.nextDonationId)
    {
      var parsed := ParseInsertMatch(body);
      if parsed.Err? {
        return Response(400, ErrorBody("Invalid match data"));
      }
      var created := storage.CreateMatch(parsed.value, now);
      if created.Err? {
        return Response(500, ErrorBody("Failed to create match"));
      }
      r := Response(201, MatchBody(created.value));
    }

    /** PUT /api/matches/:id. */
    method PutMatchRoute(param: string, updates: MatchPatch, now: Timestamp) returns (r: Response)
      requires storage.Valid()
      modifies storage
      ensures storage.Valid()
      ensures Key(param).None? ==>
        r == Response(500, ErrorBody("Failed to update match")) && storage.matches == old(storage.matches)
      ensures Key(param).Some? && old(storage.GetMatch(Key(param).value)).None? ==>
        r == Response(404, ErrorBody("Match not found")) && storage.matches == old(storage.matches)
      ensures Key(param).Some? && old(storage.GetMatch(Key(param).value)).Some? ==>
        var merged := MergeMatch(old(storage.GetMatch(Key(param).value)).value, updates, now);
        if RefOk(storage.users, merged.donorId) && RefOk(storage.users, merged.seekerId)
        then r == Response(200, MatchBody(merged))
        else r == Response(500, ErrorBody("Failed to update match"))
      ensures r.status != 200 ==> storage.matches == old(storage.matches)
      ensures |storage.matches| == |old(storage.matches)|
      ensures r.status == 200 ==> forall i :: 0 <= i < |storage.matches| ==>
        storage.matches[i] == (if old(storage.matches[i]).id == Key(param).value then r.body.matchRow else old(storage.matches[i]))
      ensures storage.users == old(storage.users) && storage.donations == old(storage.donations)
      ensures storage.nextUserId == old(storage.nextUserId) && storage.nextDonationId == old(storage.nextDonationId)
      ensures storage.nextMatchId == old(storage.nextMatchId)
    {
      var id := Key(param);
      if id.None? {
        return Response(500, ErrorBody("Failed to update match"));
      }
      var updated := storage.UpdateMatch(id.value, updates, now);
      if updated.Err? {
        return Response(500, ErrorBody("Failed to update match"));
      }
      if updated.value.None? {
        return Response(404, ErrorBody("Match not found"));
      }
      r := Response(200, MatchBody(updated.value.value));
    }

    /** GET /api/matches/user/:userId: the matches where the user is the donor. */
    function MatchesForUserRoute(param: string): (r: Response)
      reads this, storage
      ensures Key(param).None? ==> r == Response(500, ErrorBody("Failed to fetch user matches"))
      ensures Key(param).Some? ==>
        && r.status == 200 && r.body.MatchesBody?
        && (forall m :: m in r.body.matches <==> m in storage.matches && m.donorId == Key(param))
    {
      match Key(param)
      case None => Response(500, ErrorBody("Failed to fetch user matches"))
      case Some(id) => Response(200, MatchesBody(storage.GetMatchesForUser(id)))
    }

    /** GET /api/matches/find/:bloodGroup/:location. */
    function FindMatchesRoute(bloodGroup: string, location: string): (r: Response)
      reads this, storage
      ensures r.status == 200 && r.body.MatchesBody?
      ensures forall m :: m in r.body.matches <==>
        m in storage.matches && m.bloodGroup == bloodGroup && m.status == "pending"
    {
      Response(200, MatchesBody(storage.FindPotentialMatches(bloodGroup, location)))
    }

    /** POST /api/auth/login: an unknown email is unauthorised; a known one
        succeeds, and the password is never looked at. */
    function LoginRoute(email: string, password: string): (r: Response)
      reads this, storage
      ensures !(exists u :: u in storage.users && u.email == email) ==> r == Response(401, ErrorBody("Invalid credentials"))
      ensures r.status == 200 <==> exists u :: u in storage.users && u.email == email
      ensures r.status == 200 ==>
        r.body.AuthBody? && r.body.user in storage.users && r.body.user.email == email && r.body.token == MockToken
    {
      match storage.GetUserByEmail(email)
      case None => Response(401, ErrorBody("Invalid credentials"))
      case Some(u) => Response(200, AuthBody(u, MockToken))
    }

    /** POST /api/auth/register: 400 on a schema failure or an email already
        registered (nothing is stored); otherwise 201 with the new row. */
    method RegisterRoute(body: JsonObject, now: Timestamp) returns (r: Response)
      requires storage.Valid()
      modifies storage
      ensures storage.Valid()
      ensures ParseInsertUser(body).Err? ==>
        r == Response(400, ErrorBody("Invalid user data")) && storage.users == old(storage.users)
      ensures ParseInsertUser(body).Ok? && old(storage.GetUserByEmail(body["email"].s)).Some? ==>
        r == Response(400, ErrorBody("Email already registered"))
        && storage.users == old(storage.users) && storage.nextUserId == old(storage.nextUserId)
      ensures ParseInsertUser(body).Ok? && old(storage.GetUserByEmail(body["email"].s)).None? ==>
        var row := UserFromInsert(ParseInsertUser(body).value, old(storage.nextUserId), now);
        && r == Response(201, AuthBody(row, MockToken))
        && storage.users == old(storage.users) + [row]
        && LoginRoute(row.email, "") == Response(200, AuthBody(row, MockToken))
        && storage.nextUserId == old(storage.nextUserId) + 1
      ensures ParseInsertUser(body).Err? ==> storage.nextUserId == old(storage.nextUserId)
      ensures storage.donations == old(storage.donations) && storage.matches == old(storage.matches)
      ensures storage.nextDonationId == old(storage.nextDonationId) && storage.nextMatchId == old(storage.nextMatchId)
    {
      var parsed := ParseInsertUser(body);
      if parsed.Err? {
        return Response(400, ErrorBody("Invalid user data"));
      }
      if storage.GetUserByEmail(parsed.value.email).Some? {
        return Response(400, ErrorBody("Email already registered"));
      }
      var created := storage.CreateUser(parsed.value, now);
      if created.Err? {
        return Response(500, ErrorBody("Registration failed"));
      }
      r := Response(201, AuthBody(created.value, MockToken));
    }
  }
}
