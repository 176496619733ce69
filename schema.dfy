/** The shared Drizzle schema of the TypeScript server: the three table rows,
    the insert records with their column defaults, and the insert schemas'
    parsing of a JSON request body. */
module Schema {
  import opened Common

  // ---------------------------------------------------------------------------
  // JSON request bodies

  /** A JSON value as a request body carries it. Arrays, objects and
      fractional numbers are `JOther`: no column accepts them. */
  datatype Json = JNull | JBool(b: bool) | JNum(n: int) | JStr(s: string) | JOther

  type JsonObject = map<string, Json>

  /** An optional column that also has a default: the key may be absent
      (the default applies), null, or a value. */
  datatype Given<T> = Absent | Null | Value(v: T)

  // ---------------------------------------------------------------------------
  // Table rows (`$inferSelect`). Decimal columns are strings, as Drizzle
  // returns them; nullable columns are options.

  datatype UserRecord = UserRecord(
    id: int,
    name: string,
    email: string,
    phone: Option<string>,
    bloodGroup: string,
    location: string,
    age: int,
    weight: Option<string>,
    userType: string,
    isAvailable: Option<bool>,
    lastDonation: Option<Timestamp>,
    medicalConditions: Option<string>,
    emergencyContact: Option<string>,
    createdAt: Option<Timestamp>,
    updatedAt: Option<Timestamp>)

  datatype DonationRecord = DonationRecord(
    id: int,
    donorId: Option<int>,
    seekerId: Option<int>,
    bloodGroup: string,
    amount: Option<string>,
    donationType: string,
    location: string,
    status: string,
    urgency: string,
    scheduledDate: Option<Timestamp>,
    completedDate: Option<Timestamp>,
    createdAt: Option<Timestamp>,
    updatedAt: Option<Timestamp>)

  datatype MatchRecord = MatchRecord(
    id: int,
    donorId: Option<int>,
    seekerId: Option<int>,
    bloodGroup: string,
    distance: Option<string>,
    compatibilityScore: Option<int>,
    status: string,
    createdAt: Option<Timestamp>,
    updatedAt: Option<Timestamp>)

  // ---------------------------------------------------------------------------
  // Insert records: no `id`, `createdAt` or `updatedAt`; a column with a
  // default may be left out.

  datatype InsertUser = InsertUser(
    name: string,
    email: string,
    phone: Option<string>,
    bloodGroup: string,
    location: string,
    age: int,
    weight: Option<string>,
    userType: string,
    isAvailable: Given<bool>,
    lastDonation: Option<Timestamp>,
    medicalConditions: Option<string>,
    emergencyContact: Option<string>)

  datatype InsertDonation = InsertDonation(
    donorId: Option<int>,
    seekerId: Option<int>,
    bloodGroup: string,
    amount: Option<string>,
    donationType: string,
    location: string,
    status: Option<string>,
    urgency: Option<string>,
    scheduledDate: Option<Timestamp>,
    completedDate: Option<Timestamp>)

  datatype InsertMatch = InsertMatch(
    donorId: Option<int>,
    seekerId: Option<int>,
    bloodGroup: string,
    distance: Option<string>,
    compatibilityScore: Option<int>,
    status: Option<string>)

  /** The row an insert stores: the serial key, the column defaults for what
      was left out (`is_available` true, `status` 'pending', `urgency`
      'normal') and `now` for both timestamps. */
  function UserFromInsert(ins: InsertUser, id: int, now: Timestamp): (r: UserRecord)
    ensures r.id == id && r.email == ins.email && r.createdAt == Some(now) && r.updatedAt == Some(now)
    ensures ins.isAvailable.Absent? ==> r.isAvailable == Some(true)
    ensures ins.isAvailable.Null? ==> r.isAvailable.None?
    ensures ins.isAvailable.Value? ==> r.isAvailable == Some(ins.isAvailable.v)
  {
    UserRecord(id, ins.name, ins.email, ins.phone, ins.bloodGroup, ins.location, ins.age, ins.weight,
               ins.userType,
               match ins.isAvailable
               case Absent => Some(true)
               case Null => None
               case Value(b) => Some(b),
               ins.lastDonation, ins.medicalConditions, ins.emergencyContact, Some(now), Some(now))
  }

  function DonationFromInsert(ins: InsertDonation, id: int, now: Timestamp): (r: DonationRecord)
    ensures r.id == id && r.donorId == ins.donorId && r.seekerId == ins.seekerId
    ensures r.status == (if ins.status.Some? then ins.status.value else "pending")
    ensures r.urgency == (if ins.urgency.Some? then ins.urgency.value else "normal")
    ensures r.createdAt == Some(now) && r.updatedAt == Some(now)
  {
    DonationRecord(id, ins.donorId, ins.seekerId, ins.bloodGroup, ins.amount, ins.donationType, ins.location,
                   if ins.status.Some? then ins.status.value else "pending",
                   if ins.urgency.Some? then ins.urgency.value else "normal",
                   ins.scheduledDate, ins.completedDate, Some(now), Some(now))
  }

  function MatchFromInsert(ins: InsertMatch, id: int, now: Timestamp): (r: MatchRecord)
    ensures r.id == id && r.donorId == ins.donorId && r.seekerId == ins.seekerId
    ensures r.status == (if ins.status.Some? then ins.status.value else "pending")
    ensures r.compatibilityScore == ins.compatibilityScore
    ensures r.createdAt == Some(now) && r.updatedAt == Some(now)
  {
    MatchRecord(id, ins.donorId, ins.seekerId, ins.bloodGroup, ins.distance, ins.compatibilityScore,
                if ins.status.Some? then ins.status.value else "pending", Some(now), Some(now))
  }

  // ---------------------------------------------------------------------------
  // Column parsers of the insert schemas

  /** A not-null column without a default: the key must hold a string. */
  function Text(body: JsonObject, key: string): (r: Result<string>)
    ensures r.Ok? <==> key in body && body[key].JStr?
    ensures r.Ok? ==> r.value == body[key].s
  {
    if key in body && body[key].JStr? then Ok(body[key].s) else Err(key)
  }

  /** A not-null integer column without a default. */
  function Int(body: JsonObject, key: string): (r: Result<int>)
    ensures r.Ok? <==> key in body && body[key].JNum?
    ensures r.Ok? ==> r.value == body[key].n
  {
    if key in body && body[key].JNum? then Ok(body[key].n) else Err(key)
  }

  /** A nullable text (or decimal) column: absent and null both store null. */
  function NullableText(body: JsonObject, key: string): (r: Result<Option<string>>)
    ensures r.Ok? <==> key !in body || body[key].JNull? || body[key].JStr?
    ensures r == Ok(None) <==> key !in body || body[key].JNull?
    ensures r.Ok? && r.value.Some? ==> r.value.value == body[key].s
  {
    if key !in body || body[key].JNull? then Ok(None)
    else if body[key].JStr? then Ok(Some(body[key].s))
    else Err(key)
  }

  function NullableInt(body: JsonObject, key: string): (r: Result<Option<int>>)
    ensures r.Ok? <==> key !in body || body[key].JNull? || body[key].JNum?
    ensures r == Ok(None) <==> key !in body || body[key].JNull?
    ensures r.Ok? && r.value.Some? ==> r.value.value == body[key].n
  {
    if key !in body || body[key].JNull? then Ok(None)
    else if body[key].JNum? then Ok(Some(body[key].n))
    else Err(key)
  }

  /** A nullable timestamp column: a JSON body has no date values, so only
      an absent key or null passes. */
  function NullableDate(body: JsonObject, key: string): (r: Result<Option<Timestamp>>)
    ensures r.Ok? <==> key !in body || body[key].JNull?
    ensures r.Ok? ==> r.value.None?
  {
    if key !in body || body[key].JNull? then Ok(None) else Err(key)
  }

  /** A not-null text column with a default: may be left out, never null. */
  function DefaultedText(body: JsonObject, key: string): (r: Result<Option<string>>)
    ensures r.Ok? <==> key !in body || body[key].JStr?
    ensures r == Ok(None) <==> key !in body
  {
    if key !in body then Ok(None)
    else if body[key].JStr? then Ok(Some(body[key].s))
    else Err(key)
  }

  /** A nullable boolean column with a default. */
  function DefaultedBool(body: JsonObject, key: string): (r: Result<Given<bool>>)
    ensures r.Ok? <==> key !in body || body[key].JNull? || body[key].JBool?
    ensures r == Ok(Absent) <==> key !in body
    ensures r == Ok(Null) <==> key in body && body[key].JNull?
  {
    if key !in body then Ok(Absent)
    else if body[key].JNull? then Ok(Null)
    else if body[key].JBool? then Ok(Value(body[key].b))
    else Err(key)
  }

  // ---------------------------------------------------------------------------
  // The insert schemas

  /** The keys the user insert schema reads; every other key is stripped. */
  const UserKeys: set<string> := {"name", "email", "phone", "bloodGroup", "location", "age", "weight",
                                  "userType", "isAvailable", "lastDonation", "medicalConditions", "emergencyContact"}

  const DonationKeys: set<string> := {"donorId", "seekerId", "bloodGroup", "amount", "donationType", "location",
                                      "status", "urgency", "scheduledDate", "completedDate"}

  const MatchKeys: set<string> := {"donorId", "seekerId", "bloodGroup", "distance", "compatibilityScore", "status"}

  /** `insertUserSchema.parse`: every column parser must accept its key. */
  function ParseInsertUser(body: JsonObject): (r: Result<InsertUser>)
    ensures r.Ok? <==>
      && Text(body, "name").Ok? && Text(body, "email").Ok? && NullableText(body, "phone").Ok?
      && Text(body, "bloodGroup").Ok? && Text(body, "location").Ok? && Int(body, "age").Ok?
      && NullableText(body, "weight").Ok? && Text(body, "userType").Ok? && DefaultedBool(body, "isAvailable").Ok?
      && NullableDate(body, "lastDonation").Ok? && NullableText(body, "medicalConditions").Ok?
      && NullableText(body, "emergencyContact").Ok?
    ensures r.Ok? ==> r.value.email == body["email"].s && r.value.name == body["name"].s
  {
    var name, email, phone := Text(body, "name"), Text(body, "email"), NullableText(body, "phone");
    var bloodGroup, location, age := Text(body, "bloodGroup"), Text(body, "location"), Int(body, "age");
    var weight, userType, isAvailable := NullableText(body, "weight"), Text(body, "userType"), DefaultedBool(body, "isAvailable");
    var lastDonation := NullableDate(body, "lastDonation");
    var medical, emergency := NullableText(body, "medicalConditions"), NullableText(body, "emergencyContact");
    if name.Err? || email.Err? || phone.Err? || bloodGroup.Err? || location.Err? || age.Err?
       || weight.Err? || userType.Err? || isAvailable.Err? || lastDonation.Err? || medical.Err? || emergency.Err?
    then Err("Invalid user data")
    else Ok(InsertUser(name.value, email.value, phone.value, bloodGroup.value, location.value, age.value,
                       weight.value, userType.value, isAvailable.value, lastDonation.value, medical.value,
                       emergency.value))
  }

  /** `insertDonationSchema.parse`. */
  function ParseInsertDonation(body: JsonObject): (r: Result<InsertDonation>)
    ensures r.Ok? <==>
      && NullableInt(body, "donorId").Ok? && NullableInt(body, "seekerId").Ok? && Text(body, "bloodGroup").Ok?
      && NullableText(body, "amount").Ok? && Text(body, "donationType").Ok? && Text(body, "location").Ok?
      && DefaultedText(body, "status").Ok? && DefaultedText(body, "urgency").Ok?
      && NullableDate(body, "scheduledDate").Ok? && NullableDate(body, "completedDate").Ok?
  {
    var donorId, seekerId, bloodGroup := NullableInt(body, "donorId"), NullableInt(body, "seekerId"), Text(body, "bloodGroup");
    var amount, donationType, location := NullableText(body, "amount"), Text(body, "donationType"), Text(body, "location");
    var status, urgency := DefaultedText(body, "status"), DefaultedText(body, "urgency");
    var scheduled, completed := NullableDate(body, "scheduledDate"), NullableDate(body, "completedDate");
    if donorId.Err? || seekerId.Err? || bloodGroup.Err? || amount.Err? || donationType.Err? || location.Err?
       || status.Err? || urgency.Err? || scheduled.Err? || completed.Err?
    then Err("Invalid donation data")
    else Ok(InsertDonation(donorId.value, seekerId.value, bloodGroup.value, amount.value, donationType.value,
                           location.value, status.value, urgency.value, scheduled.value, completed.value))
  }

  /** `insertMatchSchema.parse`. */
  function ParseInsertMatch(body: JsonObject): (r: Result<InsertMatch>)
    ensures r.Ok? <==>
      && NullableInt(body, "donorId").Ok? && NullableInt(body, "seekerId").Ok? && Text(body, "bloodGroup").Ok?
      && NullableText(body, "distance").Ok? && NullableInt(body, "compatibilityScore").Ok?
      && DefaultedText(body, "status").Ok?
  {
    var donorId, seekerId, bloodGroup := NullableInt(body, "donorId"), NullableInt(body, "seekerId"), Text(body, "bloodGroup");
    var distance, score, status := NullableText(body, "distance"), NullableInt(body, "compatibilityScore"), DefaultedText(body, "status");
    if donorId.Err? || seekerId.Err? || bloodGroup.Err? || distance.Err? || score.Err? || status.Err?
    then Err("Invalid match data")
    else Ok(InsertMatch(donorId.value, seekerId.value, bloodGroup.value, distance.value, score.value, status.value))
  }

  // ---------------------------------------------------------------------------
  // Properties of the insert schemas

  /** Only the schema's own keys matter: `id`, `createdAt`, `updatedAt` and
      any other key of the body are stripped before the insert. */
  lemma ParseUserIgnoresOtherKeys(body: JsonObject, key: string, v: Json)
    requires key !in UserKeys
    ensures ParseInsertUser(body[key := v]) == ParseInsertUser(body)
  {
    var b := body[key := v];
    forall k | k in UserKeys
      ensures (k in b) == (k in body) && (k in b ==> b[k] == body[k])
    {
    }
  }

  lemma ParseDonationIgnoresOtherKeys(body: JsonObject, key: string, v: Json)
    requires key !in DonationKeys
    ensures ParseInsertDonation(body[key := v]) == ParseInsertDonation(body)
  {
    var b := body[key := v];
    forall k | k in DonationKeys
      ensures (k in b) == (k in body) && (k in b ==> b[k] == body[k])
    {
    }
  }

  lemma ParseMatchIgnoresOtherKeys(body: JsonObject, key: string, v: Json)
    requires key !in MatchKeys
    ensures ParseInsertMatch(body[key := v]) == ParseInsertMatch(body)
  {
    var b := body[key := v];
    forall k | k in MatchKeys
      ensures (k in b) == (k in body) && (k in b ==> b[k] == body[k])
    {
    }
  }

  /** A body missing one of the six required user columns is rejected. */
  lemma ParseUserNeedsRequired(body: JsonObject, key: string)
    requires key in {"name", "email", "bloodGroup", "location", "age", "userType"} && key !in body
    ensures ParseInsertUser(body).Err?
  {
  }

  function OptText(o: Option<string>): Json {
    match o
    case None => JNull
    case Some(s) => JStr(s)
  }

  function OptInt(o: Option<int>): Json {
    match o
    case None => JNull
    case Some(n) => JNum(n)
  }

  /** The JSON body a client sends for an insert record; a date cannot be
      written in JSON, so the date columns are sent as null. */
  function UserJson(ins: InsertUser): (body: JsonObject)
    ensures body.Keys <= UserKeys
  {
    var base := map["name" := JStr(ins.name), "email" := JStr(ins.email), "phone" := OptText(ins.phone),
                    "bloodGroup" := JStr(ins.bloodGroup), "location" := JStr(ins.location), "age" := JNum(ins.age),
                    "weight" := OptText(ins.weight), "userType" := JStr(ins.userType),
                    "lastDonation" := JNull, "medicalConditions" := OptText(ins.medicalConditions),
                    "emergencyContact" := OptText(ins.emergencyContact)];
    match ins.isAvailable
    case Absent => base
    case Null => base["isAvailable" := JNull]
    case Value(b) => base["isAvailable" := JBool(b)]
  }

  /** The required columns of a user's body parse back to the user's values. */
  lemma UserJsonRequired(ins: InsertUser)
    ensures var body := UserJson(ins);
      && Text(body, "name") == Ok(ins.name) && Text(body, "email") == Ok(ins.email)
      && Text(body, "bloodGroup") == Ok(ins.bloodGroup) && Text(body, "location") == Ok(ins.location)
      && Int(body, "age") == Ok(ins.age) && Text(body, "userType") == Ok(ins.userType)
  {
  }

  /** The optional columns of a user's body parse back to the user's values. */
  lemma UserJsonOptional(ins: InsertUser)
    requires ins.lastDonation.None?
    ensures var body := UserJson(ins);
      && NullableText(body, "phone") == Ok(ins.phone) && NullableText(body, "weight") == Ok(ins.weight)
      && NullableText(body, "medicalConditions") == Ok(ins.medicalConditions)
      && NullableText(body, "emergencyContact") == Ok(ins.emergencyContact)
      && NullableDate(body, "lastDonation") == Ok(ins.lastDonation)
      && DefaultedBool(body, "isAvailable") == Ok(ins.isAvailable)
  {
  }

  /** Parsing the body a client sends for a user gives back that user. */
  lemma UserJsonRoundTrip(ins: InsertUser)
    requires ins.lastDonation.None?
    ensures ParseInsertUser(UserJson(ins)) == Ok(ins)
  {
    UserJsonRequired(ins);
    UserJsonOptional(ins);
  }

  function MatchJson(ins: InsertMatch): (body: JsonObject)
    ensures body.Keys <= MatchKeys
  {
    var base := map["donorId" := OptInt(ins.donorId), "seekerId" := OptInt(ins.seekerId),
                    "bloodGroup" := JStr(ins.bloodGroup), "distance" := OptText(ins.distance),
                    "compatibilityScore" := OptInt(ins.compatibilityScore)];
    match ins.status
    case None => base
    case Some(s) => base["status" := JStr(s)]
  }

  /** Parsing the body a client sends for a match gives back that match. */
  lemma MatchJsonRoundTrip(ins: InsertMatch)
    ensures ParseInsertMatch(MatchJson(ins)) == Ok(ins)
  {
    var body := MatchJson(ins);
    assert body["donorId"] == OptInt(ins.donorId) && body["seekerId"] == OptInt(ins.seekerId);
    assert body["bloodGroup"] == JStr(ins.bloodGroup) && body["distance"] == OptText(ins.distance);
    assert body["compatibilityScore"] == OptInt(ins.compatibilityScore);
    assert ins.status.None? <==> "status" !in body;
  }

  function DonationJson(ins: InsertDonation): (body: JsonObject)
    ensures body.Keys <= DonationKeys
  {
    var base := map["donorId" := OptInt(ins.donorId), "seekerId" := OptInt(ins.seekerId),
                    "bloodGroup" := JStr(ins.bloodGroup), "amount" := OptText(ins.amount),
                    "donationType" := JStr(ins.donationType), "location" := JStr(ins.location),
                    "scheduledDate" := JNull, "completedDate" := JNull];
    var withStatus := if ins.status.Some? then base["status" := JStr(ins.status.value)] else base;
    if ins.urgency.Some? then withStatus["urgency" := JStr(ins.urgency.value)] else withStatus
  }

  /** Parsing the body a client sends for a donation gives back that donation. */
  lemma DonationJsonRoundTrip(ins: InsertDonation)
    requires ins.scheduledDate.None? && ins.completedDate.None?
    ensures ParseInsertDonation(DonationJson(ins)) == Ok(ins)
  {
    var body := DonationJson(ins);
    assert body["donorId"] == OptInt(ins.donorId) && body["seekerId"] == OptInt(ins.seekerId);
    assert body["bloodGroup"] == JStr(ins.bloodGroup) && body["amount"] == OptText(ins.amount);
    assert body["donationType"] == JStr(ins.donationType) && body["location"] == JStr(ins.location);
    assert body["scheduledDate"] == JNull && body["completedDate"] == JNull;
    assert ins.status.None? <==> "status" !in body;
    assert ins.urgency.None? <==> "urgency" !in body;
    assert ins.status.Some? ==> body["status"] == JStr(ins.status.value);
  }
}
