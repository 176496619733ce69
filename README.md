# BloodMatch core, modelled in Dafny

BloodMatch pairs blood donors with seekers. This project models its core in
three parts, one Dafny module per source file:

- **The Spring backend.**
  - The `User`, `Match` and `Donation` JPA entities: their persisted rows,
    bean validation constraints, constructors, lifecycle callbacks and setters.
  - The three Spring Data repositories: their derived and JPQL queries over a
    table of rows, and the `save`/`deleteById` they inherit.
  - The user, donation and match services, including automatic matching and
    the compatibility score.
  - The authentication controller.
- **The Express/Drizzle server.**
  - The shared schema: the table rows, the column defaults and the insert
    schemas' parsing of a JSON body.
  - `DatabaseStorage`: the three tables, their serial keys, the unique email
    column and the foreign keys.
  - The route handlers, with JavaScript's `parseInt` on path parameters.
- **The React front end's logic.**
  - The eligibility quiz.
  - The donor trust score.
  - The registration form.
  - The two emergency SOS buttons.
  - The blood demand heatmap.
  - The theme provider.

How the model is written:

- **Entities and stateful components** are classes whose methods state their
  whole new state. For an entity, that state is its row snapshot `Row()`.
- **Tables** are classes holding a sequence of rows and the next identity key.
  Each keeps an invariant: keys are unique and below the counter, and emails
  are unique. In the TypeScript `DatabaseStorage`, every foreign key also names
  a stored user. The Java tables do not check foreign keys (see "Left out").
- **Queries** are functions over the rows. Each states which rows it returns.
- **Outside inputs** are parameters: clock readings (`now`), random draws,
  timer firings (one method call per firing), local storage and the
  `prefers-color-scheme` query.

The model follows the code where it does something its names or labels do not suggest:

- `findPotentialMatches` in the Java service ignores the blood group.
- `findPotentialMatches` in the TypeScript storage ignores the location.
- The TypeScript `getDonationsByUser` and `getMatchesForUser` return only the
  rows where the user is the donor.
- The TypeScript `getUsersByLocation` compares locations for equality.
- Neither login checks the password.
- The quiz's Next button takes any non-empty answer.
- Cancelling the client SOS countdown does not stop its interval.
- The landing SOS button reports the count of the previous activation.

## Model

| member | source | states |
|---|---|---|
| UserEntity.BlankUser | java-backend/src/main/java/com/hemoglobe/entity/User.java:83 | `new User()` leaves every column unset except `isAvailable`, which its initialiser sets to true |
| Common.Utf16Length | java-backend/src/main/java/com/hemoglobe/entity/User.java:22 | the length `@Size` measures: between one and two units per character, and equal to the character count iff no character is astral |
| Common.Utf16LengthAppend | java-backend/src/main/java/com/hemoglobe/entity/User.java:22 | the length of a concatenation is the sum of the lengths |
| Common.AstralCountsTwice | java-backend/src/main/java/com/hemoglobe/entity/User.java:22 | a single emoji is one character but two code units, so it meets the name's minimum of 2 |
| UserEntity.NewUserValidity | java-backend/src/main/java/com/hemoglobe/entity/User.java:21-49 | a user from the six-argument constructor passes validation iff all of these hold: the name is non-blank and 2..100 UTF-16 code units long, as `String.length()` counts; email, blood group, location and user type are non-blank; the age is present and within 18..65 |
| UserEntity.AstralNameValid | java-backend/src/main/java/com/hemoglobe/entity/User.java:21-22 | a user whose name is a single emoji passes validation, since `@Size` counts its two code units |
| UserEntity.IsEnabled | java-backend/src/main/java/com/hemoglobe/entity/User.java:139-142 | the account is enabled unless `isAvailable` is false; a null flag counts as enabled |
| UserEntity.Username | java-backend/src/main/java/com/hemoglobe/entity/User.java:119-122 | the username is the email |
| UserEntity.Password | java-backend/src/main/java/com/hemoglobe/entity/User.java:114-117 | no password is ever stored or returned |
| UserEntity.User.constructor | java-backend/src/main/java/com/hemoglobe/entity/User.java:83 | the new entity is the blank user |
| UserEntity.User.Create | java-backend/src/main/java/com/hemoglobe/entity/User.java:85-94 | the six given fields, both timestamps at `now`, available |
| UserEntity.User.Load | java-backend/src/main/java/com/bloodmatch/service/UserService.java:37-38 | the entity materialised by `findById` holds exactly the stored row |
| UserEntity.User.OnCreate | java-backend/src/main/java/com/hemoglobe/entity/User.java:97-101 | sets both timestamps and nothing else |
| UserEntity.User.OnUpdate | java-backend/src/main/java/com/hemoglobe/entity/User.java:103-106 | sets `updatedAt` and nothing else |
| UserEntity.User.SetId | java-backend/src/main/java/com/hemoglobe/entity/User.java:146 | changes the id column only |
| UserEntity.User.SetName | java-backend/src/main/java/com/hemoglobe/entity/User.java:149 | changes the name column only |
| UserEntity.User.SetEmail | java-backend/src/main/java/com/hemoglobe/entity/User.java:152 | changes the email column only |
| UserEntity.User.SetPhone | java-backend/src/main/java/com/hemoglobe/entity/User.java:155 | changes the phone column only |
| UserEntity.User.SetBloodGroup | java-backend/src/main/java/com/hemoglobe/entity/User.java:158 | changes the blood group column only |
| UserEntity.User.SetLocation | java-backend/src/main/java/com/hemoglobe/entity/User.java:161 | changes the location column only |
| UserEntity.User.SetAge | java-backend/src/main/java/com/hemoglobe/entity/User.java:164 | changes the age column only |
| UserEntity.User.SetWeight | java-backend/src/main/java/com/hemoglobe/entity/User.java:167 | changes the weight column only |
| UserEntity.User.SetUserType | java-backend/src/main/java/com/hemoglobe/entity/User.java:170 | changes the user type column only |
| UserEntity.User.SetIsAvailable | java-backend/src/main/java/com/hemoglobe/entity/User.java:173 | changes the availability column only |
| UserEntity.User.SetLastDonation | java-backend/src/main/java/com/hemoglobe/entity/User.java:176 | changes the last donation column only |
| UserEntity.User.SetMedicalConditions | java-backend/src/main/java/com/hemoglobe/entity/User.java:179 | changes the medical conditions column only |
| UserEntity.User.SetEmergencyContact | java-backend/src/main/java/com/hemoglobe/entity/User.java:182 | changes the emergency contact column only |
| UserEntity.User.SetCreatedAt | java-backend/src/main/java/com/hemoglobe/entity/User.java:185 | changes `createdAt` only |
| UserEntity.User.SetUpdatedAt | java-backend/src/main/java/com/hemoglobe/entity/User.java:188 | changes `updatedAt` only |
| MatchEntity.BlankMatch | java-backend/src/main/java/com/hemoglobe/entity/Match.java:38-39 | `new Match()` is pending with no id, parties or score |
| MatchEntity.NewMatchValidity | java-backend/src/main/java/com/hemoglobe/entity/Match.java:27-39 | a constructed match is pending; it is valid iff its blood group is non-blank and its score, if any, is within 0..100 |
| MatchEntity.Match.constructor | java-backend/src/main/java/com/hemoglobe/entity/Match.java:48 | the new entity is the blank match |
| MatchEntity.Match.Create | java-backend/src/main/java/com/hemoglobe/entity/Match.java:50-58 | the five given fields, both timestamps, the pending status kept |
| MatchEntity.Match.Load | java-backend/src/main/java/com/bloodmatch/service/MatchService.java:36-37 | the materialised entity holds exactly the stored row |
| MatchEntity.Match.OnCreate | java-backend/src/main/java/com/hemoglobe/entity/Match.java:61-65 | sets both timestamps and nothing else |
| MatchEntity.Match.OnUpdate | java-backend/src/main/java/com/hemoglobe/entity/Match.java:67-70 | sets `updatedAt` and nothing else |
| MatchEntity.Match.SetId | java-backend/src/main/java/com/hemoglobe/entity/Match.java:74 | changes the id only |
| MatchEntity.Match.SetDonor | java-backend/src/main/java/com/hemoglobe/entity/Match.java:77 | changes the donor only |
| MatchEntity.Match.SetSeeker | java-backend/src/main/java/com/hemoglobe/entity/Match.java:80 | changes the seeker only |
| MatchEntity.Match.SetBloodGroup | java-backend/src/main/java/com/hemoglobe/entity/Match.java:83 | changes the blood group only |
| MatchEntity.Match.SetDistance | java-backend/src/main/java/com/hemoglobe/entity/Match.java:86 | changes the distance only |
| MatchEntity.Match.SetCompatibilityScore | java-backend/src/main/java/com/hemoglobe/entity/Match.java:89 | changes the score only |
| MatchEntity.Match.SetStatus | java-backend/src/main/java/com/hemoglobe/entity/Match.java:92 | changes the status only |
| MatchEntity.Match.SetCreatedAt | java-backend/src/main/java/com/hemoglobe/entity/Match.java:95 | changes `createdAt` only |
| MatchEntity.Match.SetUpdatedAt | java-backend/src/main/java/com/hemoglobe/entity/Match.java:98 | changes `updatedAt` only |
| DonationEntity.BlankDonation | java-backend/src/main/java/com/bloodmatch/entity/Donation.java:39-43 | `new Donation()` is pending with normal urgency and no id or parties |
| DonationEntity.NewDonationValidity | java-backend/src/main/java/com/bloodmatch/entity/Donation.java:26-43 | a constructed donation is pending; it is valid iff its blood group, type, location and urgency are non-blank |
| DonationEntity.Donation.constructor | java-backend/src/main/java/com/bloodmatch/entity/Donation.java:58 | the new entity is the blank donation |
| DonationEntity.Donation.Create | java-backend/src/main/java/com/bloodmatch/entity/Donation.java:60-69 | the six given fields, both timestamps, the pending status kept |
| DonationEntity.Donation.Load | java-backend/src/main/java/com/bloodmatch/service/DonationService.java:30-31 | the materialised entity holds exactly the stored row |
| DonationEntity.Donation.OnCreate | java-backend/src/main/java/com/bloodmatch/entity/Donation.java:72-76 | sets both timestamps and nothing else |
| DonationEntity.Donation.OnUpdate | java-backend/src/main/java/com/bloodmatch/entity/Donation.java:78-81 | sets `updatedAt` and nothing else |
| DonationEntity.Donation.SetId | java-backend/src/main/java/com/bloodmatch/entity/Donation.java:85 | changes the id only |
| DonationEntity.Donation.SetDonor | java-backend/src/main/java/com/bloodmatch/entity/Donation.java:88 | changes the donor only |
| DonationEntity.Donation.SetSeeker | java-backend/src/main/java/com/bloodmatch/entity/Donation.java:91 | changes the seeker only |
| DonationEntity.Donation.SetBloodGroup | java-backend/src/main/java/com/bloodmatch/entity/Donation.java:94 | changes the blood group only |
| DonationEntity.Donation.SetAmount | java-backend/src/main/java/com/bloodmatch/entity/Donation.java:97 | changes the amount only |
| DonationEntity.Donation.SetDonationType | java-backend/src/main/java/com/bloodmatch/entity/Donation.java:100 | changes the donation type only |
| DonationEntity.Donation.SetLocation | java-backend/src/main/java/com/bloodmatch/entity/Donation.java:103 | changes the location only |
| DonationEntity.Donation.SetStatus | java-backend/src/main/java/com/bloodmatch/entity/Donation.java:106 | changes the status only |
| DonationEntity.Donation.SetUrgency | java-backend/src/main/java/com/bloodmatch/entity/Donation.java:109 | changes the urgency only |
| DonationEntity.Donation.SetScheduledDate | java-backend/src/main/java/com/bloodmatch/entity/Donation.java:112 | changes the scheduled date only |
| DonationEntity.Donation.SetCompletedDate | java-backend/src/main/java/com/bloodmatch/entity/Donation.java:115 | changes the completed date only |
| DonationEntity.Donation.SetCreatedAt | java-backend/src/main/java/com/bloodmatch/entity/Donation.java:118 | changes `createdAt` only |
| DonationEntity.Donation.SetUpdatedAt | java-backend/src/main/java/com/bloodmatch/entity/Donation.java:121 | changes `updatedAt` only |
| UserRepository.FindById | java-backend/src/main/java/com/hemoglobe/repository/UserRepository.java:13 | finds a row iff some stored row has that key, and the row found has it |
| UserRepository.FindByEmail | java-backend/src/main/java/com/hemoglobe/repository/UserRepository.java:15 | finds a row iff some stored row has that email, and the row found has it |
| UserRepository.ExistsByEmail | java-backend/src/main/java/com/hemoglobe/repository/UserRepository.java:27 | holds exactly when `findByEmail` finds a row |
| UserRepository.FindAvailableUsersByBloodGroupAndType | java-backend/src/main/java/com/hemoglobe/repository/UserRepository.java:17-22 | exactly the stored users with that blood group and type whose flag is true (null is excluded); covers both the derived and the JPQL query |
| UserRepository.FindByLocationContainingIgnoreCaseAndUserTypeAndIsAvailableTrue | java-backend/src/main/java/com/hemoglobe/repository/UserRepository.java:19 | exactly the available users of that type whose location contains the argument, ignoring case |
| UserRepository.FindAvailableUsersByLocationAndType | java-backend/src/main/java/com/hemoglobe/repository/UserRepository.java:24-25 | exactly the available users of that type whose location contains the argument, matching case (`LIKE`) |
| UserRepository.LikeWithinIgnoreCase | java-backend/src/main/java/com/hemoglobe/repository/UserRepository.java:19-25 | every user the `LIKE` query finds, the case-insensitive query finds too |
| UserRepository.LikeIsCaseSensitive | java-backend/src/main/java/com/hemoglobe/repository/UserRepository.java:19-25 | the converse fails: location "A" searched as "a" |
| UserRepository.FindByIdOfStored | java-backend/src/main/java/com/hemoglobe/repository/UserRepository.java:13 | with unique keys, looking up a stored row's key finds that row |
| UserRepository.FindByEmailOfStored | java-backend/src/main/java/com/hemoglobe/entity/User.java:25-28 | with unique emails, looking up a stored row's email finds that row |
| UserRepository.Flushed | java-backend/src/main/java/com/hemoglobe/entity/User.java:103-106 | a flush rewrites the row, with a fresh `updatedAt`, only when some field changed |
| UserRepository.UserTable.Insert | java-backend/src/main/java/com/bloodmatch/service/UserService.java:33 | `save` of a new entity appends it with the next key and both timestamps, and keeps keys and emails unique |
| UserRepository.UserTable.Update | java-backend/src/main/java/com/bloodmatch/service/UserService.java:52 | `save` of a loaded entity rewrites only its own row, with the flushed state |
| UserRepository.UserTable.DeleteById | java-backend/src/main/java/com/hemoglobe/entity/User.java:69-80 | removes exactly the rows with that key; when the user existed, the `cascade = ALL` relations also remove every donation and match it gives or receives; a missing key changes nothing |
| DonationRepository.FindById | java-backend/src/main/java/com/hemoglobe/repository/DonationRepository.java:12 | finds a row iff one has that key |
| DonationRepository.FindByDonorId | java-backend/src/main/java/com/hemoglobe/repository/DonationRepository.java:14 | exactly the donations whose donor has that key |
| DonationRepository.FindBySeekerId | java-backend/src/main/java/com/hemoglobe/repository/DonationRepository.java:16 | exactly the donations whose seeker has that key |
| DonationRepository.FindByBloodGroup | java-backend/src/main/java/com/hemoglobe/repository/DonationRepository.java:18 | exactly the donations of that blood group |
| DonationRepository.FindByStatus | java-backend/src/main/java/com/hemoglobe/repository/DonationRepository.java:20 | exactly the donations with that status |
| DonationRepository.FindByUrgency | java-backend/src/main/java/com/hemoglobe/repository/DonationRepository.java:22 | exactly the donations with that urgency |
| DonationRepository.FindDonationsByUserId | java-backend/src/main/java/com/hemoglobe/repository/DonationRepository.java:24-25 | the union of the donor query and the seeker query |
| DonationRepository.FindByBloodGroupAndStatus | java-backend/src/main/java/com/hemoglobe/repository/DonationRepository.java:27-28 | the rows with both values; equal to the status query applied to the blood-group query |
| DonationRepository.FindCriticalPendingDonations | java-backend/src/main/java/com/hemoglobe/repository/DonationRepository.java:30-31 | the critical pending donations; equal to the status query applied to the urgency query |
| DonationRepository.Flushed | java-backend/src/main/java/com/bloodmatch/entity/Donation.java:78-81 | a flush rewrites the row, with a fresh `updatedAt`, only when some field changed |
| DonationRepository.DonationTable.Insert | java-backend/src/main/java/com/bloodmatch/service/DonationService.java:26 | appends the entity with the next key and both timestamps; keys stay unique |
| DonationRepository.DonationTable.Update | java-backend/src/main/java/com/bloodmatch/service/DonationService.java:42 | rewrites only the loaded entity's row, with the flushed state |
| DonationRepository.DonationTable.DeleteInvolving | java-backend/src/main/java/com/hemoglobe/entity/User.java:70-74 | the cascade from a removed user: keeps exactly the donations the user neither gives nor receives, in order; keys stay unique |
| DonationRepository.DonationTable.DeleteById | java-backend/src/main/java/com/bloodmatch/service/DonationService.java:46 | removes exactly the rows with that key |
| MatchRepository.FindById | java-backend/src/main/java/com/hemoglobe/repository/MatchRepository.java:12 | finds a row iff one has that key |
| MatchRepository.FindByDonorId | java-backend/src/main/java/com/hemoglobe/repository/MatchRepository.java:14 | exactly the matches whose donor has that key |
| MatchRepository.FindBySeekerId | java-backend/src/main/java/com/hemoglobe/repository/MatchRepository.java:16 | exactly the matches whose seeker has that key |
| MatchRepository.FindByBloodGroup | java-backend/src/main/java/com/hemoglobe/repository/MatchRepository.java:18 | exactly the matches of that blood group |
| MatchRepository.FindByStatus | java-backend/src/main/java/com/hemoglobe/repository/MatchRepository.java:20 | exactly the matches with that status |
| MatchRepository.FindMatchesByUserId | java-backend/src/main/java/com/hemoglobe/repository/MatchRepository.java:22-23 | the union of the donor query and the seeker query |
| MatchRepository.FindPendingMatchesByBloodGroup | java-backend/src/main/java/com/hemoglobe/repository/MatchRepository.java:25-26 | the pending matches of that group; equal to the status query applied to the blood-group query |
| MatchRepository.FindPendingMatchesByLocation | java-backend/src/main/java/com/hemoglobe/repository/MatchRepository.java:31-32 | exactly the pending matches where both parties' locations contain the argument |
| MatchRepository.SortByScoreDesc | java-backend/src/main/java/com/hemoglobe/repository/MatchRepository.java:28-29 | `ORDER BY compatibilityScore DESC`: sorted by descending score and a permutation of its input |
| MatchRepository.FindHighCompatibilityMatches | java-backend/src/main/java/com/hemoglobe/repository/MatchRepository.java:28-29 | highest score first; holds exactly the matches scoring at least the minimum, each as often as it is stored (a null score never qualifies) |
| MatchRepository.Flushed | java-backend/src/main/java/com/hemoglobe/entity/Match.java:67-70 | a flush rewrites the row, with a fresh `updatedAt`, only when some field changed |
| MatchRepository.MatchTable.Insert | java-backend/src/main/java/com/bloodmatch/service/MatchService.java:104 | appends the entity with the next key and both timestamps; keys stay unique |
| MatchRepository.MatchTable.Update | java-backend/src/main/java/com/bloodmatch/service/MatchService.java:44 | rewrites only the loaded entity's row, with the flushed state |
| MatchRepository.MatchTable.DeleteInvolving | java-backend/src/main/java/com/hemoglobe/entity/User.java:76-80 | the cascade from a removed user: keeps exactly the matches where the user is neither donor nor seeker, in order; keys stay unique |
| MatchRepository.MatchTable.DeleteById | java-backend/src/main/java/com/bloodmatch/service/MatchService.java:48 | removes exactly the rows with that key |
| UserService.CopyDetails | java-backend/src/main/java/com/bloodmatch/service/UserService.java:40-50 | the updated row is the details with the stored key, email and timestamps |
| UserService.CopyOwnDetailsIsClean | java-backend/src/main/java/com/bloodmatch/service/UserService.java:36-53 | updating a user with its own details writes the row back unchanged |
| UserService.UserService.CreateUser | java-backend/src/main/java/com/bloodmatch/service/UserService.java:29-34 | a taken email gives "Email already exists" and stores nothing; otherwise the user is appended with the next key, and its email then finds it |
| UserService.UserService.UpdateUser | java-backend/src/main/java/com/bloodmatch/service/UserService.java:36-53 | a missing key gives "User not found" and changes nothing; otherwise only that row changes, getting the eleven copied fields while keeping its key and email |
| UserService.UserService.DeleteUser | java-backend/src/main/java/com/bloodmatch/service/UserService.java:55-57 | afterwards no user has the key and every other user remains; if the user existed, exactly the donations and matches it took part in are gone; otherwise those tables are unchanged |
| UserService.UserService.GetUserById | java-backend/src/main/java/com/bloodmatch/service/UserService.java:21-23 | finds a user iff one has that key |
| UserService.UserService.GetUserByEmail | java-backend/src/main/java/com/bloodmatch/service/UserService.java:25-27 | finds a user iff one has that email |
| UserService.UserService.GetUsersByBloodGroupAndType | java-backend/src/main/java/com/bloodmatch/service/UserService.java:59-61 | exactly the available users of that group and type |
| UserService.UserService.GetUsersByLocationAndType | java-backend/src/main/java/com/bloodmatch/service/UserService.java:63-65 | exactly the available users of that type whose location contains the argument, ignoring case |
| UserService.UserService.GetAvailableDonors | java-backend/src/main/java/com/bloodmatch/service/UserService.java:67-69 | exactly the available donors of that group |
| UserService.UserService.GetAvailableSeekers | java-backend/src/main/java/com/bloodmatch/service/UserService.java:71-73 | exactly the available seekers of that group |
| DonationService.CopyDetails | java-backend/src/main/java/com/bloodmatch/service/DonationService.java:33-40 | the updated row is the details with the stored key, parties and timestamps |
| DonationService.AnyStatusTransition | java-backend/src/main/java/com/bloodmatch/service/DonationService.java:37 | any status may replace any other; no transition is enforced |
| DonationService.DonationService.CreateDonation | java-backend/src/main/java/com/bloodmatch/service/DonationService.java:25-27 | the donation is appended as given, with the next key and both timestamps |
| DonationService.DonationService.UpdateDonation | java-backend/src/main/java/com/bloodmatch/service/DonationService.java:29-43 | a missing key gives "Donation not found" and changes nothing; otherwise only that row changes, keeping its key and parties |
| DonationService.DonationService.DeleteDonation | java-backend/src/main/java/com/bloodmatch/service/DonationService.java:45-47 | afterwards no row has the key, and every other row remains |
| DonationService.DonationService.GetDonationById | java-backend/src/main/java/com/bloodmatch/service/DonationService.java:21-23 | finds a donation iff one has that key |
| DonationService.DonationService.GetCriticalPendingDonations | java-backend/src/main/java/com/bloodmatch/service/DonationService.java:69-71 | exactly the critical donations that are still pending |
| DonationService.DonationService.GetDonationsByUserId | java-backend/src/main/java/com/bloodmatch/service/DonationService.java:73-75 | exactly the donations the user gives or receives |
| MatchService.CompatibilityScore | java-backend/src/main/java/com/bloodmatch/service/MatchService.java:110-130 | the score is 50 for the same blood group, plus 30 when either location contains the other ignoring case, plus 20 for an available donor; it stays within 0..100; it reaches 50 iff the groups agree or the donor is both near and available |
| MatchService.ScoreSymmetricInLocation | java-backend/src/main/java/com/bloodmatch/service/MatchService.java:120-123 | swapping the two locations leaves the score unchanged |
| MatchService.CalculateDistance | java-backend/src/main/java/com/bloodmatch/service/MatchService.java:132-140 | zero iff the locations are equal ignoring case; otherwise a value in [1, 51) |
| MatchService.SeekerPairs | java-backend/src/main/java/com/bloodmatch/service/MatchService.java:92-106 | for one seeker, exactly the donors scoring at least 50 are paired, each with its score |
| MatchService.Pairings | java-backend/src/main/java/com/bloodmatch/service/MatchService.java:91-107 | exactly the seeker/donor pairs scoring at least 50, seeker-major |
| MatchService.AutoMatchRows | java-backend/src/main/java/com/bloodmatch/service/MatchService.java:97-104 | the k-th saved pair becomes a pending match with consecutive key k, its parties, score and distance |
| MatchService.SeekerPairsAll | java-backend/src/main/java/com/bloodmatch/service/MatchService.java:92-106 | when every donor is available and of the seeker's group, every donor is paired, scoring at least 70 |
| MatchService.PairingsAll | java-backend/src/main/java/com/bloodmatch/service/MatchService.java:87-108 | under the same conditions there are exactly \|seekers\| × \|donors\| pairs |
| MatchService.CopyDetails | java-backend/src/main/java/com/bloodmatch/service/MatchService.java:39-42 | the updated row is the details with the stored key, parties and timestamps |
| MatchService.MatchService.UpdateMatch | java-backend/src/main/java/com/bloodmatch/service/MatchService.java:35-45 | a missing key gives "Match not found" and changes nothing; otherwise only that row changes, keeping its key and parties |
| MatchService.MatchService.FindPotentialMatches | java-backend/src/main/java/com/bloodmatch/service/MatchService.java:79-81 | exactly the pending matches with both parties near the location; the blood group plays no part |
| MatchService.MatchService.SaveAutoMatch | java-backend/src/main/java/com/bloodmatch/service/MatchService.java:97-104 | one pair is saved as one appended pending match |
| MatchService.MatchService.SaveIfCompatible | java-backend/src/main/java/com/bloodmatch/service/MatchService.java:94-105 | donor j's pass of the inner loop keeps the loop invariant |
| MatchService.MatchService.SaveSeekerPairs | java-backend/src/main/java/com/bloodmatch/service/MatchService.java:92-106 | the inner loop appends exactly the rows for that seeker's pairs |
| MatchService.MatchService.CreateAutomaticMatches | java-backend/src/main/java/com/bloodmatch/service/MatchService.java:87-108 | appends exactly the rows for all qualifying pairs of available seekers and donors of that group, in loop order; nothing else changes |
| AuthController.Token | java-backend/src/main/java/com/hemoglobe/controller/AuthController.java:45 | the token is "mock-jwt-token-" followed by the decimal key |
| AuthController.TokensDistinct | java-backend/src/main/java/com/hemoglobe/controller/AuthController.java:45 | users with different keys get different tokens |
| AuthController.Login | java-backend/src/main/java/com/hemoglobe/controller/AuthController.java:23-48 | a missing field gives 400 and an unknown email 401; the result is 200 iff the email is stored, and then it carries that user and its token |
| AuthController.LoginIgnoresPassword | java-backend/src/main/java/com/hemoglobe/controller/AuthController.java:40-41 | any two passwords give the same response |
| AuthController.LoginFindsStoredUser | java-backend/src/main/java/com/hemoglobe/controller/AuthController.java:32-47 | with unique emails, logging in as a stored user returns exactly that user |
| AuthController.Logout | java-backend/src/main/java/com/hemoglobe/controller/AuthController.java:65-69 | always 200 with the same message |
| AuthController.AuthController.Register | java-backend/src/main/java/com/hemoglobe/controller/AuthController.java:50-63 | an invalid body (a name's length counted in UTF-16 code units) gives 400 with nothing stored; a taken email gives 400 with nothing stored; otherwise 201 with the created user and its token, and that user can then log in |
| Schema.UserFromInsert | shared/schema.ts:6-22 | the stored user has the serial key and both timestamps; an absent `isAvailable` becomes true, and null stays null |
| Schema.DonationFromInsert | shared/schema.ts:24-38 | the stored donation keeps its references, and status and urgency default to 'pending' and 'normal' |
| Schema.MatchFromInsert | shared/schema.ts:40-50 | the stored match keeps its references and score, and status defaults to 'pending' |
| Schema.Text | shared/schema.ts:8 | a not-null text column accepts exactly a string |
| Schema.Int | shared/schema.ts:13 | a not-null integer column accepts exactly a number |
| Schema.NullableText | shared/schema.ts:10 | a nullable column accepts absent, null or a string, and stores null for the first two |
| Schema.NullableInt | shared/schema.ts:26 | a nullable integer column accepts absent, null or a number |
| Schema.NullableDate | shared/schema.ts:17 | a timestamp column accepts only absent or null from JSON |
| Schema.DefaultedText | shared/schema.ts:32-33 | a column with a default accepts absent or a string, never null |
| Schema.DefaultedBool | shared/schema.ts:16 | `isAvailable` distinguishes absent, null and a boolean |
| Schema.ParseInsertUser | shared/schema.ts:87-91 | the body parses iff every column parser accepts its key |
| Schema.ParseInsertDonation | shared/schema.ts:93-97 | the body parses iff every column parser accepts its key |
| Schema.ParseInsertMatch | shared/schema.ts:99-103 | the body parses iff every column parser accepts its key |
| Schema.ParseUserIgnoresOtherKeys | shared/schema.ts:87-91 | keys outside the schema, `id` and the timestamps included, do not affect the result |
| Schema.ParseDonationIgnoresOtherKeys | shared/schema.ts:93-97 | keys outside the schema do not affect the result |
| Schema.ParseMatchIgnoresOtherKeys | shared/schema.ts:99-103 | keys outside the schema do not affect the result |
| Schema.ParseUserNeedsRequired | shared/schema.ts:8-15 | a body missing any of the six required user columns is rejected |
| Schema.UserJsonRoundTrip | shared/schema.ts:87-91 | parsing the body sent for an insert record gives back that record |
| Schema.MatchJsonRoundTrip | shared/schema.ts:99-103 | parsing the body sent for a match gives back that match |
| Schema.DonationJsonRoundTrip | shared/schema.ts:93-97 | parsing the body sent for a donation gives back that donation |
| Storage.MergeUser | server/storage.ts:49-56 | a patch keeps the key and `createdAt` and sets `updatedAt` to now |
| Storage.MergeDonation | server/storage.ts:94-101 | a patch keeps the key and `createdAt` and sets `updatedAt` to now |
| Storage.MergeMatch | server/storage.ts:131-138 | a patch keeps the key and `createdAt` and sets `updatedAt` to now |
| Storage.MergeEmptyOnlyTouches | server/storage.ts:52 | an empty body only refreshes `updatedAt` |
| Storage.MergeIdempotent | server/storage.ts:49-56 | applying a patch twice is applying it once |
| Storage.MergeEmail | server/storage.ts:52 | the email after a patch is the patched one, if any |
| Storage.UsersByBloodGroup | server/storage.ts:58-67 | exactly the users of that group and type whose flag is true |
| Storage.UsersByLocation | server/storage.ts:69-78 | exactly the available users of that type whose location is equal to the argument |
| Storage.UsersByLocationIsExact | server/storage.ts:74 | a user whose location only contains the searched one is not found |
| Storage.DonationsByUser | server/storage.ts:103-108 | exactly the donations the user gives |
| Storage.DonationsByUserSkipsSeeker | server/storage.ts:107 | a donation the user only receives is not returned |
| Storage.DonationsByBloodGroup | server/storage.ts:110-115 | exactly the donations of that group |
| Storage.MatchesForUser | server/storage.ts:140-145 | exactly the matches where the user is the donor |
| Storage.PotentialMatches | server/storage.ts:147-155 | exactly the pending matches of that blood group |
| Storage.PotentialMatchesIgnoreLocation | server/storage.ts:147-155 | the location argument never changes the result |
| Storage.DatabaseStorage.constructor | server/storage.ts:158 | the store starts with three empty tables, and every serial counter at 1 |
| Storage.DatabaseStorage.GetUser | server/storage.ts:31-34 | finds a user iff one has that key |
| Storage.DatabaseStorage.GetUserByEmail | server/storage.ts:36-39 | finds a user iff one has that email |
| Storage.DatabaseStorage.CreateUser | server/storage.ts:41-47 | always spends a serial key; a taken email is rejected with the users unchanged; otherwise the row is appended, and both lookups find it |
| Storage.DatabaseStorage.UpdateUser | server/storage.ts:49-56 | a missing key gives undefined; an email held by another user is rejected; otherwise only that row becomes the merge; the other tables are untouched |
| Storage.DatabaseStorage.GetDonation | server/storage.ts:81-84 | finds a donation iff one has that key |
| Storage.DatabaseStorage.CreateDonation | server/storage.ts:86-92 | spends a serial key; a reference naming no user is rejected; otherwise the row is appended |
| Storage.DatabaseStorage.UpdateDonation | server/storage.ts:94-101 | a missing key gives undefined; a merged reference naming no user is rejected; otherwise only that row changes |
| Storage.DatabaseStorage.GetDonationsByUser | server/storage.ts:103-108 | exactly the donations the user gives |
| Storage.DatabaseStorage.GetDonationsByBloodGroup | server/storage.ts:110-115 | exactly the donations of that group |
| Storage.DatabaseStorage.GetMatch | server/storage.ts:118-121 | finds a match iff one has that key |
| Storage.DatabaseStorage.CreateMatch | server/storage.ts:123-129 | spends a serial key; a reference naming no user is rejected; otherwise the row is appended |
| Storage.DatabaseStorage.UpdateMatch | server/storage.ts:131-138 | a missing key gives undefined; a merged reference naming no user is rejected; otherwise only that row changes |
| Storage.DatabaseStorage.GetMatchesForUser | server/storage.ts:140-145 | exactly the matches where the user is the donor |
| Storage.DatabaseStorage.FindPotentialMatches | server/storage.ts:147-155 | exactly the pending matches of that group |
| Storage.DatabaseStorage.GetUsersByBloodGroup | server/storage.ts:58-67 | exactly the available users of that group and type |
| Storage.DatabaseStorage.GetUsersByLocation | server/storage.ts:69-78 | exactly the available users of that type at that exact location |
| Storage.DatabaseStorage.RefsKeptAfterUserChange | shared/schema.ts:26-27 | inserting or rewriting users with their keys kept leaves every donation and match reference valid |
| Storage.DatabaseStorage.StoredUserFound | shared/schema.ts:9 | with unique keys and emails, each stored user is what both lookups return |
| Routes.ParseInt | server/routes.ts:11 | `parseInt` yields a number iff a digit follows the optional space and sign |
| Routes.ParseIntRoundTrip | server/routes.ts:11 | the decimal text of any key parses back to that key |
| Routes.ParseIntOfDigits | server/routes.ts:11 | a run of digits parses to its value |
| Routes.Key | server/routes.ts:17-19 | a parameter selects a key iff `parseInt` gives a number the `integer` column can hold; anything else makes the query fail |
| Routes.KeyRoundTrip | server/routes.ts:11 | the decimal text of an id selects that id when it is within `integer`, and fails otherwise |
| Routes.ParseIntRejects | server/routes.ts:11 | "abc", "" and " -x" are NaN, and "12abc" parses to 12 |
| Routes.Routes.GetUserRoute | server/routes.ts:9-20 | NaN or a key outside `integer` gives 500; a missing user gives 404; 200 iff the user exists, and then the body is that user |
| Routes.Routes.PostUserRoute | server/routes.ts:22-33 | a schema failure gives 400 with nothing stored and no key spent; a taken email gives 500 with the users unchanged but a key spent; otherwise 201, with the user appended under the next key; donations, matches and their counters are untouched |
| Routes.Routes.PutUserRoute | server/routes.ts:35-47 | NaN or a key outside `integer` gives 500; a missing user gives 404; an existing user whose merged email another user holds gives 500; otherwise 200 with the merged row, which replaces that user's row and no other; on any other status the users are unchanged; the other tables and all counters are untouched |
| Routes.Routes.UsersByBloodGroupRoute | server/routes.ts:49-57 | 200 with exactly the available users of that group and type |
| Routes.Routes.UsersByLocationRoute | server/routes.ts:59-67 | 200 with exactly the available users of that type at that location |
| Routes.Routes.GetDonationRoute | server/routes.ts:70-81 | NaN or a key outside `integer` gives 500; 200 iff the donation exists, 404 otherwise |
| Routes.Routes.PostDonationRoute | server/routes.ts:83-94 | a schema failure gives 400 with nothing stored and no key spent; a dangling reference gives 500 with the donations unchanged but a key spent; otherwise 201, with the donation appended under the next key; users, matches and their counters are untouched |
| Routes.Routes.PutDonationRoute | server/routes.ts:96-108 | NaN or a key outside `integer` gives 500; a missing donation gives 404; a merged row with a dangling reference gives 500; otherwise 200 with the merged row, which replaces that donation's row and no other; on any other status the donations are unchanged; the other tables and all counters are untouched |
| Routes.Routes.DonationsByUserRoute | server/routes.ts:110-118 | NaN or a key outside `integer` gives 500; otherwise 200 with the donations the user gives |
| Routes.Routes.DonationsByBloodGroupRoute | server/routes.ts:120-128 | 200 with exactly the donations of that group |
| Routes.Routes.GetMatchRoute | server/routes.ts:131-142 | NaN or a key outside `integer` gives 500; 200 iff the match exists, 404 otherwise |
| Routes.Routes.PostMatchRoute | server/routes.ts:144-155 | a schema failure gives 400 with nothing stored and no key spent; a dangling reference gives 500 with the matches unchanged but a key spent; otherwise 201, with the match appended under the next key; users, donations and their counters are untouched |
| Routes.Routes.PutMatchRoute | server/routes.ts:157-169 | NaN or a key outside `integer` gives 500; a missing match gives 404; a merged row with a dangling reference gives 500; otherwise 200 with the merged row, which replaces that match's row and no other; on any other status the matches are unchanged; the other tables and all counters are untouched |
| Routes.Routes.MatchesForUserRoute | server/routes.ts:171-179 | NaN or a key outside `integer` gives 500; otherwise 200 with the matches where the user is donor |
| Routes.Routes.FindMatchesRoute | server/routes.ts:181-189 | 200 with exactly the pending matches of that group |
| Routes.Routes.LoginRoute | server/routes.ts:192-204 | an unknown email gives 401; 200 iff the email is stored, with that user and the mock token |
| Routes.Routes.RegisterRoute | server/routes.ts:206-221 | a schema failure or a taken email gives 400 with nothing stored and no key spent; otherwise 201 with the user appended under the next key and the mock token, and a login with that email then succeeds; donations, matches and their counters are untouched |
| EligibilityQuiz.DisqualifiesExactly | src/components/EligibilityQuiz.tsx:23-68 | the answers marked disqualifying in the question list are exactly six (question, answer) pairs |
| EligibilityQuiz.DisqualifyingAnswers | src/components/EligibilityQuiz.tsx:83-87 | exactly the answered questions whose answer is disqualifying |
| EligibilityQuiz.Score | src/components/EligibilityQuiz.tsx:90 | 100 minus 25 per disqualifying answer for up to four, and 0 from four on; 100 iff none |
| EligibilityQuiz.ScoreAntitone | src/components/EligibilityQuiz.tsx:90 | more disqualifying answers never raise the score |
| EligibilityQuiz.CompletionViewAgrees | src/components/EligibilityQuiz.tsx:107-111 | the completion view's check agrees with the eligibility computed at completion |
| EligibilityQuiz.Completion | src/components/EligibilityQuiz.tsx:82-101 | the reported score is the score of the number of disqualifying answers; eligible iff no answer is disqualifying, iff that score is 100 |
| EligibilityQuiz.Quiz.constructor | src/components/EligibilityQuiz.tsx:19-21 | starts at the first question with no answers, not complete |
| EligibilityQuiz.Quiz.HandleAnswer | src/components/EligibilityQuiz.tsx:70-72 | records the answer for the current question and keeps the others; a non-empty answer enables Next |
| EligibilityQuiz.Quiz.HandleNext | src/components/EligibilityQuiz.tsx:74-80 | moves to the next question, or at the last one completes and reports the outcome |
| EligibilityQuiz.Quiz.Previous | src/components/EligibilityQuiz.tsx:177 | goes back one question, never below the first |
| DonorTrustScore.Round | client/src/components/DonorTrustScore.tsx:36 | `Math.round`: the nearest integer, with halves rounded up |
| DonorTrustScore.RoundMonotone | client/src/components/DonorTrustScore.tsx:36 | rounding preserves order |
| DonorTrustScore.DonationPoints | client/src/components/DonorTrustScore.tsx:25 | 8 points per donation, at most 40 |
| DonorTrustScore.TrustScore | client/src/components/DonorTrustScore.tsx:21-37 | at most 100, non-negative for non-negative statistics; 100 iff the raw score is at least 99.5, and the rounded raw score below that |
| DonorTrustScore.VerificationBonus | client/src/components/DonorTrustScore.tsx:34 | verification adds exactly 10 raw points |
| DonorTrustScore.TrustScoreMonotone | client/src/components/DonorTrustScore.tsx:21-37 | better statistics never lower the score |
| DonorTrustScore.PerfectDonor | client/src/components/DonorTrustScore.tsx:21-37 | five donations, perfect rates and verification give 100 |
| DonorTrustScore.TrustLevel | client/src/components/DonorTrustScore.tsx:39-65 | Platinum iff ≥ 90, Gold iff 75..89, Silver iff 60..74, Bronze iff 40..59, New Donor iff below 40 |
| DonorTrustScore.TrustLevelMonotone | client/src/components/DonorTrustScore.tsx:39-65 | a higher score never gives a lower tier |
| DonorTrustScore.LabelsDistinct | client/src/components/DonorTrustScore.tsx:39-65 | the tiers have distinct labels and colours |
| RegisterPage.InitialForm | src/pages/Register.tsx:19-30 | the form starts with exactly the ten fields, all empty |
| RegisterPage.MissingRequiredMeans | src/pages/Register.tsx:40 | the submit check fails iff one of name, email, blood group or location is empty |
| RegisterPage.OnlyRequiredFieldsChecked | src/pages/Register.tsx:40 | no field outside those four affects the check |
| RegisterPage.AgeNotChecked | src/pages/Register.tsx:40 | the age is not checked |
| RegisterPage.DefaultType | src/pages/Register.tsx:17 | a missing or empty `type` parameter selects the donor tab |
| RegisterPage.Register.constructor | src/pages/Register.tsx:19-30 | the page starts with the empty form, no toasts and no navigation |
| RegisterPage.Register.HandleInputChange | src/pages/Register.tsx:34-36 | sets one field and keeps every other |
| RegisterPage.Register.HandleSubmit | src/pages/Register.tsx:38-56 | a missing required field shows the error toast and stays; otherwise shows the welcome toast and goes to the dashboard |
| RegisterPage.FillAndSubmit | src/pages/Register.tsx:38-56 | filling the four required fields lets any submission through |
| RegisterPage.SubmitEmpty | src/pages/Register.tsx:40-47 | an untouched form is rejected |
| SosCountdown.SosButton.constructor | client/src/components/EmergencySOSButton.tsx:17-18 | starts inactive at countdown 0 with no timers |
| SosCountdown.SosButton.RenderMode | client/src/components/EmergencySOSButton.tsx:57-131 | shows the confirming card iff active with a positive countdown, the broadcasting card iff active at 0, and idle iff inactive |
| SosCountdown.SosButton.Press | client/src/components/EmergencySOSButton.tsx:20-36 | ignored while active; otherwise activates at 3 and starts one more interval |
| SosCountdown.SosButton.Tick | client/src/components/EmergencySOSButton.tsx:26-35 | at 1 or below, clears its interval and triggers the emergency, scheduling a reset; otherwise counts down; the active flag is not consulted |
| SosCountdown.SosButton.Cancel | client/src/components/EmergencySOSButton.tsx:52-55 | back to idle at 0 with the intervals still running |
| SosCountdown.SosButton.ResetTimeout | client/src/components/EmergencySOSButton.tsx:47-49 | the 30-second reset deactivates |
| SosCountdown.PressAndWait | client/src/components/EmergencySOSButton.tsx:20-50 | three seconds after a press, the emergency has been triggered once, and the broadcasting card shows |
| SosCountdown.CancelDoesNotStopCountdown | client/src/components/EmergencySOSButton.tsx:26-55 | a cancelled countdown still triggers the emergency |
| SosCountdown.PressAfterCancelTriggersTwice | client/src/components/EmergencySOSButton.tsx:20-55 | pressing again after a cancel triggers the emergency twice |
| SosResponses.Step | src/components/EmergencySOSButton.tsx:30-39 | one firing adds the draw and caps the count at 247; the interval keeps running iff the cap was not reached |
| SosResponses.Run | src/components/EmergencySOSButton.tsx:30-39 | the count never decreases and never exceeds 247; it grows by at most 5 per firing, and strictly while below the cap |
| SosResponses.RunReachesCap | src/components/EmergencySOSButton.tsx:30-39 | enough firings always reach the cap |
| SosResponses.TimeoutComesFirst | src/components/EmergencySOSButton.tsx:30-49 | within the 20 firings before the timeout, the count stays at 100 or below, short of the cap |
| SosResponses.SosResponder.constructor | src/components/EmergencySOSButton.tsx:12-13 | starts inactive with count 0 and no messages |
| SosResponses.SosResponder.Press | src/components/EmergencySOSButton.tsx:16-28 | ignored while active; otherwise resets the count, shows the activation toast ("Broadcasting to all compatible donors within 10km...") and starts the interval and the timeout, which captures the previous count |
| SosResponses.SosResponder.Tick | src/components/EmergencySOSButton.tsx:30-39 | one firing is one `Step`, and the count strictly increases |
| SosResponses.SosResponder.Timeout | src/components/EmergencySOSButton.tsx:42-49 | deactivates and reports the captured count |
| SosResponses.FirstActivationReportsZero | src/components/EmergencySOSButton.tsx:16-49 | the first activation shows the activation toast and then reports 0 donors, whatever came in |
| SosResponses.SecondActivationReportsPrevious | src/components/EmergencySOSButton.tsx:16-49 | a second activation shows the activation toast again and then reports the first one's final count |
| BloodDemandHeatmap.Pick | client/src/components/BloodDemandHeatmap.tsx:21-35 | `Math.floor(random * n)` is a valid index |
| BloodDemandHeatmap.MakeItem | client/src/components/BloodDemandHeatmap.tsx:27-34 | each generated entry draws its location, type, urgency and hospital from the lists, and 1 to 10 units |
| BloodDemandHeatmap.GenerateMockData | client/src/components/BloodDemandHeatmap.tsx:21-35 | exactly twelve entries, entry i from draws i |
| BloodDemandHeatmap.FilteredData | client/src/components/BloodDemandHeatmap.tsx:67-69 | "all" shows everything; otherwise exactly the entries of that type, each as often as it occurs |
| BloodDemandHeatmap.FilterCounts | client/src/components/BloodDemandHeatmap.tsx:67-69 | the filter keeps every matching entry's multiplicity and drops the rest |
| BloodDemandHeatmap.FilteredDataKeepsOrder | client/src/components/BloodDemandHeatmap.tsx:67-69 | the filter keeps batch order: it distributes over concatenation and keeps a single entry iff the filter admits it |
| BloodDemandHeatmap.CriticalCount | client/src/components/BloodDemandHeatmap.tsx:71 | at most the batch size; 0 iff no entry is critical |
| BloodDemandHeatmap.CriticalCountAdds | client/src/components/BloodDemandHeatmap.tsx:71 | the count adds up over concatenation, and a single entry counts 1 iff it is critical, so it is the number of critical entries |
| BloodDemandHeatmap.CriticalCountIgnoresFilter | client/src/components/BloodDemandHeatmap.tsx:67-71 | the header's count is never below the count over the filtered entries |
| BloodDemandHeatmap.UrgencyColor | client/src/components/BloodDemandHeatmap.tsx:47-55 | an unknown urgency is grey |
| BloodDemandHeatmap.UrgencyColorsDistinct | client/src/components/BloodDemandHeatmap.tsx:47-55 | the four urgencies have distinct colours, none of them grey |
| BloodDemandHeatmap.Heatmap.constructor | client/src/components/BloodDemandHeatmap.tsx:16-17 | no data, filter "all" |
| BloodDemandHeatmap.Heatmap.Refresh | client/src/components/BloodDemandHeatmap.tsx:37-45 | a new batch of twelve replaces the data and keeps the filter |
| BloodDemandHeatmap.Heatmap.Select | client/src/components/BloodDemandHeatmap.tsx:17 | changes the filter only |
| BloodDemandHeatmap.Heatmap.Shown | client/src/components/BloodDemandHeatmap.tsx:67-69 | the filtered data: everything under "all", and otherwise exactly the stored entries of the selected type |
| BloodDemandHeatmap.Heatmap.Critical | client/src/components/BloodDemandHeatmap.tsx:71 | the critical count of the whole batch, whatever the filter |
| ThemeContext.InitialTheme | src/contexts/ThemeContext.tsx:29-39 | a saved non-empty value wins, then a dark system preference, then light |
| ThemeContext.NextTheme | src/contexts/ThemeContext.tsx:61-63 | dark becomes light, and every other theme becomes dark |
| ThemeContext.ToggleTwice | src/contexts/ThemeContext.tsx:61-63 | toggling twice restores dark or light, but turns emergency or healthcare into light |
| ThemeContext.AppliedClasses | src/contexts/ThemeContext.tsx:41-59 | of the three theme classes, the root keeps exactly the theme's own (if it is one of them); other classes are untouched |
| ThemeContext.DarkClassIffDarkMode | src/contexts/ThemeContext.tsx:49-65 | the root has the dark class iff `isDarkMode` |
| ThemeContext.ApplyIdempotent | src/contexts/ThemeContext.tsx:41-59 | running the effect again changes nothing |
| ThemeContext.ThemeProvider.constructor | src/contexts/ThemeContext.tsx:27-59 | after mount: the initial theme, its classes applied, and it saved under "bloodmatch-theme" |
| ThemeContext.ThemeProvider.ApplyTheme | src/contexts/ThemeContext.tsx:41-59 | the class effect: applies the theme's class and saves the theme |
| ThemeContext.ThemeProvider.SetTheme | src/contexts/ThemeContext.tsx:27 | a new theme runs the effect; the same theme changes nothing |
| ThemeContext.ThemeProvider.ToggleDarkMode | src/contexts/ThemeContext.tsx:61-63 | flips dark mode, then applies and saves the new theme |
| ThemeContext.UnknownSavedTheme | src/contexts/ThemeContext.tsx:31 | an unrecognised saved value is used as the theme: no class, not dark, written back as it was |

## Left out

- `@Email` format checking is not modelled.
- UserRepository.UserTable.Insert: stores an entity that breaks its bean validation constraints. JPA validates on persist and throws `ConstraintViolationException` instead. `UserService.createUser` is the caller affected.
- UserRepository.UserTable.Update: stores an invalid entity (an age of 10, say) where JPA's pre-update validation throws. `UserService.updateUser` is the caller affected.
- DonationRepository.DonationTable.Insert: stores an entity that breaks its constraints where JPA's persist validation throws (`DonationService.createDonation`).
- DonationRepository.DonationTable.Update: stores an invalid entity where JPA's pre-update validation throws (`DonationService.updateDonation`).
- DonationRepository.DonationTable.Insert: does not check foreign keys. A donation whose donor or seeker names no stored user is appended. In the source, the database's foreign key rejects that insert, and `DonationController.createDonation` answers 400.
- DonationRepository.DonationTable.Update: does not check foreign keys either, so a donor or seeker naming no stored user is written.
- DonationService.DonationService.CreateDonation: inherits the missing foreign key check from `DonationTable.Insert`, and returns the appended row where the source throws.
- MatchRepository.MatchTable.Insert: does not check foreign keys. A match whose donor or seeker names no stored user is appended, where the database's foreign key rejects it.
- MatchRepository.MatchTable.Update: does not check foreign keys either.
- MatchRepository.MatchTable.Insert: stores an entity that breaks its constraints where JPA's persist validation throws (`MatchService.createAutomaticMatches` with a blank blood group).
- MatchRepository.MatchTable.Update: stores an invalid entity (a score of 150, say) where JPA's pre-update validation throws (`MatchService.updateMatch`).
- UserRepository.UserTable.Insert requires a free email, which is the only way the services call it; the database's rejection of a duplicate email is not modelled on the Java side.
- New entities must have a null id before `save`. A `save` of a detached entity with an id is not modelled.
- Case folding covers ASCII letters only. Java's full Unicode `toLowerCase` is not modelled.
- UserRepository.LikeIsCaseSensitive assumes the database's default collation compares case-sensitively, as PostgreSQL's does. Under a case-insensitive collation, `LIKE` would match both ways.
- The `com.bloodmatch` services import `User`, `Match`, `UserRepository` and `MatchRepository`, and none of these is in the repository under that package. The `com.hemoglobe` entity and repository classes stand in for them. The cascade on user deletion comes from the stand-in `User`. In the other direction, `com.hemoglobe.controller.AuthController` imports `com.hemoglobe.service.UserService`, which is not in the repository. `com.bloodmatch.service.UserService` (modelled as `UserService.UserService`) stands in for it.
- `LIKE` patterns are taken literally. `%` and `_` inside a search argument are not treated as wildcards.
- MatchRepository.FindHighCompatibilityMatches: a null `minScore` is not modelled. The order among matches with equal scores is left unspecified, as SQL leaves it.
- A match's or donation's donor and seeker are snapshots of the user rows. Lazy loading and proxies are not modelled.
- MatchRepository.FindPendingMatchesByLocation reads the parties' locations from the snapshots held in the match rows. The source's JPQL joins the current user rows instead. After `UserService.updateUser` moves a user, the source's query uses the new location, but the model still uses the location at the time the match was saved.
- MatchService.MatchService.FindPotentialMatches inherits that gap: after a party's location changes, the model's answer follows the old location.
- Floating point: decimals, `Double` and JavaScript numbers are reals. Drizzle decimals are strings.
- Random draws (`Math.random`) are parameters. Clock readings (`now`) are parameters.
- The Spring controllers other than `AuthController` are not part of this model. `MatchController`, `UserController` and `DonationController` only forward to the services.
- `MatchService.createMatch`, `deleteMatch` and `getMatchById` are not modelled as service members. Each is one repository call, modelled by `MatchTable.Insert`, `MatchTable.DeleteById` and `FindById`.
- The non-core getters are not modelled: `getAll*`, `getMatchesByDonor`, `getMatchesBySeeker`, `getMatchesByStatus`, `getDonationsByStatus` and the like. Each is a single repository query already modelled above.
- zod's error details are not modelled; a schema failure is one error value.
- Storage.DatabaseStorage.CreateUser: does not enforce the column types. An `age` outside the 32-bit `integer` range is stored, and so is a `weight` string that is not a number. PostgreSQL rejects both, and the insert fails.
- Storage.DatabaseStorage.UpdateUser: does not enforce the column types. An out-of-range `age` or a non-numeric `weight` is written where PostgreSQL rejects the update.
- Storage.DatabaseStorage.CreateDonation: does not enforce the column types. A non-numeric `amount` string is stored where PostgreSQL rejects the insert.
- Storage.DatabaseStorage.UpdateDonation: does not enforce the column types. A non-numeric `amount` is written where PostgreSQL rejects the update.
- Storage.DatabaseStorage.CreateMatch: does not enforce the column types. A `compatibilityScore` outside the 32-bit range or a non-numeric `distance` is stored where PostgreSQL rejects the insert.
- Storage.DatabaseStorage.UpdateMatch: does not enforce the column types. An out-of-range `compatibilityScore` or a non-numeric `distance` is written where PostgreSQL rejects the update.
- Routes.Routes.PostUserRoute: inherits the column-type gap from `CreateUser`. An `age` outside the 32-bit range, or a non-numeric `weight`, answers 201 here, where the source answers 500 "Failed to create user".
- Routes.Routes.RegisterRoute: inherits the same gap. Such a body answers 201 here, where the source answers 500 "Registration failed".
- Routes.Routes.PostDonationRoute: a non-numeric `amount` answers 201 here, where the source answers 500.
- Routes.Routes.PostMatchRoute: an out-of-range `compatibilityScore` or a non-numeric `distance` answers 201 here, where the source answers 500.
- Routes.Routes.PutUserRoute: the raw request body goes to `.set()` unchecked, but the model's patch holds only the insert columns. The source writes an `id` key too, re-keying the row or answering 500 if that key is taken or still referenced. A `createdAt` string or a null for a not-null column also answers 500. The model cannot express any of these bodies. An out-of-range `age` or a non-numeric `weight` answers 200 here, where the source answers 500 (see `UpdateUser`).
- Routes.Routes.PutDonationRoute: the model cannot express a body with an `id` key, a `createdAt` key or a null for a not-null column. The source re-keys the row for the first, or answers 500. A non-numeric `amount` answers 200 here, where the source answers 500.
- Routes.Routes.PutMatchRoute: the model cannot express a body with an `id` key, a `createdAt` key or a null for a not-null column. The source re-keys the row for the first, or answers 500. An out-of-range `compatibilityScore` or a non-numeric `distance` answers 200 here, where the source answers 500.
- Routes.ParseInt: hexadecimal prefixes ("0x10" is 16 to `parseInt`, 0 here) are not modelled. Rounding of numbers beyond 2^53 is not modelled either. Any such value is outside `integer`, so the route answers 500 either way.
- The order of SQL results without `ORDER BY` is taken to be storage order.
- Routes.Routes.LoginRoute: an absent or non-string email in the body is not modelled; the email is a parameter.
- Timers are method calls. Each interval or timeout firing is one call, and elapsed time is not modelled.
- The quiz's toasts and its reload button are not modelled. The toast title is not modelled either.
- SosResponses.SosResponder.Press: records each toast by its description only. The titles ("🚨 Emergency SOS Activated", "✅ SOS Response Complete") and the five-second duration are not modelled.
- The heatmap's `getUrgencyIcon` is not modelled, and neither is its rendering.
- JSX rendering, styling and icons are not modelled, beyond which card or class is shown.
- `NaN` inputs to the trust score are not modelled.
- The trust score's `lastDonation` field is unused by the source and carries no meaning here.
- The random "donors alerted" number rendered by the client SOS button is not modelled.
- `console.log` calls are not modelled.
- ThemeContext.ThemeProvider.constructor states the net effect of mount. The first class effect runs with 'light' before the saved theme arrives; it is overwritten, so only the final classes and storage are stated.
- `MapView`, `Dashboard`, `Profile`, `Features`, `Mockups`, `Index` and `server/db.ts` are not part of this model.
