/** Submission of the registration form (src/pages/auth/Register.tsx, `handleSubmit`):
    a fixed three-step plan against the backend — sign-up, a `profiles` insert, then an
    optional `restaurants` or `drivers` insert — where each step runs only if the one
    before it succeeded, nothing is rolled back, and the outcome becomes a message. */
module RegisterSubmit {
  import opened Options
  import opened RegisterForm

  datatype PersonName = PersonName(firstName: string, lastName: string)

  /** The `profiles` row; `name` stands for the optional `first_name`/`last_name` pair. */
  datatype ProfileRow = ProfileRow(userId: string, role: Role, phone: string, name: Option<PersonName>)

  datatype RestaurantRow = RestaurantRow(profileId: string, name: string, cuisineType: string,
                                         address: string, openingHours: map<string, DayHours>)

  datatype DriverRow = DriverRow(profileId: string, vehicleType: string,
                                 availability: map<string, DayAvailability>)

  /** A request the page sends to the backend. There is no delete: nothing is ever undone. */
  datatype Request =
    | SignUp(email: string, password: string, role: Role)
    | InsertProfile(profile: ProfileRow)
    | InsertRestaurant(restaurant: RestaurantRow)
    | InsertDriver(driver: DriverRow)

  datatype Table = Profiles | Restaurants | Drivers

  function TableOf(req: Request): Option<Table>
  {
    match req
    case SignUp(_, _, _) => None
    case InsertProfile(_) => Some(Profiles)
    case InsertRestaurant(_) => Some(Restaurants)
    case InsertDriver(_) => Some(Drivers)
  }

  /** How many of `reqs` insert into `t`. */
  function Inserts(reqs: seq<Request>, t: Table): nat
  {
    if reqs == [] then 0
    else Inserts(reqs[..|reqs| - 1], t) + (if TableOf(reqs[|reqs| - 1]) == Some(t) then 1 else 0)
  }

  /** A value caught by the handler: `isError` says whether it is an `Error` instance. */
  datatype Thrown = Thrown(isError: bool, message: string)

  /** What sign-up returned: an error, or data whose `user` (its id here) may be missing. */
  datatype SignUpResponse = SignUpFailed(error: Thrown) | SignUpDone(user: Option<string>)

  datatype InsertResponse = Inserted | InsertFailed(error: Thrown)

  /** The requests issued, in order, and the error and success messages left on the page. */
  datatype Submission = Submission(requests: seq<Request>, error: Option<string>, success: Option<string>)

  const AlreadyRegistered := "User already registered"
  const AlreadyRegisteredMessage := "Un compte existe déjà avec cette adresse email"
  const GenericMessage := "Une erreur est survenue lors de l'inscription"

  /** The error raised when sign-up returns no user. */
  const NoUserData := Thrown(true, "No user data")

  function SignUpRequest(f: Form): (req: Request)
    ensures req.SignUp? && req.role == RoleOf(f)
    ensures req.email == Fields(f)["email"] && req.password == Fields(f)["password"]
  {
    SignUp(f.email, f.password, RoleOf(f))
  }

  /** The `profiles` row for the new user. */
  function ProfileRecord(f: Form, userId: string): (p: ProfileRow)
    ensures p.userId == userId && p.role == RoleOf(f) && p.phone == Fields(f)["phone"]
    ensures p.name.Some? <==> RoleOf(f) == Client || RoleOf(f) == Driver
    ensures p.name.Some? ==>
      p.name.value == PersonName(Fields(f)["firstName"], Fields(f)["lastName"])
  {
    match f
    case ClientForm(_, _, ph, fn, ln, _) => ProfileRow(userId, Client, ph, Some(PersonName(fn, ln)))
    case RestaurantForm(_, _, ph, _, _, _, _) => ProfileRow(userId, Restaurant, ph, None)
    case DriverForm(_, _, ph, fn, ln, _, _) => ProfileRow(userId, Driver, ph, Some(PersonName(fn, ln)))
  }

  /** The role-specific insert for the new user, if the role has one. */
  function RoleRecord(f: Form, userId: string): (req: Option<Request>)
    ensures req.None? <==> f.ClientForm?
    ensures f.RestaurantForm? ==> req == Some(InsertRestaurant(RestaurantRow(
      userId, Fields(f)["restaurantName"], Fields(f)["cuisineType"], Fields(f)["address"], f.openingHours)))
    ensures f.DriverForm? ==> req == Some(InsertDriver(DriverRow(
      userId, Fields(f)["vehicleType"], f.availability)))
  {
    match f
    case ClientForm(_, _, _, _, _, _) => None
    case RestaurantForm(_, _, _, rn, ad, ct, oh) => Some(InsertRestaurant(RestaurantRow(userId, rn, ct, ad, oh)))
    case DriverForm(_, _, _, _, _, vt, av) => Some(InsertDriver(DriverRow(userId, vt, av)))
  }

  /** Every request the submission would send if every step succeeded. */
  function FullPlan(f: Form, userId: string): (plan: seq<Request>)
    ensures |plan| == (if f.ClientForm? then 2 else 3)
  {
    [SignUpRequest(f), InsertProfile(ProfileRecord(f, userId))] +
    match RoleRecord(f, userId)
    case None => []
    case Some(req) => [req]
  }

  /** The label of the role in the success message; drivers are called `livreur`.
      The three labels differ, so the message names the role that registered. */
  function RoleLabel(role: Role): (text: string)
    ensures text == "livreur" <==> role == Driver
    ensures role != Driver ==> text == RoleName(role)
  {
    match role
    case Client => "client"
    case Restaurant => "restaurant"
    case Driver => "livreur"
  }

  const SuccessLead := "Inscription réussie en tant que "
  const SuccessTail := " ! Veuillez confirmer votre email avant de vous connecter."

  /** The success message: the fixed lead, the role's label, then the request to confirm the email. */
  function SuccessMessage(role: Role): (m: string)
    ensures |m| == |SuccessLead| + |RoleLabel(role)| + |SuccessTail|
    ensures m[..|SuccessLead|] == SuccessLead
    ensures m[|SuccessLead|..|SuccessLead| + |RoleLabel(role)|] == RoleLabel(role)
    ensures m[|SuccessLead| + |RoleLabel(role)|..] == SuccessTail
  {
    SuccessLead + RoleLabel(role) + SuccessTail
  }

  /** The message shown for a caught value; a value that is not an `Error` shows nothing. */
  function ErrorMessage(t: Thrown): (m: Option<string>)
    ensures m.Some? <==> t.isError
    ensures m == Some(AlreadyRegisteredMessage) <==> t.isError && t.message == AlreadyRegistered
    ensures m.Some? && t.message != AlreadyRegistered ==> m.value == GenericMessage
  {
    if !t.isError then None
    else if t.message == AlreadyRegistered then Some(AlreadyRegisteredMessage)
    else Some(GenericMessage)
  }

  function Failed(requests: seq<Request>, t: Thrown): Submission
  {
    Submission(requests, ErrorMessage(t), None)
  }

  /** Whether sign-up produced a user, which is what lets the profile insert run. */
  predicate ProfileStepRuns(signUp: SignUpResponse)
  {
    signUp.SignUpDone? && signUp.user.Some?
  }

  /** The submit handler, given the backend's answer to each step it may run. */
  function Submit(f: Form, signUp: SignUpResponse, profile: InsertResponse, roleInsert: InsertResponse)
    : (r: Submission)
    ensures 1 <= |r.requests| <= 3 && r.requests[0] == SignUpRequest(f)
    ensures |r.requests| >= 2 <==> ProfileStepRuns(signUp)
    ensures |r.requests| == 3 <==> ProfileStepRuns(signUp) && profile.Inserted? && !f.ClientForm?
    ensures ProfileStepRuns(signUp) ==> r.requests == FullPlan(f, signUp.user.value)[..|r.requests|]
    ensures r.success.Some? <==>
      ProfileStepRuns(signUp) && profile.Inserted? && (f.ClientForm? || roleInsert.Inserted?)
    ensures r.success.Some? ==> r.success.value == SuccessMessage(RoleOf(f)) && r.error.None?
    ensures signUp.SignUpFailed? ==> r.error == ErrorMessage(signUp.error)
    ensures signUp == SignUpDone(None) ==> r.error == Some(GenericMessage)
    ensures ProfileStepRuns(signUp) && profile.InsertFailed? ==> r.error == ErrorMessage(profile.error)
    ensures ProfileStepRuns(signUp) && profile.Inserted? && !f.ClientForm? && roleInsert.InsertFailed?
      ==> r.error == ErrorMessage(roleInsert.error)
  {
    var first := SignUpRequest(f);
    match signUp
    case SignUpFailed(t) => Failed([first], t)
    case SignUpDone(None) => Failed([first], NoUserData)
    case SignUpDone(Some(userId)) =>
      var second := InsertProfile(ProfileRecord(f, userId));
      match profile
      case InsertFailed(t) => Failed([first, second], t)
      case Inserted =>
        match RoleRecord(f, userId)
        case None => Submission([first, second], None, Some(SuccessMessage(RoleOf(f))))
        case Some(third) =>
          match roleInsert
          case InsertFailed(t) => Failed([first, second, third], t)
          case Inserted => Submission([first, second, third], None, Some(SuccessMessage(RoleOf(f))))
  }

  /** Which tables a submission writes to, for every role and every backend answer:
      one profile once sign-up yields a user, one role row once the profile is in,
      and never the other role's table. */
  lemma SubmitInsertCounts(f: Form, signUp: SignUpResponse, profile: InsertResponse, roleInsert: InsertResponse)
    ensures var reqs := Submit(f, signUp, profile, roleInsert).requests;
      && Inserts(reqs, Profiles) == (if ProfileStepRuns(signUp) then 1 else 0)
      && Inserts(reqs, Restaurants) == (if f.RestaurantForm? && |reqs| == 3 then 1 else 0)
      && Inserts(reqs, Drivers) == (if f.DriverForm? && |reqs| == 3 then 1 else 0)
  {
    var reqs := Submit(f, signUp, profile, roleInsert).requests;
    forall t: Table
      ensures Inserts(reqs, t) == InsertsOfShort(reqs, t)
    {
      InsertsOfShortIsInserts(reqs, t);
    }
  }

  /** `Inserts` written out for the at most three requests a submission sends. */
  function InsertsOfShort(reqs: seq<Request>, t: Table): nat
    requires |reqs| <= 3
  {
    (if |reqs| > 0 && TableOf(reqs[0]) == Some(t) then 1 else 0) +
    (if |reqs| > 1 && TableOf(reqs[1]) == Some(t) then 1 else 0) +
    (if |reqs| > 2 && TableOf(reqs[2]) == Some(t) then 1 else 0)
  }

  lemma InsertsOfShortIsInserts(reqs: seq<Request>, t: Table)
    requires |reqs| <= 3
    ensures Inserts(reqs, t) == InsertsOfShort(reqs, t)
  {
  }

  /** A restaurant whose sign-up and profile succeed gets exactly one `restaurants` row,
      keyed by the new user's id, and no `drivers` row. */
  lemma RestaurantSubmitWritesOneRestaurant(f: Form, userId: string, roleInsert: InsertResponse)
    requires f.RestaurantForm?
    ensures var reqs := Submit(f, SignUpDone(Some(userId)), Inserted, roleInsert).requests;
      && Inserts(reqs, Restaurants) == 1 && Inserts(reqs, Drivers) == 0
      && reqs[2] == InsertRestaurant(RestaurantRow(userId, f.restaurantName, f.cuisineType,
                                                   f.address, f.openingHours))
  {
    SubmitInsertCounts(f, SignUpDone(Some(userId)), Inserted, roleInsert);
  }

  /** A driver whose sign-up and profile succeed gets exactly one `drivers` row,
      keyed by the new user's id, and no `restaurants` row. */
  lemma DriverSubmitWritesOneDriver(f: Form, userId: string, roleInsert: InsertResponse)
    requires f.DriverForm?
    ensures var reqs := Submit(f, SignUpDone(Some(userId)), Inserted, roleInsert).requests;
      && Inserts(reqs, Drivers) == 1 && Inserts(reqs, Restaurants) == 0
      && reqs[2] == InsertDriver(DriverRow(userId, f.vehicleType, f.availability))
  {
    SubmitInsertCounts(f, SignUpDone(Some(userId)), Inserted, roleInsert);
  }

  /** A client submission never writes a third row, whatever the backend answers. */
  lemma ClientSubmitHasNoRoleRow(f: Form, signUp: SignUpResponse, profile: InsertResponse, roleInsert: InsertResponse)
    requires f.ClientForm?
    ensures var reqs := Submit(f, signUp, profile, roleInsert).requests;
      |reqs| <= 2 && Inserts(reqs, Restaurants) == 0 && Inserts(reqs, Drivers) == 0
  {
    SubmitInsertCounts(f, signUp, profile, roleInsert);
  }

  /** A failed step leaves the earlier ones in place: the identity created by sign-up
      stays when the profile insert fails, and nothing compensating is sent. */
  lemma FailedProfileKeepsIdentity(f: Form, userId: string, t: Thrown, roleInsert: InsertResponse)
    ensures var r := Submit(f, SignUpDone(Some(userId)), InsertFailed(t), roleInsert);
      && r.requests == [SignUpRequest(f), InsertProfile(ProfileRecord(f, userId))]
      && r.success.None? && r.error == ErrorMessage(t)
  {
  }
}
