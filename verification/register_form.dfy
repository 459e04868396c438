/** The role-aware registration form of the sign-up page (src/pages/auth/Register.tsx):
    a record whose shape depends on the selected account kind, the reset that
    rebuilds it whenever the kind changes, and the per-field and per-day edit
    handlers that overwrite one part of it. */
module RegisterForm {
  import opened Options

  /** The three account kinds the sign-up page offers. */
  datatype Role = Client | Restaurant | Driver

  /** The role as spelled in the form's `role` select and in the rows sent to the backend. */
  function RoleName(role: Role): string
  {
    match role
    case Client => "client"
    case Restaurant => "restaurant"
    case Driver => "driver"
  }

  /** Reads the value of the role select; anything but the three names is no role. */
  function ParseRole(value: string): (r: Option<Role>)
    ensures r.Some? ==> RoleName(r.value) == value
    ensures r.None? ==> forall role: Role :: RoleName(role) != value
  {
    if value == "client" then Some(Client)
    else if value == "restaurant" then Some(Restaurant)
    else if value == "driver" then Some(Driver)
    else None
  }

  /** The keys of every weekly map of the form, in display order. */
  const DaysOfWeek: seq<string> :=
    ["Lundi", "Mardi", "Mercredi", "Jeudi", "Vendredi", "Samedi", "Dimanche"]

  function Days(): set<string>
  {
    set d | d in DaysOfWeek
  }

  /** A restaurant's opening and closing time for one day; times are opaque strings. */
  datatype DayHours = DayHours(open: string, close: string)

  datatype TimeRange = TimeRange(start: string, end: string)

  /** A driver's availability for one day. */
  datatype DayAvailability = DayAvailability(available: bool, hours: seq<TimeRange>)

  /** The form record. The constructor is the `role` discriminator of the TypeScript union type. */
  datatype Form =
    | ClientForm(email: string, password: string, phone: string,
                 firstName: string, lastName: string, deliveryAddress: string)
    | RestaurantForm(email: string, password: string, phone: string,
                     restaurantName: string, address: string, cuisineType: string,
                     openingHours: map<string, DayHours>)
    | DriverForm(email: string, password: string, phone: string,
                 firstName: string, lastName: string, vehicleType: string,
                 availability: map<string, DayAvailability>)

  function RoleOf(f: Form): Role
  {
    match f
    case ClientForm(_, _, _, _, _, _) => Client
    case RestaurantForm(_, _, _, _, _, _, _) => Restaurant
    case DriverForm(_, _, _, _, _, _, _) => Driver
  }

  /** The names of the text fields each variant carries (every field but `role` and the weekly map). */
  function FieldNames(role: Role): set<string>
  {
    {"email", "password", "phone"} +
    match role
    case Client => {"firstName", "lastName", "deliveryAddress"}
    case Restaurant => {"restaurantName", "address", "cuisineType"}
    case Driver => {"firstName", "lastName", "vehicleType"}
  }

  /** The text fields of a form, keyed by the names the page's inputs carry. */
  function Fields(f: Form): (m: map<string, string>)
    ensures m.Keys == FieldNames(RoleOf(f))
  {
    match f
    case ClientForm(e, p, ph, fn, ln, da) =>
      map["email" := e, "password" := p, "phone" := ph,
          "firstName" := fn, "lastName" := ln, "deliveryAddress" := da]
    case RestaurantForm(e, p, ph, rn, ad, ct, _) =>
      map["email" := e, "password" := p, "phone" := ph,
          "restaurantName" := rn, "address" := ad, "cuisineType" := ct]
    case DriverForm(e, p, ph, fn, ln, vt, _) =>
      map["email" := e, "password" := p, "phone" := ph,
          "firstName" := fn, "lastName" := ln, "vehicleType" := vt]
  }

  /** A form is determined by its role, its text fields and its weekly map. */
  lemma FieldsDetermineForm(f: Form, g: Form)
    requires RoleOf(f) == RoleOf(g) && Fields(f) == Fields(g)
    requires f.RestaurantForm? ==> f.openingHours == g.openingHours
    requires f.DriverForm? ==> f.availability == g.availability
    ensures f == g
  {
  }

  /** The `reduce` over the days that spreads one entry per day into an initially empty object. */
  function Spread<V>(days: seq<string>, v: V): (m: map<string, V>)
    ensures m.Keys == set d | d in days
    ensures forall d :: d in m ==> m[d] == v
  {
    if days == [] then map[]
    else
      var prefix := days[..|days| - 1];
      assert days == prefix + [days[|days| - 1]];
      Spread(prefix, v)[days[|days| - 1] := v]
  }

  const DefaultHours := DayHours("09:00", "22:00")

  const DefaultAvailability := DayAvailability(false, [TimeRange("09:00", "18:00")])

  /** The fresh record built when `role` is selected. */
  function ResetForm(role: Role): (r: Form)
    ensures RoleOf(r) == role
    ensures forall name :: name in Fields(r) ==> Fields(r)[name] == ""
    ensures r.RestaurantForm? ==>
      r.openingHours.Keys == Days() &&
      forall d :: d in r.openingHours ==> r.openingHours[d] == DefaultHours
    ensures r.DriverForm? ==>
      r.availability.Keys == Days() &&
      forall d :: d in r.availability ==> r.availability[d] == DefaultAvailability
  {
    match role
    case Client => ClientForm("", "", "", "", "", "")
    case Restaurant => RestaurantForm("", "", "", "", "", "", Spread(DaysOfWeek, DefaultHours))
    case Driver => DriverForm("", "", "", "", "", "", Spread(DaysOfWeek, DefaultAvailability))
  }

  /** The record the page starts with, written out literally in the page's `useState` call. */
  const InitialPageForm := ClientForm("", "", "", "", "", "")

  /** Overwrites one text field the variant carries. */
  function SetField(f: Form, name: string, value: string): (r: Form)
    requires name in FieldNames(RoleOf(f))
    ensures RoleOf(r) == RoleOf(f)
    ensures Fields(r) == Fields(f)[name := value]
    ensures r.RestaurantForm? ==> r.openingHours == f.openingHours
    ensures r.DriverForm? ==> r.availability == f.availability
  {
    match f
    case ClientForm(e, p, ph, fn, ln, da) =>
      if name == "email" then ClientForm(value, p, ph, fn, ln, da)
      else if name == "password" then ClientForm(e, value, ph, fn, ln, da)
      else if name == "phone" then ClientForm(e, p, value, fn, ln, da)
      else if name == "firstName" then ClientForm(e, p, ph, value, ln, da)
      else if name == "lastName" then ClientForm(e, p, ph, fn, value, da)
      else ClientForm(e, p, ph, fn, ln, value)
    case RestaurantForm(e, p, ph, rn, ad, ct, oh) =>
      if name == "email" then RestaurantForm(value, p, ph, rn, ad, ct, oh)
      else if name == "password" then RestaurantForm(e, value, ph, rn, ad, ct, oh)
      else if name == "phone" then RestaurantForm(e, p, value, rn, ad, ct, oh)
      else if name == "restaurantName" then RestaurantForm(e, p, ph, value, ad, ct, oh)
      else if name == "address" then RestaurantForm(e, p, ph, rn, value, ct, oh)
      else RestaurantForm(e, p, ph, rn, ad, value, oh)
    case DriverForm(e, p, ph, fn, ln, vt, av) =>
      if name == "email" then DriverForm(value, p, ph, fn, ln, vt, av)
      else if name == "password" then DriverForm(e, value, ph, fn, ln, vt, av)
      else if name == "phone" then DriverForm(e, p, value, fn, ln, vt, av)
      else if name == "firstName" then DriverForm(e, p, ph, value, ln, vt, av)
      else if name == "lastName" then DriverForm(e, p, ph, fn, value, vt, av)
      else DriverForm(e, p, ph, fn, ln, value, av)
  }

  /** The page's change handler for the role select and every text input. */
  function ApplyFieldChange(f: Form, name: string, value: string): (r: Form)
    ensures name == "role" && ParseRole(value).Some? ==> r == ResetForm(ParseRole(value).value)
    ensures name == "role" && ParseRole(value).None? ==> r == f
    ensures name != "role" ==> RoleOf(r) == RoleOf(f)
    ensures name != "role" && name in FieldNames(RoleOf(f)) ==> Fields(r) == Fields(f)[name := value]
    ensures name != "role" && name !in FieldNames(RoleOf(f)) ==> r == f
    ensures name != "role" && r.RestaurantForm? ==> r.openingHours == f.openingHours
    ensures name != "role" && r.DriverForm? ==> r.availability == f.availability
  {
    if name == "role" then
      match ParseRole(value)
      case None => f
      case Some(role) => ResetForm(role)
    else if name in FieldNames(RoleOf(f)) then SetField(f, name, value)
    else f
  }

  /** Selecting a role forgets everything typed before: the result does not depend on the previous form. */
  lemma RoleChangeForgetsPreviousForm(f: Form, g: Form, value: string)
    requires ParseRole(value).Some?
    ensures ApplyFieldChange(f, "role", value) == ApplyFieldChange(g, "role", value)
    ensures RoleOf(ApplyFieldChange(f, "role", value)) == ParseRole(value).value
    ensures Fields(ApplyFieldChange(f, "role", value))["email"] == ""
  {
  }

  /** Changing the open time of one restaurant day. */
  function EditOpen(f: Form, day: string, time: string): (r: Form)
    requires f.RestaurantForm? && day in f.openingHours
    ensures r.RestaurantForm? && Fields(r) == Fields(f)
    ensures r.openingHours.Keys == f.openingHours.Keys
    ensures r.openingHours[day].open == time && r.openingHours[day].close == f.openingHours[day].close
    ensures forall d :: d in f.openingHours && d != day ==> r.openingHours[d] == f.openingHours[d]
  {
    f.(openingHours := f.openingHours[day := f.openingHours[day].(open := time)])
  }

  /** Changing the close time of one restaurant day. */
  function EditClose(f: Form, day: string, time: string): (r: Form)
    requires f.RestaurantForm? && day in f.openingHours
    ensures r.RestaurantForm? && Fields(r) == Fields(f)
    ensures r.openingHours.Keys == f.openingHours.Keys
    ensures r.openingHours[day].close == time && r.openingHours[day].open == f.openingHours[day].open
    ensures forall d :: d in f.openingHours && d != day ==> r.openingHours[d] == f.openingHours[d]
  {
    f.(openingHours := f.openingHours[day := f.openingHours[day].(close := time)])
  }

  /** Ticking or unticking one driver day. */
  function EditAvailable(f: Form, day: string, checked: bool): (r: Form)
    requires f.DriverForm? && day in f.availability
    ensures r.DriverForm? && Fields(r) == Fields(f)
    ensures r.availability.Keys == f.availability.Keys
    ensures r.availability[day].available == checked
    ensures r.availability[day].hours == f.availability[day].hours
    ensures forall d :: d in f.availability && d != day ==> r.availability[d] == f.availability[d]
  {
    f.(availability := f.availability[day := f.availability[day].(available := checked)])
  }

  /** Changing the start time of one driver day: the day's list becomes its first range, edited. */
  function EditStart(f: Form, day: string, time: string): (r: Form)
    requires f.DriverForm? && day in f.availability && |f.availability[day].hours| > 0
    ensures r.DriverForm? && Fields(r) == Fields(f)
    ensures r.availability.Keys == f.availability.Keys
    ensures r.availability[day].available == f.availability[day].available
    ensures |r.availability[day].hours| == 1
    ensures r.availability[day].hours[0].start == time
    ensures r.availability[day].hours[0].end == f.availability[day].hours[0].end
    ensures forall d :: d in f.availability && d != day ==> r.availability[d] == f.availability[d]
  {
    var entry := f.availability[day];
    f.(availability := f.availability[day := entry.(hours := [entry.hours[0].(start := time)])])
  }

  /** Changing the end time of one driver day: the day's list becomes its first range, edited. */
  function EditEnd(f: Form, day: string, time: string): (r: Form)
    requires f.DriverForm? && day in f.availability && |f.availability[day].hours| > 0
    ensures r.DriverForm? && Fields(r) == Fields(f)
    ensures r.availability.Keys == f.availability.Keys
    ensures r.availability[day].available == f.availability[day].available
    ensures |r.availability[day].hours| == 1
    ensures r.availability[day].hours[0].end == time
    ensures r.availability[day].hours[0].start == f.availability[day].hours[0].start
    ensures forall d :: d in f.availability && d != day ==> r.availability[d] == f.availability[d]
  {
    var entry := f.availability[day];
    f.(availability := f.availability[day := entry.(hours := [entry.hours[0].(end := time)])])
  }

  /** The shape every form the page can hold keeps: all seven days, one time range per driver day. */
  predicate WellShaped(f: Form)
  {
    match f
    case ClientForm(_, _, _, _, _, _) => true
    case RestaurantForm(_, _, _, _, _, _, hours) => hours.Keys == Days()
    case DriverForm(_, _, _, _, _, _, avail) =>
      avail.Keys == Days() && forall d :: d in avail ==> |avail[d].hours| == 1
  }

  /** One user interaction with the page. */
  datatype FormEvent =
    | FieldChanged(name: string, value: string)
    | OpenChanged(day: string, time: string)
    | CloseChanged(day: string, time: string)
    | AvailabilityToggled(day: string, checked: bool)
    | StartChanged(day: string, time: string)
    | EndChanged(day: string, time: string)

  /** Whether the page, rendering `f`, shows the control that emits `e`: the role select, the
      text inputs of the variant, the per-day controls of the variant's weekly map, and a driver
      day's time inputs only while that day is ticked available. */
  predicate Rendered(f: Form, e: FormEvent)
    ensures e.FieldChanged? ==> (Rendered(f, e) <==> e.name == "role" || e.name in Fields(f))
    ensures Rendered(f, e) && !e.FieldChanged? ==> e.day in Days()
    ensures (e.OpenChanged? || e.CloseChanged?) ==> (Rendered(f, e) ==> f.RestaurantForm?)
    ensures e.AvailabilityToggled? ==> (Rendered(f, e) <==> f.DriverForm? && e.day in Days())
    ensures (e.StartChanged? || e.EndChanged?) && Rendered(f, e) ==>
      f.DriverForm? && e.day in f.availability && f.availability[e.day].available
  {
    match e
    case FieldChanged(name, _) => name == "role" || name in FieldNames(RoleOf(f))
    case OpenChanged(day, _) => f.RestaurantForm? && day in DaysOfWeek
    case CloseChanged(day, _) => f.RestaurantForm? && day in DaysOfWeek
    case AvailabilityToggled(day, _) => f.DriverForm? && day in DaysOfWeek
    case StartChanged(day, _) =>
      f.DriverForm? && day in DaysOfWeek && day in f.availability && f.availability[day].available
    case EndChanged(day, _) =>
      f.DriverForm? && day in DaysOfWeek && day in f.availability && f.availability[day].available
  }

  /** The form after one interaction; an event whose control is not on screen changes nothing. */
  function FormStep(f: Form, e: FormEvent): (r: Form)
    requires WellShaped(f)
    ensures WellShaped(r)
    ensures !Rendered(f, e) ==> r == f
  {
    if !Rendered(f, e) then f
    else
      match e
      case FieldChanged(name, value) => ApplyFieldChange(f, name, value)
      case OpenChanged(day, time) => EditOpen(f, day, time)
      case CloseChanged(day, time) => EditClose(f, day, time)
      case AvailabilityToggled(day, checked) => EditAvailable(f, day, checked)
      case StartChanged(day, time) => EditStart(f, day, time)
      case EndChanged(day, time) => EditEnd(f, day, time)
  }

  /** The form after a sequence of interactions, starting from the page's initial record. */
  function FormRun(events: seq<FormEvent>): (r: Form)
    ensures WellShaped(r)
  {
    if events == [] then InitialPageForm
    else FormStep(FormRun(events[..|events| - 1]), events[|events| - 1])
  }

  /** The seven day names are pairwise distinct. */
  lemma SevenDistinctDays()
    ensures |Days()| == 7
    ensures forall i, j :: 0 <= i < j < |DaysOfWeek| ==> DaysOfWeek[i] != DaysOfWeek[j]
  {
    assert Days() == {"Lundi", "Mardi", "Mercredi", "Jeudi", "Vendredi", "Samedi", "Dimanche"};
  }

  /** Every form the page can reach carries a complete week: seven opening-hours or availability entries. */
  lemma ReachableWeekIsComplete(events: seq<FormEvent>)
    ensures FormRun(events).RestaurantForm? ==> |FormRun(events).openingHours| == 7
    ensures FormRun(events).DriverForm? ==> |FormRun(events).availability| == 7
  {
    SevenDistinctDays();
  }

  /** The page's starting record is the client reset. */
  lemma InitialFormIsClientReset()
    ensures InitialPageForm == ResetForm(Client)
    ensures RoleOf(FormRun([])) == Client
  {
  }
}
