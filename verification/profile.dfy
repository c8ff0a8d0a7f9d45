/**
 * The account page (cabBuddy/src/pages/Profile.jsx): the role read from
 * the login data, the verification flags and their merge with flags
 * passed through navigation, the edit/cancel/save cycle of the profile
 * form, the loading of the driver's own rides, and the status badge of a
 * ride. Storage reads become constructor parameters and every request
 * becomes an outcome passed in.
 */
module Profile {
  import opened JsText

  // ------------------------------------------------------ role (408-410)

  /** `loginData?.role?.toUpperCase() === "DRIVER"`; None is a missing
      login blob or a missing role. */
  function IsRoleDriver(role: Option<string>): (ok: bool)
    ensures ok ==> role.Some? && |role.value| == 6
    ensures role.None? ==> !ok
  {
    role.Some? && ToUpper(role.value) == "DRIVER"
  }

  /** The role test ignores letter case: a role is the driver role exactly
      when it lower-cases to "driver". */
  lemma DriverRoleIgnoresCase(r: string)
    ensures IsRoleDriver(Some(r)) <==> ToLower(r) == "driver"
  {
    var driver := "DRIVER";
    UpperEqualIffLowerEqual(r, driver);
    UpperOfDriver(driver);
  }

  lemma UpperOfDriver(s: string)
    requires s == "DRIVER"
    ensures ToUpper(s) == s && ToLower(s) == "driver"
  {
  }

  /** The rides effect fetches only on the rides section for a driver. */
  function ShouldFetchRides(section: string, isDriver: bool): (ok: bool)
    ensures ok ==> isDriver && section == "rides"
    ensures !isDriver ==> !ok
    ensures isDriver && section == "rides" ==> ok
  {
    section == "rides" && isDriver
  }

  // -------------------------------------------- verification flags (434-485)

  /** The four flags of a fresh session, all unset */
  const DefaultVerified: map<string, bool> :=
    map["phone" := false, "email" := false, "govtId" := false, "drivingLicense" := false]

  /** The verified state a session starts from: the saved flags, or the
      four unset flags when nothing is saved */
  function InitialVerified(saved: Option<map<string, bool>>): (v: map<string, bool>)
    ensures saved.Some? ==> v == saved.value
    ensures saved.None? ==> v.Keys == {"phone", "email", "govtId", "drivingLicense"}
    ensures saved.None? ==> forall k :: k in v ==> !v[k]
  {
    if saved.Some? then saved.value else DefaultVerified
  }

  /** `{ ...prev, ...update }`: every key of either, the update's value
      where it has one */
  function Merge(prev: map<string, bool>, update: map<string, bool>): (r: map<string, bool>)
    ensures r.Keys == prev.Keys + update.Keys
    ensures forall k :: k in update ==> r[k] == update[k]
    ensures forall k :: k in prev && k !in update ==> r[k] == prev[k]
  {
    prev + update
  }

  /** Merging the same update twice is merging it once. */
  lemma MergeIdempotent(prev: map<string, bool>, update: map<string, bool>)
    ensures Merge(Merge(prev, update), update) == Merge(prev, update)
  {
    var once := Merge(prev, update);
    var twice := Merge(once, update);
    assert forall k :: k in twice ==> twice[k] == once[k];
  }

  /** Two updates in a row are one update carrying both, the later one
      winning on shared keys. */
  lemma MergeTwice(prev: map<string, bool>, u1: map<string, bool>, u2: map<string, bool>)
    ensures Merge(Merge(prev, u1), u2) == Merge(prev, Merge(u1, u2))
  {
    var a := Merge(Merge(prev, u1), u2);
    var b := Merge(prev, Merge(u1, u2));
    assert forall k :: k in a ==> a[k] == b[k];
  }

  /** An update that sets a flag false clears a flag that was set: the
      merge is an override, not a union of granted flags. */
  lemma FalseUpdateClearsFlag(prev: map<string, bool>, key: string)
    requires key in prev && prev[key]
    ensures !Merge(prev, map[key := false])[key]
  {
  }

  /** Verifying the phone and then the email on a fresh session sets
      exactly those two flags. */
  lemma PhoneThenEmail()
    ensures var v := Merge(Merge(InitialVerified(None), map["phone" := true]), map["email" := true]);
      v.Keys == {"phone", "email", "govtId", "drivingLicense"}
      && v["phone"] && v["email"] && !v["govtId"] && !v["drivingLicense"]
  {
    var v0 := InitialVerified(None);
    var v1 := Merge(v0, map["phone" := true]);
    var v := Merge(v1, map["email" := true]);
    assert "phone" != "email" && "govtId" != "email" && "drivingLicense" != "email";
    assert "govtId" != "phone" && "drivingLicense" != "phone";
    assert v1["phone"] && !v1["govtId"] && !v1["drivingLicense"];
  }

  // --------------------------------------------------- status badge (519-535)

  const GrayBadge: string := "bg-gray-100 text-gray-800"

  /** The badge classes of the four known statuses */
  const StatusClasses: map<string, string> := map[
    "active" := "bg-green-100 text-green-800",
    "cancelled" := "bg-red-100 text-red-800",
    "completed" := "bg-blue-100 text-blue-800",
    "booked" := "bg-yellow-100 text-yellow-800"]

  /** `map[status?.toLowerCase()] || gray`: None is a missing status */
  function BadgeClass(status: Option<string>): (c: string)
    ensures status.Some? && ToLower(status.value) in StatusClasses ==> c == StatusClasses[ToLower(status.value)]
    ensures status.None? || ToLower(status.value) !in StatusClasses ==> c == GrayBadge
  {
    if status.Some? && ToLower(status.value) in StatusClasses then StatusClasses[ToLower(status.value)]
    else GrayBadge
  }

  /** `status || "unknown"` */
  function BadgeLabel(status: Option<string>): (text: string)
    ensures status.Some? && status.value != "" ==> text == status.value
    ensures status.None? || status.value == "" ==> text == "unknown"
  {
    if status.Some? && status.value != "" then status.value else "unknown"
  }

  /** The badge's colour depends only on the lower-cased status. */
  lemma BadgeIgnoresCase(a: string, b: string)
    requires ToLower(a) == ToLower(b)
    ensures BadgeClass(Some(a)) == BadgeClass(Some(b))
  {
  }

  /** Every badge is one of the four known colours or gray. */
  lemma BadgeColours(status: Option<string>)
    ensures BadgeClass(status) in StatusClasses.Values + {GrayBadge}
  {
    if status.Some? && ToLower(status.value) in StatusClasses {
      var k := ToLower(status.value);
      assert StatusClasses[k] in StatusClasses.Values;
    }
  }

  /** An upper-case "ACTIVE" gets the green badge. */
  lemma ActiveInCapitals(s: string)
    requires s == "ACTIVE"
    ensures BadgeClass(Some(s)) == "bg-green-100 text-green-800"
  {
    assert ToLower(s) == "active";
  }

  // ------------------------------------------------------------ the page

  /** The fields of the profile as the page reads them */
  datatype UserProfile = UserProfile(name: string, phone: string, email: string)

  /** A ride of the driver, as far as the page's state depends on it */
  datatype Ride = Ride(id: int, status: Option<string>)

  /** The outcome of the my-rides request */
  datatype RidesResponse =
    | RidesFailed
    | ArrayBody(rides: seq<Ride>)   // `response.data` is an array
    | OtherBody                     // `response.data` is anything else

  const RidesFailedMessage: string := "Failed to load your rides"

  /** The page state that the handlers change */
  datatype PageState = PageState(
    activeSection: string, userProfile: Option<UserProfile>, isEditing: bool,
    editForm: map<string, string>, verified: map<string, bool>,
    myRides: seq<Ride>, ridesLoading: bool, ridesError: Option<string>)

  /** The form values taken from a profile */
  function FormOf(p: UserProfile): (form: map<string, string>)
    ensures form.Keys == {"name", "phone"} && form["name"] == p.name && form["phone"] == p.phone
  {
    map["name" := p.name, "phone" := p.phone]
  }

  /** The state of the Profile page */
  class ProfilePage {
    const isRoleDriver: bool
    const userId: Option<int>
    var activeSection: string
    var userProfile: Option<UserProfile>
    var isEditing: bool
    var editForm: map<string, string>
    var verified: map<string, bool>
    var myRides: seq<Ride>
    var ridesLoading: bool
    var ridesError: Option<string>

    /** Between events no ride request is outstanding. */
    ghost predicate Valid()
      reads this
    {
      !ridesLoading
    }

    function State(): PageState
      reads this
    {
      PageState(activeSection, userProfile, isEditing, editForm, verified,
                myRides, ridesLoading, ridesError)
    }

    /** The page as first rendered: `role` and `userId` come from the
        login data, `saved` is the session's saved verified state. */
    constructor(role: Option<string>, id: Option<int>, saved: Option<map<string, bool>>)
      ensures Valid()
      ensures isRoleDriver == IsRoleDriver(role) && userId == id
      ensures State() == PageState("overview", None, false, map["name" := "", "phone" := ""],
                                   InitialVerified(saved), [], false, None)
    {
      isRoleDriver := IsRoleDriver(role);
      userId := id;
      activeSection := "overview";
      userProfile := None;
      isEditing := false;
      editForm := map["name" := "", "phone" := ""];
      verified := InitialVerified(saved);
      myRides := [];
      ridesLoading := false;
      ridesError := None;
    }

    /** `loadUserProfile`: a loaded profile also fills the edit form; a
        failed request changes nothing. */
    method LoadUserProfile(response: Option<UserProfile>)
      requires Valid()
      modifies this
      ensures Valid()
      ensures response.Some? ==>
        State() == old(State()).(userProfile := response, editForm := FormOf(response.value))
      ensures response.None? ==> State() == old(State())
    {
      if response.Some? {
        userProfile := response;
        editForm := FormOf(response.value);
      }
    }

    /** The verification effect on a navigation: `update` is
        `location.state?.verified`, merged in when present. */
    method OnNavigate(update: Option<map<string, bool>>)
      requires Valid()
      modifies this
      ensures Valid()
      ensures update.Some? ==> State() == old(State()).(verified := Merge(old(verified), update.value))
      ensures update.None? ==> State() == old(State())
    {
      if update.Some? {
        verified := Merge(verified, update.value);
      }
    }

    /** `handleInputChange`: only the named field of the form changes. */
    method HandleInputChange(name: string, value: string)
      requires Valid()
      modifies this
      ensures Valid()
      ensures State() == old(State()).(editForm := old(editForm)[name := value])
    {
      editForm := editForm[name := value];
    }

    /** The Edit Profile button */
    method StartEdit()
      requires Valid()
      modifies this
      ensures Valid()
      ensures State() == old(State()).(isEditing := true)
    {
      isEditing := true;
    }

    /** `handleCancelEdit`: the form goes back to the loaded profile. The
        button exists only once the profile is loaded, since the page
        shows only a loading message before. */
    method CancelEdit()
      requires Valid() && userProfile.Some?
      modifies this
      ensures Valid()
      ensures State() == old(State()).(editForm := FormOf(old(userProfile).value), isEditing := false)
    {
      editForm := FormOf(userProfile.value);
      isEditing := false;
    }

    /** `handleSaveProfile`: `sent` is the form sent in the update
        request and `response` its outcome. A saved profile replaces the
        shown one and ends editing; a failure changes nothing. */
    method SaveProfile(response: Option<UserProfile>) returns (sent: map<string, string>)
      requires Valid()
      modifies this
      ensures Valid() && sent == old(editForm)
      ensures response.Some? ==> State() == old(State()).(userProfile := response, isEditing := false)
      ensures response.None? ==> State() == old(State())
    {
      sent := editForm;
      if response.Some? {
        userProfile := response;
        isEditing := false;
      }
    }

    /** `fetchMyRides`: without a truthy user id nothing happens;
        otherwise the error is cleared, the rides become the array
        returned (or [] for any other body, or [] and the error message
        on a failure), and loading ends on every path. */
    method FetchMyRides(response: RidesResponse)
      requires Valid()
      modifies this
      ensures Valid()
      ensures !Truthy(userId) ==> State() == old(State())
      ensures Truthy(userId) ==> State() == old(State()).(
        myRides := if response.ArrayBody? then response.rides else [],
        ridesError := if response.RidesFailed? then Some(RidesFailedMessage) else None)
    {
      if !Truthy(userId) {
        return;
      }
      ridesLoading := true;
      ridesError := None;
      match response {
        case ArrayBody(rides) =>
          myRides := rides;
        case OtherBody =>
          myRides := [];
        case RidesFailed =>
          ridesError := Some(RidesFailedMessage);
          myRides := [];
      }
      ridesLoading := false;
    }

    /** A sidebar click, and the rides effect that runs when the section
        changes: `response` is the outcome of the request it would make. */
    method SelectSection(section: string, response: RidesResponse)
      requires Valid()
      modifies this
      ensures Valid()
      ensures activeSection == section
      ensures section != old(activeSection) && ShouldFetchRides(section, isRoleDriver) && Truthy(userId) ==>
        State() == old(State()).(
          activeSection := section,
          myRides := if response.ArrayBody? then response.rides else [],
          ridesError := if response.RidesFailed? then Some(RidesFailedMessage) else None)
      ensures !(section != old(activeSection) && ShouldFetchRides(section, isRoleDriver) && Truthy(userId)) ==>
        State() == old(State()).(activeSection := section)
    {
      var changed := section != activeSection;
      activeSection := section;
      if changed && ShouldFetchRides(section, isRoleDriver) {
        FetchMyRides(response);
      }
    }
  }
}
