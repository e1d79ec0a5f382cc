/**
 * The session manager behind `AuthProvider`: four cells of state (whether the app is
 * authenticated, the signed-in user, the user's vehicles and the selected vehicle) and the
 * operations that update them. Every reply of the identity/database service is a parameter,
 * and every operation returns the list of service calls it issued, in order.
 */
module Auth {
  import opened Opt
  import opened JsString

  datatype AuthUser = AuthUser(id: string, email: Option<string>)

  datatype Vehicle = Vehicle(
    id: string,
    name: string,
    make: Option<string>,
    model: Option<string>,
    year: Option<int>,
    vin: Option<string>)

  /** What the service holds as the current session; a session may carry no user. */
  datatype Session = Session(user: Option<AuthUser>)

  datatype AuthError =
    | EmailRequired
    | PasswordRequired
    | PasswordTooShort
    | Service(message: string)
  {
    /** The message of the `Error` the operation throws. */
    function Message(): string {
      match this
      case EmailRequired => "Email is required"
      case PasswordRequired => "Password is required"
      case PasswordTooShort => "Password must be at least 6 characters"
      case Service(m) => m
    }
  }

  datatype Result<T> = Ok(value: T) | Err(error: AuthError)

  datatype Credentials = Credentials(email: string, password: string)

  /** The row written to the `users` table after a sign-up (its `updated_at` clock value is not modelled). */
  datatype ProfileRow = ProfileRow(id: string, email: string, username: string, role: string)

  /** One request to the identity/database service. */
  datatype BackendCall =
    | SignInWithPassword(credentials: Credentials)
    | SignUpWithPassword(credentials: Credentials)
    | UpsertProfile(row: ProfileRow)
    | SignOutCall
    | GetSession
    | SelectVehicles(ownerId: string)

  /** Reply to a password sign-in: an error message, or data whose user may be absent. */
  datatype SignInReply = SignInFailed(message: string) | SignedIn(user: Option<AuthUser>)

  /** Reply to a sign-up: an error message, or the new user (if any) and whether a session came with it. */
  datatype SignUpReply = SignUpFailed(message: string) | SignedUp(user: Option<AuthUser>, hasSession: bool)

  /** Reply to the vehicle query: an error, or the rows (possibly null), newest first. */
  datatype VehiclesReply = VehiclesFailed | VehiclesFetched(rows: Option<seq<Vehicle>>)

  const MinPasswordLength: nat := 6

  /**
   * The credential checks `signIn` and `signUp` run before any service call, in this order:
   * a blank identifier, then a blank password, then a password shorter than six characters
   * counted before trimming.
   */
  function Validate(identifier: string, password: string): (e: Option<AuthError>)
    ensures e == Some(EmailRequired) <==> IsBlank(identifier)
    ensures e == Some(PasswordRequired) <==> !IsBlank(identifier) && IsBlank(password)
    ensures e == Some(PasswordTooShort) <==> !IsBlank(identifier) && !IsBlank(password) && |password| < 6
    ensures e == None <==> !IsBlank(identifier) && !IsBlank(password) && |password| >= 6
  {
    if Trim(identifier) == [] then Some(EmailRequired)
    else if Trim(password) == [] then Some(PasswordRequired)
    else if |password| < MinPasswordLength then Some(PasswordTooShort)
    else None
  }

  /** The length rule counts padding: two characters and four spaces pass, though they trim to two. */
  lemma PaddedPasswordPasses()
    ensures IsBlank("    ") && !IsBlank("ab    ")
    ensures Validate("a", "ab    ") == None
  {
    assert "a"[0] == 'a' && "ab    "[0] == 'a' && !IsSpace('a');
  }

  /** What is sent to the service: the identifier trimmed, the password as typed. */
  function CredentialsFor(identifier: string, password: string): (c: Credentials)
    ensures c.password == password
    ensures c.email == [] <==> IsBlank(identifier)
    ensures c.email != [] ==> !IsSpace(c.email[0]) && !IsSpace(c.email[|c.email| - 1])
    ensures exists lo :: OccursAt(identifier, c.email, lo) && IsBlank(identifier[..lo]) && IsBlank(identifier[lo + |c.email|..])
  {
    Credentials(Trim(identifier), password)
  }

  /** The profile username: the trimmed identifier up to its first '@'. */
  function ProfileUsername(identifier: string): (u: string)
    ensures '@' !in u
    ensures |u| <= |Trim(identifier)| && u == Trim(identifier)[..|u|]
    ensures |u| < |Trim(identifier)| ==> Trim(identifier)[|u|] == '@'
  {
    BeforeFirst(Trim(identifier), '@')
  }

  /** The profile row `signUp` upserts for a newly created user. */
  function ProfileFor(id: string, identifier: string): (row: ProfileRow)
    ensures row.id == id && row.role == "user"
    ensures row.email == Trim(identifier) && row.username == ProfileUsername(identifier)
  {
    ProfileRow(id, Trim(identifier), ProfileUsername(identifier), "user")
  }

  /** A user object counts as present when it is non-null; an id counts when it is non-empty. */
  predicate HasUserId(u: Option<AuthUser>) {
    u.Some? && Truthy(u.value.id)
  }

  class SessionManager {
    var isAuthenticated: bool
    var user: Option<AuthUser>
    var vehicles: seq<Vehicle>
    var currentVehicle: Option<Vehicle>

    /** Every assignment sets the user and the flag together. */
    ghost predicate Valid()
      reads this
    {
      isAuthenticated <==> user.Some?
    }

    constructor ()
      ensures Valid()
      ensures !isAuthenticated && user == None && vehicles == [] && currentVehicle == None
    {
      isAuthenticated := false;
      user := None;
      vehicles := [];
      currentVehicle := None;
    }

    /** Makes `u` the signed-in user. */
    method SetSignedIn(u: AuthUser)
      modifies this
      ensures Valid()
      ensures user == Some(u) && isAuthenticated
      ensures vehicles == old(vehicles) && currentVehicle == old(currentVehicle)
    {
      user := Some(u);
      isAuthenticated := true;
    }

    /** `signIn`: validate, then one password sign-in; on success with a user, that user is signed in. */
    method SignIn(identifier: string, password: string, reply: SignInReply)
      returns (result: Result<()>, calls: seq<BackendCall>)
      requires Valid()
      modifies this
      ensures Valid()
      ensures vehicles == old(vehicles) && currentVehicle == old(currentVehicle)
      ensures Validate(identifier, password).Some? ==>
        result == Err(Validate(identifier, password).value) && calls == [] && user == old(user)
      ensures Validate(identifier, password).None? ==>
        calls == [SignInWithPassword(CredentialsFor(identifier, password))]
      ensures Validate(identifier, password).None? && reply.SignInFailed? ==>
        result == Err(Service(reply.message)) && user == old(user)
      ensures Validate(identifier, password).None? && reply.SignedIn? ==>
        result == Ok(()) && user == (if reply.user.Some? then reply.user else old(user))
    {
      var invalid := Validate(identifier, password);
      if invalid.Some? {
        return Err(invalid.value), [];
      }
      calls := [SignInWithPassword(CredentialsFor(identifier, password))];
      match reply
      case SignInFailed(message) =>
        result := Err(Service(message));
      case SignedIn(sUser) =>
        if sUser.Some? {
          SetSignedIn(sUser.value);
        }
        result := Ok(());
    }

    /** `signOut`: one sign-out call, then all four cells are cleared whatever they held. */
    method SignOut() returns (calls: seq<BackendCall>)
      modifies this
      ensures Valid()
      ensures calls == [SignOutCall]
      ensures !isAuthenticated && user == None && vehicles == [] && currentVehicle == None
    {
      calls := [SignOutCall];
      ClearSession();
    }

    method ClearSession()
      modifies this
      ensures Valid()
      ensures !isAuthenticated && user == None && vehicles == [] && currentVehicle == None
    {
      isAuthenticated := false;
      user := None;
      vehicles := [];
      currentVehicle := None;
    }

    /**
     * `refreshVehicles`: nothing without a user id; otherwise one query for the user's vehicles.
     * A failed query keeps both vehicle cells; a successful one replaces the list (null reads as
     * empty) and selects the first vehicle only when none was selected.
     */
    method RefreshVehicles(reply: VehiclesReply) returns (calls: seq<BackendCall>)
      requires Valid()
      modifies this
      ensures Valid()
      ensures user == old(user) && isAuthenticated == old(isAuthenticated)
      ensures !HasUserId(old(user)) ==>
        calls == [] && vehicles == old(vehicles) && currentVehicle == old(currentVehicle)
      ensures HasUserId(old(user)) ==> calls == [SelectVehicles(old(user).value.id)]
      ensures HasUserId(old(user)) && reply.VehiclesFailed? ==>
        vehicles == old(vehicles) && currentVehicle == old(currentVehicle)
      ensures HasUserId(old(user)) && reply.VehiclesFetched? ==>
        vehicles == reply.rows.GetOr([]) &&
        currentVehicle == (if old(currentVehicle).None? && vehicles != [] then Some(vehicles[0]) else old(currentVehicle))
    {
      if !HasUserId(user) {
        return [];
      }
      calls := [SelectVehicles(user.value.id)];
      match reply
      case VehiclesFailed =>
      case VehiclesFetched(rows) =>
        vehicles := rows.GetOr([]);
        if rows.Some? && |rows.value| > 0 && currentVehicle.None? {
          currentVehicle := Some(rows.value[0]);
        }
    }

    /**
     * `signUp`: validate, create the account, upsert its profile when a user with an id came back
     * (whether that write fails has no effect), then either sign in directly (session and user both
     * returned) or try one fallback password sign-in. The result says whether e-mail confirmation
     * is still required; in that case the session state is untouched.
     */
    method SignUp(identifier: string, password: string, reply: SignUpReply, upsertFailed: bool, fallback: SignInReply)
      returns (result: Result<bool>, calls: seq<BackendCall>)
      requires Valid()
      modifies this
      ensures Valid()
      ensures vehicles == old(vehicles) && currentVehicle == old(currentVehicle)
      ensures Validate(identifier, password).Some? ==>
        result == Err(Validate(identifier, password).value) && calls == [] && user == old(user)
      ensures Validate(identifier, password).None? && reply.SignUpFailed? ==>
        result == Err(Service(reply.message)) && user == old(user) &&
        calls == [SignUpWithPassword(CredentialsFor(identifier, password))]
      ensures Validate(identifier, password).None? && reply.SignedUp? ==>
        calls ==
          [SignUpWithPassword(CredentialsFor(identifier, password))] +
          (if HasUserId(reply.user) then [UpsertProfile(ProfileFor(reply.user.value.id, identifier))] else []) +
          (if reply.hasSession && reply.user.Some? then [] else [SignInWithPassword(CredentialsFor(identifier, password))])
      ensures Validate(identifier, password).None? && reply.SignedUp? && reply.hasSession && reply.user.Some? ==>
        result == Ok(false) && user == reply.user
      ensures Validate(identifier, password).None? && reply.SignedUp? && !(reply.hasSession && reply.user.Some?) ==>
        if fallback.SignedIn? && fallback.user.Some?
        then result == Ok(false) && user == fallback.user
        else result == Ok(true) && user == old(user)
    {
      var invalid := Validate(identifier, password);
      if invalid.Some? {
        return Err(invalid.value), [];
      }
      var credentials := CredentialsFor(identifier, password);
      calls := [SignUpWithPassword(credentials)];
      if reply.SignUpFailed? {
        return Err(Service(reply.message)), calls;
      }
      var sUser := reply.user;
      // A failed upsert is only logged.
      var upsert := if HasUserId(sUser) then [UpsertProfile(ProfileFor(sUser.value.id, identifier))] else [];
      calls := calls + upsert;
      assert calls == [SignUpWithPassword(credentials)] + upsert;
      if reply.hasSession && sUser.Some? {
        SetSignedIn(sUser.value);
        return Ok(false), calls;  // no fallback sign-in on this path
      }
      calls := calls + [SignInWithPassword(credentials)];
      if fallback.SignedIn? && fallback.user.Some? {
        SetSignedIn(fallback.user.value);
        return Ok(false), calls;
      }
      result := Ok(true);
    }

    /**
     * The auth-change listener: a session with a user signs that user in and schedules a vehicle
     * refresh; anything else clears all four cells.
     */
    method OnAuthStateChange(session: Option<Session>) returns (refreshScheduled: bool)
      modifies this
      ensures Valid()
      ensures refreshScheduled <==> session.Some? && session.value.user.Some?
      ensures refreshScheduled ==>
        user == session.value.user && vehicles == old(vehicles) && currentVehicle == old(currentVehicle)
      ensures !refreshScheduled ==> user == None && vehicles == [] && currentVehicle == None
    {
      if session.Some? && session.value.user.Some? {
        SetSignedIn(session.value.user.value);
        refreshScheduled := true;
      } else {
        ClearSession();
        refreshScheduled := false;
      }
    }

    /** The start-up restore: one session lookup, whose answer is applied as the listener applies a notification. */
    method Restore(current: Option<Session>) returns (calls: seq<BackendCall>, refreshScheduled: bool)
      modifies this
      ensures Valid()
      ensures calls == [GetSession]
      ensures refreshScheduled <==> current.Some? && current.value.user.Some?
      ensures refreshScheduled ==>
        user == current.value.user && vehicles == old(vehicles) && currentVehicle == old(currentVehicle)
      ensures !refreshScheduled ==> user == None && vehicles == [] && currentVehicle == None
    {
      calls := [GetSession];
      refreshScheduled := OnAuthStateChange(current);
    }

    /** `setCurrentVehicle`: no check against the vehicle list. */
    method SetCurrentVehicle(v: Option<Vehicle>)
      modifies this
      ensures currentVehicle == v
      ensures user == old(user) && isAuthenticated == old(isAuthenticated) && vehicles == old(vehicles)
    {
      currentVehicle := v;
    }
  }

  /** A newer selection survives a refresh whose list does not contain it. */
  method SelectionOutlivesRefresh(owner: AuthUser, picked: Vehicle, fetched: seq<Vehicle>)
    returns (m: SessionManager)
    requires Truthy(owner.id) && picked !in fetched
    ensures m.currentVehicle == Some(picked) && m.currentVehicle.value !in m.vehicles
  {
    m := new SessionManager();
    m.SetSignedIn(owner);
    m.SetCurrentVehicle(Some(picked));
    var _ := m.RefreshVehicles(VehiclesFetched(Some(fetched)));
  }
}
