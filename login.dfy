/** The login page (client/src/pages/Login.jsx): on a successful login it
    shows a welcome message and, after a short delay, sends the user to the
    dashboard of their role; on a failed login it shows an error. The
    roles a user can have are those of server/models/User.js. */
module Login {
  import opened Common

  /** The roles `User.role` allows. */
  const Roles: set<string> := {"ASHA", "Doctor", "Admin", "Patient"}

  const DoctorHome := "/doctor-dashboard"
  const AshaHome := "/asha/dashboard"
  const GeneralHome := "/dashboard"

  const LoginFailed := "Invalid email or password. Please try again."

  /** The two places a login response may carry the role:
      `res.data.user.role` and `res.user.role`, `None` when absent. */
  datatype LoginResponse = LoginResponse(dataUserRole: Option<string>, userRole: Option<string>)

  /** `res.data?.user?.role || res.user?.role`: the first role unless it is
      missing or empty. */
  function RoleOf(res: LoginResponse): (role: Option<string>)
    ensures Truthy(res.dataUserRole) ==> role == res.dataUserRole
    ensures !Truthy(res.dataUserRole) ==> role == res.userRole
  {
    if Truthy(res.dataUserRole) then res.dataUserRole else res.userRole
  }

  /** The redirect as the page writes it: it tests for the label
      "ASHA Worker", which is not a stored role, so an ASHA user falls
      through to the general dashboard. */
  function Redirect(role: Option<string>): (path: string)
    ensures path == DoctorHome <==> role == Some("Doctor")
    ensures path == AshaHome <==> role == Some("ASHA Worker")
    ensures path in {DoctorHome, AshaHome, GeneralHome}
  {
    if role == Some("Doctor") then DoctorHome
    else if role == Some("ASHA Worker") then AshaHome
    else GeneralHome
  }

  /** An ASHA worker, whose stored role is "ASHA", is sent to the general
      dashboard rather than to the ASHA dashboard. */
  lemma AshaUserMissesAshaDashboard(res: LoginResponse)
    requires res.dataUserRole == Some("ASHA")
    ensures Redirect(RoleOf(res)) == GeneralHome
    ensures Redirect(RoleOf(res)) != AshaHome
  {
  }

  /** The redirect with the stored role value "ASHA" recognised (the form's
      label "ASHA Worker" still accepted). */
  function IntendedRedirect(role: Option<string>): (path: string)
    ensures path == DoctorHome <==> role == Some("Doctor")
    ensures path == AshaHome <==> role == Some("ASHA") || role == Some("ASHA Worker")
    ensures path in {DoctorHome, AshaHome, GeneralHome}
  {
    if role == Some("Doctor") then DoctorHome
    else if role == Some("ASHA") || role == Some("ASHA Worker") then AshaHome
    else GeneralHome
  }

  /** With the correction every stored role reaches its own dashboard:
      doctors and ASHA workers their own, administrators and patients the
      general one; and the correction changes nothing but the ASHA case. */
  lemma IntendedRedirectByRole(role: string)
    requires role in Roles
    ensures IntendedRedirect(Some(role)) ==
      if role == "Doctor" then DoctorHome
      else if role == "ASHA" then AshaHome
      else GeneralHome
    ensures role != "ASHA" ==> IntendedRedirect(Some(role)) == Redirect(Some(role))
  {
  }

  /** The page's state: the error shown, whether the welcome message is up,
      and the path the delayed navigation will go to. */
  class LoginPage {
    var error: string
    var showWelcome: bool
    var destination: Option<string>

    constructor ()
      ensures error == "" && !showWelcome && destination.None?
    {
      error := "";
      showWelcome := false;
      destination := None;
    }

    /** `handleSubmit`: `res` is the login call's response, `None` when it
        throws. A success clears the error, shows the welcome and schedules
        the redirect the page computes for the response's role, as written
        (so an ASHA user is sent to the general dashboard); a failure shows
        the error and changes nothing else. */
    method HandleSubmit(res: Option<LoginResponse>)
      modifies this
      ensures res.Some? ==>
        error == "" && showWelcome && destination == Some(Redirect(RoleOf(res.value)))
      ensures res.None? ==>
        error == LoginFailed && showWelcome == old(showWelcome) && destination == old(destination)
    {
      error := "";
      if res.None? {
        error := LoginFailed;
        return;
      }
      showWelcome := true;
      destination := Some(Redirect(RoleOf(res.value)));
    }
  }
}
