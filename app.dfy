/**
 * `CampusApp`: the application state it keeps in `remember` variables, the
 * action functions and callbacks that reassign it, and the routing that
 * decides which screen (and so which actions) the user is offered.
 */
module App {
  import opened Wrappers
  import opened Domain
  import opened Follows
  import opened Auth
  import opened Store

  /** The `Screen` enumeration. */
  datatype Screen = Splash | Login | Register | ForgotPass | Feed | Map | Create | Detail | Profile | Admin | Notifications

  /** What the app's content area shows. */
  datatype Content =
    | Progress            // the splash / loading overlay
    | LoginForm | RegisterForm | ForgotForm
    | FeedList | MapView | CreateForm | ProfileView
    | AdminPanel          // AdminScreen, with its update and delete buttons
    | Unauthorized        // "Yetkisiz Erişim"
    | DetailView
    | Blank               // DetailScreen with no selected incident draws nothing
    | NotificationsSheet
    | CannotLoad          // "Ekran Yüklenemedi"

  /** The arguments a `register` call that passed its checks hands to its callbacks. */
  datatype SignUp = SignUp(name: string, email: string, password: string, department: string)

  /** The buttons of one row of the admin list. */
  datatype AdminAction = Remove | MarkInProgress | MarkResolved

  /**
   * The routing of `CampusApp`: the loading overlay first, the sign-in
   * screens while nobody is signed in, then the screen `currentScreen`
   * names. The admin panel appears only for a signed-in user whose role
   * is "ADMIN"; that is the app's one authorisation check.
   */
  function Render(screen: Screen, isLoading: bool, user: Option<User>, selected: Option<Incident>): (c: Content)
    ensures c == AdminPanel <==> screen == Admin && !isLoading && user != None && user.value.role == AdminRole
    ensures c == Progress <==> screen == Splash || isLoading
    ensures user == None && c != Progress ==> c == LoginForm || c == RegisterForm || c == ForgotForm
    ensures c == DetailView ==> selected != None
  {
    if screen == Splash || isLoading then Progress
    else if user == None then
      match screen
      case Register => RegisterForm
      case ForgotPass => ForgotForm
      case _ => LoginForm
    else
      match screen
      case Feed => FeedList
      case Map => MapView
      case Create => CreateForm
      case Profile => ProfileView
      case Admin => if user.value.role == AdminRole then AdminPanel else Unauthorized
      case Detail => if selected != None then DetailView else Blank
      case Notifications => NotificationsSheet
      case _ => CannotLoad
  }

  /** The items of `BottomNavBar`; the admin item only for administrators. */
  function NavItems(isAdmin: bool): (items: seq<Screen>)
    ensures Admin in items <==> isAdmin
    ensures Feed in items && Map in items && Create in items && Profile in items
    ensures forall s | s in items :: s in {Feed, Map, Create, Admin, Profile}
  {
    [Feed, Map, Create] + (if isAdmin then [Admin] else []) + [Profile]
  }

  /** The bottom bar: present on the signed-in screens other than the detail screen. */
  function BottomBar(screen: Screen, isLoading: bool, user: Option<User>): (items: seq<Screen>)
    ensures Admin in items <==> screen != Splash && screen != Detail && !isLoading && user != None && user.value.role == AdminRole
  {
    if screen == Splash || isLoading || user == None || screen == Detail then []
    else NavItems(user.value.role == AdminRole)
  }

  class CampusApp {
    var currentUser: Option<User>
    var incidents: seq<Incident>        // the last snapshot of the "incidents" collection
    var currentScreen: Screen
    var selectedIncident: Option<Incident>
    var isLoading: bool
    var errorMessage: Option<string>
    var emergencyAlert: Option<string>
    var pendingSignUp: Option<SignUp>   // the sign-up whose callbacks are still to come
    var incidentDocs: IncidentDocs      // the store's "incidents" collection
    var userDocs: UserDocs              // the store's "users" collection

    /** The state on start-up, over whatever the store already holds. */
    constructor (incidentDocs0: IncidentDocs, userDocs0: UserDocs)
      ensures currentUser == None && incidents == [] && currentScreen == Splash
      ensures selectedIncident == None && !isLoading && errorMessage == None
      ensures emergencyAlert == None && pendingSignUp == None
      ensures incidentDocs == incidentDocs0 && userDocs == userDocs0
      ensures SignUpChecked()
    {
      currentUser := None;
      incidents := [];
      currentScreen := Splash;
      selectedIncident := None;
      isLoading := false;
      errorMessage := None;
      emergencyAlert := None;
      pendingSignUp := None;
      incidentDocs := incidentDocs0;
      userDocs := userDocs0;
    }

    function Shown(): Content
      reads this
    {
      Render(currentScreen, isLoading, currentUser, selectedIncident)
    }

    function NavBar(): seq<Screen>
      reads this
    {
      BottomBar(currentScreen, isLoading, currentUser)
    }

    /** A pending sign-up is one that `register`'s checks accepted. */
    predicate SignUpChecked()
      reads this`pendingSignUp
    {
      pendingSignUp != None ==> RegisterError(pendingSignUp.value.email, pendingSignUp.value.password) == None
    }

    /** `login`: a blank field sets the error message; otherwise sign-in starts and loading shows. */
    method Login(email: string, password: string) returns (signInRequested: bool)
      modifies this`errorMessage, this`isLoading
      ensures signInRequested <==> LoginError(email, password) == None
      ensures signInRequested ==> isLoading && errorMessage == old(errorMessage)
      ensures !signInRequested ==> errorMessage == LoginError(email, password) && isLoading == old(isLoading)
    {
      var error := LoginError(email, password);
      if error != None {
        errorMessage := error;
        return false;
      }
      isLoading := true;
      return true;
    }

    /**
     * The success callbacks of sign-in and of the profile read: the user is
     * the stored record (with the signed-in id), or none when the record does
     * not exist; the feed screen is selected in both cases.
     */
    method CompleteLogin(uid: string)
      modifies this`isLoading, this`currentUser, this`currentScreen
      ensures !isLoading && currentScreen == Feed
      ensures currentUser == if uid in userDocs then Some(userDocs[uid].(id := uid)) else None
    {
      isLoading := false;
      currentUser := if uid in userDocs then Some(userDocs[uid].(id := uid)) else None;
      currentScreen := Feed;
    }

    /** Every failure callback of `login` and `register`: loading ends and the message shows. */
    method RemoteCallFailed(message: string)
      modifies this`isLoading, this`errorMessage
      ensures !isLoading && errorMessage == Some(message)
    {
      isLoading := false;
      errorMessage := Some(message);
    }

    /** `register`: blank fields, then a short password, are refused before any account is created. */
    method Register(name: string, email: string, password: string, department: string) returns (signUpRequested: bool)
      requires SignUpChecked()
      modifies this`errorMessage, this`isLoading, this`pendingSignUp
      ensures signUpRequested <==> RegisterError(email, password) == None
      ensures signUpRequested ==> isLoading && errorMessage == old(errorMessage)
      ensures signUpRequested ==> pendingSignUp == Some(SignUp(name, email, password, department))
      ensures !signUpRequested ==> errorMessage == RegisterError(email, password) && isLoading == old(isLoading)
      ensures !signUpRequested ==> pendingSignUp == old(pendingSignUp)
      ensures SignUpChecked()
    {
      var error := RegisterError(email, password);
      if error != None {
        errorMessage := error;
        return false;
      }
      isLoading := true;
      pendingSignUp := Some(SignUp(name, email, password, department));
      return true;
    }

    /**
     * The success callbacks of sign-up and of the user-record write, for the
     * pending sign-up: the record written under the new account's id is built
     * from arguments that `register` accepted.
     */
    method CompleteRegistration(uid: string)
      requires pendingSignUp != None && SignUpChecked()
      modifies this`userDocs, this`isLoading, this`currentUser, this`currentScreen, this`pendingSignUp
      ensures var p := old(pendingSignUp).value;
        && RegisterError(p.email, p.password) == None
        && userDocs == old(userDocs)[uid := NewUser(uid, p.name, p.email, p.department)]
        && currentUser == Some(NewUser(uid, p.name, p.email, p.department))
        && currentUser.value.role == (if Text.Contains(p.email, "admin", true) then AdminRole else UserRole)
      ensures currentScreen == Feed && !isLoading && pendingSignUp == None
    {
      var p := pendingSignUp.value;
      var newUser := NewUser(uid, p.name, p.email, p.department);
      userDocs := userDocs[uid := newUser];
      isLoading := false;
      currentUser := Some(newUser);
      currentScreen := Feed;
      pendingSignUp := None;
    }

    /** `logout`: nobody is signed in and the login screen is selected. */
    method Logout()
      modifies this`currentUser, this`currentScreen
      ensures currentUser == None && currentScreen == Screen.Login
    {
      currentUser := None;
      currentScreen := Screen.Login;
    }

    /**
     * `addIncident`: with a signed-in user, a new OPEN incident of that type,
     * authored by that user, is added under the id the store assigns; with
     * nobody signed in, nothing happens.
     */
    method AddIncident(t: IncidentType, title: string, description: string, now: Long, newId: string)
      requires newId !in incidentDocs
      modifies this`incidentDocs
      ensures currentUser == None ==> incidentDocs == old(incidentDocs)
      ensures currentUser != None ==>
        incidentDocs == Added(old(incidentDocs), newId, NewIncident(t, title, description, now, currentUser.value.id))
    {
      if currentUser == None {
        return;
      }
      var u := currentUser.value;
      incidentDocs := Added(incidentDocs, newId, NewIncident(t, title, description, now, u.id));
    }

    /** `updateStatus`: no role check of its own. */
    method UpdateStatus(id: string, status: IncidentStatus)
      modifies this`incidentDocs
      ensures incidentDocs == WithStatus(old(incidentDocs), id, status)
    {
      incidentDocs := WithStatus(incidentDocs, id, status);
    }

    /** `deleteIncident`: no role check of its own; follow lists keep the id. */
    method DeleteIncident(id: string)
      modifies this`incidentDocs
      ensures incidentDocs == Deleted(old(incidentDocs), id)
    {
      incidentDocs := Deleted(incidentDocs, id);
    }

    /**
     * `toggleFollow`: only `followedIncidents` of the signed-in user changes,
     * locally and in the user's stored record; with nobody signed in,
     * nothing changes.
     */
    method ToggleFollow(id: string)
      modifies this`currentUser, this`userDocs
      ensures old(currentUser) == None ==> currentUser == None && userDocs == old(userDocs)
      ensures old(currentUser) != None ==>
        var u := old(currentUser).value;
        && currentUser == Some(u.(followedIncidents := Toggled(u.followedIncidents, id)))
        && userDocs == WithFollows(old(userDocs), u.id, Toggled(u.followedIncidents, id))
    {
      if currentUser == None {
        return;
      }
      var u := currentUser.value;
      var newFollows := Toggled(u.followedIncidents, id);
      currentUser := Some(u.(followedIncidents := newFollows));
      userDocs := WithFollows(userDocs, u.id, newFollows);
    }

    /** The snapshot listener's callback: each document becomes an incident carrying its document id. */
    method ReceiveSnapshot(documents: seq<(string, Incident)>)
      modifies this`incidents
      ensures |incidents| == |documents|
      ensures forall i | 0 <= i < |documents| :: incidents[i] == documents[i].1.(id := documents[i].0)
    {
      incidents := seq(|documents|, i requires 0 <= i < |documents| => documents[i].1.(id := documents[i].0));
    }

    /** A bottom-bar item: going to the feed also clears the selection. */
    method Navigate(screen: Screen)
      modifies this`currentScreen, this`selectedIncident
      ensures currentScreen == screen
      ensures selectedIncident == if screen == Feed then None else old(selectedIncident)
    {
      currentScreen := screen;
      if screen == Feed {
        selectedIncident := None;
      }
    }

    /** A card of the feed: select the incident and show its detail. */
    method OpenDetail(inc: Incident)
      modifies this`selectedIncident, this`currentScreen
      ensures selectedIncident == Some(inc) && currentScreen == Detail
    {
      selectedIncident := Some(inc);
      currentScreen := Detail;
    }

    /**
     * The detail screen's `onAction`: back to the feed, then `toggleFollow`.
     * The follow button passes the incident's id; "Geri" passes "", so going
     * back toggles the empty id in the follow list.
     */
    method DetailAction(id: string)
      modifies this`currentScreen, this`currentUser, this`userDocs
      ensures currentScreen == Feed
      ensures old(currentUser) == None ==> currentUser == None && userDocs == old(userDocs)
      ensures old(currentUser) != None ==>
        var u := old(currentUser).value;
        && currentUser == Some(u.(followedIncidents := Toggled(u.followedIncidents, id)))
        && currentUser != old(currentUser)
        && userDocs == WithFollows(old(userDocs), u.id, Toggled(u.followedIncidents, id))
    {
      currentScreen := Feed;
      ToggleFollow(id);
      if old(currentUser) != None {
        ToggledChanges(old(currentUser).value.followedIncidents, id);
      }
    }

    /**
     * The back button as evidently intended: return to the feed and leave the
     * follow list alone.
     */
    method DetailBack()
      modifies this`currentScreen
      ensures currentScreen == Feed
    {
      currentScreen := Feed;
    }

    /** The create screen's submit: `addIncident`, then back to the feed. */
    method SubmitCreate(t: IncidentType, title: string, description: string, now: Long, newId: string)
      requires newId !in incidentDocs
      modifies this`incidentDocs, this`currentScreen
      ensures currentScreen == Feed
      ensures currentUser == None ==> incidentDocs == old(incidentDocs)
      ensures currentUser != None ==>
        incidentDocs == Added(old(incidentDocs), newId, NewIncident(t, title, description, now, currentUser.value.id))
    {
      AddIncident(t, title, description, now, newId);
      currentScreen := Feed;
    }

    /**
     * A button of the admin list. The buttons exist only while the admin
     * panel is shown, so only a signed-in "ADMIN" can press them; they offer
     * delete, IN_PROGRESS and RESOLVED (never back to OPEN).
     */
    method AdminClick(id: string, action: AdminAction)
      requires Shown() == AdminPanel
      modifies this`incidentDocs
      ensures currentUser != None && currentUser.value.role == AdminRole
      ensures Admin in NavBar()
      ensures incidentDocs == match action
        case Remove => Deleted(old(incidentDocs), id)
        case MarkInProgress => WithStatus(old(incidentDocs), id, InProgress)
        case MarkResolved => WithStatus(old(incidentDocs), id, Resolved)
    {
      match action
      case Remove => DeleteIncident(id);
      case MarkInProgress => UpdateStatus(id, InProgress);
      case MarkResolved => UpdateStatus(id, Resolved);
    }

    /**
     * "Yayınla" on the admin panel: the message, even an empty one, becomes
     * the alert shown on this device.
     */
    method BroadcastAlert(msg: string)
      requires Shown() == AdminPanel
      modifies this`emergencyAlert
      ensures emergencyAlert == Some(msg)
    {
      emergencyAlert := Some(msg);
    }

    /** Dismissing the alert banner. */
    method DismissAlert()
      modifies this`emergencyAlert
      ensures emergencyAlert == None
    {
      emergencyAlert := None;
    }

    /** "Tamam", or dismissing the error dialog. */
    method DismissError()
      modifies this`errorMessage
      ensures errorMessage == None
    {
      errorMessage := None;
    }

    /**
     * "İptal Et" on the loading overlay: loading ends and the login screen is
     * selected. Only the remote session is signed out: `currentUser` is kept,
     * and a callback still in flight may arrive later.
     */
    method CancelLoading()
      requires Shown() == Progress
      modifies this`isLoading, this`currentScreen
      ensures !isLoading && currentScreen == Screen.Login
      ensures Shown() == if currentUser == None then LoginForm else CannotLoad
    {
      isLoading := false;
      currentScreen := Screen.Login;
    }
  }
}
