/**
 * `App.tsx`: the root component keeps the signed-in user and the current view, and
 * picks the one screen to render. There is no data store and no persistence here.
 */
module App {
  import opened Types

  /** The screen the root component renders. */
  datatype Screen =
    | LoginScreen
    | DashboardScreen
    | CareCircleScreen
    | ProjectsScreen
    | PetBabyLogScreen
    | VaultScreen
    | MemoriesScreen

  /** The screen each view stands for. */
  function ScreenOf(v: View): (s: Screen)
    ensures s != LoginScreen
  {
    match v
    case Dashboard => DashboardScreen
    case CareCircle => CareCircleScreen
    case Projects => ProjectsScreen
    case PetBabyLog => PetBabyLogScreen
    case Vault => VaultScreen
    case Memories => MemoriesScreen
  }

  /** Distinct views lead to distinct screens. */
  lemma ScreenOfInjective(v: View, w: View)
    requires ScreenOf(v) == ScreenOf(w)
    ensures v == w
  {
  }

  /** `renderView`: a switch over the run-time string of the current view. Each view's string
      selects that view's screen; a string that is no view's selects the Dashboard. */
  function RenderView(view: string): (s: Screen)
    ensures forall v: View :: view == ViewName(v) ==> s == ScreenOf(v)
    ensures (forall v: View :: view != ViewName(v)) ==> s == DashboardScreen
    ensures s != LoginScreen
  {
    if view == ViewName(View.Dashboard) then DashboardScreen
    else if view == ViewName(View.CareCircle) then CareCircleScreen
    else if view == ViewName(View.Projects) then ProjectsScreen
    else if view == ViewName(View.PetBabyLog) then PetBabyLogScreen
    else if view == ViewName(View.Vault) then VaultScreen
    else if view == ViewName(View.Memories) then MemoriesScreen
    else DashboardScreen
  }

  /** The session state of the root component. */
  class Session {
    var currentView: View
    var currentUser: Option<User>

    /** The application opens on the Dashboard view with nobody signed in. */
    constructor ()
      ensures currentView == View.Dashboard && currentUser == None
    {
      currentView, currentUser := View.Dashboard, None;
    }

    /** `handleLogin`: sets the user and leaves the view as it was. */
    method Login(user: User)
      modifies this`currentUser
      ensures currentUser == Some(user)
    {
      currentUser := Some(user);
    }

    /** `handleLogout`: clears the user and goes back to the Dashboard view. */
    method Logout()
      modifies this
      ensures currentUser == None && currentView == View.Dashboard
    {
      currentUser := None;
      currentView := View.Dashboard;
    }

    /** The header's `setCurrentView`: sets the view and leaves the user as it was. */
    method Navigate(v: View)
      modifies this`currentView
      ensures currentView == v
    {
      currentView := v;
    }

    /** What the root renders: the Login screen while nobody is signed in, whatever the view;
        otherwise the current view's own screen. */
    function Render(): (s: Screen)
      reads this
      ensures s == LoginScreen <==> currentUser == None
      ensures currentUser != None ==> s == ScreenOf(currentView)
    {
      if currentUser == None then LoginScreen else RenderView(ViewName(currentView))
    }
  }

  /** Logging out twice ends in the same state as logging out once. */
  method LogoutIsIdempotent(once: Session, twice: Session)
    requires once != twice
    requires once.currentView == twice.currentView && once.currentUser == twice.currentUser
    modifies once, twice
    ensures once.currentView == twice.currentView && once.currentUser == twice.currentUser
  {
    once.Logout();
    twice.Logout();
    twice.Logout();
  }
}
