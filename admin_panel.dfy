/** The administration page (src/pages/AdminPanel.tsx): the authorization check run on entry,
    what the page shows, and the tab selection. */
module AdminPanel {
  import opened Wrappers

  /** The one account the page admits. */
  const AdminEmail := "sistemas@fundacionsanezequiel.org"

  /** `TabType`: the four tabs, and nothing else. */
  datatype AdminTab = Users | Ofertas | Formaciones | Programas

  /** The decision of `checkAuthorization`.  `user` is the session's user id; `profile` is the
      `email` column of the user's profile row (absent when the row holds none), or the query's
      error. Only a byte-for-byte match of the address admits. */
  function Authorized(user: Option<string>, profile: Remote<Option<string>>): (ok: bool)
    ensures ok <==> user.Some? && profile == Returned(Some(AdminEmail))
  {
    match (user, profile)
    case (Some(_), Returned(Some(email))) => email == AdminEmail
    case _ => false
  }

  /** Letter case matters, and no other account is admitted. */
  lemma OnlyTheExactAddress(user: string, email: string)
    requires email != AdminEmail
    ensures !Authorized(Some(user), Returned(Some(email)))
    ensures !Authorized(Some(user), Returned(Some("Sistemas@fundacionsanezequiel.org")))
    ensures !Authorized(Some(user), Returned(None))
    ensures !Authorized(Some(user), StoreError)
  {
    assert "Sistemas@fundacionsanezequiel.org"[0] != AdminEmail[0];
  }

  /** What the page renders. */
  datatype Screen = Spinner | AccessDenied | PanelOn(tab: AdminTab)

  function ScreenOf(loading: bool, isAuthorized: bool, tab: AdminTab): (s: Screen)
    ensures s.PanelOn? <==> !loading && isAuthorized
    ensures s.PanelOn? ==> s.tab == tab
    ensures s == Spinner <==> loading
  {
    if loading then Spinner else if !isAuthorized then AccessDenied else PanelOn(tab)
  }

  class AdminPage {
    var loading: bool
    var isAuthorized: bool
    var activeTab: AdminTab
    var navigatedTo: Option<string>

    constructor()
      ensures loading && !isAuthorized && activeTab == Users && navigatedTo == None
    {
      loading := true;
      isAuthorized := false;
      activeTab := Users;
      navigatedTo := None;
    }

    /** `checkAuthorization`: loading ends on every path; with no session the page also goes
        to the login. The panel is shown afterwards exactly for the administrator. */
    method CheckAuthorization(user: Option<string>, profile: Remote<Option<string>>)
      modifies this
      ensures !loading
      ensures isAuthorized == Authorized(user, profile)
      ensures ScreenOf(loading, isAuthorized, activeTab).PanelOn? <==> user.Some? && profile == Returned(Some(AdminEmail))
      ensures user.None? ==> navigatedTo == Some("/login")
      ensures user.Some? ==> navigatedTo == old(navigatedTo)
      ensures activeTab == old(activeTab)
    {
      if user.None? {
        isAuthorized := false;
        loading := false;
        navigatedTo := Some("/login");
        return;
      }
      if profile.StoreError? {
        isAuthorized := false;
      } else if profile.row == Some(AdminEmail) {
        isAuthorized := true;
      } else {
        isAuthorized := false;
      }
      loading := false;
    }

    /** A tab button. */
    method SelectTab(t: AdminTab)
      modifies this
      ensures activeTab == t
      ensures loading == old(loading) && isAuthorized == old(isAuthorized) && navigatedTo == old(navigatedTo)
    {
      activeTab := t;
    }

    /** The "Volver al Perfil" button on the access-denied screen. */
    method BackToProfile()
      modifies this
      ensures navigatedTo == Some("/profile")
      ensures loading == old(loading) && isAuthorized == old(isAuthorized) && activeTab == old(activeTab)
    {
      navigatedTo := Some("/profile");
    }
  }
}
