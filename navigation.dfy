// Navigation in the admin frontend: the route table and start path (App.tsx), the guard
// in front of the admin pages (components/ProtectedRoute.tsx) and the role-filtered
// sidebar with its logout (components/admin/Sidebar.tsx).
module Navigation {
  import opened Common
  import opened Text
  import opened Store

  /** The user context's value. */
  datatype AppUser = AppUser(id: int, name: string, email: string, role: string)

  /** The value the user context starts from and is reset to. */
  const SIGNED_OUT: AppUser := AppUser(0, "", "", USER)

  /** The state every page shares: the token in localStorage and the user context. */
  class AppState {
    var token: Option<string>
    var user: AppUser

    constructor (token: Option<string>, user: AppUser)
      ensures this.token == token && this.user == user
    {
      this.token := token;
      this.user := user;
    }
  }

  // ---------------------------------------------------------------- routes

  /** The public chat of a chatbot: `/c/${id}`. */
  function ChatPath(chatbotId: int): (path: string)
    ensures |path| > 3 && path[..3] == "/c/"
  {
    "/c/" + IntToDecimal(chatbotId)
  }

  /**
   * redirectPath: the login page without a token; with one, the dashboard for an
   * administrator, otherwise the public chat of the first cached chatbot, or the
   * not-authorized page when there is none.
   */
  function RedirectPath(token: Option<string>, user: AppUser, chatbotIds: seq<int>): (path: string)
    ensures path == "/login" <==> !Present(token)
    ensures path == "/dashboard" <==> Present(token) && user.role == ADMIN
    ensures path == "/not-authorized" <==> Present(token) && user.role != ADMIN && |chatbotIds| == 0
  {
    if Present(token) then
      if user.role == ADMIN then "/dashboard"
      else if |chatbotIds| > 0 then ChatPath(chatbotIds[0])
      else "/not-authorized"
    else "/login"
  }

  /** The pages inside the admin layout; Home is the layout's index route. */
  datatype AdminPage = Home | Dashboard | Chatbots | KnowledgeBase | ChatHistory | QRCodes | Settings

  /** What the router renders for a path. */
  datatype Element =
    | LoginPage
    | Redirect(to: string)
    | PublicChat(chatbotId: string)
    | Protected(page: AdminPage)
    | NotAuthorized
    | NotFound

  function AdminPageAt(path: string): Option<AdminPage>
  {
    if path == "/" then Some(Home)
    else if path == "/dashboard" then Some(Dashboard)
    else if path == "/chatbots" then Some(Chatbots)
    else if path == "/knowledge-base" then Some(KnowledgeBase)
    else if path == "/chat-history" then Some(ChatHistory)
    else if path == "/qr-codes" then Some(QRCodes)
    else if path == "/settings" then Some(Settings)
    else None
  }

  /** `/c/:chatbotId`: one non-empty segment after `/c/`. */
  predicate IsChatPath(path: string)
  {
    |path| > 3 && path[..3] == "/c/" && forall i :: 3 <= i < |path| ==> path[i] != '/'
  }

  /**
   * The route table. `/login` redirects to `redirect` when a token is stored; the admin
   * pages all sit behind ProtectedRoute(['ADMIN']); any other path is NotFound.
   */
  function Route(path: string, token: Option<string>, redirect: string): (e: Element)
    ensures e == NotFound <==>
              path != "/login" && !IsChatPath(path) && AdminPageAt(path).None? && path != "/not-authorized"
    ensures e.PublicChat? ==> path == "/c/" + e.chatbotId && e.chatbotId != ""
    ensures e.Redirect? ==> path == "/login" && Present(token) && e.to == redirect
  {
    if path == "/login" then (if Present(token) then Redirect(redirect) else LoginPage)
    else if IsChatPath(path) then PublicChat(path[3..])
    else if AdminPageAt(path).Some? then Protected(AdminPageAt(path).value)
    else if path == "/not-authorized" then NotAuthorized
    else NotFound
  }

  lemma {:induction false} DecimalHasNoSlash(n: int)
    ensures forall k :: 0 <= k < |IntToDecimal(n)| ==> IntToDecimal(n)[k] != '/'
  {
    if n < 0 {
      var d := NatToDecimal(-n);
      assert forall k :: 1 <= k < |IntToDecimal(n)| ==> IntToDecimal(n)[k] == d[k - 1];
    }
  }

  /** A chatbot's chat path opens the public chat with a parameter that parses back to its id. */
  lemma {:induction false} ChatPathOpensTheChat(chatbotId: int, token: Option<string>, redirect: string)
    ensures Route(ChatPath(chatbotId), token, redirect) == PublicChat(IntToDecimal(chatbotId))
    ensures ParseInt(IntToDecimal(chatbotId), false) == Some(chatbotId)
  {
    var d := IntToDecimal(chatbotId);
    var p := ChatPath(chatbotId);
    assert Route(p, token, redirect) == PublicChat(d) by {
      DecimalHasNoSlash(chatbotId);
      assert p[..3] == "/c/";
      assert forall i :: 3 <= i < |p| ==> p[i] == d[i - 3];
      assert p[3..] == d;
    }
    IntRoundTrip(chatbotId, false);
  }

  /**
   * The start path is always a page of the table, and `/login` never redirects to
   * itself: without a token it shows the login form, with one it leaves.
   */
  lemma {:induction false} RedirectPathIsARoute(token: Option<string>, user: AppUser, chatbotIds: seq<int>)
    ensures Route(RedirectPath(token, user, chatbotIds), token, RedirectPath(token, user, chatbotIds)) != NotFound
    ensures Route("/login", token, RedirectPath(token, user, chatbotIds)) ==
              if Present(token) then Redirect(RedirectPath(token, user, chatbotIds)) else LoginPage
    ensures Present(token) ==> RedirectPath(token, user, chatbotIds) != "/login"
  {
    if Present(token) && user.role != ADMIN && |chatbotIds| > 0 {
      ChatPathOpensTheChat(chatbotIds[0], token, RedirectPath(token, user, chatbotIds));
    }
  }

  // ---------------------------------------------------------------- the guard

  /** The /api/auth/me body; a missing or falsy field reads as "". */
  datatype MeReply = MeReply(id: int, name: string, email: string, role: string)

  /** The user the guard stores from a reply: a falsy role is a plain user. */
  function SignedIn(me: MeReply): (u: AppUser)
    ensures u.id == me.id && u.name == me.name && u.email == me.email
    ensures u.role == USER <==> me.role == "" || me.role == USER
  {
    AppUser(me.id, me.name, me.email, if me.role == "" then USER else me.role)
  }

  datatype GuardView = Loading | ToLogin | Denied(to: string) | Outlet

  /**
   * What ProtectedRoute renders: only a loading view while verification is pending;
   * the login page unless verification succeeded; for a role not allowed, the public
   * chat of the first chatbot when its id is truthy, else the not-authorized page; the
   * nested page otherwise.
   */
  function GuardDecision(isLoading: bool, isAuthenticated: Option<bool>, allowedRoles: seq<string>,
                         role: string, chatbotIds: seq<int>): (v: GuardView)
    ensures v == Loading <==> isLoading
    ensures !isLoading ==> (v == ToLogin <==> isAuthenticated != Some(true))
    ensures v == Outlet <==> !isLoading && isAuthenticated == Some(true) && role in allowedRoles
    ensures v.Denied? ==>
              if |chatbotIds| > 0 && chatbotIds[0] != 0 then v.to == ChatPath(chatbotIds[0]) else v.to == "/not-authorized"
  {
    if isLoading then Loading
    else if isAuthenticated != Some(true) then ToLogin
    else if role !in allowedRoles then
      Denied(if |chatbotIds| > 0 && chatbotIds[0] != 0 then ChatPath(chatbotIds[0]) else "/not-authorized")
    else Outlet
  }

  /**
   * Where the admin pages' guard turns a signed-in non-administrator away is where the
   * start path sends them, as long as the first chatbot's id is truthy.
   */
  lemma GuardAgreesWithStartPath(token: Option<string>, user: AppUser, chatbotIds: seq<int>)
    requires Present(token) && user.role != ADMIN
    requires |chatbotIds| > 0 ==> chatbotIds[0] != 0
    ensures GuardDecision(false, Some(true), [ADMIN], user.role, chatbotIds) ==
              Denied(RedirectPath(token, user, chatbotIds))
  {
  }

  /** ProtectedRoute's state: the outcome of verification and the loading flag. */
  class ProtectedRoute {
    const allowedRoles: seq<string>
    var isAuthenticated: Option<bool>
    var isLoading: bool
    var mounted: bool

    constructor (allowedRoles: seq<string>)
      ensures this.allowedRoles == allowedRoles
      ensures isAuthenticated.None? && isLoading && mounted
    {
      this.allowedRoles := allowedRoles;
      isAuthenticated := None;
      isLoading := true;
      mounted := true;
    }

    function View(user: AppUser, chatbotIds: seq<int>): (v: GuardView)
      reads this
      ensures v == Loading <==> isLoading
    {
      GuardDecision(isLoading, isAuthenticated, allowedRoles, user.role, chatbotIds)
    }

    /**
     * verifyToken. No stored token means unauthenticated with no request. Otherwise
     * `me` is the /api/auth/me answer, None when the request fails: success stores the
     * user, failure resets the user context to SIGNED_OUT (writing it only when it
     * differs). `unmountedMeanwhile` is an unmount during the request, after which the
     * loading flag is left as it is.
     */
    method VerifyToken(app: AppState, me: Option<MeReply>, unmountedMeanwhile: bool)
      modifies this, app
      ensures app.token == old(app.token)
      ensures !old(mounted) ==>
                isAuthenticated == old(isAuthenticated) && isLoading == old(isLoading)
                && mounted == old(mounted) && app.user == old(app.user)
      ensures old(mounted) && !Present(app.token) ==>
                isAuthenticated == Some(false) && !isLoading && mounted && app.user == old(app.user)
      ensures old(mounted) && Present(app.token) ==>
                && (isAuthenticated == Some(true) <==> me.Some?)
                && isAuthenticated.Some?
                && app.user == (if me.Some? then SignedIn(me.value) else SIGNED_OUT)
                && isLoading == (old(isLoading) && unmountedMeanwhile)
                && mounted == !unmountedMeanwhile
    {
      if !mounted {
        return;
      }
      if !Present(app.token) {
        isAuthenticated := Some(false);
        isLoading := false;
        return;
      }
      if unmountedMeanwhile {
        mounted := false;
      }
      if me.Some? {
        app.user := SignedIn(me.value);
        isAuthenticated := Some(true);
      } else {
        isAuthenticated := Some(false);
        if app.user != SIGNED_OUT {
          app.user := SIGNED_OUT;
        }
      }
      if mounted {
        isLoading := false;
      }
    }
  }

  /** An administrator whose token verifies sees the admin page. */
  lemma VerifiedAdminSeesThePage(me: MeReply, chatbotIds: seq<int>)
    requires me.role == ADMIN
    ensures GuardDecision(false, Some(true), [ADMIN], SignedIn(me).role, chatbotIds) == Outlet
  {
  }

  // ---------------------------------------------------------------- the sidebar

  datatype NavItem = NavItem(name: string, href: string, roles: seq<string>)

  /** The sidebar's entries, in order (the QR-code entry is commented out in the source). */
  const NAVIGATION: seq<NavItem> := [
    NavItem("Dashboard", "/dashboard", [ADMIN]),
    NavItem("Chatbots", "/chatbots", [ADMIN, SUB_ADMIN]),
    NavItem("Knowledge Base", "/knowledge-base", [ADMIN, SUB_ADMIN]),
    NavItem("Chat History", "/chat-history", [ADMIN, SUB_ADMIN]),
    NavItem("User Management", "/users", [ADMIN]),
    NavItem("Settings", "/settings", [ADMIN])
  ]

  /** `navigation.filter(item => item.roles.includes(role))`. */
  function Visible(items: seq<NavItem>, role: string): seq<NavItem>
  {
    if |items| == 0 then []
    else (if role in items[0].roles then [items[0]] else []) + Visible(items[1..], role)
  }

  /** The filter keeps exactly the entries that list the role. */
  lemma {:induction false} VisibleMembers(items: seq<NavItem>, role: string)
    ensures forall item :: item in Visible(items, role) <==> item in items && role in item.roles
  {
    if |items| > 0 {
      VisibleMembers(items[1..], role);
      assert items == [items[0]] + items[1..];
    }
  }

  /** The entries shown to a role: those whose roles include it, in declaration order. */
  function VisibleItems(role: string): (items: seq<NavItem>)
    ensures forall item :: item in items <==> item in NAVIGATION && role in item.roles
  {
    VisibleMembers(NAVIGATION, role);
    Visible(NAVIGATION, role)
  }

  /** The suffixes of NAVIGATION the filter walks through. */
  lemma NavigationSuffixes()
    ensures |ADMIN| == 5 && |SUB_ADMIN| == 9 && |USER| == 4
    ensures NAVIGATION[6..] == [] && NAVIGATION[0..] == NAVIGATION
    ensures forall k :: 0 <= k < 6 ==> NAVIGATION[k..][0] == NAVIGATION[k] && NAVIGATION[k..][1..] == NAVIGATION[k + 1..]
  {
  }

  /** An administrator sees all six entries. */
  lemma {:induction false} AdminEntries()
    ensures VisibleItems(ADMIN) == NAVIGATION
  {
    var n := NAVIGATION;
    NavigationSuffixes();
    assert Visible(n[5..], ADMIN) == n[5..];
    assert Visible(n[4..], ADMIN) == n[4..];
    assert Visible(n[3..], ADMIN) == n[3..];
    assert Visible(n[2..], ADMIN) == n[2..];
    assert Visible(n[1..], ADMIN) == n[1..];
    assert Visible(n[0..], ADMIN) == n[0..];
  }

  /** A sub-administrator sees Chatbots, Knowledge Base and Chat History. */
  lemma {:induction false} SubAdminEntries()
    ensures VisibleItems(SUB_ADMIN) == NAVIGATION[1..4]
  {
    var n := NAVIGATION;
    NavigationSuffixes();
    assert Visible(n[5..], SUB_ADMIN) == [];
    assert Visible(n[4..], SUB_ADMIN) == [];
    assert Visible(n[3..], SUB_ADMIN) == [n[3]];
    assert Visible(n[2..], SUB_ADMIN) == [n[2], n[3]];
    assert Visible(n[1..], SUB_ADMIN) == [n[1], n[2], n[3]];
    assert Visible(n[0..], SUB_ADMIN) == [n[1], n[2], n[3]];
    assert n[1..4] == [n[1], n[2], n[3]];
  }

  /** A plain user sees no entry. */
  lemma {:induction false} UserEntries()
    ensures VisibleItems(USER) == []
  {
    var n := NAVIGATION;
    NavigationSuffixes();
    assert Visible(n[5..], USER) == [];
    assert Visible(n[4..], USER) == [];
    assert Visible(n[3..], USER) == [];
    assert Visible(n[2..], USER) == [];
    assert Visible(n[1..], USER) == [];
    assert Visible(n[0..], USER) == [];
  }

  /** `/c/:chatbotId` needs a `c` after the first slash. */
  lemma {:induction false} NotAChatPath(path: string)
    requires |path| >= 3 && (path[1] != 'c' || path[2] != '/')
    ensures !IsChatPath(path)
  {
    if |path| > 3 {
      assert path[..3][1] == path[1] && path[..3][2] == path[2];
    }
  }

  /** The route of each fixed path the sidebar links to. */
  lemma {:induction false} SidebarPathRoutes(token: Option<string>, redirect: string)
    ensures Route("/dashboard", token, redirect) == Protected(Dashboard)
    ensures Route("/chatbots", token, redirect) == Protected(Chatbots)
    ensures Route("/knowledge-base", token, redirect) == Protected(KnowledgeBase)
    ensures Route("/chat-history", token, redirect) == Protected(ChatHistory)
    ensures Route("/settings", token, redirect) == Protected(Settings)
    ensures Route("/users", token, redirect) == NotFound
  {
    NotAChatPath("/dashboard");
    NotAChatPath("/chatbots");
    NotAChatPath("/knowledge-base");
    NotAChatPath("/chat-history");
    NotAChatPath("/settings");
    NotAChatPath("/users");
  }

  /**
   * Every administrator entry opens a guarded admin page except User Management (the
   * fifth), whose `/users` is not in the route table.
   */
  lemma {:induction false} AdminEntriesLead(token: Option<string>, redirect: string)
    ensures VisibleItems(ADMIN) == NAVIGATION
    ensures forall k :: 0 <= k < |NAVIGATION| ==>
              (Route(NAVIGATION[k].href, token, redirect) == NotFound <==> k == 4)
  {
    AdminEntries();
    SidebarPathRoutes(token, redirect);
    forall k | 0 <= k < |NAVIGATION|
      ensures Route(NAVIGATION[k].href, token, redirect) == NotFound <==> k == 4
    {
      if k == 0 {
        assert NAVIGATION[k].href == "/dashboard";
      } else if k == 1 {
        assert NAVIGATION[k].href == "/chatbots";
      } else if k == 2 {
        assert NAVIGATION[k].href == "/knowledge-base";
      } else if k == 3 {
        assert NAVIGATION[k].href == "/chat-history";
      } else if k == 4 {
        assert NAVIGATION[k].href == "/users";
      } else {
        assert NAVIGATION[k].href == "/settings";
      }
    }
  }

  /**
   * A sub-administrator's entries are all guarded admin pages, and the guard turns a
   * sub-administrator away from every one of them.
   */
  lemma {:induction false} SubAdminEntriesLead(token: Option<string>, redirect: string, chatbotIds: seq<int>)
    ensures VisibleItems(SUB_ADMIN) == NAVIGATION[1..4]
    ensures forall k :: 1 <= k < 4 ==> Route(NAVIGATION[k].href, token, redirect).Protected?
    ensures GuardDecision(false, Some(true), [ADMIN], SUB_ADMIN, chatbotIds).Denied?
  {
    assert VisibleItems(SUB_ADMIN) == NAVIGATION[1..4] by {
      SubAdminEntries();
    }
    SidebarPathRoutes(token, redirect);
    forall k | 1 <= k < 4
      ensures Route(NAVIGATION[k].href, token, redirect).Protected?
    {
      if k == 1 {
        assert NAVIGATION[k].href == "/chatbots";
      } else if k == 2 {
        assert NAVIGATION[k].href == "/knowledge-base";
      } else {
        assert NAVIGATION[k].href == "/chat-history";
      }
    }
  }

  /** The label next to the user's name: a sub-administrator is shown as USER. */
  function RoleTag(role: string): (tag: string)
    ensures tag == USER <==> role == SUB_ADMIN || role == USER
    ensures role != SUB_ADMIN ==> tag == role
  {
    if role == SUB_ADMIN then USER else role
  }

  /** The sidebar's own state: whether the mobile menu is open. */
  class Sidebar {
    var isOpen: bool

    constructor ()
      ensures !isOpen
    {
      isOpen := false;
    }

    method ToggleMenu()
      modifies this
      ensures isOpen == !old(isOpen)
    {
      isOpen := !isOpen;
    }

    /** Following an entry closes the menu and goes to the entry's path. */
    method FollowEntry(item: NavItem) returns (to: string)
      modifies this
      ensures !isOpen && to == item.href
    {
      isOpen := false;
      to := item.href;
    }

    /** handleLogout: the token is removed, the user reset, the menu closed, and /login opened. */
    method HandleLogout(app: AppState) returns (to: string)
      modifies this, app
      ensures app.token.None? && app.user == SIGNED_OUT
      ensures !isOpen && to == "/login"
    {
      app.token := None;
      app.user := SIGNED_OUT;
      isOpen := false;
      to := "/login";
    }
  }

  /**
   * After logout the login path shows the login form, the start path is /login again,
   * a fresh guard sends the visitor to it, and the sidebar offers nothing.
   */
  lemma AfterLogout(chatbotIds: seq<int>)
    ensures Route("/login", None, RedirectPath(None, SIGNED_OUT, chatbotIds)) == LoginPage
    ensures RedirectPath(None, SIGNED_OUT, chatbotIds) == "/login"
    ensures GuardDecision(false, Some(false), [ADMIN], SIGNED_OUT.role, chatbotIds) == ToLogin
    ensures VisibleItems(SIGNED_OUT.role) == []
  {
    UserEntries();
  }
}
