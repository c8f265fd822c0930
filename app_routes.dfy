/**
 * The application's routes: which page each path shows, which paths need a
 * signed-in user or an administrator, and what the route guard shows
 * instead.
 */
module AppRoutes {
  import opened Strings

  datatype Page =
    | Home | SearchResults | GuideDetails | ItinerariesList | ItineraryDetails | Login | Register
    | Groups | GroupDetails | Dashboard | CreateItinerary | CreateGroup | AdminDashboard

  /** The guard around a page: none, `ProtectedRoute`, or `ProtectedRoute adminOnly`. */
  datatype Guard = Open | SignedIn | AdminOnly

  /** A path segment of a route: literal text (lower case, as every path here is) or a `:id` parameter. */
  datatype Segment = Literal(text: string) | Param

  datatype Route = Route(pattern: seq<Segment>, guard: Guard, page: Page)

  /** The route table, catch-all excepted. */
  const Routes: seq<Route> := [
    Route([], Open, Home),
    Route([Literal("search")], Open, SearchResults),
    Route([Literal("guides"), Param], Open, GuideDetails),
    Route([Literal("itineraries")], Open, ItinerariesList),
    Route([Literal("itineraries"), Param], Open, ItineraryDetails),
    Route([Literal("login")], Open, Login),
    Route([Literal("register")], Open, Register),
    Route([Literal("groups")], Open, Groups),
    Route([Literal("groups"), Param], Open, GroupDetails),
    Route([Literal("dashboard")], SignedIn, Dashboard),
    Route([Literal("create-itinerary")], Open, CreateItinerary),
    Route([Literal("create-group")], SignedIn, CreateGroup),
    Route([Literal("admin")], AdminOnly, AdminDashboard)
  ]

  /**
   * A path, as its non-empty segments, matches a pattern of the same length
   * whose literals equal the segments up to case; a parameter takes any segment.
   */
  predicate Matches(pattern: seq<Segment>, path: seq<string>) {
    |pattern| == |path| &&
    forall i :: 0 <= i < |pattern| ==> pattern[i].Literal? ==> Lower(path[i]) == pattern[i].text
  }

  /** What is on screen: the guard's spinner, a redirect, or a page. */
  datatype Screen = Spinner | Redirect(to: string) | Show(page: Page)

  /** `ProtectedRoute`: loading first, then signed out, then the administrator check. */
  function Protect(guard: Guard, page: Page, loading: bool, isAuthenticated: bool, isAdmin: bool): (r: Screen)
    ensures guard.Open? ==> r == Show(page)
    ensures !guard.Open? && loading ==> r == Spinner
    ensures !guard.Open? && !loading && !isAuthenticated ==> r == Redirect("/login")
    ensures guard.AdminOnly? && !loading && isAuthenticated && !isAdmin ==> r == Redirect("/")
    ensures r == Show(page) <==> guard.Open? || (!loading && isAuthenticated && (guard.SignedIn? || isAdmin))
  {
    if guard.Open? then Show(page)
    else if loading then Spinner
    else if !isAuthenticated then Redirect("/login")
    else if guard.AdminOnly? && !isAdmin then Redirect("/")
    else Show(page)
  }

  /** The index of the first route the path matches, or `|routes|` when none does. */
  function FirstMatch(routes: seq<Route>, path: seq<string>): (k: nat)
    ensures k <= |routes|
    ensures k < |routes| ==> Matches(routes[k].pattern, path)
    ensures forall j :: 0 <= j < k ==> !Matches(routes[j].pattern, path)
  {
    if |routes| == 0 then 0
    else if Matches(routes[0].pattern, path) then 0
    else 1 + FirstMatch(routes[1..], path)
  }

  /** The screen for a path: the matching route's page behind its guard, or a redirect home when no route matches. */
  function Resolve(path: seq<string>, loading: bool, isAuthenticated: bool, isAdmin: bool): (r: Screen)
    ensures (forall j :: 0 <= j < |Routes| ==> !Matches(Routes[j].pattern, path)) ==> r == Redirect("/")
    ensures forall j :: 0 <= j < |Routes| && Matches(Routes[j].pattern, path) ==>
      r == Protect(Routes[j].guard, Routes[j].page, loading, isAuthenticated, isAdmin)
  {
    var k := FirstMatch(Routes, path);
    RoutesDisjoint(path);
    if k == |Routes| then Redirect("/")
    else Protect(Routes[k].guard, Routes[k].page, loading, isAuthenticated, isAdmin)
  }

  /**
   * No path matches two routes, so the order of the table does not matter:
   * the router's ranking and the first match agree.
   */
  lemma RoutesDisjoint(path: seq<string>)
    ensures forall i, j :: 0 <= i < j < |Routes| ==> !(Matches(Routes[i].pattern, path) && Matches(Routes[j].pattern, path))
  {
    forall i, j | 0 <= i < j < |Routes| && Matches(Routes[i].pattern, path)
      ensures !Matches(Routes[j].pattern, path)
    {
      assert |Routes[i].pattern| == |path|;
      if |path| > 0 {
        assert Routes[i].pattern[0].Literal? && Lower(path[0]) == Routes[i].pattern[0].text;
      }
    }
  }

  /** The dashboard needs a signed-in user. */
  lemma DashboardNeedsSignIn(isAdmin: bool)
    ensures Resolve(["dashboard"], false, false, isAdmin) == Redirect("/login")
  {
    assert Matches(Routes[9].pattern, ["dashboard"]);
  }

  /** So does the new-group form. */
  lemma CreateGroupNeedsSignIn(isAdmin: bool)
    ensures Resolve(["create-group"], false, false, isAdmin) == Redirect("/login")
  {
    assert Matches(Routes[11].pattern, ["create-group"]);
  }

  /** The new-itinerary form is shown to anyone, even while the session is loading. */
  lemma CreateItineraryIsOpen(loading: bool, isAuthenticated: bool, isAdmin: bool)
    ensures Resolve(["create-itinerary"], loading, isAuthenticated, isAdmin) == Show(CreateItinerary)
  {
    assert Matches(Routes[10].pattern, ["create-itinerary"]);
  }

  /** The admin page sends a signed-out visitor to log in and a signed-in non-administrator home. */
  lemma AdminRoute(loading: bool, isAuthenticated: bool, isAdmin: bool)
    ensures loading ==> Resolve(["admin"], loading, isAuthenticated, isAdmin) == Spinner
    ensures !loading && !isAuthenticated ==> Resolve(["admin"], loading, isAuthenticated, isAdmin) == Redirect("/login")
    ensures !loading && isAuthenticated && !isAdmin ==> Resolve(["admin"], loading, isAuthenticated, isAdmin) == Redirect("/")
    ensures !loading && isAuthenticated && isAdmin ==> Resolve(["admin"], loading, isAuthenticated, isAdmin) == Show(AdminDashboard)
  {
    assert Matches(Routes[12].pattern, ["admin"]);
  }

  /** The dashboard's edit button goes to `/edit-itinerary/<id>`, which no route matches, so it lands on the home page. */
  lemma EditItineraryPathGoesHome(id: string, loading: bool, isAuthenticated: bool, isAdmin: bool)
    ensures Resolve(["edit-itinerary", id], loading, isAuthenticated, isAdmin) == Redirect("/")
  {
    var path := ["edit-itinerary", id];
    assert |Lower(path[0])| == 14;
    // The two-segment routes start with a literal of another length than "edit-itinerary".
    assert !Matches(Routes[2].pattern, path);
    assert !Matches(Routes[4].pattern, path);
    assert !Matches(Routes[8].pattern, path);
  }
}
