/** The dashboard frame (`DashboardLayout.jsx`): the navigation entries and
    which of them is highlighted, the title derived from the path, logout, and
    the two toggles for the sidebar and the assistant panel. */
module DashboardLayout {
  import opened Text
  import opened Browser
  import opened ApiClient
  import opened AppRoutes

  /** The storage key the client keeps the user name under. */
  const UserKey := "crexe_user"

  // ---- navigation ------------------------------------------------------------------

  /** A `<NavLink>`: its target page, its caption and whether it matches only its
      exact path (`end`). */
  datatype NavEntry = NavEntry(target: Page, caption: string, exact: bool)

  /** `NAV`, with `end` set only on the entry for `/dashboard`. */
  function Nav(): (nav: seq<NavEntry>)
    ensures |nav| == 4
    ensures forall i :: 0 <= i < |nav| ==> Guarded(nav[i].target) && (nav[i].exact <==> PagePath(nav[i].target) == PagePath(Overview))
  {
    PagePathTexts();
    [ NavEntry(Overview, "Overview", true), NavEntry(Funnel, "Funnel", false),
      NavEntry(Leads, "Leads", false), NavEntry(Agents, "Agentes", false) ]
  }

  /** The text of each dashboard page's path. */
  lemma PagePathTexts()
    ensures PagePath(Overview) == "/dashboard"
    ensures PagePath(Funnel) == "/dashboard/funnel"
    ensures PagePath(Leads) == "/dashboard/leads"
    ensures PagePath(Agents) == "/dashboard/agents"
  {
  }

  /** Whether `prefix` is an initial run of `segs`. */
  predicate SegmentPrefix(prefix: seq<string>, segs: seq<string>)
  {
    |prefix| <= |segs| && segs[..|prefix|] == prefix
  }

  /** Whether a link is highlighted at a location: its path, or for a link
      without `end` also any path below it. */
  predicate Active(e: NavEntry, location: string)
  {
    var segs := Segments(location);
    if e.exact then segs == PageSegments(e.target) else SegmentPrefix(PageSegments(e.target), segs)
  }

  /** On each dashboard page exactly its own link is highlighted; `end` keeps
      the Overview link dark below `/dashboard`. */
  lemma NavHighlightsOwn(p: Page)
    requires Guarded(p)
    ensures forall i :: 0 <= i < |Nav()| ==> (Active(Nav()[i], PagePath(p)) <==> Nav()[i].target == p)
  {
    PageSegmentsPlain(p);
    SegmentsOfJoined(PageSegments(p));
    var nav := Nav();
    assert nav[1].target == Funnel && nav[2].target == Leads && nav[3].target == Agents;
    assert ["dashboard", "funnel"][..2] != ["dashboard", "leads"] by { assert "funnel" != "leads"; }
  }

  // ---- the title -------------------------------------------------------------------

  const FunnelTitle := "Funnel de Gestión"
  const LeadsTitle := "Leads"
  const AgentsTitle := "Performance de Agentes"
  const OverviewTitle := "Overview"

  /** `pageTitle()`: the first of `funnel`, `leads`, `agents` the path
      contains picks the title. */
  function PageTitle(path: string): (t: string)
    ensures Contains(path, "funnel") ==> t == FunnelTitle
    ensures !Contains(path, "funnel") && Contains(path, "leads") ==> t == LeadsTitle
    ensures !Contains(path, "funnel") && !Contains(path, "leads") && Contains(path, "agents") ==> t == AgentsTitle
    ensures !Contains(path, "funnel") && !Contains(path, "leads") && !Contains(path, "agents") ==> t == OverviewTitle
  {
    if Contains(path, "funnel") then FunnelTitle
    else if Contains(path, "leads") then LeadsTitle
    else if Contains(path, "agents") then AgentsTitle
    else OverviewTitle
  }

  /** The title each page shows by the router's own link to it. */
  function Title(p: Page): string
  {
    match p
    case Funnel => FunnelTitle
    case Leads => LeadsTitle
    case Agents => AgentsTitle
    case _ => OverviewTitle
  }

  /** At each dashboard page's path the title names that page. */
  lemma TitleOfPage(p: Page)
    requires Guarded(p)
    ensures PageTitle(PagePath(p)) == Title(p)
  {
    match p
    case Funnel => FunnelTitled();
    case Leads => LeadsTitled();
    case Agents => AgentsTitled();
    case Overview => OverviewTitled();
  }

  lemma FunnelTitled()
    ensures PageTitle(PagePath(Funnel)) == FunnelTitle
  {
    PagePathTexts();
    assert OccursAt(PagePath(Funnel), "funnel", 11);
    FunnelAt(PagePath(Funnel), 11);
  }

  lemma LeadsTitled()
    ensures PageTitle(PagePath(Leads)) == LeadsTitle
  {
    PagePathTexts();
    assert OccursAt(PagePath(Leads), "leads", 11);
    LeadsAt(PagePath(Leads), 11);
  }

  lemma AgentsTitled()
    ensures PageTitle(PagePath(Agents)) == AgentsTitle
  {
    PagePathTexts();
    assert OccursAt(PagePath(Agents), "agents", 11);
    AgentsAt(PagePath(Agents), 11);
  }

  lemma OverviewTitled()
    ensures PageTitle(PagePath(Overview)) == OverviewTitle
  {
    PagePathTexts();
    NoSection(PagePath(Overview));
  }

  lemma FunnelAt(path: string, i: nat)
    requires OccursAt(path, "funnel", i)
    ensures PageTitle(path) == FunnelTitle
  {
    ContainsIff(path, "funnel");
  }

  lemma LeadsAt(path: string, i: nat)
    requires OccursAt(path, "leads", i) && 'f' !in path
    ensures PageTitle(path) == LeadsTitle
  {
    MissingCharNotContains(path, "funnel", 0);
    ContainsIff(path, "leads");
  }

  lemma AgentsAt(path: string, i: nat)
    requires OccursAt(path, "agents", i) && 'f' !in path && 'l' !in path
    ensures PageTitle(path) == AgentsTitle
  {
    MissingCharNotContains(path, "funnel", 0);
    MissingCharNotContains(path, "leads", 0);
    ContainsIff(path, "agents");
  }

  lemma NoSection(path: string)
    requires 'f' !in path && 'l' !in path && 'g' !in path
    ensures PageTitle(path) == OverviewTitle
  {
    MissingCharNotContains(path, "funnel", 0);
    MissingCharNotContains(path, "leads", 0);
    MissingCharNotContains(path, "agents", 1);
  }

  // ---- logout --------------------------------------------------------------------------

  /** The storage after logout: the request layer's token and the user name
      are removed, every other key is kept. */
  function AfterLogout(storage: map<string, string>): (s: map<string, string>)
    ensures TokenKey !in s && UserKey !in s
    ensures forall k :: k in storage && k != TokenKey && k != UserKey ==> k in s && s[k] == storage[k]
    ensures s.Keys <= storage.Keys
  {
    storage - {TokenKey, UserKey}
  }

  /** `handleLogout`. */
  method HandleLogout(w: Window)
    modifies w
    ensures w.storage == AfterLogout(old(w.storage)) && w.location == "/"
  {
    w.RemoveItem(TokenKey);
    w.RemoveItem(UserKey);
    w.Navigate("/");
    assert w.storage == old(w.storage) - {TokenKey} - {UserKey};
  }

  // ---- the frame's own state -----------------------------------------------------------

  class Layout {
    var collapsed: bool
    var aiOpen: bool

    constructor()
      ensures !collapsed && !aiOpen
    {
      collapsed := false;
      aiOpen := false;
    }

    /** The left margin of the content, in pixels: none when the sidebar is
        collapsed. */
    function Margin(): (m: int)
      reads this
      ensures m == 0 <==> collapsed
      ensures !collapsed ==> m == 260
    {
      if collapsed then 0 else 260
    }

    /** The assistant panel is mounted exactly while it is open. */
    predicate PanelShown()
      reads this
    {
      aiOpen
    }

    method ToggleSidebar()
      modifies this
      ensures collapsed == !old(collapsed) && aiOpen == old(aiOpen)
    {
      collapsed := !collapsed;
    }

    method ToggleAi()
      modifies this
      ensures aiOpen == !old(aiOpen) && collapsed == old(collapsed)
    {
      aiOpen := !aiOpen;
    }

    /** The panel's `onClose`. */
    method CloseAi()
      modifies this
      ensures !aiOpen && collapsed == old(collapsed)
    {
      aiOpen := false;
    }
  }
}
