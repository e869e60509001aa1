/** The client's route table (`App.jsx`): the login page at `/`, the four
    dashboard pages under `/dashboard` behind a guard on the session key, and a
    redirect to `/` for every other path. The path is read as react-router
    reads it: its segments, compared without regard to case. */
module AppRoutes {
  import opened Wrappers
  import opened Text
  import opened Browser

  /** The storage key the route guard reads. */
  const SessionKey := "uniandes_token"

  /** `ProtectedRoute` lets its children through: the session key holds a
      truthy value. */
  predicate Admits(storage: map<string, string>)
  {
    Holds(storage, SessionKey)
  }

  datatype Page = Login | Overview | Funnel | Leads | Agents

  /** What the router renders: a page, or a `<Navigate>` to a path. */
  datatype View = Show(page: Page) | Redirect(to: string, replace: bool)

  /** The pages rendered inside `<DashboardLayout>` and the guard. */
  predicate Guarded(p: Page)
  {
    p != Login
  }

  /** `<ProtectedRoute>` around a page. */
  function Guard(storage: map<string, string>, p: Page): (v: View)
    ensures v == Show(p) <==> Admits(storage)
    ensures !Admits(storage) ==> v == Redirect("/", true)
  {
    if Admits(storage) then Show(p) else Redirect("/", true)
  }

  // ---- path segments ---------------------------------------------------------------

  /** The non-empty pieces, lower-cased. */
  function NonEmptyLower(pieces: seq<string>): (segs: seq<string>)
    ensures |segs| <= |pieces|
    ensures forall i :: 0 <= i < |segs| ==> segs[i] != "" && Lower(segs[i]) == segs[i]
    decreases |pieces|
  {
    if |pieces| == 0 then []
    else
      var rest := NonEmptyLower(pieces[1..]);
      if pieces[0] == "" then rest else [LowerKeep(pieces[0])] + rest
  }

  /** Lower-cases a string, with the fact that lower-casing it again changes
      nothing. */
  function LowerKeep(s: string): (r: string)
    ensures r == Lower(s) && Lower(r) == r && |r| == |s|
  {
    var r := Lower(s);
    LowerLower(r);
    r
  }

  /** A string without capitals is its own lower case. */
  lemma LowerLower(s: string)
    requires forall i :: 0 <= i < |s| ==> !LatinCapital(s[i])
    ensures Lower(s) == s
  {
  }

  /** The segments react-router matches a path by. */
  function Segments(path: string): (segs: seq<string>)
    ensures forall i :: 0 <= i < |segs| ==> segs[i] != "" && '/' !in segs[i] && Lower(segs[i]) == segs[i]
  {
    var pieces := Split(path, "/");
    SplitPiecesFreeChar(path, '/');
    NonEmptyLowerFree(pieces);
    NonEmptyLower(pieces)
  }

  /** Pieces without `/` stay without `/`. */
  lemma {:induction false} NonEmptyLowerFree(pieces: seq<string>)
    requires forall i :: 0 <= i < |pieces| ==> '/' !in pieces[i]
    ensures forall i :: 0 <= i < |NonEmptyLower(pieces)| ==> '/' !in NonEmptyLower(pieces)[i]
    decreases |pieces|
  {
    if |pieces| > 0 {
      NonEmptyLowerFree(pieces[1..]);
      var p := pieces[0];
      if p != "" {
        assert forall k :: 0 <= k < |p| ==> LowerKeep(p)[k] == LowerChar(p[k]);
        assert '/' !in LowerKeep(p);
      }
    }
  }

  // ---- the route table ----------------------------------------------------------------

  /** The path segments of each page. */
  function PageSegments(p: Page): seq<string>
  {
    match p
    case Login => []
    case Overview => ["dashboard"]
    case Funnel => ["dashboard", "funnel"]
    case Leads => ["dashboard", "leads"]
    case Agents => ["dashboard", "agents"]
  }

  /** The route a list of segments matches, None for the catch-all `*`. */
  function Match(segs: seq<string>): (m: Option<Page>)
    ensures m.Some? ==> PageSegments(m.value) == segs
    ensures (exists p :: PageSegments(p) == segs) ==> m.Some?
  {
    if segs == [] then Some(Login)
    else if segs == ["dashboard"] then Some(Overview)
    else if segs == ["dashboard", "funnel"] then Some(Funnel)
    else if segs == ["dashboard", "leads"] then Some(Leads)
    else if segs == ["dashboard", "agents"] then Some(Agents)
    else None
  }

  /** What the app renders at a path with the given storage. */
  function Resolve(path: string, storage: map<string, string>): (v: View)
  {
    match Match(Segments(path))
    case None => Redirect("/", true)
    case Some(p) => if Guarded(p) then Guard(storage, p) else Show(p)
  }

  /** A page is shown exactly at its own path, and a dashboard page only with
      the session key set. */
  lemma ResolveShows(path: string, storage: map<string, string>, p: Page)
    ensures Resolve(path, storage) == Show(p) <==> Segments(path) == PageSegments(p) && (Guarded(p) ==> Admits(storage))
  {
    if Segments(path) == PageSegments(p) {
      assert Match(Segments(path)) == Some(p);
    }
  }

  /** Everything else is a replacing redirect to `/`: a path outside the
      table, or a dashboard page without the session key. */
  lemma ResolveRedirects(path: string, storage: map<string, string>)
    ensures Resolve(path, storage).Redirect? ==> Resolve(path, storage) == Redirect("/", true)
    ensures Resolve(path, storage).Redirect? <==>
              (forall p :: PageSegments(p) != Segments(path)) || (Segments(path) != [] && !Admits(storage))
  {
    var segs := Segments(path);
    if Match(segs).Some? {
      assert PageSegments(Match(segs).value) == segs;
    }
  }

  /** The login page needs no session. */
  lemma LoginUnguarded(path: string, storage: map<string, string>)
    requires Segments(path) == []
    ensures Resolve(path, storage) == Show(Login)
  {
  }

  // ---- the path of each page ------------------------------------------------------------

  /** The path a page is linked at. */
  function PagePath(p: Page): string
  {
    "/" + Join(PageSegments(p), "/")
  }

  /** Segments that are non-empty, lower-case and free of `/` read back from
      the path they are joined into. */
  lemma SegmentsOfJoined(segs: seq<string>)
    requires forall i :: 0 <= i < |segs| ==> segs[i] != "" && '/' !in segs[i] && Lower(segs[i]) == segs[i]
    ensures Segments("/" + Join(segs, "/")) == segs
  {
    if |segs| == 0 {
      SegmentsOfRoot();
    } else {
      var joined := Join(segs, "/");
      SplitJoin(segs, '/');
      SplitLeadingSlash(joined);
      NonEmptyLowerKeeps(segs);
      assert NonEmptyLower([""] + segs) == NonEmptyLower(segs) by {
        assert ([""] + segs)[1..] == segs;
      }
    }
  }

  lemma SegmentsOfRoot()
    ensures Segments("/") == []
  {
    SplitLeadingSlash("");
    SplitWhole("", '/');
    assert Split("/", "/") == ["", ""];
    assert ["", ""][1..] == [""];
    assert [""][1..] == [];
  }

  lemma SplitLeadingSlash(rest: string)
    ensures Split("/" + rest, "/") == [""] + Split(rest, "/")
  {
    assert "/" + rest == "" + ['/'] + rest;
    SplitAt("", rest, '/');
  }

  lemma {:induction false} NonEmptyLowerKeeps(segs: seq<string>)
    requires forall i :: 0 <= i < |segs| ==> segs[i] != "" && Lower(segs[i]) == segs[i]
    ensures NonEmptyLower(segs) == segs
    decreases |segs|
  {
    if |segs| > 0 {
      NonEmptyLowerKeeps(segs[1..]);
      assert segs == [segs[0]] + segs[1..];
    }
  }

  /** Each page's own segments are the ones it is matched by. */
  lemma PageSegmentsPlain(p: Page)
    ensures forall i :: 0 <= i < |PageSegments(p)| ==>
              PageSegments(p)[i] != "" && '/' !in PageSegments(p)[i] && Lower(PageSegments(p)[i]) == PageSegments(p)[i]
  {
    LowerLower("dashboard");
    LowerLower("funnel");
    LowerLower("leads");
    LowerLower("agents");
  }

  /** Following a page's link shows that page, behind the guard for the
      dashboard pages. */
  lemma PagePathResolves(p: Page, storage: map<string, string>)
    ensures Guarded(p) ==> (Resolve(PagePath(p), storage) == Show(p) <==> Admits(storage))
    ensures Guarded(p) && !Admits(storage) ==> Resolve(PagePath(p), storage) == Redirect("/", true)
    ensures !Guarded(p) ==> Resolve(PagePath(p), storage) == Show(p)
  {
    PageSegmentsPlain(p);
    SegmentsOfJoined(PageSegments(p));
    assert Match(PageSegments(p)) == Some(p);
  }
}
